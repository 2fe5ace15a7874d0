/**
  The PLY scalar types known to the rply library, the tensor element types of Open3D,
  and the two conversion tables of FilePLY.cpp between them.
 */
module PlyTypes {

  /** The scalar property types of rply (`e_ply_type`), in the library's order. */
  datatype PlyType =
    | PlyInt8 | PlyUInt8 | PlyInt16 | PlyUInt16 | PlyInt32 | PlyUIn32
    | PlyFloat32 | PlyFloat64 | PlyChar | PlyUChar | PlyShort | PlyUShort
    | PlyInt | PlyUInt | PlyFloat | PlyDouble | PlyList

  /** Tensor element types (`core::Dtype`). */
  datatype Dtype =
    | Undefined | Float32 | Float64 | Int8 | Int16 | Int32 | Int64
    | UInt8 | UInt16 | UInt32 | UInt64 | Bool

  /** The five element types the PLY reader and writer exchange without conversion. */
  predicate IsPlyDtype(d: Dtype) {
    d == UInt8 || d == UInt16 || d == Int32 || d == Float32 || d == Float64
  }

  /** Name of a PLY type, used in the "skipping property" warning. */
  function GetDtypeString(t: PlyType): (s: string)
    ensures s != "unknown"
  {
    match t
    case PlyInt8 => "int8"
    case PlyUInt8 => "uint8"
    case PlyInt16 => "int16"
    case PlyUInt16 => "uint16"
    case PlyInt32 => "int32"
    case PlyUIn32 => "uint32"
    case PlyFloat32 => "float32"
    case PlyFloat64 => "float64"
    case PlyChar => "char"
    case PlyUChar => "uchar"
    case PlyShort => "short"
    case PlyUShort => "ushort"
    case PlyInt => "int"
    case PlyUInt => "uint"
    case PlyFloat => "float"
    case PlyDouble => "double"
    case PlyList => "list"
  }

  /** Element type the reader allocates for a property of PLY type `t`. */
  function GetDtype(t: PlyType): (d: Dtype)
    ensures d == Undefined || IsPlyDtype(d)
  {
    if t == PlyUInt8 then UInt8
    else if t == PlyUInt16 then UInt16
    else if t == PlyInt32 then Int32
    else if t == PlyFloat32 then Float32
    else if t == PlyFloat64 then Float64
    else if t == PlyUChar then UInt8
    else if t == PlyInt then Int32
    else if t == PlyFloat then Float32
    else if t == PlyDouble then Float64
    else Undefined
  }

  /** PLY type the writer declares for a tensor of element type `d`. */
  function GetPlyType(d: Dtype): (t: PlyType)
    ensures GetDtype(t) != Undefined
    ensures IsPlyDtype(d) ==> GetDtype(t) == d
    ensures !IsPlyDtype(d) ==> t == PlyDouble
  {
    if d == UInt8 then PlyUInt8
    else if d == UInt16 then PlyUInt16
    else if d == Int32 then PlyInt32
    else if d == Float32 then PlyFloat32
    else if d == Float64 then PlyFloat64
    // The next three tests repeat earlier ones and can never succeed.
    else if d == UInt8 then PlyUChar
    else if d == Int32 then PlyInt32
    else if d == Float32 then PlyFloat
    else PlyDouble
  }

  /** Distinct PLY types have distinct names. */
  lemma DtypeStringInjective(a: PlyType, b: PlyType)
    ensures GetDtypeString(a) == GetDtypeString(b) ==> a == b
  {
  }

  /** The reader supports exactly the PLY types named here; all others are skipped. */
  lemma SupportedTypes(t: PlyType)
    ensures GetDtype(t) != Undefined <==>
      t in {PlyUInt8, PlyUChar, PlyUInt16, PlyInt32, PlyInt, PlyFloat32, PlyFloat, PlyFloat64, PlyDouble}
  {
  }

  /** The reader's table on its supported types, grouped by the element type they produce. */
  lemma GetDtypeTable(t: PlyType)
    ensures GetDtype(t) == UInt8 <==> t == PlyUInt8 || t == PlyUChar
    ensures GetDtype(t) == UInt16 <==> t == PlyUInt16
    ensures GetDtype(t) == Int32 <==> t == PlyInt32 || t == PlyInt
    ensures GetDtype(t) == Float32 <==> t == PlyFloat32 || t == PlyFloat
    ensures GetDtype(t) == Float64 <==> t == PlyFloat64 || t == PlyDouble
  {
  }

  /** Writing a tensor and reading it back restores its element type, for the five PLY dtypes. */
  lemma DtypeRoundTrip(d: Dtype)
    ensures IsPlyDtype(d) ==> GetDtype(GetPlyType(d)) == d
    ensures !IsPlyDtype(d) ==> GetPlyType(d) == PlyDouble
  {
  }

  /** Every type the writer declares is one the reader accepts. */
  lemma WrittenTypesAreReadable(d: Dtype)
    ensures GetDtype(GetPlyType(d)) != Undefined
  {
  }

  /** Reading a property, writing it and reading it again gives the element type of the first read. */
  lemma ReadWriteReadStable(t: PlyType)
    ensures GetDtype(t) != Undefined ==> GetDtype(GetPlyType(GetDtype(t))) == GetDtype(t)
  {
  }

  /** The writer never emits the branches after the fifth test of GetPlyType. */
  lemma GetPlyTypeDeadBranches(d: Dtype)
    ensures GetPlyType(d) != PlyUChar && GetPlyType(d) != PlyFloat
  {
  }
}
