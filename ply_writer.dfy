/**
  The writer half of FilePLY.cpp (`WritePointCloudToPLY`): the validation of a point
  cloud's attributes, the order in which attributes and header properties are declared,
  and the stream of values handed to `ply_write`, point by point.
 */
module PlyWriter {
  import opened PlyTypes
  import opened Wrappers
  import PlyReader

  // ------------------------------------------------------------------------------------
  // Point clouds as the writer sees them.

  /** A contiguous tensor: element type, shape, and its values in row-major order. */
  datatype Tensor = Tensor(dtype: Dtype, shape: seq<nat>, data: seq<real>)

  /** `a * b` by repeated addition, which keeps the arithmetic of the proofs linear. */
  function Mul(a: nat, b: nat): nat {
    if a == 0 then 0 else Mul(a - 1, b) + b
  }

  lemma {:induction false} MulIsProduct(a: nat, b: nat)
    ensures Mul(a, b) == a * b
  {
    if a > 0 {
      MulIsProduct(a - 1, b);
    }
  }

  lemma {:induction false} MulOne(a: nat)
    ensures Mul(a, 1) == a
  {
    if a > 0 {
      MulOne(a - 1);
    }
  }

  /** The number of elements of a tensor of the given shape. */
  function Product(shape: seq<nat>): nat {
    if shape == [] then 1 else Mul(shape[0], Product(shape[1..]))
  }

  lemma MatrixSize(rows: nat, cols: nat)
    ensures Product([rows, cols]) == Mul(rows, cols)
  {
    assert [rows, cols][1..] == [cols];
    assert [cols][1..] == [];
    assert Product([cols]) == Mul(cols, 1);
    MulOne(cols);
  }

  /** A tensor of rank at least one whose values fill its shape. */
  predicate WellShaped(t: Tensor) {
    |t.shape| >= 1 && |t.data| == Product(t.shape)
  }

  /** `GetLength()`: the size of the first dimension. */
  function Length(t: Tensor): nat
    requires |t.shape| >= 1
  {
    t.shape[0]
  }

  /** The point attributes (`TensorMap`) in its iteration order. */
  type Attrs = seq<(string, Tensor)>

  /** Keys of a map are distinct and every tensor is well shaped. */
  predicate ValidAttrs(attrs: Attrs) {
    && (forall k :: 0 <= k < |attrs| ==> WellShaped(attrs[k].1))
    && (forall j, k :: 0 <= j < k < |attrs| ==> attrs[j].0 != attrs[k].0)
  }

  function Lookup(attrs: Attrs, key: string): (r: Option<Tensor>)
    ensures r.Some? ==> (key, r.value) in attrs
    ensures r.None? ==> forall k :: 0 <= k < |attrs| ==> attrs[k].0 != key
  {
    if attrs == [] then None
    else if attrs[0].0 == key then Some(attrs[0].1)
    else Lookup(attrs[1..], key)
  }

  /** `HasPointAttr(key)`: the attribute is present and has at least one row. */
  predicate HasAttr(attrs: Attrs, key: string)
    requires ValidAttrs(attrs)
    ensures HasAttr(attrs, key) <==> exists k :: 0 <= k < |attrs| && attrs[k].0 == key && Length(attrs[k].1) > 0
  {
    var t := Lookup(attrs, key);
    t.Some? && |t.value.shape| >= 1 && Length(t.value) > 0
  }

  /** `IsEmpty()`: the cloud has no positions. */
  predicate IsEmpty(attrs: Attrs)
    requires ValidAttrs(attrs)
    ensures !IsEmpty(attrs) <==> exists k :: 0 <= k < |attrs| && attrs[k].0 == "positions" && Length(attrs[k].1) > 0
  {
    !HasAttr(attrs, "positions")
  }

  /** `GetPointPositions().GetLength()`. */
  function NumPoints(attrs: Attrs): (n: nat)
    requires ValidAttrs(attrs) && !IsEmpty(attrs)
    ensures n > 0
    ensures forall k :: 0 <= k < |attrs| && attrs[k].0 == "positions" ==> n == Length(attrs[k].1)
  {
    Length(Lookup(attrs, "positions").value)
  }

  /** Columns of the tensor stored under `key`: positions, normals and colors have three. */
  function GroupSize(key: string): nat {
    if key in PlyReader.ReservedKeys then 3 else 1
  }

  // ------------------------------------------------------------------------------------
  // Validation.

  datatype WriteError = EmptyCloud | AttributeMismatch(key: string) | CreateFailed | HeaderFailed

  /** The check of the attribute loop as written: only the length of positions, normals
      and colors is compared with the number of points, and every other attribute must
      have shape (num_points, 1). */
  predicate AdmittedAsWritten(n: nat, key: string, t: Tensor)
    requires WellShaped(t)
    ensures Admitted(n, key, t) ==> AdmittedAsWritten(n, key, t)
  {
    if key in PlyReader.ReservedKeys then Length(t) == n else t.shape == [n, 1]
  }

  /** The corrected check: every attribute has shape (num_points, group size). */
  predicate Admitted(n: nat, key: string, t: Tensor) {
    t.shape == [n, GroupSize(key)]
  }

  /** The validation loop as written accepts the cloud. */
  predicate AcceptedAsWritten(attrs: Attrs)
    requires ValidAttrs(attrs)
    ensures !IsEmpty(attrs) && FirstMismatch(NumPoints(attrs), attrs).None? ==> AcceptedAsWritten(attrs)
  {
    !IsEmpty(attrs) && forall k :: 0 <= k < |attrs| ==> AdmittedAsWritten(NumPoints(attrs), attrs[k].0, attrs[k].1)
  }

  /** A one-point cloud whose positions have two columns passes the check as written, yet
      the write loop reads three values for the point from a tensor that holds two; the
      corrected check refuses it. */
  lemma TwoColumnPositionsAsWritten()
    ensures var attrs := [("positions", Tensor(Float32, [1, 2], [0.0, 0.0]))];
      && ValidAttrs(attrs) && AcceptedAsWritten(attrs)
      && !Fits(AttributePtrs(WriteOrder(attrs)), NumPoints(attrs))
      && FirstMismatch(NumPoints(attrs), attrs) == Some(0)
  {
    var attrs := [("positions", Tensor(Float32, [1, 2], [0.0, 0.0]))];
    MatrixSize(1, 2);
    assert Mul(1, 2) == 2;
    assert ValidAttrs(attrs);
    assert Lookup(attrs, "positions") == Some(attrs[0].1);
    assert Extras(attrs) == [] by {
      assert attrs[..0] == [];
    }
    assert Lookup(attrs, "normals") == None;
    assert Lookup(attrs, "colors") == None;
    var ptrs := AttributePtrs(WriteOrder(attrs));
    assert ptrs[0] == AttributePtr(Float32, [0.0, 0.0], 3);
    assert Mul(1, 3) == 3;
  }

  /** The first attribute, in map order, that the corrected check refuses. */
  function FirstMismatch(n: nat, attrs: Attrs): (r: Option<nat>)
    ensures r.Some? ==>
      && r.value < |attrs| && !Admitted(n, attrs[r.value].0, attrs[r.value].1)
      && forall k :: 0 <= k < r.value ==> Admitted(n, attrs[k].0, attrs[k].1)
    ensures r.None? ==> forall k :: 0 <= k < |attrs| ==> Admitted(n, attrs[k].0, attrs[k].1)
  {
    if attrs == [] then None
    else if !Admitted(n, attrs[0].0, attrs[0].1) then Some(0)
    else match FirstMismatch(n, attrs[1..])
      case None => None
      case Some(k) => Some(k + 1)
  }

  /** The validation loop of WritePointCloudToPLY, with the corrected check: the first
      attribute refused is reported. */
  method Validate(attrs: Attrs) returns (r: Result<nat, WriteError>)
    requires ValidAttrs(attrs)
    ensures IsEmpty(attrs) ==> r == Err(EmptyCloud)
    ensures !IsEmpty(attrs) ==>
      match FirstMismatch(NumPoints(attrs), attrs)
      case None => r == Ok(NumPoints(attrs))
      case Some(k) => r == Err(AttributeMismatch(attrs[k].0))
  {
    if IsEmpty(attrs) {
      return Err(EmptyCloud);
    }
    var n := NumPoints(attrs);
    var i := 0;
    while i < |attrs|
      invariant i <= |attrs|
      invariant forall k :: 0 <= k < i ==> Admitted(n, attrs[k].0, attrs[k].1)
    {
      var (key, t) := attrs[i];
      if t.shape != [n, GroupSize(key)] {
        FirstMismatchIs(n, attrs, i);
        return Err(AttributeMismatch(key));
      }
      i := i + 1;
    }
    return Ok(n);
  }

  lemma {:induction false} FirstMismatchIs(n: nat, attrs: Attrs, i: nat)
    requires i < |attrs| && !Admitted(n, attrs[i].0, attrs[i].1)
    requires forall k :: 0 <= k < i ==> Admitted(n, attrs[k].0, attrs[k].1)
    ensures FirstMismatch(n, attrs) == Some(i)
    decreases i
  {
    if i > 0 {
      FirstMismatchIs(n, attrs[1..], i - 1);
    }
  }

  // ------------------------------------------------------------------------------------
  // The attribute and header order.

  /** The attributes other than positions, normals and colors, in map order. */
  function Extras(attrs: Attrs): (r: Attrs)
    ensures |r| <= |attrs|
    ensures forall e :: e in r ==> e in attrs && e.0 !in PlyReader.ReservedKeys
  {
    if attrs == [] then []
    else
      var init := Extras(attrs[..|attrs| - 1]);
      var last := attrs[|attrs| - 1];
      assert forall e :: e in attrs[..|attrs| - 1] ==> e in attrs;
      if last.0 in PlyReader.ReservedKeys then init else init + [last]
  }

  /** Positions, then normals and colors when the cloud has them. */
  function ReservedOrder(attrs: Attrs): (r: Attrs)
    requires ValidAttrs(attrs) && !IsEmpty(attrs)
    ensures |r| >= 1 && r[0] == ("positions", Lookup(attrs, "positions").value)
    ensures forall e :: e in r ==> e in attrs
  {
    [("positions", Lookup(attrs, "positions").value)]
    + (if HasAttr(attrs, "normals") then [("normals", Lookup(attrs, "normals").value)] else [])
    + (if HasAttr(attrs, "colors") then [("colors", Lookup(attrs, "colors").value)] else [])
  }

  /** The attributes in the order they are declared and written: positions, normals and
      colors as far as the cloud has them, then the remaining attributes in map order. */
  function WriteOrder(attrs: Attrs): (r: Attrs)
    requires ValidAttrs(attrs) && !IsEmpty(attrs)
    ensures |r| >= 1 && r[0] == ("positions", Lookup(attrs, "positions").value)
    ensures forall e :: e in r ==> e in attrs
  {
    ReservedOrder(attrs) + Extras(attrs)
  }

  /** A map's entry is the one `Lookup` finds under its key. */
  lemma {:induction false} LookupFinds(attrs: Attrs, e: (string, Tensor))
    requires ValidAttrs(attrs) && e in attrs
    ensures Lookup(attrs, e.0) == Some(e.1)
  {
    if attrs[0] != e {
      assert ValidAttrs(attrs[1..]) by {
        forall j, k | 0 <= j < k < |attrs[1..]|
          ensures attrs[1..][j].0 != attrs[1..][k].0
        {
          assert attrs[1..][j] == attrs[j + 1] && attrs[1..][k] == attrs[k + 1];
        }
      }
      var k :| 0 <= k < |attrs| && attrs[k] == e;
      assert attrs[0].0 != e.0;
      assert e in attrs[1..] by {
        assert attrs[1..][k - 1] == e;
      }
      LookupFinds(attrs[1..], e);
    }
  }

  /** Every attribute that is not positions, normals or colors is among the extras. */
  lemma {:induction false} ExtrasComplete(attrs: Attrs)
    ensures forall e :: e in Extras(attrs) <==> e in attrs && e.0 !in PlyReader.ReservedKeys
  {
    if attrs != [] {
      var init := attrs[..|attrs| - 1];
      ExtrasComplete(init);
      assert attrs == init + [attrs[|attrs| - 1]];
    }
  }

  /** The extras keep map order: those of a prefix come before those of the rest. */
  lemma {:induction false} ExtrasConcat(a: Attrs, b: Attrs)
    ensures Extras(a + b) == Extras(a) + Extras(b)
    decreases |b|
  {
    if b == [] {
      assert a + b == a;
    } else {
      var b', last := b[..|b| - 1], b[|b| - 1];
      ExtrasConcat(a, b');
      var c := a + b;
      assert c[..|c| - 1] == a + b' && c[|c| - 1] == last;
      if last.0 !in PlyReader.ReservedKeys {
        assert Extras(c) == Extras(a + b') + [last];
        assert Extras(b) == Extras(b') + [last];
        assert Extras(a) + (Extras(b') + [last]) == (Extras(a) + Extras(b')) + [last];
      } else {
        assert Extras(c) == Extras(a + b') && Extras(b) == Extras(b');
      }
    }
  }

  /** The reserved part of the order is exactly the reserved attributes the cloud has with at
      least one row (positions always, by `!IsEmpty`). */
  lemma ReservedOrderExact(attrs: Attrs)
    requires ValidAttrs(attrs) && !IsEmpty(attrs)
    ensures forall e :: e in ReservedOrder(attrs) <==>
      e in attrs && e.0 in PlyReader.ReservedKeys && HasAttr(attrs, e.0)
  {
    forall e | e in attrs && e.0 in PlyReader.ReservedKeys && HasAttr(attrs, e.0)
      ensures e in ReservedOrder(attrs)
    {
      LookupFinds(attrs, e);
    }
  }

  /** No two entries of a sequence of attributes share a key. */
  predicate DistinctKeys(attrs: Attrs) {
    forall j, k :: 0 <= j < k < |attrs| ==> attrs[j].0 != attrs[k].0
  }

  lemma {:induction false} ExtrasDistinctKeys(attrs: Attrs)
    requires DistinctKeys(attrs)
    ensures DistinctKeys(Extras(attrs))
  {
    if attrs != [] {
      var init := attrs[..|attrs| - 1];
      var last := attrs[|attrs| - 1];
      ExtrasDistinctKeys(init);
      if last.0 !in PlyReader.ReservedKeys {
        var r := Extras(attrs);
        forall j | 0 <= j < |r| - 1
          ensures r[j].0 != last.0
        {
          assert r[j] in Extras(init);
          var i :| 0 <= i < |init| && init[i] == r[j];
          assert init[i] == attrs[i];
        }
      }
    }
  }

  /** In a sequence without repeated keys every entry occurs once. */
  lemma {:induction false} DistinctCount(a: Attrs, e: (string, Tensor))
    requires DistinctKeys(a)
    ensures multiset(a)[e] == if e in a then 1 else 0
  {
    if a != [] {
      var init, last := a[..|a| - 1], a[|a| - 1];
      assert a == init + [last];
      assert DistinctKeys(init) by {
        forall j, k | 0 <= j < k < |init|
          ensures init[j].0 != init[k].0
        {
          assert init[j] == a[j] && init[k] == a[k];
        }
      }
      DistinctCount(init, e);
      if e in init {
        var j :| 0 <= j < |init| && init[j] == e;
        assert a[j] == e && a[j].0 != last.0;
      }
    }
  }

  /** Sequences without repeated keys that have the same elements are permutations. */
  lemma SameElementsPermutation(a: Attrs, b: Attrs)
    requires DistinctKeys(a) && DistinctKeys(b)
    requires forall e :: e in a <==> e in b
    ensures multiset(a) == multiset(b)
  {
    forall e
      ensures multiset(a)[e] == multiset(b)[e]
    {
      DistinctCount(a, e);
      DistinctCount(b, e);
    }
  }

  /** A cloud that passes validation has each of its attributes written exactly once. */
  lemma WriteOrderPermutation(attrs: Attrs)
    requires ValidAttrs(attrs) && !IsEmpty(attrs) && FirstMismatch(NumPoints(attrs), attrs).None?
    ensures multiset(WriteOrder(attrs)) == multiset(attrs)
  {
    WriteOrderComplete(attrs);
    WriteOrderDistinctKeys(attrs);
    SameElementsPermutation(WriteOrder(attrs), attrs);
  }

  /** Every attribute of a cloud that passes validation is in the write order. */
  lemma WriteOrderComplete(attrs: Attrs)
    requires ValidAttrs(attrs) && !IsEmpty(attrs) && FirstMismatch(NumPoints(attrs), attrs).None?
    ensures forall e :: e in attrs <==> e in WriteOrder(attrs)
  {
    var n := NumPoints(attrs);
    ReservedOrderExact(attrs);
    ExtrasComplete(attrs);
    forall e | e in attrs && e.0 in PlyReader.ReservedKeys
      ensures e in ReservedOrder(attrs)
    {
      var k :| 0 <= k < |attrs| && attrs[k] == e;
      assert Admitted(n, attrs[k].0, attrs[k].1);
    }
  }

  /** The write order repeats no key. */
  lemma WriteOrderDistinctKeys(attrs: Attrs)
    requires ValidAttrs(attrs) && !IsEmpty(attrs)
    ensures DistinctKeys(WriteOrder(attrs))
  {
    var reserved, extras := ReservedOrder(attrs), Extras(attrs);
    ExtrasDistinctKeys(attrs);
    assert forall e :: e in extras ==> e.0 !in PlyReader.ReservedKeys;
    ConcatDistinctKeys(reserved, extras, PlyReader.ReservedKeys);
  }

  /** Two sequences without repeated keys, on either side of a key set, repeat no key together. */
  lemma ConcatDistinctKeys(x: Attrs, y: Attrs, keys: set<string>)
    requires DistinctKeys(x) && DistinctKeys(y)
    requires forall i :: 0 <= i < |x| ==> x[i].0 in keys
    requires forall i :: 0 <= i < |y| ==> y[i].0 !in keys
    ensures DistinctKeys(x + y)
  {
    var xy := x + y;
    forall j, k | 0 <= j < k < |xy|
      ensures xy[j].0 != xy[k].0
    {
      if k < |x| {
        assert xy[j] == x[j] && xy[k] == x[k];
      } else if j >= |x| {
        assert xy[j] == y[j - |x|] && xy[k] == y[k - |x|];
      } else {
        assert xy[j] == x[j] && xy[k] == y[k - |x|];
      }
    }
  }

  /** An entry of `attribute_ptrs`: element type, values and group size. */
  datatype AttributePtr = AttributePtr(dtype: Dtype, data: seq<real>, groupSize: nat)

  function AttributeOf(e: (string, Tensor)): AttributePtr {
    AttributePtr(e.1.dtype, e.1.data, GroupSize(e.0))
  }

  function AttributePtrs(order: Attrs): (r: seq<AttributePtr>)
    ensures |r| == |order| && forall j :: 0 <= j < |order| ==> r[j] == AttributeOf(order[j])
  {
    seq(|order|, j requires 0 <= j < |order| => AttributeOf(order[j]))
  }

  /** A declared vertex property: its name and PLY type. */
  datatype HeaderProperty = HeaderProperty(name: string, plyType: PlyType)

  /** The property names declared for the attribute under `key`. */
  function PropertyNames(key: string): (r: seq<string>)
    ensures |r| == GroupSize(key)
  {
    if key in PlyReader.ReservedKeys then PlyReader.ComponentNames(key) else [key]
  }

  function Declared(e: (string, Tensor)): (r: seq<HeaderProperty>)
    ensures |r| == GroupSize(e.0)
  {
    var names := PropertyNames(e.0);
    seq(|names|, c requires 0 <= c < |names| => HeaderProperty(names[c], GetPlyType(e.1.dtype)))
  }

  /** The vertex properties of the header, attribute by attribute. */
  function Header(order: Attrs): seq<HeaderProperty> {
    if order == [] then [] else Header(order[..|order| - 1]) + Declared(order[|order| - 1])
  }

  // ------------------------------------------------------------------------------------
  // The values handed to `ply_write`.

  /** Every attribute holds its group of values for each of the first `n` points. */
  predicate Fits(ptrs: seq<AttributePtr>, n: nat) {
    forall j :: 0 <= j < |ptrs| ==> Mul(n, ptrs[j].groupSize) <= |ptrs[j].data|
  }

  lemma {:induction false} MulMonotone(g: nat, m: nat, n: nat)
    requires m <= n
    ensures Mul(m, g) <= Mul(n, g)
    decreases n - m
  {
    if m < n {
      MulMonotone(g, m + 1, n);
    }
  }

  /** Column `c` of row `i` lies inside the first `n` rows of `g` columns. */
  lemma InRows(g: nat, n: nat, i: nat, c: nat)
    requires i < n && c < g
    ensures Mul(i, g) + c < Mul(i + 1, g) <= Mul(n, g)
  {
    MulMonotone(g, i + 1, n);
  }

  lemma FitsFewer(ptrs: seq<AttributePtr>, m: nat, n: nat)
    requires m <= n && Fits(ptrs, n)
    ensures Fits(ptrs, m)
  {
    forall j | 0 <= j < |ptrs|
      ensures Mul(m, ptrs[j].groupSize) <= |ptrs[j].data|
    {
      MulMonotone(ptrs[j].groupSize, m, n);
    }
  }

  /** The values attribute `p` contributes for point `i`: `data[g*i .. g*(i+1))`. */
  function Block(p: AttributePtr, i: nat): (r: seq<real>)
    requires Mul(i + 1, p.groupSize) <= |p.data|
    ensures |r| == p.groupSize
  {
    p.data[Mul(i, p.groupSize) .. Mul(i + 1, p.groupSize)]
  }

  /** The values written for point `i`: the blocks of all attributes, in order. */
  function PointValues(ptrs: seq<AttributePtr>, i: nat): seq<real>
    requires Fits(ptrs, i + 1)
  {
    if ptrs == [] then []
    else
      var init := ptrs[..|ptrs| - 1];
      PointValues(init, i) + Block(ptrs[|ptrs| - 1], i)
  }

  /** The vertex records of the first `n` points. */
  function Records(ptrs: seq<AttributePtr>, n: nat): (r: seq<seq<real>>)
    requires Fits(ptrs, n)
    ensures |r| == n
  {
    if n == 0 then []
    else
      FitsFewer(ptrs, n - 1, n);
      Records(ptrs, n - 1) + [PointValues(ptrs, n - 1)]
  }

  function Concat(rs: seq<seq<real>>): seq<real> {
    if rs == [] then [] else Concat(rs[..|rs| - 1]) + rs[|rs| - 1]
  }

  /** The values written for the first `n` points, one record after the other. */
  function Emitted(ptrs: seq<AttributePtr>, n: nat): seq<real>
    requires Fits(ptrs, n)
  {
    Concat(Records(ptrs, n))
  }

  /** The number of values per point: the sum of the group sizes. */
  function Width(ptrs: seq<AttributePtr>): nat {
    if ptrs == [] then 0 else Width(ptrs[..|ptrs| - 1]) + ptrs[|ptrs| - 1].groupSize
  }

  // ------------------------------------------------------------------------------------
  // Where each value lands.

  lemma {:induction false} PointValuesLength(ptrs: seq<AttributePtr>, i: nat)
    requires Fits(ptrs, i + 1)
    ensures |PointValues(ptrs, i)| == Width(ptrs)
  {
    if ptrs != [] {
      PointValuesLength(ptrs[..|ptrs| - 1], i);
    }
  }

  /** Record `i` holds the values of point `i`. */
  lemma {:induction false} RecordsIndex(ptrs: seq<AttributePtr>, n: nat, i: nat)
    requires Fits(ptrs, n) && i < n
    ensures Fits(ptrs, i + 1) && Records(ptrs, n)[i] == PointValues(ptrs, i)
  {
    FitsFewer(ptrs, i + 1, n);
    if i < n - 1 {
      FitsFewer(ptrs, n - 1, n);
      RecordsIndex(ptrs, n - 1, i);
    }
  }

  /** Concatenating records of `w` values each puts value `k` of record `i` at `i * w + k`. */
  lemma {:induction false} ConcatIndex(rs: seq<seq<real>>, w: nat, i: nat, k: nat)
    requires forall r :: r in rs ==> |r| == w
    requires i < |rs| && k < w
    ensures |Concat(rs)| == Mul(|rs|, w)
    ensures Mul(i, w) + k < |Concat(rs)| && Concat(rs)[Mul(i, w) + k] == rs[i][k]
  {
    var init := rs[..|rs| - 1];
    assert forall r :: r in init ==> r in rs;
    ConcatLength(init, w);
    if i < |init| {
      ConcatIndex(init, w, i, k);
    } else {
      assert Mul(i, w) + k == |Concat(init)| + k;
    }
  }

  lemma {:induction false} ConcatLength(rs: seq<seq<real>>, w: nat)
    requires forall r :: r in rs ==> |r| == w
    ensures |Concat(rs)| == Mul(|rs|, w)
  {
    if rs != [] {
      var init := rs[..|rs| - 1];
      assert forall r :: r in init ==> r in rs;
      ConcatLength(init, w);
      }
  }

  lemma RecordsWidth(ptrs: seq<AttributePtr>, n: nat)
    requires Fits(ptrs, n)
    ensures forall r :: r in Records(ptrs, n) ==> |r| == Width(ptrs)
  {
    forall r | r in Records(ptrs, n)
      ensures |r| == Width(ptrs)
    {
      var i :| 0 <= i < n && Records(ptrs, n)[i] == r;
      RecordsIndex(ptrs, n, i);
      PointValuesLength(ptrs, i);
    }
  }

  /** `n` points of `Width(ptrs)` values each. */
  lemma EmittedLength(ptrs: seq<AttributePtr>, n: nat)
    requires Fits(ptrs, n)
    ensures |Emitted(ptrs, n)| == Mul(n, Width(ptrs))
  {
    RecordsWidth(ptrs, n);
    ConcatLength(Records(ptrs, n), Width(ptrs));
  }

  lemma {:induction false} WidthPrefix(ptrs: seq<AttributePtr>, j: nat)
    requires j < |ptrs|
    ensures Width(ptrs[..j]) + ptrs[j].groupSize <= Width(ptrs)
    decreases |ptrs|
  {
    var init := ptrs[..|ptrs| - 1];
    if j < |ptrs| - 1 {
      assert init[..j] == ptrs[..j];
      WidthPrefix(init, j);
    } else {
      assert init == ptrs[..j];
    }
  }

  /** Within a point, the values of attribute `j` start after those of the attributes
      before it, and column `c` of it is row `i`'s value `data[g*i + c]`. */
  lemma {:induction false} PointValuesIndex(ptrs: seq<AttributePtr>, i: nat, j: nat, c: nat)
    requires Fits(ptrs, i + 1) && j < |ptrs| && c < ptrs[j].groupSize
    ensures Width(ptrs[..j]) + c < |PointValues(ptrs, i)|
    ensures PointValues(ptrs, i)[Width(ptrs[..j]) + c] == ptrs[j].data[Mul(i, ptrs[j].groupSize) + c]
    decreases |ptrs|
  {
    var init := ptrs[..|ptrs| - 1];
    var (front, back) := (PointValues(init, i), Block(ptrs[|ptrs| - 1], i));
    assert PointValues(ptrs, i) == front + back;
    PointValuesLength(ptrs, i);
    WidthPrefix(ptrs, j);
    PointValuesLength(init, i);
    if j < |ptrs| - 1 {
      assert init[..j] == ptrs[..j];
      PointValuesIndex(init, i, j, c);
      assert (front + back)[Width(ptrs[..j]) + c] == front[Width(ptrs[..j]) + c];
    } else {
      assert init == ptrs[..j];
      assert Width(ptrs[..j]) + c == |front| + c;
      assert (front + back)[|front| + c] == back[c];
    }
  }

  /** Value `c` of attribute `j` for point `i` sits at `i * Width + Width(before j) + c`. */
  lemma EmittedIndex(ptrs: seq<AttributePtr>, n: nat, i: nat, j: nat, c: nat)
    requires Fits(ptrs, n) && i < n && j < |ptrs| && c < ptrs[j].groupSize
    ensures Mul(i, ptrs[j].groupSize) + c < |ptrs[j].data|
    ensures Mul(i, Width(ptrs)) + Width(ptrs[..j]) + c < |Emitted(ptrs, n)|
    ensures Emitted(ptrs, n)[Mul(i, Width(ptrs)) + Width(ptrs[..j]) + c] == ptrs[j].data[Mul(i, ptrs[j].groupSize) + c]
  {
    var rs := Records(ptrs, n);
    var k := Width(ptrs[..j]) + c;
    RecordsIndex(ptrs, n, i);
    assert Mul(i, ptrs[j].groupSize) + c < Mul(i + 1, ptrs[j].groupSize) <= |ptrs[j].data|;
    PointValuesIndex(ptrs, i, j, c);
    assert rs[i][k] == ptrs[j].data[Mul(i, ptrs[j].groupSize) + c];
    PointValuesLength(ptrs, i);
    RecordsWidth(ptrs, n);
    ConcatIndex(rs, Width(ptrs), i, k);
    var at := Mul(i, Width(ptrs)) + Width(ptrs[..j]) + c;
    assert at == Mul(i, Width(ptrs)) + k;
    assert Emitted(ptrs, n)[at] == Concat(rs)[at] == rs[i][k];
  }

  lemma {:induction false} HeaderLength(order: Attrs)
    ensures |Header(order)| == Width(AttributePtrs(order))
  {
    if order != [] {
      var init := order[..|order| - 1];
      HeaderLength(init);
      assert AttributePtrs(order)[..|order| - 1] == AttributePtrs(init);
    }
  }

  /** Property `c` of attribute `j` in the header sits at the same offset as its values
      within a point, and carries the PLY type of the attribute's dtype. */
  lemma {:induction false} HeaderIndex(order: Attrs, j: nat, c: nat)
    requires j < |order| && c < GroupSize(order[j].0)
    ensures Width(AttributePtrs(order)[..j]) + c < |Header(order)|
    ensures Header(order)[Width(AttributePtrs(order)[..j]) + c]
      == HeaderProperty(PropertyNames(order[j].0)[c], GetPlyType(order[j].1.dtype))
    decreases |order|
  {
    var init := order[..|order| - 1];
    if j < |order| - 1 {
      var front := Header(init);
      assert Header(order) == front + Declared(order[|order| - 1]);
      assert AttributePtrs(order)[..j] == AttributePtrs(init)[..j];
      assert init[j] == order[j];
      HeaderIndex(init, j, c);
    } else {
      HeaderLast(order, c);
    }
  }

  lemma HeaderLast(order: Attrs, c: nat)
    requires order != [] && c < GroupSize(order[|order| - 1].0)
    ensures var j := |order| - 1;
      && Width(AttributePtrs(order)[..j]) + c < |Header(order)|
      && Header(order)[Width(AttributePtrs(order)[..j]) + c]
         == HeaderProperty(PropertyNames(order[j].0)[c], GetPlyType(order[j].1.dtype))
  {
    var j := |order| - 1;
    var init := order[..j];
    var (front, back) := (Header(init), Declared(order[j]));
    assert Header(order) == front + back;
    assert AttributePtrs(order)[..j] == AttributePtrs(init);
    HeaderLength(init);
    assert Width(AttributePtrs(order)[..j]) + c == |front| + c;
    assert (front + back)[|front| + c] == back[c];
  }

  /** A property the writer declares is read back into the tensor and column it came
      from, unless an extra attribute is itself named like a component (x, nx, red, ...). */
  lemma DeclaredLayout(key: string, c: nat)
    requires c < GroupSize(key)
    requires key in PlyReader.ReservedKeys || !PlyReader.IsComponentName(key)
    ensures PlyReader.PropertyLayout(PropertyNames(key)[c]) == PlyReader.Layout(key, GroupSize(key), c)
  {
  }

  // ------------------------------------------------------------------------------------
  // The writer.

  /** What reaches the file: the number of vertices, the declared properties and the
      values, in the order of the `ply_write` calls. */
  datatype PlyOutput = PlyOutput(numPoints: nat, header: seq<HeaderProperty>, values: seq<real>)

  /** The corrected check makes every attribute of the write order fit the points. */
  lemma AdmittedFits(attrs: Attrs)
    requires ValidAttrs(attrs) && !IsEmpty(attrs)
    requires FirstMismatch(NumPoints(attrs), attrs).None?
    ensures Fits(AttributePtrs(WriteOrder(attrs)), NumPoints(attrs))
    ensures forall j :: 0 <= j < |WriteOrder(attrs)| ==>
      WriteOrder(attrs)[j].1.shape == [NumPoints(attrs), GroupSize(WriteOrder(attrs)[j].0)]
  {
    var n := NumPoints(attrs);
    var order := WriteOrder(attrs);
    var ptrs := AttributePtrs(order);
    forall j | 0 <= j < |ptrs|
      ensures Mul(n, ptrs[j].groupSize) <= |ptrs[j].data|
      ensures order[j].1.shape == [n, GroupSize(order[j].0)]
    {
      var e := order[j];
      assert e in attrs;
      var k :| 0 <= k < |attrs| && attrs[k] == e;
      assert Admitted(n, e.0, e.1);
      MatrixSize(n, GroupSize(e.0));
    }
  }

  /** `WritePointCloudToPLY` on values: the result of the checks in order, and on success
      the header and the values of the write order. `created` and `headerWritten` stand for
      the outcomes of `ply_create` and `ply_write_header`. */
  function WriteResult(attrs: Attrs, created: bool, headerWritten: bool): (r: Result<PlyOutput, WriteError>)
    requires ValidAttrs(attrs)
    ensures r.Ok? <==> !IsEmpty(attrs) && FirstMismatch(NumPoints(attrs), attrs).None? && created && headerWritten
    ensures r.Ok? ==> AcceptedAsWritten(attrs) && r.value.numPoints == NumPoints(attrs)
    ensures r.Err? && r.error.AttributeMismatch? ==>
      !IsEmpty(attrs) && exists k :: 0 <= k < |attrs| && attrs[k].0 == r.error.key && !Admitted(NumPoints(attrs), attrs[k].0, attrs[k].1)
  {
    if IsEmpty(attrs) then Err(EmptyCloud)
    else
      var n := NumPoints(attrs);
      match FirstMismatch(n, attrs)
      case Some(k) => Err(AttributeMismatch(attrs[k].0))
      case None =>
        if !created then Err(CreateFailed)
        else if !headerWritten then Err(HeaderFailed)
        else
          AdmittedFits(attrs);
          Ok(PlyOutput(n, Header(WriteOrder(attrs)), Emitted(AttributePtrs(WriteOrder(attrs)), n)))
  }

  /** The declaration part: `attribute_ptrs` and the `ply_add_property` calls. */
  method Declare(attrs: Attrs) returns (ptrs: seq<AttributePtr>, header: seq<HeaderProperty>)
    requires ValidAttrs(attrs) && !IsEmpty(attrs)
    ensures ptrs == AttributePtrs(WriteOrder(attrs)) && header == Header(WriteOrder(attrs))
  {
    ptrs, header := DeclareReserved(attrs);
    ptrs, header := DeclareExtras(attrs, ReservedOrder(attrs), ptrs, header);
  }

  /** Positions as x, y, z; normals as nx, ny, nz and colors as red, green, blue when the
      cloud has them. */
  method DeclareReserved(attrs: Attrs) returns (ptrs: seq<AttributePtr>, header: seq<HeaderProperty>)
    requires ValidAttrs(attrs) && !IsEmpty(attrs)
    ensures ptrs == AttributePtrs(ReservedOrder(attrs)) && header == Header(ReservedOrder(attrs))
  {
    var positions := Lookup(attrs, "positions").value;
    ghost var order: Attrs := [("positions", positions)];
    ptrs := [AttributePtr(positions.dtype, positions.data, 3)];
    var pointType := GetPlyType(positions.dtype);
    header := [HeaderProperty("x", pointType), HeaderProperty("y", pointType), HeaderProperty("z", pointType)];
    ReservedSnoc([], ("positions", positions));
    assert ptrs == AttributePtrs(order) && header == Header(order);
    if HasAttr(attrs, "normals") {
      var normals := Lookup(attrs, "normals").value;
      ptrs := ptrs + [AttributePtr(normals.dtype, normals.data, 3)];
      var normalsType := GetPlyType(normals.dtype);
      header := header + [HeaderProperty("nx", normalsType), HeaderProperty("ny", normalsType),
                          HeaderProperty("nz", normalsType)];
      ReservedSnoc(order, ("normals", normals));
      order := order + [("normals", normals)];
    }
    assert ptrs == AttributePtrs(order) && header == Header(order);
    if HasAttr(attrs, "colors") {
      var colors := Lookup(attrs, "colors").value;
      ptrs := ptrs + [AttributePtr(colors.dtype, colors.data, 3)];
      var colorType := GetPlyType(colors.dtype);
      header := header + [HeaderProperty("red", colorType), HeaderProperty("green", colorType),
                          HeaderProperty("blue", colorType)];
      ReservedSnoc(order, ("colors", colors));
      order := order + [("colors", colors)];
    }
    assert order == ReservedOrder(attrs);
  }

  /** Every other attribute, in map order, as one property named after its key. */
  method DeclareExtras(attrs: Attrs, ghost fixed: Attrs, ptrs0: seq<AttributePtr>, header0: seq<HeaderProperty>)
    returns (ptrs: seq<AttributePtr>, header: seq<HeaderProperty>)
    requires ptrs0 == AttributePtrs(fixed) && header0 == Header(fixed)
    ensures ptrs == AttributePtrs(fixed + Extras(attrs)) && header == Header(fixed + Extras(attrs))
  {
    ptrs, header := ptrs0, header0;
    var i := 0;
    assert fixed + Extras(attrs[..0]) == fixed;
    while i < |attrs|
      invariant i <= |attrs|
      invariant ptrs == AttributePtrs(fixed + Extras(attrs[..i]))
      invariant header == Header(fixed + Extras(attrs[..i]))
    {
      var (key, t) := attrs[i];
      ExtrasStep(attrs, fixed, i);
      if key !in PlyReader.ReservedKeys {
        ptrs := ptrs + [AttributePtr(t.dtype, t.data, 1)];
        header := header + [HeaderProperty(key, GetPlyType(t.dtype))];
      }
      i := i + 1;
    }
    assert attrs[..i] == attrs;
  }

  lemma ExtrasStep(attrs: Attrs, fixed: Attrs, i: nat)
    requires i < |attrs|
    ensures attrs[i].0 in PlyReader.ReservedKeys ==>
      fixed + Extras(attrs[..i + 1]) == fixed + Extras(attrs[..i])
    ensures attrs[i].0 !in PlyReader.ReservedKeys ==>
      Header(fixed + Extras(attrs[..i + 1]))
        == Header(fixed + Extras(attrs[..i])) + [HeaderProperty(attrs[i].0, GetPlyType(attrs[i].1.dtype))]
    ensures attrs[i].0 !in PlyReader.ReservedKeys ==>
      AttributePtrs(fixed + Extras(attrs[..i + 1]))
        == AttributePtrs(fixed + Extras(attrs[..i])) + [AttributePtr(attrs[i].1.dtype, attrs[i].1.data, 1)]
  {
    ExtrasSnoc(attrs, i);
    if attrs[i].0 !in PlyReader.ReservedKeys {
      var before := fixed + Extras(attrs[..i]);
      assert fixed + Extras(attrs[..i + 1]) == before + [attrs[i]];
      DeclaredSnoc(before, attrs[i]);
    }
  }

  lemma ExtrasSnoc(attrs: Attrs, i: nat)
    requires i < |attrs|
    ensures Extras(attrs[..i + 1])
      == if attrs[i].0 in PlyReader.ReservedKeys then Extras(attrs[..i]) else Extras(attrs[..i]) + [attrs[i]]
  {
    assert attrs[..i + 1][..i] == attrs[..i];
  }

  lemma ReservedSnoc(order: Attrs, e: (string, Tensor))
    requires e.0 in PlyReader.ReservedKeys
    ensures var (names, t) := (PlyReader.ComponentNames(e.0), GetPlyType(e.1.dtype));
      Header(order + [e]) == Header(order) + [HeaderProperty(names[0], t), HeaderProperty(names[1], t), HeaderProperty(names[2], t)]
    ensures AttributePtrs(order + [e]) == AttributePtrs(order) + [AttributePtr(e.1.dtype, e.1.data, 3)]
  {
    DeclaredSnoc(order, e);
  }

  lemma DeclaredSnoc(order: Attrs, e: (string, Tensor))
    ensures Header(order + [e]) == Header(order) + Declared(e)
    ensures AttributePtrs(order + [e]) == AttributePtrs(order) + [AttributeOf(e)]
  {
    assert (order + [e])[..|order|] == order;
  }

  /** The nested write loop: for each point, each attribute's group of values. */
  method Emit(ptrs: seq<AttributePtr>, n: nat) returns (out: seq<real>)
    requires Fits(ptrs, n)
    ensures out == Emitted(ptrs, n)
  {
    out := [];
    var i := 0;
    while i < n
      invariant i <= n
      invariant Fits(ptrs, i) && out == Emitted(ptrs, i)
    {
      FitsFewer(ptrs, i + 1, n);
      var record := EmitPoint(ptrs, i);
      assert Records(ptrs, i + 1)[..i] == Records(ptrs, i);
      out := out + record;
      i := i + 1;
    }
  }

  /** The values of point `i`: each attribute's group, in order. */
  method EmitPoint(ptrs: seq<AttributePtr>, i: nat) returns (record: seq<real>)
    requires Fits(ptrs, i + 1)
    ensures record == PointValues(ptrs, i)
  {
    record := [];
    var j := 0;
    while j < |ptrs|
      invariant j <= |ptrs|
      invariant Fits(ptrs[..j], i + 1)
      invariant record == PointValues(ptrs[..j], i)
    {
      var p := ptrs[j];
      var first, last := p.groupSize * i, p.groupSize * (i + 1);
      assert first == Mul(i, p.groupSize) && last == Mul(i + 1, p.groupSize) by {
        MulIsProduct(i, p.groupSize);
        MulIsProduct(i + 1, p.groupSize);
      }
      var idx := first;
      while idx < last
        invariant first <= idx <= last
        invariant record == PointValues(ptrs[..j], i) + p.data[first .. idx]
      {
        record := record + [p.data[idx]];
        idx := idx + 1;
      }
      assert ptrs[..j + 1][..j] == ptrs[..j];
      j := j + 1;
    }
    assert ptrs[..j] == ptrs;
  }

  /** `WritePointCloudToPLY`, with the corrected validation. */
  method WritePointCloudToPly(attrs: Attrs, created: bool, headerWritten: bool)
    returns (r: Result<PlyOutput, WriteError>)
    requires ValidAttrs(attrs)
    ensures r == WriteResult(attrs, created, headerWritten)
  {
    var checked := Validate(attrs);
    if checked.Err? {
      return Err(checked.error);
    }
    var n := checked.value;
    if !created {
      return Err(CreateFailed);
    }
    var ptrs, header := Declare(attrs);
    if !headerWritten {
      return Err(HeaderFailed);
    }
    AdmittedFits(attrs);
    var values := Emit(ptrs, n);
    return Ok(PlyOutput(n, header, values));
  }

  /** What a successful write returns. */
  lemma WriteSucceeded(attrs: Attrs, created: bool, headerWritten: bool)
    requires ValidAttrs(attrs) && WriteResult(attrs, created, headerWritten).Ok?
    ensures !IsEmpty(attrs) && FirstMismatch(NumPoints(attrs), attrs).None?
    ensures Fits(AttributePtrs(WriteOrder(attrs)), NumPoints(attrs))
    ensures WriteResult(attrs, created, headerWritten).value
      == PlyOutput(NumPoints(attrs), Header(WriteOrder(attrs)), Emitted(AttributePtrs(WriteOrder(attrs)), NumPoints(attrs)))
  {
    AdmittedFits(attrs);
  }

  /** A successful write declares the columns in write order: for attribute `j` and its
      column `c`, header property `k` carries that column's name and the PLY type of the
      attribute's dtype, which the reader maps back to that dtype (DtypeRoundTrip). */
  lemma WrittenHeader(attrs: Attrs, created: bool, headerWritten: bool, out: PlyOutput, j: nat, c: nat)
    requires ValidAttrs(attrs) && WriteResult(attrs, created, headerWritten) == Ok(out)
    requires j < |WriteOrder(attrs)| && c < GroupSize(WriteOrder(attrs)[j].0)
    ensures Width(AttributePtrs(WriteOrder(attrs))[..j]) + c < |out.header|
    ensures out.header[Width(AttributePtrs(WriteOrder(attrs))[..j]) + c]
      == HeaderProperty(PropertyNames(WriteOrder(attrs)[j].0)[c], GetPlyType(WriteOrder(attrs)[j].1.dtype))
  {
    SucceededHeader(attrs, created, headerWritten, out);
    HeaderIndex(WriteOrder(attrs), j, c);
  }

  lemma SucceededHeader(attrs: Attrs, created: bool, headerWritten: bool, out: PlyOutput)
    requires ValidAttrs(attrs) && WriteResult(attrs, created, headerWritten) == Ok(out)
    ensures out.header == Header(WriteOrder(attrs))
  {
  }

  /** A successful write holds one record of `|header|` values per point, and the value
      at offset `k` of record `i`, where header property `k` is column `c` of attribute
      `j`, is row `i`, column `c` of that attribute's (num_points, columns) tensor. */
  lemma WrittenValues(attrs: Attrs, created: bool, headerWritten: bool, out: PlyOutput, i: nat, j: nat, c: nat)
    requires ValidAttrs(attrs) && WriteResult(attrs, created, headerWritten) == Ok(out)
    requires i < NumPoints(attrs) && j < |WriteOrder(attrs)| && c < GroupSize(WriteOrder(attrs)[j].0)
    ensures out.numPoints == NumPoints(attrs)
    ensures |out.values| == Mul(out.numPoints, |out.header|)
    ensures WriteOrder(attrs)[j].1.shape == [NumPoints(attrs), GroupSize(WriteOrder(attrs)[j].0)]
    ensures var (key, t) := WriteOrder(attrs)[j];
      var k := Width(AttributePtrs(WriteOrder(attrs))[..j]) + c;
      && Mul(i, GroupSize(key)) + c < |t.data|
      && Mul(i, |out.header|) + k < |out.values|
      && out.values[Mul(i, |out.header|) + k] == t.data[Mul(i, GroupSize(key)) + c]
  {
    var order := WriteOrder(attrs);
    WriteSucceeded(attrs, created, headerWritten);
    AdmittedFits(attrs);
    RecordLayout(order, NumPoints(attrs), i, j, c);
  }

  /** The values written for attributes `order`: record `i` holds column `c` of attribute
      `j` at the offset of that column's header property. */
  lemma RecordLayout(order: Attrs, n: nat, i: nat, j: nat, c: nat)
    requires Fits(AttributePtrs(order), n) && i < n && j < |order| && c < GroupSize(order[j].0)
    ensures var (header, values) := (Header(order), Emitted(AttributePtrs(order), n));
      var k := Width(AttributePtrs(order)[..j]) + c;
      && |values| == Mul(n, |header|)
      && Mul(i, GroupSize(order[j].0)) + c < |order[j].1.data|
      && Mul(i, |header|) + k < |values|
      && values[Mul(i, |header|) + k] == order[j].1.data[Mul(i, GroupSize(order[j].0)) + c]
  {
    var ptrs := AttributePtrs(order);
    HeaderLength(order);
    EmittedLength(ptrs, n);
    EmittedIndex(ptrs, n, i, j, c);
  }
}
