/**
  The reading half of FilePLY.cpp: how `ReadPointCloudFromPLY` registers one cursor
  (`AttrState`) per supported vertex property, and how `ReadAttributeCallback` stores each
  value that rply delivers into a strided tensor buffer.

  rply itself is abstract here: a file is the list of elements and properties its header
  declares, `ply_set_read_cb` answers with the instance count it reports for the property,
  and `ply_read` is a sequence of callback invocations, each carrying a registered id and
  the value read from the file.
 */
module PlyReader {
  import opened PlyTypes
  import opened Wrappers

  /** A property of an element as the header declares it. `readSize` is the instance
      count that `ply_set_read_cb` returns for it. */
  datatype PlyProperty = PlyProperty(name: string, plyType: PlyType, readSize: int)

  datatype PlyElement = PlyElement(name: string, size: nat, properties: seq<PlyProperty>)

  /** The outcome of `ply_open` and `ply_read_header`. */
  datatype PlyFile = Unopenable | BadHeader | Header(elements: seq<PlyElement>)

  /** One callback invocation made by `ply_read`: the id given at registration and the value. */
  datatype ReadEvent = ReadEvent(id: nat, value: real)

  datatype ReadError =
    | OpenFailed          // ply_open failed
    | HeaderFailed        // ply_read_header failed
    | NoVertexElement     // no element named "vertex"
    | SizeMismatch        // LogError (an exception): property size differs from the element size
    | MixedComponentTypes // rejected by the corrected reader: x/y/z (or nx/.., red/..) of different types
    | ShadowedTensor      // rejected by the corrected reader: a property would replace a tensor in use
    | ReadAborted         // ply_read failed because a callback returned 0

  /** The tensor keys the reader fills from three properties each. */
  const ReservedKeys: set<string> := {"positions", "normals", "colors"}

  /** The three property names that make up a reserved tensor, in column order. */
  function ComponentNames(key: string): seq<string>
  {
    if key == "positions" then ["x", "y", "z"]
    else if key == "normals" then ["nx", "ny", "nz"]
    else if key == "colors" then ["red", "green", "blue"]
    else []
  }

  predicate IsComponentName(name: string) {
    name in ComponentNames("positions") || name in ComponentNames("normals") || name in ComponentNames("colors")
  }

  /** Where the values of a property go: the tensor key, the row stride and the column. */
  datatype Layout = Layout(key: string, stride: nat, offset: nat)

  /** The layout of a property with the given name. A component property is stored in
      column `offset` of a three-column tensor and is the `offset`-th component name of
      that tensor; every other property gets a one-column tensor of its own name. */
  function PropertyLayout(name: string): (l: Layout)
    ensures l.stride == 3 <==> IsComponentName(name)
    ensures l.stride == 3 ==> l.key in ReservedKeys && l.offset < 3 && ComponentNames(l.key)[l.offset] == name
    ensures l.stride != 3 ==> l == Layout(name, 1, 0)
  {
    if name == "x" || name == "y" || name == "z" then
      Layout("positions", 3, if name == "x" then 0 else if name == "y" then 1 else 2)
    else if name == "nx" || name == "ny" || name == "nz" then
      Layout("normals", 3, if name == "nx" then 0 else if name == "ny" then 1 else 2)
    else if name == "red" || name == "green" || name == "blue" then
      Layout("colors", 3, if name == "red" then 0 else if name == "green" then 1 else 2)
    else
      Layout(name, 1, 0)
  }

  /** Different property names never share a tensor column. */
  lemma LayoutInjective(a: string, b: string)
    ensures PropertyLayout(a) == PropertyLayout(b) ==> a == b
  {
  }

  /** The properties that get a callback and an id: those of a supported type, in header order. */
  function Supported(props: seq<PlyProperty>): (r: seq<PlyProperty>)
    ensures |r| <= |props|
    ensures forall p :: p in r ==> p in props && GetDtype(p.plyType) != Undefined
    ensures forall p :: p in props && GetDtype(p.plyType) != Undefined ==> p in r
  {
    if props == [] then []
    else
      var init := Supported(props[..|props| - 1]);
      var last := props[|props| - 1];
      assert props == props[..|props| - 1] + [last];
      if GetDtype(last.plyType) == Undefined then init else init + [last]
  }

  // ------------------------------------------------------------------------------------
  // Registration on values. Each tensor the reader allocates is numbered (`alloc`), so
  // that a cursor bound to a tensor that was later replaced can be told apart.

  datatype TensorInfo = TensorInfo(alloc: nat, dtype: Dtype, cols: nat)

  /** A registered cursor: the key and element type it writes with, its layout, and the
      tensor it was bound to when it was registered. */
  datatype SlotInfo = SlotInfo(key: string, dtype: Dtype, stride: nat, offset: nat, target: TensorInfo)

  /** The registration state: cursors by id, the cloud's tensors by key, the reserved
      tensors already allocated (`positions_init` and its siblings) and the allocation count. */
  datatype Registration = Registration(
    slots: seq<SlotInfo>, cloud: map<string, TensorInfo>, initialised: set<string>, allocs: nat)

  const EmptyRegistration := Registration([], map[], {}, 0)

  ghost predicate WellFormed(reg: Registration) {
    reg.initialised <= reg.cloud.Keys
  }

  /** One iteration of the property loop exactly as FilePLY.cpp writes it. */
  function StepAsWritten(n: nat, reg: Registration, p: PlyProperty): (r: Result<Registration, ReadError>)
    requires WellFormed(reg)
    ensures r.Ok? ==> WellFormed(r.value)
  {
    var d := GetDtype(p.plyType);
    if d == Undefined then Ok(reg)
    else if p.readSize != n then Err(SizeMismatch)
    else
      var l := PropertyLayout(p.name);
      if l.stride == 3 then
        var reg1 :=
          if l.key in reg.initialised then reg
          else reg.(cloud := reg.cloud[l.key := TensorInfo(reg.allocs, d, 3)],
                    initialised := reg.initialised + {l.key},
                    allocs := reg.allocs + 1);
        Ok(reg1.(slots := reg1.slots + [SlotInfo(l.key, d, 3, l.offset, reg1.cloud[l.key])]))
      else
        var t := TensorInfo(reg.allocs, d, 1);
        Ok(reg.(cloud := reg.cloud[p.name := t],
                allocs := reg.allocs + 1,
                slots := reg.slots + [SlotInfo(p.name, d, 1, 0, t)]))
  }

  /** The whole property loop as written, over the properties in header order. */
  function RegisterAsWritten(n: nat, props: seq<PlyProperty>): (r: Result<Registration, ReadError>)
    ensures r.Ok? ==> WellFormed(r.value)
  {
    if props == [] then Ok(EmptyRegistration)
    else
      match RegisterAsWritten(n, props[..|props| - 1])
      case Err(e) => Err(e)
      case Ok(reg) => StepAsWritten(n, reg, props[|props| - 1])
  }

  /** A component property of a type other than that of the tensor its first component allocated. */
  predicate MixesComponentTypes(reg: Registration, p: PlyProperty)
    ensures MixesComponentTypes(reg, p) ==> IsComponentName(p.name) && PropertyLayout(p.name).key in reg.cloud
  {
    var l := PropertyLayout(p.name);
    GetDtype(p.plyType) != Undefined && l.stride == 3 && l.key in reg.initialised && l.key in reg.cloud
    && reg.cloud[l.key].dtype != GetDtype(p.plyType)
  }

  /** A property whose tensor key already names a tensor it must not share: a one-column
      property whose name is already registered (it would replace that tensor), or a component
      property whose key names a one-column tensor (a property literally called "positions",
      say, registered before x). */
  predicate ShadowsTensor(reg: Registration, p: PlyProperty)
    ensures ShadowsTensor(reg, p) ==> GetDtype(p.plyType) != Undefined && PropertyLayout(p.name).key in reg.cloud
  {
    var l := PropertyLayout(p.name);
    GetDtype(p.plyType) != Undefined
    && ((l.stride == 1 && p.name in reg.cloud)
        || (l.stride == 3 && l.key in reg.cloud && l.key !in reg.initialised))
  }

  /** One iteration of the corrected loop: the as-written step, refusing the two cases in
      which a cursor would write into a tensor of another element type or a replaced one. */
  function Step(n: nat, reg: Registration, p: PlyProperty): (r: Result<Registration, ReadError>)
    requires WellFormed(reg)
    ensures r.Ok? ==> WellFormed(r.value)
    ensures r.Ok? ==> StepAsWritten(n, reg, p) == r
  {
    match StepAsWritten(n, reg, p)
    case Err(e) => Err(e)
    case Ok(next) =>
      if MixesComponentTypes(reg, p) then Err(MixedComponentTypes)
      else if ShadowsTensor(reg, p) then Err(ShadowedTensor)
      else Ok(next)
  }

  /** The corrected property loop. */
  function Register(n: nat, props: seq<PlyProperty>): (r: Result<Registration, ReadError>)
    ensures r.Ok? ==> WellFormed(r.value)
  {
    if props == [] then Ok(EmptyRegistration)
    else
      match Register(n, props[..|props| - 1])
      case Err(e) => Err(e)
      case Ok(reg) => Step(n, reg, props[|props| - 1])
  }

  /** A cursor is sound when the tensor it writes into is still the cloud's tensor for its
      key, has its element type, and has exactly `stride` columns. */
  ghost predicate SlotSound(reg: Registration, s: SlotInfo) {
    s.key in reg.cloud && reg.cloud[s.key] == s.target
    && s.target.dtype == s.dtype && s.target.cols == s.stride && s.offset < s.stride
  }

  ghost predicate Sound(reg: Registration) {
    && WellFormed(reg)
    && reg.initialised <= ReservedKeys
    && (forall key :: key in reg.cloud ==> reg.cloud[key].cols == if key in reg.initialised then 3 else 1)
    && (forall k :: 0 <= k < |reg.slots| ==> SlotSound(reg, reg.slots[k]))
  }

  lemma StepSound(n: nat, reg: Registration, p: PlyProperty)
    requires Sound(reg)
    ensures Step(n, reg, p).Ok? ==> Sound(Step(n, reg, p).value)
  {
    if Step(n, reg, p).Ok? && GetDtype(p.plyType) != Undefined {
      var next := Step(n, reg, p).value;
      var l := PropertyLayout(p.name);
      forall k | 0 <= k < |next.slots|
        ensures SlotSound(next, next.slots[k])
      {
        if k < |reg.slots| {
          assert next.slots[k] == reg.slots[k];
          assert SlotSound(reg, reg.slots[k]);
        }
      }
    }
  }

  /** Every cursor the corrected reader registers is sound. */
  lemma {:induction false} RegisterSound(n: nat, props: seq<PlyProperty>)
    ensures Register(n, props).Ok? ==> Sound(Register(n, props).value)
  {
    if props != [] {
      RegisterSound(n, props[..|props| - 1]);
      match Register(n, props[..|props| - 1])
      case Err(_) =>
      case Ok(reg) => StepSound(n, reg, props[|props| - 1]);
    }
  }

  /** The corrected reader only adds refusals: when it accepts, it registers what the
      code as written registers. */
  lemma {:induction false} RegisterRefinesAsWritten(n: nat, props: seq<PlyProperty>)
    ensures Register(n, props).Ok? ==> RegisterAsWritten(n, props) == Register(n, props)
  {
    if props != [] {
      RegisterRefinesAsWritten(n, props[..|props| - 1]);
    }
  }

  /** Ids are handed out consecutively to the supported properties: cursor `k` serves the
      `k`-th supported property, with that property's element type and layout. */
  lemma {:induction false} RegisterLayout(n: nat, props: seq<PlyProperty>)
    ensures Register(n, props).Ok? ==>
      var slots := Register(n, props).value.slots;
      |slots| == |Supported(props)|
      && forall k :: 0 <= k < |slots| ==>
        var p := Supported(props)[k];
        var l := PropertyLayout(p.name);
        slots[k].key == l.key && slots[k].stride == l.stride && slots[k].offset == l.offset
        && slots[k].dtype == GetDtype(p.plyType)
  {
    if props != [] {
      var init := props[..|props| - 1];
      RegisterLayout(n, init);
      assert Supported(props) == if GetDtype(props[|props| - 1].plyType) == Undefined
        then Supported(init) else Supported(init) + [props[|props| - 1]];
    }
  }

  /** Every registered cursor has stride 1 or 3 and a column below its stride, so every
      index it writes, `stride * current + offset` with `current < size`, is below `stride * size`. */
  lemma WriteIndexBound(s: SlotInfo, current: nat, size: nat)
    requires s.stride == 1 || s.stride == 3
    requires s.offset < s.stride && current < size
    ensures s.stride * current + s.offset < s.stride * size
  {
    assert s.stride * current + s.stride <= s.stride * size by {
      assert current + 1 <= size;
    }
  }

  lemma SupportedSnoc(props: seq<PlyProperty>, i: nat)
    requires i < |props|
    ensures Supported(props[..i + 1]) ==
      if GetDtype(props[i].plyType) == Undefined then Supported(props[..i]) else Supported(props[..i]) + [props[i]]
  {
    assert props[..i + 1][..i] == props[..i];
    assert props[..i + 1][i] == props[i];
  }

  lemma NamesSnoc(ps: seq<PlyProperty>, q: PlyProperty)
    ensures (set p | p in ps + [q] :: p.name) == (set p | p in ps :: p.name) + {q.name}
  {
    assert forall p :: p in ps + [q] <==> p in ps || p == q;
  }

  /** The property loop one property further on. */
  lemma RegisterSnoc(n: nat, props: seq<PlyProperty>, i: nat, spec: Registration)
    requires i < |props| && Register(n, props[..i]) == Ok(spec)
    ensures Register(n, props[..i + 1]) == Step(n, spec, props[i])
  {
    assert props[..i + 1][..i] == props[..i];
    assert props[..i + 1][i] == props[i];
  }

  /** The two properties the loop settles before looking at the name: one of an unsupported
      type is skipped, and one of the wrong size stops the read. */
  lemma StepEarlyExits(n: nat, reg: Registration, p: PlyProperty)
    requires WellFormed(reg)
    ensures GetDtype(p.plyType) == Undefined ==> Step(n, reg, p) == Ok(reg)
    ensures GetDtype(p.plyType) != Undefined && p.readSize != n ==> Step(n, reg, p) == Err(SizeMismatch)
  {
  }

  /** The corrected iteration refuses, with its own error, exactly the two cases its checks
      name, both of which the loop as written accepts; otherwise it is the loop as written. */
  lemma StepRefusals(n: nat, reg: Registration, p: PlyProperty)
    requires WellFormed(reg) && p.readSize == n
    ensures MixesComponentTypes(reg, p) ==>
      StepAsWritten(n, reg, p).Ok? && Step(n, reg, p) == Err(MixedComponentTypes)
    ensures !MixesComponentTypes(reg, p) && ShadowsTensor(reg, p) ==>
      StepAsWritten(n, reg, p).Ok? && Step(n, reg, p) == Err(ShadowedTensor)
    ensures !MixesComponentTypes(reg, p) && !ShadowsTensor(reg, p) ==> Step(n, reg, p) == StepAsWritten(n, reg, p)
  {
  }

  /** The `ply_set_read_cb` registrations for the supported properties `ps`: the `k`-th
      one is made for property `ps[k]` with id `k`. */
  function CallbackTable(ps: seq<PlyProperty>): (r: seq<(string, nat)>)
    ensures |r| == |ps| && forall k :: 0 <= k < |ps| ==> r[k] == (ps[k].name, k)
  {
    seq(|ps|, k requires 0 <= k < |ps| => (ps[k].name, k))
  }

  lemma CallbackTableSnoc(ps: seq<PlyProperty>, q: PlyProperty)
    ensures CallbackTable(ps + [q]) == CallbackTable(ps) + [(q.name, |ps|)]
  {
  }

  /** Once a prefix of the properties is refused, the whole loop is refused with that error. */
  lemma {:induction false} RegisterErrPersists(n: nat, props: seq<PlyProperty>, i: nat)
    requires i <= |props| && Register(n, props[..i]).Err?
    ensures Register(n, props) == Register(n, props[..i])
    decreases |props| - i
  {
    if i < |props| {
      assert props[..i + 1][..i] == props[..i];
      RegisterErrPersists(n, props, i + 1);
    } else {
      assert props[..i] == props;
    }
  }

  // ------------------------------------------------------------------------------------
  // Findings: the two inputs for which the code as written binds a cursor unsoundly.

  const FloatX := PlyProperty("x", PlyFloat, 1)
  const DoubleY := PlyProperty("y", PlyDouble, 1)
  const FloatY := PlyProperty("y", PlyFloat, 1)
  const FloatPositions := PlyProperty("positions", PlyFloat, 1)

  /** x as float and y as double: the positions tensor is allocated as Float32 from x, and
      y's callback, instantiated for double, writes into it. */
  lemma MixedTypesAsWritten()
    ensures RegisterAsWritten(1, [FloatX, DoubleY]).Ok?
    ensures var reg := RegisterAsWritten(1, [FloatX, DoubleY]).value;
      |reg.slots| == 2 && reg.slots[1].dtype == Float64 && reg.slots[1].target.dtype == Float32
      && !SlotSound(reg, reg.slots[1])
    ensures Register(1, [FloatX, DoubleY]) == Err(MixedComponentTypes)
  {
    var t0 := TensorInfo(0, Float32, 3);
    var r1 := FirstPositionRegistered();
    assert [FloatX, DoubleY][..1] == [FloatX];
    assert PropertyLayout("y") == Layout("positions", 3, 1);
    var s := StepAsWritten(1, r1, DoubleY);
    assert s.Ok? && s.value.slots == r1.slots + [SlotInfo("positions", Float64, 3, 1, t0)];
    assert MixesComponentTypes(r1, DoubleY);
  }

  /** x, then a property named "positions", then y: the one-column "positions" tensor
      replaces the three-column one that x's cursor is bound to, and y's cursor, of stride 3,
      is bound to the one-column tensor. */
  lemma ShadowedPositionsAsWritten()
    ensures RegisterAsWritten(1, [FloatX, FloatPositions, FloatY]).Ok?
    ensures var reg := RegisterAsWritten(1, [FloatX, FloatPositions, FloatY]).value;
      |reg.slots| == 3 && reg.slots[0].target != reg.cloud["positions"]
      && reg.slots[2].stride == 3 && reg.slots[2].target.cols == 1
      && !SlotSound(reg, reg.slots[0]) && !SlotSound(reg, reg.slots[2])
    ensures Register(1, [FloatX, FloatPositions, FloatY]) == Err(ShadowedTensor)
  {
    var t0 := TensorInfo(0, Float32, 3);
    var t1 := TensorInfo(1, Float32, 1);
    var r1 := FirstPositionRegistered();
    assert [FloatX, FloatPositions, FloatY][..2] == [FloatX, FloatPositions];
    assert [FloatX, FloatPositions][..1] == [FloatX];
    assert PropertyLayout("positions") == Layout("positions", 1, 0);
    assert PropertyLayout("y") == Layout("positions", 3, 1);
    var s2 := StepAsWritten(1, r1, FloatPositions);
    assert s2.Ok? && s2.value.cloud == map["positions" := t1] && s2.value.slots == r1.slots + [SlotInfo("positions", Float32, 1, 0, t1)];
    assert s2.value.initialised == {"positions"};
    assert RegisterAsWritten(1, [FloatX, FloatPositions]) == s2;
    var s3 := StepAsWritten(1, s2.value, FloatY);
    assert s3.Ok? && s3.value.cloud == s2.value.cloud && s3.value.slots == s2.value.slots + [SlotInfo("positions", Float32, 3, 1, t1)];
    assert ShadowsTensor(r1, FloatPositions);
  }

  /** A property named "positions" with nothing before it is read, as the source reads it,
      into a one-column tensor of that name. */
  lemma LonePositionsRead()
    ensures Register(1, [FloatPositions]) == Ok(Registration([SlotInfo("positions", Float32, 1, 0, TensorInfo(0, Float32, 1))],
      map["positions" := TensorInfo(0, Float32, 1)], {}, 1))
  {
    var t0 := TensorInfo(0, Float32, 1);
    assert [FloatPositions][..0] == [];
    assert PropertyLayout("positions") == Layout("positions", 1, 0);
    var s := StepAsWritten(1, EmptyRegistration, FloatPositions);
    assert s.Ok? && s.value.cloud == map["positions" := t0] && s.value.slots == [SlotInfo("positions", Float32, 1, 0, t0)];
    assert !ShadowsTensor(EmptyRegistration, FloatPositions);
  }

  /** A property named "positions", then x: as written, x allocates a three-column positions
      tensor that replaces the one-column tensor the first cursor is bound to; the corrected
      loop refuses. */
  lemma PositionsThenXAsWritten()
    ensures RegisterAsWritten(1, [FloatPositions, FloatX]).Ok?
    ensures var reg := RegisterAsWritten(1, [FloatPositions, FloatX]).value;
      |reg.slots| == 2 && reg.slots[0].target != reg.cloud["positions"] && !SlotSound(reg, reg.slots[0])
    ensures Register(1, [FloatPositions, FloatX]) == Err(ShadowedTensor)
  {
    var t0 := TensorInfo(0, Float32, 1);
    var r1 := Registration([SlotInfo("positions", Float32, 1, 0, t0)], map["positions" := t0], {}, 1);
    LonePositionsRead();
    RegisterRefinesAsWritten(1, [FloatPositions]);
    assert [FloatPositions, FloatX][..1] == [FloatPositions];
    assert PropertyLayout("x") == Layout("positions", 3, 0);
    var s := StepAsWritten(1, r1, FloatX);
    assert s.Ok? && s.value.cloud == map["positions" := TensorInfo(1, Float32, 3)];
    assert s.value.slots[0] == r1.slots[0];
    assert ShadowsTensor(r1, FloatX);
  }

  /** Both findings start from x alone: one cursor bound to a fresh three-column tensor. */
  lemma FirstPositionRegistered() returns (r1: Registration)
    ensures r1 == Registration([SlotInfo("positions", Float32, 3, 0, TensorInfo(0, Float32, 3))],
      map["positions" := TensorInfo(0, Float32, 3)], {"positions"}, 1)
    ensures RegisterAsWritten(1, [FloatX]) == Ok(r1) && Register(1, [FloatX]) == Ok(r1)
  {
    var t0 := TensorInfo(0, Float32, 3);
    r1 := Registration([SlotInfo("positions", Float32, 3, 0, t0)], map["positions" := t0], {"positions"}, 1);
    assert [FloatX][..0] == [];
    assert PropertyLayout("x") == Layout("positions", 3, 0);
    var s := StepAsWritten(1, EmptyRegistration, FloatX);
    assert s.Ok?;
    assert s.value.cloud == map["positions" := t0];
    assert s.value.initialised == {"positions"};
    assert s.value.allocs == 1;
    assert s.value.slots == [SlotInfo("positions", Float32, 3, 0, t0)];
  }

  // ------------------------------------------------------------------------------------
  // The reader's state on the heap.

  /** The cursor of one registered property (`PLYReaderState::AttrState`). */
  class AttrState {
    const name: string
    const dtype: Dtype
    const data: array<real>
    const stride: nat
    const offset: nat
    const size: nat
    /** The id this cursor is registered under. */
    ghost const slot: nat
    var currentSize: nat

    /** The layout fits the tensor: `size` rows of `stride` entries, this cursor's column
        among them. */
    ghost predicate Shaped() {
      (stride == 1 || stride == 3) && offset < stride && stride * size <= data.Length
    }

    ghost predicate Valid()
      reads this
    {
      Shaped() && currentSize <= size
    }

    constructor (name: string, dtype: Dtype, data: array<real>, stride: nat, offset: nat, size: nat,
                 ghost slot: nat)
      requires (stride == 1 || stride == 3) && offset < stride && stride * size <= data.Length
      ensures Valid()
      ensures this.name == name && this.dtype == dtype && this.data == data
      ensures this.stride == stride && this.offset == offset && this.size == size
      ensures this.slot == slot && currentSize == 0
    {
      this.slot := slot;
      this.name := name;
      this.dtype := dtype;
      this.data := data;
      this.stride := stride;
      this.offset := offset;
      this.size := size;
      currentSize := 0;
    }
  }

  /** A tensor of the point cloud being filled: element type, columns and storage. */
  datatype Buffer = Buffer(dtype: Dtype, cols: nat, data: array<real>)

  /** Different tensors of the cloud have different storage. */
  predicate DistinctBuffers(cloud: map<string, Buffer>) {
    forall k1, k2 :: k1 in cloud && k2 in cloud && k1 != k2 ==> cloud[k1].data != cloud[k2].data
  }

  /** The number of invocations in `events` that carry `id`. */
  function CountId(events: seq<ReadEvent>, id: nat): (c: nat)
    ensures c <= |events|
  {
    if events == [] then 0
    else CountId(events[..|events| - 1], id) + (if events[|events| - 1].id == id then 1 else 0)
  }

  /** The values of the invocations in `events` that carry `id`, in delivery order. */
  function IdValues(events: seq<ReadEvent>, id: nat): (vs: seq<real>)
    ensures |vs| == CountId(events, id)
  {
    if events == [] then []
    else IdValues(events[..|events| - 1], id) + (if events[|events| - 1].id == id then [events[|events| - 1].value] else [])
  }

  lemma EventsSnoc(events: seq<ReadEvent>, i: nat)
    requires i < |events|
    ensures forall id :: CountId(events[..i + 1], id) == CountId(events[..i], id) + (if events[i].id == id then 1 else 0)
    ensures forall id :: IdValues(events[..i + 1], id) == IdValues(events[..i], id) + (if events[i].id == id then [events[i].value] else [])
  {
    assert events[..i + 1][..i] == events[..i];
  }

  /** A prefix of the invocations carries no more invocations for an id than the whole. */
  lemma {:induction false} CountIdPrefix(events: seq<ReadEvent>, i: nat, id: nat)
    requires i <= |events|
    ensures CountId(events[..i], id) <= CountId(events, id)
    decreases |events| - i
  {
    if i < |events| {
      EventsSnoc(events, i);
      CountIdPrefix(events, i + 1, id);
    } else {
      assert events[..i] == events;
    }
  }

  /** An id that no invocation carries has no invocations. */
  lemma {:induction false} CountIdAbsent(events: seq<ReadEvent>, id: nat)
    requires forall e :: e in events ==> e.id != id
    ensures CountId(events, id) == 0
  {
    if events != [] {
      assert forall e :: e in events[..|events| - 1] ==> e in events;
      CountIdAbsent(events[..|events| - 1], id);
    }
  }

  /** The entry a cursor writes its `j`-th value to. */
  function WriteIndex(a: AttrState, j: nat): (r: nat)
    ensures (a.stride == 1 || a.stride == 3) && a.offset < a.stride && j < a.size && a.stride * a.size <= a.data.Length
      ==> r < a.data.Length
  {
    if a.stride == 3 && j < a.size && a.stride * a.size <= a.data.Length then
      assert 3 * j + 3 <= 3 * a.size;
      a.stride * j + a.offset
    else
      a.stride * j + a.offset
  }

  /** Two write positions of the same stride differ unless they have the same row and column. */
  lemma WriteIndexDistinct(s: nat, j1: nat, o1: nat, j2: nat, o2: nat)
    requires (s == 1 || s == 3) && o1 < s && o2 < s && (j1 != j2 || o1 != o2)
    ensures s * j1 + o1 != s * j2 + o2
  {
  }

  /** Cursors that share a tensor write different columns of rows of the same width. */
  ghost predicate Disjoint(ids: seq<AttrState>) {
    forall k1, k2 :: 0 <= k1 < |ids| && 0 <= k2 < |ids| && k1 != k2 && ids[k1].data == ids[k2].data ==>
      ids[k1].stride == ids[k2].stride && ids[k1].offset != ids[k2].offset
  }

  /** Entry `i` of the cursor's tensor is one of those it has written since it stood at `from`. */
  ghost predicate InStripe(a: AttrState, from: nat, i: int)
    reads a
  {
    exists j :: from <= j < a.currentSize && i == WriteIndex(a, j)
  }

  /** No cursor bound to `data` has written entry `i` since it stood at `starts[k]`. */
  ghost predicate Untouched(ids: seq<AttrState>, starts: seq<nat>, data: array<real>, i: int)
    reads ids
  {
    |starts| == |ids| && forall k :: 0 <= k < |ids| && ids[k].data == data ==> !InStripe(ids[k], starts[k], i)
  }

  /** The cursors' current counters. */
  ghost function Sizes(ids: seq<AttrState>): (r: seq<nat>)
    reads ids
    ensures |r| == |ids| && forall k :: 0 <= k < |ids| ==> r[k] == ids[k].currentSize
  {
    if ids == [] then [] else Sizes(ids[..|ids| - 1]) + [ids[|ids| - 1].currentSize]
  }

  /** The cursors' tensors' current values. */
  ghost function Contents(ids: seq<AttrState>): (r: seq<seq<real>>)
    reads set a | a in ids :: a.data
    ensures |r| == |ids| && forall k :: 0 <= k < |ids| ==> r[k] == ids[k].data[..]
  {
    if ids == [] then [] else Contents(ids[..|ids| - 1]) + [ids[|ids| - 1].data[..]]
  }

  /** The state of `ply_read` once the invocations `delivered` are accepted, starting from the
      counters `starts` and the tensor values `orig`: each cursor has advanced by the
      invocations for its id, every entry no cursor has written since keeps its value, and,
      when cursors sharing a tensor write different columns, each written entry holds its value. */
  ghost predicate ReadProgress(ids: seq<AttrState>, starts: seq<nat>, orig: seq<seq<real>>,
                               delivered: seq<ReadEvent>, disjoint: bool)
    reads ids, set a | a in ids :: a.data
  {
    && Cursors(ids) && |starts| == |ids| && |orig| == |ids|
    && (forall k :: 0 <= k < |ids| ==> ids[k].currentSize == starts[k] + CountId(delivered, k))
    && (disjoint ==>
          forall k, j :: 0 <= k < |ids| && starts[k] <= j < ids[k].currentSize ==>
            ids[k].data[WriteIndex(ids[k], j)] == IdValues(delivered, k)[j - starts[k]])
    && (forall k, i ::
          (0 <= k < |ids| && 0 <= i < ids[k].data.Length && Untouched(ids, starts, ids[k].data, i)) ==>
            i < |orig[k]| && ids[k].data[i] == orig[k][i])
  }

  /** Cursor `k` is well formed and registered under id `k` (so no two ids share a cursor). */
  ghost predicate Cursors(ids: seq<AttrState>)
    reads ids
  {
    forall k :: 0 <= k < |ids| ==> ids[k].Valid() && ids[k].slot == k
  }

  /** Cursor `k` is registered under id `k`. */
  ghost predicate Slotted(ids: seq<AttrState>) {
    forall k :: 0 <= k < |ids| ==> ids[k].slot == k
  }

  /** No cursor has taken a value yet. */
  ghost predicate Empty(ids: seq<AttrState>)
    reads ids
  {
    forall k :: 0 <= k < |ids| ==> ids[k].currentSize == 0
  }

  lemma EmptySnoc(ids: seq<AttrState>, a: AttrState)
    requires Empty(ids) && a.currentSize == 0
    ensures Empty(ids + [a])
  {
    assert forall k :: 0 <= k < |ids| ==> (ids + [a])[k] == ids[k];
  }

  /** Empty cursors whose layouts fit their tensors are well formed. */
  lemma EmptyCursors(ids: seq<AttrState>)
    requires Empty(ids) && Slotted(ids) && forall k :: 0 <= k < |ids| ==> ids[k].Shaped()
    ensures Cursors(ids)
  {
  }

  /** The value-level progress of the loop after the first `i` properties: the
      registrations made so far are those of `Register(n, props[..i])`, with one callback per
      supported property, `count` cursors and a cursor recorded under each name in `nameKeys`. */
  ghost predicate Progress(n: nat, props: seq<PlyProperty>, i: nat, spec: Registration, initialised: set<string>,
                           callbacks: seq<(string, nat)>, nameKeys: set<string>, count: nat)
  {
    && i <= |props| && Register(n, props[..i]) == Ok(spec) && Sound(spec)
    && initialised == spec.initialised
    && callbacks == CallbackTable(Supported(props[..i]))
    && count == |Supported(props[..i])|
    && nameKeys == (set p | p in Supported(props[..i]) :: p.name)
  }

  /** The cursors mirror `spec` on the heap, and every cursor recorded by name is one of them. */
  ghost predicate HeapMirrors(n: nat, spec: Registration, cloud: map<string, Buffer>,
                              names: map<string, AttrState>, ids: seq<AttrState>)
  {
    && Slotted(ids) && Mirrors(spec, ids, cloud, n)
    && (forall name :: name in names ==> names[name] in ids)
  }

  /** The reader's state after the first `i` properties of the loop. */
  ghost predicate RegisteredAfter(n: nat, props: seq<PlyProperty>, i: nat, spec: Registration,
                                  initialised: set<string>, cloud: map<string, Buffer>, callbacks: seq<(string, nat)>,
                                  names: map<string, AttrState>, ids: seq<AttrState>)
  {
    Progress(n, props, i, spec, initialised, callbacks, names.Keys, |ids|) && HeapMirrors(n, spec, cloud, names, ids)
  }

  lemma ProgressSnoc(n: nat, props: seq<PlyProperty>, i: nat, spec: Registration, initialised: set<string>,
                     callbacks: seq<(string, nat)>, nameKeys: set<string>, count: nat,
                     initialised': set<string>, nameKeys': set<string>)
    requires i < |props| && Progress(n, props, i, spec, initialised, callbacks, nameKeys, count)
    requires GetDtype(props[i].plyType) != Undefined && Step(n, spec, props[i]).Ok?
    requires initialised' == Step(n, spec, props[i]).value.initialised && nameKeys' == nameKeys + {props[i].name}
    ensures Progress(n, props, i + 1, Step(n, spec, props[i]).value, initialised',
                     AddCallback(callbacks, props[i].name, count), nameKeys', count + 1)
  {
    var p := props[i];
    SupportedSnoc(props, i);
    RegisterSnoc(n, props, i, spec);
    StepSound(n, spec, p);
    CallbackTableSnoc(Supported(props[..i]), p);
    NamesSnoc(Supported(props[..i]), p);
  }

  lemma HeapMirrorsSnoc(n: nat, spec: Registration, cloud: map<string, Buffer>, names: map<string, AttrState>,
                        ids: seq<AttrState>, next: Registration, cloud': map<string, Buffer>, name: string, a: AttrState)
    requires HeapMirrors(n, spec, cloud, names, ids)
    requires Mirrors(next, ids + [a], cloud', n) && a.slot == |ids|
    ensures HeapMirrors(n, next, cloud', if name in names then names else names[name := a], ids + [a])
  {
    var ids' := ids + [a];
    forall k | 0 <= k < |ids'|
      ensures ids'[k].slot == k
    {
      if k < |ids| {
        assert ids'[k] == ids[k];
      }
    }
    var names' := if name in names then names else names[name := a];
    forall nm | nm in names'
      ensures names'[nm] in ids'
    {
      if nm in names {
        assert names[nm] in ids;
      }
    }
  }

  /** A supported property of the expected size whose cursor extends the mirror takes the
      loop one property further. */
  /** The callback table with one more `ply_set_read_cb` registration. */
  function AddCallback(callbacks: seq<(string, nat)>, name: string, id: nat): seq<(string, nat)> {
    callbacks + [(name, id)]
  }

  /** The name table after registering `a` under `name`: the first cursor recorded under a
      name stays. */
  function Recorded(names: map<string, AttrState>, name: string, a: AttrState): (r: map<string, AttrState>)
    ensures r.Keys == names.Keys + {name}
    ensures forall key :: key in names ==> r[key] == names[key]
    ensures name !in names ==> r[name] == a
  {
    if name in names then names else names[name := a]
  }

  lemma RegisteredSnoc(n: nat, props: seq<PlyProperty>, i: nat, spec: Registration,
                       initialised: set<string>, cloud: map<string, Buffer>, callbacks: seq<(string, nat)>,
                       names: map<string, AttrState>, ids: seq<AttrState>,
                       a: AttrState, initialised': set<string>, cloud': map<string, Buffer>,
                       callbacks': seq<(string, nat)>, names': map<string, AttrState>)
    requires i < |props| && RegisteredAfter(n, props, i, spec, initialised, cloud, callbacks, names, ids)
    requires GetDtype(props[i].plyType) != Undefined && props[i].readSize == n
    requires Step(n, spec, props[i]).Ok?
    requires Mirrors(Step(n, spec, props[i]).value, ids + [a], cloud', n)
    requires initialised' == Step(n, spec, props[i]).value.initialised
    requires a.slot == |ids|
    requires callbacks' == AddCallback(callbacks, props[i].name, |ids|)
    requires names' == Recorded(names, props[i].name, a)
    ensures RegisteredAfter(n, props, i + 1, Step(n, spec, props[i]).value, initialised', cloud', callbacks', names', ids + [a])
  {
    var p := props[i];
    ProgressSnoc(n, props, i, spec, initialised, callbacks, names.Keys, |ids|, initialised', names'.Keys);
    HeapMirrorsSnoc(n, spec, cloud, names, ids, Step(n, spec, p).value, cloud', p.name, a);
  }

  /** After the last property the loop has made exactly the registrations of `Register(n, props)`. */
  lemma RegisteredComplete(n: nat, props: seq<PlyProperty>, i: nat, spec: Registration,
                           initialised: set<string>, cloud: map<string, Buffer>, callbacks: seq<(string, nat)>,
                           names: map<string, AttrState>, ids: seq<AttrState>)
    requires RegisteredAfter(n, props, i, spec, initialised, cloud, callbacks, names, ids) && i == |props|
    ensures Register(n, props) == Ok(spec) && Mirrors(spec, ids, cloud, n)
    ensures |callbacks| == |ids| == |Supported(props)| && callbacks == CallbackTable(Supported(props))
    ensures names.Keys == set p | p in Supported(props) :: p.name
  {
    assert props[..i] == props;
  }

  /** `PLYReaderState`: the cursors by id and by property name. */
  class PlyReaderState {
    var nameToAttrState: map<string, AttrState>
    var idToAttrState: seq<AttrState>

    ghost predicate Valid()
      reads this, idToAttrState
    {
      Cursors(idToAttrState)
    }

    constructor ()
      ensures Valid() && nameToAttrState == map[] && idToAttrState == []
    {
      nameToAttrState := map[];
      idToAttrState := [];
    }

    /** `ReadAttributeCallback`: store `value` for the property registered under `id`. A full
        cursor refuses the value (answering 0, which makes rply abort) and changes nothing;
        otherwise exactly the slot `stride * current + offset` is written and the cursor advances. */
    method ReadAttributeCallback(id: nat, value: real) returns (r: int)
      requires Valid() && id < |idToAttrState|
      modifies idToAttrState[id], idToAttrState[id].data
      ensures Valid()
      ensures r == 0 ==> unchanged(idToAttrState[id], idToAttrState[id].data)
      ensures var a := idToAttrState[id];
        if old(a.currentSize) >= a.size then
          r == 0 && a.currentSize == old(a.currentSize) && a.data[..] == old(a.data[..])
        else
          r == 1 && a.currentSize == old(a.currentSize) + 1
          && a.data[..] == old(a.data[..])[a.stride * old(a.currentSize) + a.offset := value]
    {
      var a := idToAttrState[id];
      if a.currentSize >= a.size {
        return 0;
      }
      var index := a.stride * a.currentSize + a.offset;
      assert index < a.data.Length by {
        assert a.stride * a.currentSize + a.stride <= a.stride * a.size by {
          assert a.currentSize + 1 <= a.size;
        }
      }
      a.data[index] := value;
      a.currentSize := a.currentSize + 1;
      if a.currentSize % 1000 == 0 && a.stride == 0 {
        // The progress update: Valid() keeps the stride at 1 or 3, so this never runs.
        assert false;
      }
      return 1;
    }

    /** The state after the first `i` properties of the loop. */
    ghost predicate Registered(n: nat, props: seq<PlyProperty>, i: nat, spec: Registration,
                               initialised: set<string>, cloud: map<string, Buffer>, callbacks: seq<(string, nat)>)
      reads this, idToAttrState
    {
      RegisteredAfter(n, props, i, spec, initialised, cloud, callbacks, nameToAttrState, idToAttrState)
      && Empty(idToAttrState)
    }

    /** One iteration of the property loop. */
    method RegisterNext(n: nat, props: seq<PlyProperty>, i: nat, ghost spec: Registration,
                        initialised: set<string>, cloud: map<string, Buffer>, callbacks: seq<(string, nat)>)
      returns (err: Option<ReadError>, ghost spec': Registration, initialised': set<string>,
               cloud': map<string, Buffer>, callbacks': seq<(string, nat)>, a: AttrState?)
      requires i < |props| && Registered(n, props, i, spec, initialised, cloud, callbacks)
      modifies this
      ensures err.Some? ==> Register(n, props[..i + 1]) == Err(err.value) && unchanged(this) && cloud' == cloud
      ensures err.None? ==> Registered(n, props, i + 1, spec', initialised', cloud', callbacks')
      ensures err.None? && a == null ==> idToAttrState == old(idToAttrState)
      ensures err.None? && a != null ==> fresh(a) && idToAttrState == old(idToAttrState) + [a]
      ensures err.None? && DistinctBuffers(cloud) ==> DistinctBuffers(cloud')
      ensures err.None? ==>
        forall key :: key in cloud' ==> (key in cloud && cloud'[key] == cloud[key]) || fresh(cloud'[key].data)
    {
      var p := props[i];
      SupportedSnoc(props, i);
      RegisterSnoc(n, props, i, spec);
      StepEarlyExits(n, spec, p);
      err, spec', initialised', cloud', callbacks', a := None, spec, initialised, cloud, callbacks, null;
      if GetDtype(p.plyType) == Undefined {
        // LogWarning: the property is skipped.
        return;
      }
      CallbackTableSnoc(Supported(props[..i]), p);
      callbacks' := AddCallback(callbacks, p.name, |idToAttrState|);
      if p.readSize != n {
        // LogError: the whole read fails with an exception.
        return Some(SizeMismatch), spec', initialised', cloud', callbacks', null;
      }
      err, spec', initialised', cloud', a := RegisterSupported(n, props, i, spec, initialised, cloud, callbacks);
    }

    /** The iteration for a supported property of the expected size: a new cursor, recorded
        under the property's name and pushed as the next id. */
    method RegisterSupported(n: nat, props: seq<PlyProperty>, i: nat, ghost spec: Registration,
                             initialised: set<string>, cloud: map<string, Buffer>, callbacks: seq<(string, nat)>)
      returns (err: Option<ReadError>, ghost spec': Registration, initialised': set<string>,
               cloud': map<string, Buffer>, a: AttrState?)
      requires i < |props| && Registered(n, props, i, spec, initialised, cloud, callbacks)
      requires GetDtype(props[i].plyType) != Undefined && props[i].readSize == n
      modifies this
      ensures err.Some? ==> Register(n, props[..i + 1]) == Err(err.value) && unchanged(this) && cloud' == cloud
      ensures err.None? ==>
        Registered(n, props, i + 1, spec', initialised', cloud', AddCallback(callbacks, props[i].name, |old(idToAttrState)|))
      ensures err.None? ==> a != null && fresh(a) && idToAttrState == old(idToAttrState) + [a]
      ensures err.None? && DistinctBuffers(cloud) ==> DistinctBuffers(cloud')
      ensures err.None? ==>
        forall key :: key in cloud' ==> (key in cloud && cloud'[key] == cloud[key]) || fresh(cloud'[key].data)
    {
      var p := props[i];
      spec' := spec;
      err, a, initialised', cloud' := NewCursor(n, p, spec, idToAttrState, initialised, cloud);
      if err.Some? {
        RegisterSnoc(n, props, i, spec);
        return;
      }
      spec' := Step(n, spec, p).value;
      Attach(n, props, i, spec, initialised, cloud, callbacks, p.name, a, spec', initialised', cloud');
    }

    /** Records the cursor `NewCursor` made for `props[i]` and extends the registration state
        the ghost parameters describe by that property. */
    method Attach(ghost n: nat, ghost props: seq<PlyProperty>, ghost i: nat, ghost spec: Registration,
                  ghost initialised: set<string>, ghost cloud: map<string, Buffer>, ghost callbacks: seq<(string, nat)>,
                  name: string, a: AttrState, ghost next: Registration, ghost initialised': set<string>,
                  ghost cloud': map<string, Buffer>)
      requires i < |props| && name == props[i].name && Registered(n, props, i, spec, initialised, cloud, callbacks)
      requires GetDtype(props[i].plyType) != Undefined && props[i].readSize == n
      requires Step(n, spec, props[i]) == Ok(next)
      requires a.slot == |idToAttrState| && a.currentSize == 0
      requires Mirrors(next, idToAttrState + [a], cloud', n) && initialised' == next.initialised
      modifies this
      ensures idToAttrState == old(idToAttrState) + [a]
      ensures Registered(n, props, i + 1, next, initialised', cloud', AddCallback(callbacks, name, |old(idToAttrState)|))
    {
      RegisteredSnoc(n, props, i, spec, initialised, cloud, callbacks, nameToAttrState, idToAttrState,
                     a, initialised', cloud', AddCallback(callbacks, name, |idToAttrState|),
                     Recorded(nameToAttrState, name, a));
      EmptySnoc(idToAttrState, a);
      Push(name, a, n, props, i + 1, next, initialised', cloud', AddCallback(callbacks, name, |idToAttrState|));
    }

    /** Records a new cursor under the property's name (`insert` keeps the first cursor
        recorded under a name) and pushes it as the next id, completing the registration
        state the ghost parameters describe. */
    method Push(name: string, a: AttrState, ghost n: nat, ghost props: seq<PlyProperty>, ghost i: nat,
                ghost spec: Registration, ghost initialised: set<string>, ghost cloud: map<string, Buffer>,
                ghost callbacks: seq<(string, nat)>)
      requires RegisteredAfter(n, props, i, spec, initialised, cloud, callbacks,
                               Recorded(nameToAttrState, name, a), idToAttrState + [a])
      requires Empty(idToAttrState + [a])
      modifies this
      ensures idToAttrState == old(idToAttrState) + [a]
      ensures nameToAttrState == Recorded(old(nameToAttrState), name, a)
      ensures Registered(n, props, i, spec, initialised, cloud, callbacks)
    {
      if name !in nameToAttrState {
        nameToAttrState := nameToAttrState[name := a];
      }
      idToAttrState := idToAttrState + [a];
    }

    /** The property loop of ReadPointCloudFromPLY (corrected as described in
        Register): one cursor and one `ply_set_read_cb` registration, with the next free id,
        per supported property. The heap mirrors `Register(n, props)`. */
    method RegisterProperties(n: nat, props: seq<PlyProperty>)
      returns (err: Option<ReadError>, cloud: map<string, Buffer>, callbacks: seq<(string, nat)>)
      requires idToAttrState == [] && nameToAttrState == map[]
      modifies this
      ensures Valid()
      ensures err.None? <==> Register(n, props).Ok?
      ensures err.Some? ==> Register(n, props) == Err(err.value)
      ensures err.None? ==> Mirrors(Register(n, props).value, idToAttrState, cloud, n)
      ensures err.None? ==>
        && |callbacks| == |idToAttrState| == |Supported(props)|
        && callbacks == CallbackTable(Supported(props))
      ensures err.None? ==> nameToAttrState.Keys == set p | p in Supported(props) :: p.name
      ensures forall name :: name in nameToAttrState ==> nameToAttrState[name] in idToAttrState
      ensures err.None? ==> forall a :: a in idToAttrState ==> fresh(a) && fresh(a.data)
      ensures err.None? ==> DistinctBuffers(cloud)
      ensures err.None? ==> forall k :: 0 <= k < |idToAttrState| ==> idToAttrState[k].currentSize == 0
    {
      var i;
      ghost var spec, initialised;
      err, i, spec, initialised, cloud, callbacks := RegisterPrefix(n, props);
      RegisteredCursors(n, props, i, spec, initialised, cloud, callbacks);
      if err.Some? {
        RegisterErrPersists(n, props, i + 1);
      } else {
        RegisteredComplete(n, props, i, spec, initialised, cloud, callbacks, nameToAttrState, idToAttrState);
      }
    }

    /** The loop of RegisterProperties: it stops after the whole list or at the first
        error, with the heap mirroring the registrations of the prefix before it. */
    method RegisterPrefix(n: nat, props: seq<PlyProperty>)
      returns (err: Option<ReadError>, i: nat, ghost spec: Registration, initialised: set<string>,
               cloud: map<string, Buffer>, callbacks: seq<(string, nat)>)
      requires idToAttrState == [] && nameToAttrState == map[]
      modifies this
      ensures i <= |props| && (err.None? ==> i == |props|)
      ensures err.Some? ==> i < |props| && Register(n, props[..i + 1]) == Err(err.value)
      ensures Registered(n, props, i, spec, initialised, cloud, callbacks)
      ensures forall k :: 0 <= k < |idToAttrState| ==> fresh(idToAttrState[k])
      ensures forall key :: key in cloud ==> fresh(cloud[key].data)
      ensures DistinctBuffers(cloud)
    {
      cloud, callbacks, err := map[], [], None;
      initialised := {};
      spec := EmptyRegistration;
      i := 0;
      assert props[..0] == [];
      while i < |props|
        invariant i <= |props|
        invariant Registered(n, props, i, spec, initialised, cloud, callbacks)
        invariant forall k :: 0 <= k < |idToAttrState| ==> fresh(idToAttrState[k])
        invariant forall key :: key in cloud ==> fresh(cloud[key].data)
        invariant DistinctBuffers(cloud)
      {
        var e, initialised', cloud', callbacks', a;
        ghost var spec';
        e, spec', initialised', cloud', callbacks', a := RegisterNext(n, props, i, spec, initialised, cloud, callbacks);
        if e.Some? {
          err := e;
          return;
        }
        spec, initialised, cloud, callbacks := spec', initialised', cloud', callbacks';
        i := i + 1;
      }
    }

    /** The loop's state has well-formed cursors and records each name with one of them. */
    lemma RegisteredCursors(n: nat, props: seq<PlyProperty>, i: nat, spec: Registration,
                            initialised: set<string>, cloud: map<string, Buffer>, callbacks: seq<(string, nat)>)
      requires Registered(n, props, i, spec, initialised, cloud, callbacks)
      ensures Valid()
      ensures forall name :: name in nameToAttrState ==> nameToAttrState[name] in idToAttrState
    {
      EmptyCursors(idToAttrState);
    }

    /** `ply_read` driving the callbacks: invocations are delivered in order until one is
        refused. Each cursor advances by exactly the number of accepted invocations that
        carry its id, and on a refusal the refused cursor is full. Every entry no cursor has
        written keeps its value; when cursors sharing a tensor write different columns, the
        entry of the `j`-th row a cursor has written holds the `j`-th accepted value for its id. */
    method Read(events: seq<ReadEvent>) returns (ok: bool, accepted: nat)
      requires Valid()
      requires forall e :: e in events ==> e.id < |idToAttrState|
      modifies set a | a in idToAttrState, set a | a in idToAttrState :: a.data
      ensures Valid()
      ensures accepted <= |events| && (ok <==> accepted == |events|)
      ensures !ok ==> idToAttrState[events[accepted].id].currentSize == idToAttrState[events[accepted].id].size
      ensures ReadProgress(idToAttrState, old(Sizes(idToAttrState)), old(Contents(idToAttrState)),
                           events[..accepted], Disjoint(idToAttrState))
    {
      accepted := 0;
      ghost var starts := Sizes(idToAttrState);
      ghost var orig := Contents(idToAttrState);
      ghost var disjoint := Disjoint(idToAttrState);
      assert events[..0] == [];
      while accepted < |events|
        invariant Valid() && accepted <= |events|
        invariant ReadProgress(idToAttrState, starts, orig, events[..accepted], disjoint)
      {
        assert events[accepted] in events;
        var r := Deliver(events, accepted, starts, orig, disjoint);
        if r == 0 {
          return false, accepted;
        }
        accepted := accepted + 1;
      }
      ok := true;
    }

    /** `ply_read` delivering invocation `accepted` to its callback. */
    method Deliver(events: seq<ReadEvent>, accepted: nat, ghost starts: seq<nat>, ghost orig: seq<seq<real>>,
                   ghost disjoint: bool) returns (r: int)
      requires Valid() && accepted < |events| && events[accepted].id < |idToAttrState|
      requires ReadProgress(idToAttrState, starts, orig, events[..accepted], disjoint)
      requires disjoint ==> Disjoint(idToAttrState)
      modifies idToAttrState[events[accepted].id], idToAttrState[events[accepted].id].data
      ensures Valid()
      ensures r == 0 ==> ReadProgress(idToAttrState, starts, orig, events[..accepted], disjoint)
      ensures r == 0 ==>
        idToAttrState[events[accepted].id].currentSize == idToAttrState[events[accepted].id].size
      ensures r != 0 ==> ReadProgress(idToAttrState, starts, orig, events[..accepted + 1], disjoint)
    {
      var e := events[accepted];
      r := ReadAttributeCallback(e.id, e.value);
      ghost var ids := idToAttrState;
      if r == 0 {
        return;
      }
      ghost var id := e.id;
      ghost var a := ids[id];
      ghost var c := old(a.currentSize);
      ghost var idx := WriteIndex(a, c);
      EventsSnoc(events, accepted);
      assert InStripe(a, starts[id], idx);
      if disjoint {
        forall k, j | 0 <= k < |ids| && starts[k] <= j < ids[k].currentSize
          ensures ids[k].data[WriteIndex(ids[k], j)] == IdValues(events[..accepted + 1], k)[j - starts[k]]
        {
          if k == id && j == c {
          } else if ids[k].data == a.data {
            WriteIndexDistinct(a.stride, j, ids[k].offset, c, a.offset);
          }
        }
      }
      forall k, i | 0 <= k < |ids| && 0 <= i < ids[k].data.Length && Untouched(ids, starts, ids[k].data, i)
        ensures i < |orig[k]| && ids[k].data[i] == orig[k][i]
      {
        forall k' | 0 <= k' < |ids| && ids[k'].data == ids[k].data
          ensures old(!InStripe(ids[k'], starts[k'], i))
        {
          assert !InStripe(ids[k'], starts[k'], i);
        }
        assert old(Untouched(ids, starts, ids[k].data, i));
      }
    }
  }

  /** The heap mirrors a value-level registration: cursor `k` has slot `k`'s key, element
      type and layout and is bound to the cloud's current buffer for its key, and every buffer
      has the recorded element type and columns and `cols * n` entries. */
  ghost predicate Mirrors(reg: Registration, ids: seq<AttrState>, cloud: map<string, Buffer>, n: nat) {
    && |ids| == |reg.slots|
    && cloud.Keys == reg.cloud.Keys
    && (forall key :: key in cloud ==>
          cloud[key].dtype == reg.cloud[key].dtype && cloud[key].cols == reg.cloud[key].cols
          && cloud[key].data.Length == cloud[key].cols * n)
    && (forall k :: 0 <= k < |ids| ==>
          && ids[k].name == reg.slots[k].key && ids[k].dtype == reg.slots[k].dtype
          && ids[k].stride == reg.slots[k].stride && ids[k].offset == reg.slots[k].offset
          && ids[k].size == n && ids[k].Shaped()
          && ids[k].name in cloud && ids[k].data == cloud[ids[k].name].data)
  }

  /** No two properties of the list have the same name. */
  predicate DistinctNames(ps: seq<PlyProperty>) {
    forall j, k :: 0 <= j < k < |ps| ==> ps[j].name != ps[k].name
  }

  /** Slots with the same key have the same stride and different columns. */
  ghost predicate SlotsDisjoint(reg: Registration) {
    forall k1, k2 :: 0 <= k1 < |reg.slots| && 0 <= k2 < |reg.slots| && k1 != k2 && reg.slots[k1].key == reg.slots[k2].key ==>
      reg.slots[k1].stride == reg.slots[k2].stride && reg.slots[k1].offset != reg.slots[k2].offset
  }

  /** When the supported properties have distinct names, no two cursors of the corrected loop
      write the same column of the same tensor. */
  lemma RegisterSlotsDisjoint(n: nat, props: seq<PlyProperty>)
    requires Register(n, props).Ok? && DistinctNames(Supported(props))
    ensures SlotsDisjoint(Register(n, props).value)
  {
    var reg := Register(n, props).value;
    var ps := Supported(props);
    RegisterSound(n, props);
    RegisterLayout(n, props);
    forall k1, k2 | 0 <= k1 < |reg.slots| && 0 <= k2 < |reg.slots| && k1 != k2 && reg.slots[k1].key == reg.slots[k2].key
      ensures reg.slots[k1].stride == reg.slots[k2].stride && reg.slots[k1].offset != reg.slots[k2].offset
    {
      assert SlotSound(reg, reg.slots[k1]) && SlotSound(reg, reg.slots[k2]);
      assert ps[k1].name != ps[k2].name by {
        if k1 < k2 {
          assert ps[k1].name != ps[k2].name;
        } else {
          assert ps[k2].name != ps[k1].name;
        }
      }
      LayoutInjective(ps[k1].name, ps[k2].name);
    }
  }

  /** Disjoint slots and distinct storage per tensor make the mirroring cursors disjoint. */
  lemma MirrorsDisjoint(reg: Registration, ids: seq<AttrState>, cloud: map<string, Buffer>, n: nat)
    requires Mirrors(reg, ids, cloud, n) && DistinctBuffers(cloud) && SlotsDisjoint(reg)
    ensures Disjoint(ids)
  {
  }

  /** The values `vs` are in the rows of slot `s`'s tensor, one per row, in the slot's column. */
  ghost predicate SlotFilled(cloud: map<string, Buffer>, s: SlotInfo, vs: seq<real>)
    reads set key | key in cloud :: cloud[key].data
  {
    && s.key in cloud
    && forall j :: 0 <= j < |vs| ==>
      && s.stride * j + s.offset < cloud[s.key].data.Length
      && cloud[s.key].data[s.stride * j + s.offset] == vs[j]
  }

  /** The `j`-th value carried by id `k` is in row `j` of slot `k`'s tensor, in the slot's column. */
  ghost predicate Filled(cloud: map<string, Buffer>, reg: Registration, events: seq<ReadEvent>)
    reads set key | key in cloud :: cloud[key].data
  {
    forall k :: 0 <= k < |reg.slots| ==> SlotFilled(cloud, reg.slots[k], IdValues(events, k))
  }

  /** A component property extends the mirror: its cursor is bound to the tensor of its key,
      which is allocated now exactly when the key is not yet initialised. */
  lemma ComponentStepMirrors(n: nat, p: PlyProperty, spec: Registration, ids: seq<AttrState>,
                             cloud: map<string, Buffer>, cloudOut: map<string, Buffer>, a: AttrState)
    requires GetDtype(p.plyType) != Undefined && p.readSize == n
    requires PropertyLayout(p.name).stride == 3 && !MixesComponentTypes(spec, p) && !ShadowsTensor(spec, p)
    requires Sound(spec) && Mirrors(spec, ids, cloud, n) && a !in ids
    requires var key := PropertyLayout(p.name).key;
      && (key in spec.initialised ==> cloudOut == cloud)
      && (key !in spec.initialised ==>
            && key in cloudOut
            && cloudOut == cloud[key := Buffer(GetDtype(p.plyType), 3, cloudOut[key].data)]
            && cloudOut[key].data.Length == 3 * n)
      && a.name == key && a.dtype == GetDtype(p.plyType) && a.stride == 3
      && a.offset == PropertyLayout(p.name).offset && a.size == n && a.Shaped()
      && key in cloudOut && a.data == cloudOut[key].data
    ensures Step(n, spec, p).Ok? && Mirrors(Step(n, spec, p).value, ids + [a], cloudOut, n)
  {
    var l := PropertyLayout(p.name);
    var next := Step(n, spec, p).value;
    assert next.slots == spec.slots + [SlotInfo(l.key, GetDtype(p.plyType), 3, l.offset, next.cloud[l.key])];
    var ids' := ids + [a];
    forall k | 0 <= k < |ids'|
      ensures ids'[k].name in cloudOut && ids'[k].data == cloudOut[ids'[k].name].data
    {
      if k < |ids| {
        assert ids'[k] == ids[k];
        assert ids[k].name in spec.cloud;
        assert ids[k].name != l.key || l.key in spec.initialised;
      }
    }
  }

  /** A one-column property that shadows nothing extends the mirror with a fresh tensor. */
  lemma CustomStepMirrors(n: nat, p: PlyProperty, spec: Registration, ids: seq<AttrState>,
                          cloud: map<string, Buffer>, cloudOut: map<string, Buffer>, a: AttrState)
    requires GetDtype(p.plyType) != Undefined && p.readSize == n
    requires PropertyLayout(p.name).stride == 1 && !ShadowsTensor(spec, p)
    requires Sound(spec) && Mirrors(spec, ids, cloud, n) && a !in ids
    requires cloudOut == cloud[p.name := Buffer(GetDtype(p.plyType), 1, a.data)] && a.data.Length == n
    requires a.name == p.name && a.dtype == GetDtype(p.plyType) && a.stride == 1
      && a.offset == 0 && a.size == n && a.Shaped()
    ensures Step(n, spec, p).Ok? && Mirrors(Step(n, spec, p).value, ids + [a], cloudOut, n)
  {
    var next := Step(n, spec, p).value;
    assert next.slots == spec.slots + [SlotInfo(p.name, GetDtype(p.plyType), 1, 0, next.cloud[p.name])];
    var ids' := ids + [a];
    forall k | 0 <= k < |ids'|
      ensures ids'[k].name in cloudOut && ids'[k].data == cloudOut[ids'[k].name].data
    {
      if k < |ids| {
        assert ids'[k] == ids[k];
        assert ids[k].name in spec.cloud;
      }
    }
  }

  /** One supported property of the correct size: a new cursor bound to its tensor,
      allocating the tensor first unless it is a component tensor already allocated. */
  method NewCursor(n: nat, p: PlyProperty, ghost spec: Registration, ghost ids: seq<AttrState>,
                   initialised: set<string>, cloud: map<string, Buffer>)
    returns (err: Option<ReadError>, a: AttrState?, initialisedOut: set<string>, cloudOut: map<string, Buffer>)
    requires GetDtype(p.plyType) != Undefined && p.readSize == n
    requires Sound(spec) && initialised == spec.initialised && Mirrors(spec, ids, cloud, n)
    ensures err.None? <==> Step(n, spec, p).Ok?
    ensures err.Some? ==> Step(n, spec, p) == Err(err.value) && initialisedOut == initialised && cloudOut == cloud
    ensures err.None? ==>
      && a != null && fresh(a) && a.name == PropertyLayout(p.name).key && a.slot == |ids| && a.currentSize == 0
      && Mirrors(Step(n, spec, p).value, ids + [a], cloudOut, n)
      && initialisedOut == Step(n, spec, p).value.initialised
      && (DistinctBuffers(cloud) ==> DistinctBuffers(cloudOut))
      && forall key :: key in cloudOut ==> (key in cloud && cloudOut[key] == cloud[key]) || fresh(cloudOut[key].data)
  {
    var d := GetDtype(p.plyType);
    var l := PropertyLayout(p.name);
    initialisedOut, cloudOut, a := initialised, cloud, null;
    if l.stride == 3 {
      if l.key in initialised && cloud[l.key].dtype != d {
        return Some(MixedComponentTypes), a, initialisedOut, cloudOut;
      }
      if l.key in cloud && l.key !in initialised {
        return Some(ShadowedTensor), a, initialisedOut, cloudOut;
      }
      if l.key !in initialised {
        var storage := new real[3 * n];
        cloudOut := cloud[l.key := Buffer(d, 3, storage)];
        initialisedOut := initialised + {l.key};
      }
      a := new AttrState(l.key, d, cloudOut[l.key].data, 3, l.offset, n, |ids|);
      ComponentStepMirrors(n, p, spec, ids, cloud, cloudOut, a);
    } else {
      if p.name in cloud {
        return Some(ShadowedTensor), a, initialisedOut, cloudOut;
      }
      var storage := new real[n];
      cloudOut := cloud[p.name := Buffer(d, 1, storage)];
      a := new AttrState(p.name, d, storage, 1, 0, n, |ids|);
      CustomStepMirrors(n, p, spec, ids, cloud, cloudOut, a);
    }
    err := None;
  }

  // ------------------------------------------------------------------------------------
  // The header phase of ReadPointCloudFromPLY.

  /** The position of the first element named "vertex". */
  function VertexElementIndex(elements: seq<PlyElement>): (r: Option<nat>)
    ensures r.Some? ==>
      && r.value < |elements| && elements[r.value].name == "vertex"
      && forall j :: 0 <= j < r.value ==> elements[j].name != "vertex"
    ensures r.None? ==> forall j :: 0 <= j < |elements| ==> elements[j].name != "vertex"
  {
    if elements == [] then None
    else if elements[0].name == "vertex" then Some(0)
    else match VertexElementIndex(elements[1..])
      case None => None
      case Some(i) => Some(i + 1)
  }

  /** The element loop of ReadPointCloudFromPLY. */
  method FindVertexElement(elements: seq<PlyElement>) returns (found: Option<nat>)
    ensures found == VertexElementIndex(elements)
  {
    var i := 0;
    while i < |elements|
      invariant i <= |elements|
      invariant forall j :: 0 <= j < i ==> elements[j].name != "vertex"
    {
      if elements[i].name == "vertex" {
        return Some(i);
      }
      i := i + 1;
    }
    return None;
  }

  /** How many ids `ply_read` may deliver for a file: one per supported vertex property. */
  function RegisteredCount(file: PlyFile): nat {
    if !file.Header? then 0
    else match VertexElementIndex(file.elements)
      case None => 0
      case Some(i) => |Supported(file.elements[i].properties)|
  }

  /** The read of the vertex element: register its properties, then let rply deliver the
      values. The read is aborted exactly when some id is delivered more often than the element
      has rows. On success the cloud holds one buffer per tensor the registration created, with
      `cols * size` entries of its element type, and, when the properties have distinct names,
      each delivered value at its row and column. */
  method ReadVertexElement(vertex: PlyElement, events: seq<ReadEvent>)
    returns (r: Result<map<string, Buffer>, ReadError>)
    requires forall e :: e in events ==> e.id < |Supported(vertex.properties)|
    ensures var reg := Register(vertex.size, vertex.properties);
      && (reg.Err? ==> r == Err(reg.error))
      && (reg.Ok? ==> r.Ok? || r == Err(ReadAborted))
      && (reg.Ok? ==> (r == Err(ReadAborted) <==> exists k :: CountId(events, k) > vertex.size))
      && (r.Ok? && DistinctNames(Supported(vertex.properties)) ==> Filled(r.value, reg.value, events))
      && (r.Ok? ==>
            && r.value.Keys == reg.value.cloud.Keys
            && forall key :: key in r.value ==>
                 && r.value[key].dtype == reg.value.cloud[key].dtype
                 && r.value[key].cols == reg.value.cloud[key].cols
                 && r.value[key].data.Length == r.value[key].cols * vertex.size)
  {
    var state := new PlyReaderState();
    var err, cloud, callbacks := state.RegisterProperties(vertex.size, vertex.properties);
    if err.Some? {
      return Err(err.value);
    }
    ghost var reg := Register(vertex.size, vertex.properties).value;
    ghost var ids := state.idToAttrState;
    assert |ids| == |reg.slots| == |Supported(vertex.properties)|;
    assert forall k :: 0 <= k < |ids| ==>
      && reg.slots[k].key in cloud && ids[k].data == cloud[reg.slots[k].key].data && ids[k].stride == reg.slots[k].stride
      && ids[k].offset == reg.slots[k].offset && ids[k].size == vertex.size;
    ghost var disjoint := DistinctNames(Supported(vertex.properties));
    if disjoint {
      RegisterSlotsDisjoint(vertex.size, vertex.properties);
      MirrorsDisjoint(reg, ids, cloud, vertex.size);
    }
    r := ReadRegistered(state, cloud, reg, vertex.size, events, disjoint);
  }

  /** The reading half of ReadVertexElement, once the registration `reg` is mirrored by the
      empty cursors of `state`: rply delivers `events`, and the read is aborted exactly when
      some id is delivered more often than `n` times. */
  method ReadRegistered(state: PlyReaderState, cloud: map<string, Buffer>, ghost reg: Registration, n: nat,
                        events: seq<ReadEvent>, ghost disjoint: bool)
    returns (r: Result<map<string, Buffer>, ReadError>)
    requires state.Valid() && |state.idToAttrState| == |reg.slots|
    requires forall e :: e in events ==> e.id < |state.idToAttrState|
    requires forall k :: 0 <= k < |state.idToAttrState| ==>
      var a := state.idToAttrState[k];
      && reg.slots[k].key in cloud && a.data == cloud[reg.slots[k].key].data
      && a.stride == reg.slots[k].stride && a.offset == reg.slots[k].offset
      && a.size == n && a.currentSize == 0
    requires disjoint ==> Disjoint(state.idToAttrState)
    modifies set a | a in state.idToAttrState, set a | a in state.idToAttrState :: a.data
    ensures r.Ok? ==> r.value == cloud
    ensures r.Ok? || r == Err(ReadAborted)
    ensures r == Err(ReadAborted) <==> exists k :: CountId(events, k) > n
    ensures r.Ok? && disjoint ==> Filled(cloud, reg, events)
  {
    ghost var ids := state.idToAttrState;
    ghost var before, orig := Sizes(ids), Contents(ids);
    var ok, accepted := state.Read(events);
    assert state.idToAttrState == ids;
    if !ok {
      var id := events[accepted].id;
      EventsSnoc(events, accepted);
      CountIdPrefix(events, accepted + 1, id);
      assert CountId(events, id) > n;
      return Err(ReadAborted);
    }
    assert events[..accepted] == events;
    assert forall k :: 0 <= k < |ids| ==> ids[k].currentSize == CountId(events, k);
    forall k: nat
      ensures CountId(events, k) <= n
    {
      if k >= |ids| {
        CountIdAbsent(events, k);
      } else {
        assert ids[k].Valid();
      }
    }
    if disjoint {
      FilledFromCursors(cloud, reg, ids, before, orig, events);
    }
    return Ok(cloud);
  }

  /** Cursors that started empty and have taken exactly the values of their ids, each at its
      write position, have filled the cloud's tensors they are bound to. */
  lemma FilledFromCursors(cloud: map<string, Buffer>, reg: Registration, ids: seq<AttrState>,
                          before: seq<nat>, orig: seq<seq<real>>, events: seq<ReadEvent>)
    requires ReadProgress(ids, before, orig, events, true) && |ids| == |reg.slots|
    requires forall k :: 0 <= k < |ids| ==>
      && reg.slots[k].key in cloud && ids[k].data == cloud[reg.slots[k].key].data
      && ids[k].stride == reg.slots[k].stride && ids[k].offset == reg.slots[k].offset
      && before[k] == 0
    ensures Filled(cloud, reg, events)
  {
    forall k | 0 <= k < |reg.slots|
      ensures SlotFilled(cloud, reg.slots[k], IdValues(events, k))
    {
      var s, vs := reg.slots[k], IdValues(events, k);
      forall j | 0 <= j < |vs|
        ensures s.stride * j + s.offset < cloud[s.key].data.Length
        ensures cloud[s.key].data[s.stride * j + s.offset] == vs[j]
      {
        assert before[k] <= j < ids[k].currentSize && ids[k].Valid();
        assert WriteIndex(ids[k], j) == s.stride * j + s.offset;
      }
    }
  }

  /** ReadPointCloudFromPLY: open, parse the header, find the vertex element and read it. */
  method ReadPointCloudFromPly(file: PlyFile, events: seq<ReadEvent>)
    returns (r: Result<map<string, Buffer>, ReadError>)
    requires forall e :: e in events ==> e.id < RegisteredCount(file)
    ensures file == Unopenable ==> r == Err(OpenFailed)
    ensures file == BadHeader ==> r == Err(HeaderFailed)
    ensures file.Header? && VertexElementIndex(file.elements).None? ==> r == Err(NoVertexElement)
    ensures file.Header? && VertexElementIndex(file.elements).Some? ==>
      var v := file.elements[VertexElementIndex(file.elements).value];
      var reg := Register(v.size, v.properties);
      && (reg.Err? ==> r == Err(reg.error))
      && (reg.Ok? ==> r.Ok? || r == Err(ReadAborted))
      && (reg.Ok? ==> (r == Err(ReadAborted) <==> exists k :: CountId(events, k) > v.size))
      && (r.Ok? && DistinctNames(Supported(v.properties)) ==> Filled(r.value, reg.value, events))
      && (r.Ok? ==>
            && r.value.Keys == reg.value.cloud.Keys
            && forall key :: key in r.value ==>
                 && r.value[key].dtype == reg.value.cloud[key].dtype
                 && r.value[key].cols == reg.value.cloud[key].cols
                 && r.value[key].data.Length == r.value[key].cols * v.size)
  {
    if file == Unopenable {
      return Err(OpenFailed);
    }
    if file == BadHeader {
      return Err(HeaderFailed);
    }
    var found := FindVertexElement(file.elements);
    if found.None? {
      return Err(NoVertexElement);
    }
    r := ReadVertexElement(file.elements[found.value], events);
  }
}
