/**
  The selection state of one Open3D window in the TensorBoard plugin (plugin.py): which
  run, tags, step and batch index are shown, the geometry names on screen, the clamp of
  a new window's size, the window registry, and the step-reference guard of
  `read_geometry`.

  Event files, protobuf and msgpack parsing, the GUI and the HTTP layer are not part of
  this model: the reader's run-to-tags map and the tensor events of each run and tag are
  an `EventData` value.
 */
module TensorboardPlugin {
  import opened Wrappers

  /** One TensorBoard tensor event: its step, its wall time and the number of batch
      entries its metadata lists (`len(batch_index.start_size)`). */
  datatype TensorEvent = TensorEvent(step: int, wallTime: real, batchSize: nat)

  /** The data reader's `run_to_tags` (its keys in iteration order in `runs`) and
      `event_mux.Tensors(run, tag)`. */
  datatype EventData = EventData(
    runs: seq<string>,
    runToTags: map<string, seq<string>>,
    tensors: (string, string) -> seq<TensorEvent>)

  predicate ValidEvents(d: EventData) {
    d.runToTags.Keys == set r | r in d.runs
  }

  /** `tensor_events(run)`: the events of every tag of the run. */
  function EventsOf(d: EventData, run: string): (m: map<string, seq<TensorEvent>>)
    requires run in d.runToTags
    ensures forall t :: t in m <==> t in d.runToTags[run]
  {
    map t | t in d.runToTags[run] :: d.tensors(run, t)
  }

  // ------------------------------------------------------------------------------------
  // Pure helpers.

  /** The elements of `xs` that occur in `ys`, in order. */
  function Keep(xs: seq<string>, ys: seq<string>): (r: seq<string>)
    ensures |r| <= |xs|
    ensures forall x :: x in r <==> x in xs && x in ys
  {
    if xs == [] then []
    else
      var rest := Keep(xs[..|xs| - 1], ys);
      if xs[|xs| - 1] in ys then rest + [xs[|xs| - 1]] else rest
  }

  /** The elements of `xs` that do not occur in `ys`, in order. */
  function Without(xs: seq<string>, ys: seq<string>): (r: seq<string>)
    ensures |r| <= |xs|
    ensures forall x :: x in r <==> x in xs && x !in ys
  {
    if xs == [] then []
    else
      var rest := Without(xs[..|xs| - 1], ys);
      if xs[|xs| - 1] in ys then rest else rest + [xs[|xs| - 1]]
  }

  /** `{tevt.step: idx for idx, tevt in enumerate(events)}`: a later event with the same
      step overrides an earlier one. */
  function StepIndex(es: seq<TensorEvent>): (m: map<int, nat>)
    ensures forall s :: s in m ==> m[s] < |es| && es[m[s]].step == s
    ensures forall s, i :: s in m && m[s] < i < |es| ==> es[i].step != s
  {
    if es == [] then map[]
    else
      var m := StepIndex(es[..|es| - 1]);
      var last := |es| - 1;
      assert forall i :: 0 <= i < last ==> es[..last][i] == es[i];
      m[es[last].step := last]
  }

  /** The index holds exactly the events' steps. */
  lemma {:induction false} StepIndexKeys(es: seq<TensorEvent>)
    ensures forall s :: s in StepIndex(es) <==> exists i :: 0 <= i < |es| && es[i].step == s
  {
    if es != [] {
      var init := es[..|es| - 1];
      StepIndexKeys(init);
      assert forall i :: 0 <= i < |init| ==> init[i] == es[i];
    }
  }

  function MinStep(es: seq<TensorEvent>): int
    requires es != []
  {
    if |es| == 1 then es[0].step
    else
      var m := MinStep(es[..|es| - 1]);
      if es[|es| - 1].step < m then es[|es| - 1].step else m
  }

  function MaxStep(es: seq<TensorEvent>): int
    requires es != []
  {
    if |es| == 1 then es[0].step
    else
      var m := MaxStep(es[..|es| - 1]);
      if es[|es| - 1].step > m then es[|es| - 1].step else m
  }

  /** `step_limits` holds the smallest and the largest step of the index. */
  lemma {:induction false} StepLimits(es: seq<TensorEvent>)
    requires es != []
    ensures MinStep(es) in StepIndex(es) && MaxStep(es) in StepIndex(es)
    ensures forall s :: s in StepIndex(es) ==> MinStep(es) <= s <= MaxStep(es)
  {
    if |es| > 1 {
      var init := es[..|es| - 1];
      StepLimits(init);
      assert StepIndex(es).Keys == StepIndex(init).Keys + {es[|es| - 1].step};
    }
  }

  /** Python's decimal rendering of an integer. */
  function DecimalString(n: int): (s: string)
    ensures |s| > 0
  {
    if n < 0 then "-" + NatDigits(-n) else NatDigits(n)
  }

  function NatDigits(n: nat): (s: string)
    ensures |s| > 0
    ensures forall i :: 0 <= i < |s| ==> '0' <= s[i] <= '9'
  {
    var d := [(n % 10) as char + '0' as char];
    if n < 10 then d else NatDigits(n / 10) + d
  }

  /** The number a string of decimal digits denotes. */
  function DigitsValue(s: string): nat
    requires forall i :: 0 <= i < |s| ==> '0' <= s[i] <= '9'
  {
    if s == [] then 0 else 10 * DigitsValue(s[..|s| - 1]) + (s[|s| - 1] as int - '0' as int)
  }

  /** `NatDigits` renders `n` itself, without leading zeros. */
  lemma {:induction false} NatDigitsValue(n: nat)
    ensures DigitsValue(NatDigits(n)) == n
    ensures NatDigits(n)[0] == '0' ==> n == 0
  {
    if n >= 10 {
      NatDigitsValue(n / 10);
      var s := NatDigits(n);
      assert s[..|s| - 1] == NatDigits(n / 10);
      assert s[0] == NatDigits(n / 10)[0];
    }
  }

  /** The on-screen name of the geometry of one tag. */
  function GeometryName(run: string, tag: string, batchIdx: int, step: int): (r: string)
    ensures |r| > |run| + 1 + |tag| && r[..|run| + 1] == run + "/" && r[|run| + 1..|run| + 1 + |tag|] == tag
  {
    (run + "/") + tag + GeometrySuffix(batchIdx, step)
  }

  function GeometrySuffix(batchIdx: int, step: int): string {
    "/b" + DecimalString(batchIdx) + "/s" + DecimalString(step)
  }

  function GeometryNames(run: string, tags: seq<string>, batchIdx: int, step: int): (r: seq<string>)
    ensures |r| == |tags|
    ensures forall i :: 0 <= i < |tags| ==> r[i] == GeometryName(run, tags[i], batchIdx, step)
  {
    seq(|tags|, i requires 0 <= i < |tags| => GeometryName(run, tags[i], batchIdx, step))
  }

  /** A fixed prefix and suffix around a string determine it. */
  lemma FramedCancel(prefix: string, t1: string, t2: string, suffix: string)
    requires prefix + t1 + suffix == prefix + t2 + suffix
    ensures t1 == t2
  {
    var n1, n2 := prefix + t1 + suffix, prefix + t2 + suffix;
    assert |t1| == |t2|;
    assert n1[|prefix|..|prefix| + |t1|] == t1;
    assert n2[|prefix|..|prefix| + |t2|] == t2;
  }

  /** With run, batch index and step fixed, the name determines the tag. */
  lemma GeometryNameInjective(run: string, t1: string, t2: string, batchIdx: int, step: int)
    requires GeometryName(run, t1, batchIdx, step) == GeometryName(run, t2, batchIdx, step)
    ensures t1 == t2
  {
    FramedCancel(run + "/", t1, t2, GeometrySuffix(batchIdx, step));
  }

  /** Distinct tags give distinct names. */
  lemma GeometryNamesDistinct(run: string, tags: seq<string>, batchIdx: int, step: int)
    requires forall i, j :: 0 <= i < j < |tags| ==> tags[i] != tags[j]
    ensures var names := GeometryNames(run, tags, batchIdx, step);
      forall i, j :: 0 <= i < j < |names| ==> names[i] != names[j]
  {
    var names := GeometryNames(run, tags, batchIdx, step);
    forall i, j | 0 <= i < j < |names|
      ensures names[i] != names[j]
    {
      if names[i] == names[j] {
        GeometryNameInjective(run, tags[i], tags[j], batchIdx, step);
      }
    }
  }

  /** The scene diff of `_update_scene`: every new name is added or was already shown;
      nothing already shown is added again; exactly the old names that are no longer
      wanted are removed, and nothing wanted is removed. */
  lemma SceneDiff(old_: seq<string>, new_: seq<string>)
    ensures forall n :: n in new_ ==> n in old_ || n in Without(new_, old_)
    ensures forall n :: n in Without(new_, old_) ==> n !in old_
    ensures forall n :: n in Without(old_, new_) <==> n in old_ && n !in new_
    ensures forall n :: n in Without(old_, new_) ==> n !in new_
  {
  }

  // ------------------------------------------------------------------------------------
  // New windows and the window registry.

  /** `int(float(...))` truncates toward zero. */
  function Truncate(r: real): (t: int)
    ensures r >= 0.0 ==> 0.0 <= t as real <= r < t as real + 1.0
    ensures r < 0.0 ==> t as real - 1.0 < r <= t as real <= 0.0
  {
    if r >= 0.0 then r.Floor else -((-r).Floor)
  }

  function Clamp(lo: int, hi: int, v: int): (r: int)
    requires lo <= hi
    ensures lo <= r <= hi
    ensures lo <= v <= hi ==> r == v
    ensures v < lo ==> r == lo
    ensures v > hi ==> r == hi
  {
    if hi < (if lo < v then v else lo) then hi else if lo < v then v else lo
  }

  /** The size `_new_window` gives a window for the request's optional width and height. */
  function WindowSize(width: Option<real>, height: Option<real>): (size: (int, int))
    ensures 640 <= size.0 <= 3840 && 480 <= size.1 <= 2400
  {
    var w := if width.Some? then Truncate(width.value) else 1024;
    var h := if height.Some? then Truncate(height.value) else 768;
    (Clamp(640, 3840, w), Clamp(480, 2400, h))
  }

  /** A window size asked for within the limits is granted; the default is 1024 by 768. */
  lemma WindowSizeGranted(w: nat, h: nat)
    ensures 640 <= w <= 3840 && 480 <= h <= 2400 ==>
      WindowSize(Some(w as real), Some(h as real)) == (w, h)
    ensures WindowSize(None, None) == (1024, 768)
  {
    assert Truncate(w as real) == w && Truncate(h as real) == h;
  }

  /** The plugin's open windows, by window id. */
  class PluginWindows {
    var windows: map<string, (int, int)>

    constructor ()
      ensures windows == map[]
    {
      windows := map[];
    }

    /** `_new_window`: the id comes from the GUI. */
    method NewWindow(uid: string, width: Option<real>, height: Option<real>) returns (size: (int, int))
      modifies this
      ensures size == WindowSize(width, height)
      ensures 640 <= size.0 <= 3840 && 480 <= size.1 <= 2400
      ensures windows == old(windows)[uid := size]
    {
      size := WindowSize(width, height);
      windows := windows[uid := size];
    }

    /** `_close_window`: an unknown id is refused and changes nothing. */
    method CloseWindow(id: string) returns (found: bool)
      modifies this
      ensures found <==> id in old(windows)
      ensures windows == old(windows) - {id}
      ensures !found ==> windows == old(windows)
    {
      if id !in windows {
        return false;
      }
      windows := windows - {id};
      found := true;
    }
  }

  // ------------------------------------------------------------------------------------
  // Property references in `read_geometry`.

  /** A geometry read at `step`, with the geometries its properties were copied from. */
  datatype Geometry = Geometry(step: int, borrowed: seq<Geometry>)

  /** The known steps at or before `step`. */
  function AtMost(steps: set<int>, step: int): set<int> {
    set k | k in steps && k <= step
  }

  lemma FewerSteps(steps: set<int>, earlier: int, step: int)
    requires step in steps && earlier < step
    ensures |AtMost(steps, earlier)| < |AtMost(steps, step)|
  {
    var (below, rest) := (AtMost(steps, earlier), AtMost(steps, step) - AtMost(steps, earlier));
    assert step in rest;
    assert AtMost(steps, step) == below + rest;
    assert below * rest == {};
  }

  /** Every borrowed geometry comes from a known, strictly earlier step. */
  predicate Earlier(g: Geometry, steps: set<int>) {
    g.step in steps &&
    forall i :: 0 <= i < |g.borrowed| ==> g.borrowed[i].step < g.step && Earlier(g.borrowed[i], steps)
  }

  /** The length of the longest chain of references, the geometry itself included. */
  function Depth(g: Geometry): nat
    decreases g, 1
  {
    1 + MaxDepth(g, 0)
  }

  function MaxDepth(g: Geometry, i: nat): nat
    requires i <= |g.borrowed|
    decreases g, 0, |g.borrowed| - i
  {
    if i == |g.borrowed| then 0
    else
      var d := Depth(g.borrowed[i]);
      var rest := MaxDepth(g, i + 1);
      if d < rest then rest else d
  }

  lemma {:induction false} MaxDepthBound(g: Geometry, i: nat, bound: nat)
    requires i <= |g.borrowed|
    requires forall k :: i <= k < |g.borrowed| ==> Depth(g.borrowed[k]) <= bound
    ensures MaxDepth(g, i) <= bound
    decreases |g.borrowed| - i
  {
    if i < |g.borrowed| {
      MaxDepthBound(g, i + 1, bound);
    }
  }

  /** `read_geometry(run, tag, step, ...)`: `steps` are the keys of `step_to_idx` and
      `refsAt(s)` the steps referenced by the properties of the geometry at step `s`. A
      step that is not a key is a `KeyError`, reported as `Err(step)`. A reference to the
      same or a later step is ignored; any other is read recursively, so the recursion is
      no deeper than the number of known steps up to `step`. */
  function ReadGeometry(steps: set<int>, refsAt: int -> seq<int>, step: int): (r: Result<Geometry, int>)
    ensures r.Ok? ==> r.value.step == step && Earlier(r.value, steps)
    ensures r.Ok? ==> Depth(r.value) <= |AtMost(steps, step)|
    ensures r.Err? ==> r.error !in steps
    decreases |AtMost(steps, step)|, 1, 0
  {
    if step !in steps then Err(step)
    else
      match ReadReferences(steps, refsAt, step, refsAt(step))
      case Err(e) => Err(e)
      case Ok(gs) =>
        var g := Geometry(step, gs);
        assert step in AtMost(steps, step);
        MaxDepthBound(g, 0, |AtMost(steps, step)| - 1);
        Ok(g)
  }

  function ReadReferences(steps: set<int>, refsAt: int -> seq<int>, step: int, refs: seq<int>)
    : (r: Result<seq<Geometry>, int>)
    requires step in steps
    ensures r.Ok? ==> forall i :: 0 <= i < |r.value| ==>
      r.value[i].step < step && Earlier(r.value[i], steps) && Depth(r.value[i]) < |AtMost(steps, step)|
    ensures r.Ok? ==> forall i :: 0 <= i < |r.value| ==> r.value[i].step in refs
    ensures r.Err? ==> r.error !in steps
    decreases |AtMost(steps, step)|, 0, |refs|
  {
    if refs == [] then Ok([])
    else if refs[0] >= step then ReadReferences(steps, refsAt, step, refs[1..])
    else
      FewerSteps(steps, refs[0], step);
      match ReadGeometry(steps, refsAt, refs[0])
      case Err(e) => Err(e)
      case Ok(g) =>
        match ReadReferences(steps, refsAt, step, refs[1..])
        case Err(e) => Err(e)
        case Ok(gs) => Ok([g] + gs)
  }

  /** The references the loop of `read_geometry` follows: those to earlier steps, in order. */
  function EarlierRefs(refs: seq<int>, step: int): (r: seq<int>)
    ensures forall x :: x in r <==> x in refs && x < step
  {
    if refs == [] then []
    else if refs[0] >= step then EarlierRefs(refs[1..], step)
    else [refs[0]] + EarlierRefs(refs[1..], step)
  }

  /** Every one of `refs` can be read. */
  predicate AllReadable(steps: set<int>, refsAt: int -> seq<int>, refs: seq<int>) {
    forall k :: 0 <= k < |refs| ==> ReadGeometry(steps, refsAt, refs[k]).Ok?
  }

  /** Reference `k` is the first of `refs` whose geometry cannot be read, failing with `e`. */
  predicate FirstFailure(steps: set<int>, refsAt: int -> seq<int>, refs: seq<int>, k: int, e: int) {
    && 0 <= k < |refs| && ReadGeometry(steps, refsAt, refs[k]) == Err(e)
    && forall j :: 0 <= j < k ==> ReadGeometry(steps, refsAt, refs[j]).Ok?
  }

  /** The references are read one by one, in order: the loop succeeds exactly when every
      earlier reference can be read, and then yields their geometries in the order of the
      references; otherwise it fails with the error of the first one that cannot. */
  lemma ReadReferencesInOrder(steps: set<int>, refsAt: int -> seq<int>, step: int, refs: seq<int>)
    requires step in steps
    ensures var r := ReadReferences(steps, refsAt, step, refs);
      var earlier := EarlierRefs(refs, step);
      && (r.Ok? <==> AllReadable(steps, refsAt, earlier))
      && (r.Ok? ==> |r.value| == |earlier|)
      && (r.Ok? ==> forall k :: 0 <= k < |earlier| ==> ReadGeometry(steps, refsAt, earlier[k]) == Ok(r.value[k]))
      && (r.Err? ==> exists k :: FirstFailure(steps, refsAt, earlier, k, r.error))
  {
    ReadReferencesOk(steps, refsAt, step, refs);
    var k := ReadReferencesErr(steps, refsAt, step, refs);
    var r := ReadReferences(steps, refsAt, step, refs);
    var earlier := EarlierRefs(refs, step);
    if r.Err? {
      assert FirstFailure(steps, refsAt, earlier, k, r.error);
      assert !ReadGeometry(steps, refsAt, earlier[k]).Ok?;
    } else {
      assert AllReadable(steps, refsAt, earlier);
    }
    if AllReadable(steps, refsAt, earlier) {
      ReadReferencesAllOk(steps, refsAt, step, refs);
    }
  }

  /** The success half of ReadReferencesInOrder: the geometries are those of the earlier
      references, in order. */
  lemma {:induction false} ReadReferencesOk(steps: set<int>, refsAt: int -> seq<int>, step: int, refs: seq<int>)
    requires step in steps
    ensures var r := ReadReferences(steps, refsAt, step, refs);
      var earlier := EarlierRefs(refs, step);
      r.Ok? ==> |r.value| == |earlier| && forall k :: 0 <= k < |earlier| ==> ReadGeometry(steps, refsAt, earlier[k]) == Ok(r.value[k])
  {
    if refs != [] {
      ReadReferencesOk(steps, refsAt, step, refs[1..]);
      var earlier := EarlierRefs(refs, step);
      var rest := EarlierRefs(refs[1..], step);
      var r := ReadReferences(steps, refsAt, step, refs);
      var r1 := ReadReferences(steps, refsAt, step, refs[1..]);
      if refs[0] < step && r.Ok? {
        assert earlier == [refs[0]] + rest;
        forall k | 0 <= k < |earlier|
          ensures ReadGeometry(steps, refsAt, earlier[k]) == Ok(r.value[k])
        {
          if k > 0 {
            assert earlier[k] == rest[k - 1] && r.value[k] == r1.value[k - 1];
          }
        }
      }
    }
  }

  /** When every earlier reference can be read, so can all of them together. */
  lemma {:induction false} ReadReferencesAllOk(steps: set<int>, refsAt: int -> seq<int>, step: int, refs: seq<int>)
    requires step in steps
    requires AllReadable(steps, refsAt, EarlierRefs(refs, step))
    ensures ReadReferences(steps, refsAt, step, refs).Ok?
  {
    if refs != [] {
      var earlier := EarlierRefs(refs, step);
      var rest := EarlierRefs(refs[1..], step);
      if refs[0] < step {
        assert earlier == [refs[0]] + rest;
        assert earlier[0] == refs[0];
        assert forall k :: 0 <= k < |rest| ==> rest[k] == earlier[k + 1];
      }
      ReadReferencesAllOk(steps, refsAt, step, refs[1..]);
    }
  }

  /** The failure half of ReadReferencesInOrder: `k` is the first reference that cannot be read. */
  lemma {:induction false} ReadReferencesErr(steps: set<int>, refsAt: int -> seq<int>, step: int, refs: seq<int>)
    returns (k: int)
    requires step in steps
    ensures var r := ReadReferences(steps, refsAt, step, refs);
      r.Err? ==> FirstFailure(steps, refsAt, EarlierRefs(refs, step), k, r.error)
  {
    k := 0;
    if refs != [] {
      var k1 := ReadReferencesErr(steps, refsAt, step, refs[1..]);
      var earlier := EarlierRefs(refs, step);
      var rest := EarlierRefs(refs[1..], step);
      if refs[0] < step {
        assert earlier == [refs[0]] + rest;
        var r := ReadReferences(steps, refsAt, step, refs);
        var r1 := ReadReferences(steps, refsAt, step, refs[1..]);
        var g := ReadGeometry(steps, refsAt, refs[0]);
        if g.Ok? && r1.Err? {
          k := k1 + 1;
          assert earlier[k] == rest[k1];
          forall j | 0 <= j < k
            ensures ReadGeometry(steps, refsAt, earlier[j]).Ok?
          {
            if j > 0 {
              assert earlier[j] == rest[j - 1];
            }
          }
        } else if g.Err? {
          assert earlier[0] == refs[0] && r == Err(g.error);
        }
      } else {
        k := k1;
        assert earlier == rest;
      }
    }
  }

  /** The first loop of `_update_scene`: the names of the tags' geometries, and those
      among them that are not `shown` yet. */
  method NamesToShow(run: string, tags: seq<string>, batchIdx: int, step: int, shown: seq<string>)
    returns (names: seq<string>, added: seq<string>)
    ensures names == GeometryNames(run, tags, batchIdx, step)
    ensures added == Without(names, shown)
  {
    names := [];
    added := [];
    for i := 0 to |tags|
      invariant names == GeometryNames(run, tags[..i], batchIdx, step)
      invariant added == Without(names, shown)
    {
      var name := GeometryName(run, tags[i], batchIdx, step);
      GeometryNamesSnoc(run, tags, batchIdx, step, i);
      WithoutSnoc(names, name, shown);
      names := names + [name];
      if name !in shown {
        added := added + [name];
      }
    }
    assert tags[..|tags|] == tags;
  }

  lemma GeometryNamesSnoc(run: string, tags: seq<string>, batchIdx: int, step: int, i: nat)
    requires i < |tags|
    ensures GeometryNames(run, tags[..i + 1], batchIdx, step)
      == GeometryNames(run, tags[..i], batchIdx, step) + [GeometryName(run, tags[i], batchIdx, step)]
  {
  }

  lemma WithoutSnoc(xs: seq<string>, x: string, ys: seq<string>)
    ensures Without(xs + [x], ys) == if x in ys then Without(xs, ys) else Without(xs, ys) + [x]
  {
    assert (xs + [x])[..|xs|] == xs;
  }

  lemma KeepSnoc(xs: seq<string>, x: string, ys: seq<string>)
    ensures Keep(xs + [x], ys) == if x in ys then Keep(xs, ys) + [x] else Keep(xs, ys)
  {
    assert (xs + [x])[..|xs|] == xs;
  }

  /** `Keep` keeps order and repeats: filtering a concatenation filters each part... */
  lemma {:induction false} KeepConcat(a: seq<string>, b: seq<string>, ys: seq<string>)
    ensures Keep(a + b, ys) == Keep(a, ys) + Keep(b, ys)
    decreases |b|
  {
    if b == [] {
      assert a + b == a;
    } else {
      var last := b[|b| - 1];
      var init := b[..|b| - 1];
      assert a + b == (a + init) + [last];
      assert b == init + [last];
      KeepConcat(a, init, ys);
      KeepSnoc(a + init, last, ys);
      KeepSnoc(init, last, ys);
    }
  }

  /** ... and a single name is kept exactly when it is wanted. */
  lemma KeepSingle(x: string, ys: seq<string>)
    ensures Keep([x], ys) == if x in ys then [x] else []
  {
    assert [x][..0] == [];
  }

  /** `Without` keeps order: filtering a concatenation filters each part... */
  lemma {:induction false} WithoutConcat(a: seq<string>, b: seq<string>, ys: seq<string>)
    ensures Without(a + b, ys) == Without(a, ys) + Without(b, ys)
    decreases |b|
  {
    if b == [] {
      assert a + b == a;
    } else {
      var last := b[|b| - 1];
      var init := b[..|b| - 1];
      assert a + b == (a + init) + [last];
      assert b == init + [last];
      WithoutConcat(a, init, ys);
      WithoutSnoc(a + init, last, ys);
      WithoutSnoc(init, last, ys);
    }
  }

  /** ... and a single name is kept exactly when it is not excluded. */
  lemma WithoutSingle(x: string, ys: seq<string>)
    ensures Without([x], ys) == if x in ys then [] else [x]
  {
    assert [x][..0] == [];
  }

  /** The second loop of `_update_scene`: the `shown` names no longer wanted. */
  method NamesToRemove(shown: seq<string>, names: seq<string>) returns (removed: seq<string>)
    ensures removed == Without(shown, names)
  {
    removed := [];
    for j := 0 to |shown|
      invariant removed == Without(shown[..j], names)
    {
      assert shown[..j + 1] == shown[..j] + [shown[j]];
      WithoutSnoc(shown[..j], shown[j], names);
      if shown[j] !in names {
        removed := removed + [shown[j]];
      }
    }
    assert shown[..|shown|] == shown;
  }

  // ------------------------------------------------------------------------------------
  // The window's selection state.

  class PluginWindow {
    var data: EventData
    var run: string
    var tags: seq<string>
    var batchIdx: int
    var batchSize: nat
    var step: int
    var stepLimits: (int, int)
    var wallTime: real
    var idx: nat
    var stepToIdx: map<int, nat>
    var allTensorEvents: map<string, seq<TensorEvent>>
    var geometryList: seq<string>

    /** `__init__` followed by its `_update_scene`, which shows nothing. */
    constructor (data: EventData)
      ensures this.data == data && run == "." && tags == [] && batchIdx == 0 && batchSize == 1
      ensures step == 0 && stepLimits == (0, 0) && wallTime == 0.0 && idx == 0
      ensures stepToIdx == map[] && allTensorEvents == map[] && geometryList == []
    {
      this.data := data;
      run := ".";
      tags := [];
      batchIdx := 0;
      batchSize := 1;
      step := 0;
      stepLimits := (0, 0);
      wallTime := 0.0;
      idx := 0;
      stepToIdx := map[];
      allTensorEvents := map[];
      geometryList := [];
    }

    /** `_validate_run`: the selected run if the reader knows it, else the current run
        if it does, else the first run. With no runs at all, `next(iter(...))` raises
        `StopIteration`: `ok` is false and nothing changes. */
    method ValidateRun(selectedRun: string) returns (ok: bool)
      requires ValidEvents(data)
      modifies this
      ensures ok <==> data.runs != []
      ensures !ok ==> run == old(run) && allTensorEvents == old(allTensorEvents)
      ensures ok ==> run in data.runToTags && allTensorEvents == EventsOf(data, run)
      ensures ok ==> run == (if selectedRun in data.runToTags then selectedRun
                             else if old(run) in data.runToTags then old(run)
                             else data.runs[0])
      ensures data == old(data) && tags == old(tags) && step == old(step) && batchIdx == old(batchIdx)
      ensures batchSize == old(batchSize) && stepLimits == old(stepLimits) && stepToIdx == old(stepToIdx)
      ensures wallTime == old(wallTime) && idx == old(idx) && geometryList == old(geometryList)
    {
      var selected := selectedRun;
      if selected !in data.runToTags {
        selected := run;
      }
      if selected !in data.runToTags {
        if data.runs == [] {
          return false;
        }
        selected := data.runs[0];
      }
      ok := true;
      run := selected;
      allTensorEvents := EventsOf(data, run);
    }

    /** `_validate_tags`, for a run that `_validate_run` accepted: the selected tags the
        run has, else the current tags it has, else its first tag. The step index and the
        step limits are rebuilt from the first tag's events; when that tag has no events,
        `min` raises `ValueError` after the index was emptied: `ok` is false. */
    method ValidateTags(selectedTags: seq<string>) returns (ok: bool)
      requires run in data.runToTags && allTensorEvents == EventsOf(data, run)
      modifies this
      ensures data == old(data) && run == old(run) && allTensorEvents == old(allTensorEvents)
      ensures step == old(step) && batchIdx == old(batchIdx) && batchSize == old(batchSize)
      ensures wallTime == old(wallTime) && idx == old(idx) && geometryList == old(geometryList)
      ensures forall t :: t in tags ==> t in data.runToTags[run]
      ensures Keep(selectedTags, data.runToTags[run]) != [] ==> tags == Keep(selectedTags, data.runToTags[run])
      ensures Keep(selectedTags, data.runToTags[run]) == [] && Keep(old(tags), data.runToTags[run]) != [] ==>
        tags == Keep(old(tags), data.runToTags[run])
      ensures Keep(selectedTags, data.runToTags[run]) == [] && Keep(old(tags), data.runToTags[run]) == [] ==>
        tags == data.runToTags[run][..if data.runToTags[run] == [] then 0 else 1]
      ensures tags == [] <==> data.runToTags[run] == []
      ensures tags == [] ==> ok && stepToIdx == old(stepToIdx) && stepLimits == old(stepLimits)
      ensures tags != [] ==> tags[0] in allTensorEvents && stepToIdx == StepIndex(allTensorEvents[tags[0]])
      ensures tags != [] ==> (ok <==> allTensorEvents[tags[0]] != [])
      ensures tags != [] && ok ==> stepLimits == (MinStep(allTensorEvents[tags[0]]), MaxStep(allTensorEvents[tags[0]]))
      ensures tags != [] && !ok ==> stepLimits == old(stepLimits)
    {
      var runTags := data.runToTags[run];
      var selected := Keep(selectedTags, runTags);
      if |selected| == 0 {
        selected := Keep(tags, runTags);
      }
      if |selected| == 0 && |runTags| > 0 {
        selected := runTags[..1];
      }
      tags := selected;
      if |selected| == 0 {
        return true;
      }
      var events := allTensorEvents[tags[0]];
      stepToIdx := StepIndex(events);
      if events == [] {
        return false;
      }
      stepLimits := (MinStep(events), MaxStep(events));
      ok := true;
    }

    /** `_validate_step`, for tags that `_validate_tags` accepted: the selected step if
        the index has it, else the current step if it does, else the first step. A step
        still missing from the index is a `KeyError` after `step` was assigned: `ok` is
        false. The event's wall time and batch size are read. */
    method ValidateStep(selectedStep: int) returns (ok: bool)
      requires tags != [] ==> tags[0] in allTensorEvents && stepToIdx == StepIndex(allTensorEvents[tags[0]])
      modifies this
      ensures data == old(data) && run == old(run) && tags == old(tags) && batchIdx == old(batchIdx)
      ensures stepLimits == old(stepLimits) && stepToIdx == old(stepToIdx)
      ensures allTensorEvents == old(allTensorEvents) && geometryList == old(geometryList)
      ensures tags == [] ==> ok && step == old(step) && idx == old(idx) && wallTime == old(wallTime) && batchSize == old(batchSize)
      ensures tags != [] ==> step == (if selectedStep in stepToIdx then selectedStep
                                      else if old(step) in stepToIdx then old(step)
                                      else stepLimits.0)
      ensures tags != [] ==> (ok <==> step in stepToIdx)
      ensures tags != [] && stepLimits.0 in stepToIdx ==> ok
      ensures tags != [] && ok ==> idx == stepToIdx[step] && idx < |allTensorEvents[tags[0]]|
      ensures tags != [] && ok ==> allTensorEvents[tags[0]][idx].step == step
      ensures tags != [] && ok ==> wallTime == allTensorEvents[tags[0]][idx].wallTime
      ensures tags != [] && ok ==> batchSize == allTensorEvents[tags[0]][idx].batchSize
      ensures tags != [] && !ok ==> idx == old(idx) && wallTime == old(wallTime) && batchSize == old(batchSize)
    {
      if |tags| == 0 {
        return true;
      }
      var selected := if selectedStep in stepToIdx then selectedStep
                      else if step in stepToIdx then step
                      else stepLimits.0;
      step := selected;
      if selected !in stepToIdx {
        return false;
      }
      var events := allTensorEvents[tags[0]];
      var i := stepToIdx[selected];
      assert i < |events| && events[i].step == selected;
      idx := i;
      wallTime := events[i].wallTime;
      batchSize := events[i].batchSize;
      ok := true;
    }

    /** `_validate_batch_idx`: the selected index if it is in `[0, batch_size)`, else
        the current one if it is, else 0. */
    method ValidateBatchIdx(selectedBatchIdx: int)
      modifies this
      ensures tags == [] ==> batchIdx == old(batchIdx)
      ensures tags != [] ==> batchIdx == (if 0 <= selectedBatchIdx < batchSize then selectedBatchIdx
                                          else if 0 <= old(batchIdx) < batchSize then old(batchIdx)
                                          else 0)
      ensures tags != [] && batchSize > 0 ==> 0 <= batchIdx < batchSize
      ensures data == old(data) && run == old(run) && tags == old(tags) && step == old(step)
      ensures batchSize == old(batchSize) && stepLimits == old(stepLimits) && stepToIdx == old(stepToIdx)
      ensures wallTime == old(wallTime) && idx == old(idx) && allTensorEvents == old(allTensorEvents)
      ensures geometryList == old(geometryList)
    {
      if |tags| == 0 {
        return;
      }
      var selected := selectedBatchIdx;
      if selected < 0 || selected >= batchSize {
        selected := batchIdx;
      }
      if selected < 0 || selected >= batchSize {
        selected := 0;
      }
      batchIdx := selected;
    }

    /** `_update_scene`: shows one geometry per tag, in tag order. `added` are the names
        read and added to the window (those not shown before), `removed` the names taken
        off it (those shown before and no longer wanted). */
    method UpdateScene() returns (added: seq<string>, removed: seq<string>)
      modifies this
      ensures geometryList == GeometryNames(run, tags, batchIdx, step)
      ensures added == Without(geometryList, old(geometryList))
      ensures removed == Without(old(geometryList), geometryList)
      ensures data == old(data) && run == old(run) && tags == old(tags) && step == old(step)
      ensures batchIdx == old(batchIdx) && batchSize == old(batchSize) && stepLimits == old(stepLimits)
      ensures stepToIdx == old(stepToIdx) && wallTime == old(wallTime) && idx == old(idx)
      ensures allTensorEvents == old(allTensorEvents)
    {
      var newList;
      newList, added := NamesToShow(run, tags, batchIdx, step, geometryList);
      removed := NamesToRemove(geometryList, newList);
      geometryList := newList;
    }
  }
}
