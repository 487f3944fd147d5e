/** The run_method binding (src/binding/module.cpp): marshal under the GIL, release it around the
    core, and copy every output into a buffer Python owns before the keepalives are dropped. */
module Binding {
  import opened Values
  import opened DtypeMap
  import opened Marshal
  import opened Protocol
  import opened Sequential
  import opened EtCore

  function Contents(a: NdArray<array<byte>>): NdArray<seq<byte>>
    reads a.data
  {
    NdArray(a.dtype, a.shape, a.data[..])
  }

  ghost function AllContents(arrs: seq<NdArray<array<byte>>>): (r: seq<NdArray<seq<byte>>>)
    reads set a | a in arrs :: a.data
    ensures |r| == |arrs| && forall i | 0 <= i < |arrs| :: r[i] == NdArray(arrs[i].dtype, arrs[i].shape, arrs[i].data[..])
  {
    seq(|arrs|, i requires 0 <= i < |arrs| reads set a | a in arrs :: a.data => Contents(arrs[i]))
  }

  /** A Python result as its value. */
  function ReadResult(p: PyValue<array<byte>>): PyValue<seq<byte>>
    reads if p.PyArray? then {p.buffer} else {}
  {
    match p
    case PyArray(b, shape, d) => PyArray(b[..], shape, d)
    case PyInt(i) => PyInt(i)
    case PyFloat(bits) => PyFloat(bits)
    case PyBool(b) => PyBool(b)
    case PyStr(s) => PyStr(s)
  }

  ghost function ReadResults(out: seq<PyValue<array<byte>>>): (r: seq<PyValue<seq<byte>>>)
    reads set p | p in out && p.PyArray? :: p.buffer
    ensures |r| == |out| && forall i | 0 <= i < |out| :: r[i] == ReadResult(out[i])
  {
    if out == [] then [] else ReadResults(out[..|out| - 1]) + [ReadResult(out[|out| - 1])]
  }

  /** The memory behind a view has room for what numpy reads: product(shape) items of its dtype. */
  predicate Readable(v: View<array<byte>>) {
    v.TensorView? && Mapped(v.scalarType) ==>
      Numel(v.shape) * ScalarTypeToNumpy(v.scalarType).value.itemsize <= v.data.Length
  }

  /** copy_out: an array result gets a buffer of its own, of product(shape) items read from the view. */
  method CopyOutView(decode: seq<byte> -> Option<string>, v: View<array<byte>>, i: nat) returns (p: Result<PyValue<array<byte>>>)
    requires Readable(v)
    ensures p.Ok? ==> PyOne(decode, ReadArray(v), i) == Ok(ReadResult(p.value))
    ensures p.Ok? && p.value.PyArray? ==>
      fresh(p.value.buffer) && p.value.buffer.Length == Numel(p.value.shape) * p.value.dtype.itemsize
    ensures p.Err? ==> PyOne(decode, ReadArray(v), i) == Err(p.fault)
    ensures v.IntView? ==> p == Ok(PyInt(v.intVal))
    ensures v.DoubleView? ==> p == Ok(PyFloat(v.doubleBits))
    ensures v.BoolView? ==> p == Ok(PyBool(v.flag != 0))
    ensures v.StringView? ==> p == if decode(v.str).Some? then Ok(PyStr(decode(v.str).value)) else Err(InvalidUtf8(i))
    ensures v.TensorView? && KindOfElement(v.scalarType).None? ==> p == Err(DtypeUnmapped)
    ensures v.TensorView? && KindOfElement(v.scalarType).Some? ==>
      && p.Ok? && p.value.PyArray? && p.value.shape == v.shape && IsDtypeOf(v.scalarType, p.value.dtype)
      && p.value.buffer.Length <= v.data.Length && p.value.buffer[..] == v.data[..p.value.buffer.Length]
  {
    match v {
      case IntView(x) => p := Ok(PyInt(x));
      case BoolView(x) => p := Ok(PyBool(x != 0));
      case DoubleView(bits) => p := Ok(PyFloat(bits));
      case StringView(s) =>
        var text := decode(s);
        p := if text.None? then Err(InvalidUtf8(i)) else Ok(PyStr(text.value));
      case TensorView(data, shape, st) =>
        var d := ScalarTypeToNumpy(st);
        if d.Err? {
          p := Err(d.fault);
        } else {
          var buf := CopyBytes(data, 0, Numel(shape) * d.value.itemsize);
          assert buf[..] == NumpyCopy(data[..], shape, d.value);
          p := Ok(PyArray(buf, shape, d.value));
        }
    }
  }

  /** The arrays of a list have buffers of their own. */
  ghost predicate Distinct(out: seq<PyValue<array<byte>>>) {
    forall i, j | 0 <= i < j < |out| && out[i].PyArray? && out[j].PyArray? :: out[i].buffer != out[j].buffer
  }

  /** A list built one output at a time is the reference's, or stops at its fault. */
  lemma ListMatches(decode: seq<byte> -> Option<string>, views: seq<View<array<byte>>>, out: seq<PyValue<array<byte>>>)
    requires |out| <= |views| && forall j | 0 <= j < |out| :: PyOne(decode, ReadArray(views[j]), j) == Ok(ReadResult(out[j]))
    ensures |out| == |views| ==> PyAll(decode, ReadArrays(views)) == Ok(ReadResults(out))
    ensures |out| < |views| && PyOne(decode, ReadArray(views[|out|]), |out|).Err?
        ==> PyAll(decode, ReadArrays(views)) == Err(PyOne(decode, ReadArray(views[|out|]), |out|).fault)
  {
    PyFromByIndex(decode, ReadArrays(views), ReadResults(out), 0);
    assert ReadResults(out)[0..] == ReadResults(out);
  }

  /** The outputs as a Python list, built under the GIL: the first one that fails raises and no list is returned. */
  method BuildList(gil: Mutex, decode: seq<byte> -> Option<string>, views: seq<View<array<byte>>>)
    returns (out: seq<PyValue<array<byte>>>, fault: Option<Fault>)
    requires gil.held && forall i | 0 <= i < |views| :: Readable(views[i])
    ensures fault.None? ==> PyAll(decode, ReadArrays(views)) == Ok(ReadResults(out))
    ensures fault.Some? ==> out == [] && PyAll(decode, ReadArrays(views)) == Err(fault.value)
    ensures (forall j | 0 <= j < |out| && out[j].PyArray? :: fresh(out[j].buffer)) && Distinct(out)
  {
    hide PyOne, PyAll, ReadArray, ReadArrays, ReadResults, Readable;
    out, fault := [], None;
    for i := 0 to |views|
      invariant |out| == i
      invariant forall j | 0 <= j < i :: PyOne(decode, ReadArray(views[j]), j) == Ok(ReadResult(out[j]))
      invariant (forall j | 0 <= j < i && out[j].PyArray? :: fresh(out[j].buffer)) && Distinct(out)
    {
      var p := CopyOutView(decode, views[i], i);
      if p.Err? {
        ListMatches(decode, views, out);
        return [], Some(p.fault);
      }
      out := out + [p.value];
    }
    ListMatches(decode, views, out);
  }

  /** make_held_input over the arguments, under the GIL: descriptors over the callers' own buffers, all or nothing. */
  method HoldInputs(gil: Mutex, arrs: seq<NdArray<array<byte>>>) returns (held: seq<Desc<array<byte>>>, fault: Option<Fault>)
    requires gil.held
    ensures fault.None? <==> AllMapped(arrs)
    ensures fault.None? ==> |held| == |arrs| && forall i | 0 <= i < |arrs| :: MakeHeldInput(arrs[i]) == Ok(held[i])
    ensures fault.Some? ==> fault.value == DtypeUnmapped
  {
    held, fault := [], None;
    for i := 0 to |arrs|
      invariant |held| == i && forall j | 0 <= j < i :: MakeHeldInput(arrs[j]) == Ok(held[j])
    {
      var d := MakeHeldInput(arrs[i]);
      if d.Err? {
        assert ScalarTypeOf(arrs[i].dtype).Err?;
        return held, Some(d.fault);
      }
      held := held + [d.value];
    }
    assert forall i | 0 <= i < |arrs| :: MakeHeldInput(arrs[i]).Ok?;
  }

  /** The descriptors stand for the arrays. */
  lemma HeldMeaning(arrs: seq<NdArray<array<byte>>>, held: seq<Desc<array<byte>>>)
    requires |held| == |arrs| && forall i | 0 <= i < |arrs| :: MakeHeldInput(arrs[i]) == Ok(held[i])
    ensures AllMapped(arrs) && AllMapped(AllContents(arrs)) && TensorsOver(held) == InputsFor(AllContents(arrs))
    ensures Buffers(held) == Memory(arrs)
  {
    forall i | 0 <= i < |arrs|
      ensures ScalarTypeOf(arrs[i].dtype).Ok? && TensorsOver(held)[i] == ToInput(MakeHeldInput(Contents(arrs[i])).value)
    {
      assert MakeHeldInput(arrs[i]) == Ok(held[i]);
    }
  }

  function Memory(arrs: seq<NdArray<array<byte>>>): seq<array<byte>> {
    seq(|arrs|, i requires 0 <= i < |arrs| => arrs[i].data)
  }

  /** What a sane Module delivered has room for numpy's reads. */
  lemma DeliveredIsReadable(rt: Runtime, fs: ForwardState)
    requires rt.Delivered(fs)
    ensures forall i | 0 <= i < |fs.views| :: Readable(fs.views[i])
  {
    var evs := ReplyAt(rt.module_.c, rt.module_.r, rt.module_.log, |rt.module_.log| - 1).evs;
    forall i | 0 <= i < |fs.views| ensures Readable(fs.views[i]) {
      assert CopyOne(rt.module_.arena[..], evs[i]) == Ok(ReadArray(fs.views[i])) && Sane(rt.module_.arena.Length, evs[i]);
      if fs.views[i].TensorView? {
        assert fs.views[i].data.Length == |fs.views[i].data[..]| == evs[i].nbytes;
      }
    }
  }

  /** The bytes of a result. */
  function Held(p: PyValue<array<byte>>): seq<byte>
    reads if p.PyArray? then {p.buffer} else {}
  {
    if p.PyArray? then p.buffer[..] else []
  }

  /** `out` is what the execute at position `k` computed, output by output, in Python's terms. */
  ghost predicate Gives(c: Config, r: Rid, log: seq<Access>, k: nat, out: seq<PyValue<array<byte>>>)
    reads set p | p in out && p.PyArray? :: p.buffer
  {
    && k < |log| && log[k].Exec?
    && var (m, outputs) := c.execute(r, Replay(c, r, log[..k]), log[k].method_, log[k].inputs);
       && outputs.Some? && |out| == |outputs.value|
       && forall i | 0 <= i < |out| :: IsPythonOf(c.decode, m.arena, outputs.value[i], out[i], Held(out[i]))
  }

  /** A list that is the sequential outcome gives what was computed. */
  lemma OutcomeGives(c: Config, r: Rid, log: seq<Access>, k: nat, out: seq<PyValue<array<byte>>>)
    requires k < |log| && log[k].Exec? && SeqOutcome(c, r, log, k) == Returned(ReadResults(out))
    ensures Gives(c, r, log, k, out)
  {
    ReturnedMeans(c, r, log, k);
    hide SeqOutcome;
    var (m, outputs) := c.execute(r, Replay(c, r, log[..k]), log[k].method_, log[k].inputs);
    forall i | 0 <= i < |out| ensures IsPythonOf(c.decode, m.arena, outputs.value[i], out[i], Held(out[i])) {
      assert IsPythonOf(c.decode, m.arena, outputs.value[i], ReadResult(out[i]), PyBytes(ReadResult(out[i])));
    }
  }

  /** `fault` is why no list came of the execute at position `k`. */
  ghost predicate FailsAs(c: Config, r: Rid, log: seq<Access>, k: nat, fault: Fault) {
    && k < |log| && log[k].Exec?
    && var result := c.execute(r, Replay(c, r, log[..k]), log[k].method_, log[k].inputs);
       SaneOutputs(result) && EndsAs<seq<byte>>(c, result, Raised(fault))
  }

  /** Access `a` executes `name` on `arrays`: on a tensor for each, in order. */
  ghost predicate Asks(a: Access, name: string, arrays: seq<NdArray<seq<byte>>>) {
    && a.Exec? && a.method_ == name && |a.inputs| == |arrays|
    && forall i | 0 <= i < |arrays| :: IsTensorOf(a.inputs[i], arrays[i].dtype, arrays[i].shape, arrays[i].data)
  }

  lemma AsksMeans(name: string, arrays: seq<NdArray<seq<byte>>>)
    requires AllMapped(arrays)
    ensures Asks(Exec(name, InputsFor(arrays)), name, arrays)
  {
    TensorsAreTheArrays(arrays);
  }

  /** What the outcome of an execute comes to. */
  lemma CallMeans(c: Config, r: Rid, log: seq<Access>, k: nat, out: seq<PyValue<array<byte>>>, fault: Option<Fault>)
    requires SaneModule(c) && k < |log| && log[k].Exec?
    requires SeqOutcome(c, r, log, k) == (if fault.Some? then Raised(fault.value) else Returned(ReadResults(out)))
    ensures if fault.Some? then FailsAs(c, r, log, k, fault.value) else Gives(c, r, log, k, out)
  {
    OutcomeMeans(c, r, log, k);
    hide SeqOutcome, SaneModule;
    if fault.None? { OutcomeGives(c, r, log, k, out); }
  }

  /** The sequential outcome is what the core hands out, turned into Python values. */
  lemma OutcomeFromCore(c: Config, r: Rid, log: seq<Access>, k: nat)
    requires k < |log|
    ensures
      var res := CoreResult(c, r, log, k);
      SeqOutcome(c, r, log, k) ==
        if res.Err? then Raised(res.fault)
        else if PyAll(c.decode, res.value).Err? then Raised(PyAll(c.decode, res.value).fault)
        else Returned(PyAll(c.decode, res.value).value)
  {
  }

  /** The core's run_method with the GIL released. */
  method CallCore(gil: Mutex, rt: Runtime, p: Process, name: string, arrs: seq<NdArray<array<byte>>>,
                  held: seq<Desc<array<byte>>>)
    returns (fs: ForwardState?, fault: Option<Fault>)
    requires gil.held && gil != rt.mutex && rt.Valid() && SaneModule(rt.module_.c)
    requires |held| == |arrs| && forall i | 0 <= i < |arrs| :: MakeHeldInput(arrs[i]) == Ok(held[i])
    requires forall i | 0 <= i < |arrs| :: arrs[i].data != rt.module_.arena
    modifies gil, rt.mutex, rt.module_, rt.module_.arena, set i | 0 <= i < |arrs| :: arrs[i].data
    ensures gil.held && rt.Valid() && (rt.module_.arena == old(rt.module_.arena) || fresh(rt.module_.arena))
    ensures fs == null <==> fault.Some?
    ensures AllMapped(old(AllContents(arrs)))
    ensures Handled(rt.module_.c, rt.module_.r, p.env, p.files, name, InputsFor(old(AllContents(arrs))),
                    old(rt.module_.log), rt.module_.log, if fs != null then Ok(ReadArrays(fs.views)) else Err(fault.value))
    ensures forall i | 0 <= i < |arrs| ::
      arrs[i].data[..] ==
        if |rt.module_.log| == |old(rt.module_.log)| + 1 then old(arrs[i].data[..])
        else LastWrite(Memory(arrs), WritesAt(rt.module_.c, rt.module_.r, rt.module_.log, |old(rt.module_.log)| + 1),
                       arrs[i].data, old(arrs[i].data[..]))
    ensures fs != null ==> forall i | 0 <= i < |fs.views| :: Readable(fs.views[i])
    ensures |rt.module_.log| > |old(rt.module_.log)| + 1
       <==> LetsThrough(rt.module_.c, rt.module_.r, old(rt.module_.State()), name, p.env, p.files)
    ensures |rt.module_.log| == |old(rt.module_.log)| + 1
        ==> fault == Some(RefusalOf(rt.module_.c, rt.module_.r, old(rt.module_.State()), name))
    ensures Honest(rt.module_.c) && rt.module_.c.delegates(rt.module_.r, name) && |rt.module_.log| > |old(rt.module_.log)| + 1
      ==> rt.module_.c.registered && p.env.Some? && p.env.value != "" && p.env.value in p.files
  {
    hide Handled, SaneModule, ReadArrays, HandsOut, LetsThrough, RefusalOf, Runtime.Delivered, LastWrite, WritesAt,
         TensorsOver, Buffers, Memory, Readable, InputsFor;
    HeldMeaning(arrs, held);
    gil.Unlock();
    fs, fault := rt.RunMethod(p, name, held);
    if fs != null { DeliveredIsReadable(rt, fs); }
    gil.Lock();
  }

  /** The binding as a whole: one thread's call is the sequential reference at the place its execute
      gets. A fault returns no list; every exit holds the GIL and leaves the mutex free; arguments
      are written only by the execute; and each result has a new buffer, its own and not the arena.
      The GIL is not held while the core waits for the mutex. */
  method RunMethod(gil: Mutex, rt: Runtime, p: Process, name: string, arrs: seq<NdArray<array<byte>>>)
    returns (out: seq<PyValue<array<byte>>>, fault: Option<Fault>)
    requires gil.held && gil != rt.mutex && rt.Valid() && SaneModule(rt.module_.c)
    requires forall i | 0 <= i < |arrs| :: arrs[i].data != rt.module_.arena
    modifies gil, rt.mutex, rt.module_, rt.module_.arena, set i | 0 <= i < |arrs| :: arrs[i].data
    ensures gil.held && rt.Valid() && (rt.module_.arena == old(rt.module_.arena) || fresh(rt.module_.arena))
    ensures forall j | 0 <= j < |out| && out[j].PyArray? :: fresh(out[j].buffer) && out[j].buffer != rt.module_.arena
    ensures Distinct(out)
    ensures fault.Some? ==> out == []
    ensures !AllMapped(arrs) ==>
      && fault == Some(DtypeUnmapped) && rt.module_.log == old(rt.module_.log)
      && forall i | 0 <= i < |arrs| :: arrs[i].data[..] == old(arrs[i].data[..])
    ensures AllMapped(arrs) ==>
      var c, r, before, log := rt.module_.c, rt.module_.r, old(rt.module_.log), rt.module_.log;
      && |log| > |before| && log[..|before| + 1] == before + [MetaRead(name)]
      && var refusal := GuardFault(c, ReplyAt(c, r, log, |before|), p.env, p.files);
         if refusal.Some? then
           fault == refusal && |log| == |before| + 1 && forall i | 0 <= i < |arrs| :: arrs[i].data[..] == old(arrs[i].data[..])
         else
           && AllMapped(old(AllContents(arrs)))
           && log == before + [MetaRead(name)] + [Exec(name, InputsFor(old(AllContents(arrs))))]
           && SeqOutcome(c, r, log, |before| + 1) == (if fault.Some? then Raised(fault.value) else Returned(ReadResults(out)))
           && forall i | 0 <= i < |arrs| ::
                arrs[i].data[..] ==
                  LastWrite(Memory(arrs), WritesAt(c, r, log, |before| + 1), arrs[i].data, old(arrs[i].data[..]))
    ensures AllMapped(arrs) ==>
      (|rt.module_.log| > |old(rt.module_.log)| + 1
       <==> LetsThrough(rt.module_.c, rt.module_.r, old(rt.module_.State()), name, p.env, p.files))
    ensures |rt.module_.log| == |old(rt.module_.log)| + 1
        ==> fault == Some(RefusalOf(rt.module_.c, rt.module_.r, old(rt.module_.State()), name))
    ensures Honest(rt.module_.c) && rt.module_.c.delegates(rt.module_.r, name) && |rt.module_.log| > |old(rt.module_.log)| + 1
      ==> rt.module_.c.registered && p.env.Some? && p.env.value != "" && p.env.value in p.files
    ensures |rt.module_.log| > |old(rt.module_.log)| + 1 ==>
      Asks(rt.module_.log[|old(rt.module_.log)| + 1], name, old(AllContents(arrs)))
    ensures fault.None? ==> Gives(rt.module_.c, rt.module_.r, rt.module_.log, |old(rt.module_.log)| + 1, out)
    ensures fault.Some? && |rt.module_.log| > |old(rt.module_.log)| + 1 ==>
      FailsAs(rt.module_.c, rt.module_.r, rt.module_.log, |old(rt.module_.log)| + 1, fault.value)
  {
    hide SeqOutcome, CoreResult, ReplyAt, Replay, PyAll, GuardFault, InputsFor, ReadArrays, ReadResults,
         LastWrite, WritesAt, Memory, Readable, SaneModule, Gives, FailsAs, LetsThrough, RefusalOf, Asks;
    ghost var contents := AllContents(arrs);
    var held;
    held, fault := HoldInputs(gil, arrs);
    if fault.Some? { return [], fault; }
    var fs;
    fs, fault := CallCore(gil, rt, p, name, arrs, held);
    OutcomeFromCore(rt.module_.c, rt.module_.r, rt.module_.log, |rt.module_.log| - 1);
    out := [];
    if fs != null {
      out, fault := BuildList(gil, rt.module_.c.decode, fs.views);
    }
    if |rt.module_.log| > |old(rt.module_.log)| + 1 {
      AsksMeans(name, contents);
      CallMeans(rt.module_.c, rt.module_.r, rt.module_.log, |old(rt.module_.log)| + 1, out, fault);
    }
  }

  // ---------- a caller that keeps its results ----------

  /** Two Runtimes and the GIL share no memory. */
  ghost predicate Apart(gil: Mutex, a: Runtime, b: Runtime)
    reads a.module_, b.module_
  {
    && gil != a.mutex && gil != b.mutex && a.mutex != b.mutex && a.module_ != b.module_
    && a.module_.arena != b.module_.arena
  }

  /** Between calls: the GIL is held and both Runtimes are in order. */
  ghost predicate AtRest(gil: Mutex, a: Runtime, b: Runtime)
    reads gil, a, a.mutex, a.module_, a.module_.arena, b, b.mutex, b.module_, b.module_.arena
  {
    gil.held && Apart(gil, a, b) && a.Valid() && b.Valid() && SaneModule(a.module_.c) && SaneModule(b.module_.c)
  }

  /** The memory behind a list of results. */
  ghost function Memories(out: seq<PyValue<array<byte>>>): set<array<byte>> {
    set i | 0 <= i < |out| && out[i].PyArray? :: out[i].buffer
  }

  /** `out` is the sequential outcome of the execute at place `k` of the Runtime. */
  ghost predicate AnswersAt(rt: Runtime, k: nat, out: seq<PyValue<array<byte>>>)
    reads rt.module_, set p | p in out && p.PyArray? :: p.buffer
  {
    && k < |rt.module_.log| && rt.module_.log[k].Exec?
    && SeqOutcome(rt.module_.c, rt.module_.r, rt.module_.log, k) == Returned(ReadResults(out))
  }

  /** A call on `rt` does nothing to the other Runtime. */
  method CallBeside(gil: Mutex, rt: Runtime, other: Runtime, p: Process, name: string, arrs: seq<NdArray<array<byte>>>)
    returns (out: seq<PyValue<array<byte>>>, fault: Option<Fault>)
    requires AtRest(gil, rt, other)
    requires forall i | 0 <= i < |arrs| :: arrs[i].data != rt.module_.arena && arrs[i].data != other.module_.arena
    modifies gil, rt.mutex, rt.module_, rt.module_.arena, set i | 0 <= i < |arrs| :: arrs[i].data
    ensures AtRest(gil, rt, other) && (rt.module_.arena == old(rt.module_.arena) || fresh(rt.module_.arena))
    ensures old(rt.module_.log) <= rt.module_.log
    ensures (forall b | b in Memories(out) :: fresh(b)) && Distinct(out)
    ensures rt.module_.arena !in Memories(out) && other.module_.arena !in Memories(out)
    ensures fault.None? ==> AnswersAt(rt, |old(rt.module_.log)| + 1, out)
  {
    hide SaneModule, LastWrite, WritesAt, SeqOutcome, GuardFault, InputsFor, ReadResults, ReplyAt, Distinct, AllContents,
         Gives, FailsAs, Asks, LetsThrough, RefusalOf;
    out, fault := RunMethod(gil, rt, p, name, arrs);
  }

  /** A later call, on the first or the second of two Runtimes. */
  datatype Later = Later(onFirst: bool, name: string, arrs: seq<NdArray<array<byte>>>)

  /** The memory behind the calls' arguments. */
  ghost function Arguments(calls: seq<Later>): set<array<byte>> {
    set i, j | 0 <= i < |calls| && 0 <= j < |calls[i].arrs| :: calls[i].arrs[j].data
  }

  /** Any number of later calls, on either Runtime, leave earlier results as they are, provided
      these are not among the calls' arguments. */
  method MoreCalls(gil: Mutex, a: Runtime, b: Runtime, p: Process, calls: seq<Later>, ghost kept: seq<PyValue<array<byte>>>)
    requires AtRest(gil, a, b)
    requires a.module_.arena !in Arguments(calls) + Memories(kept) && b.module_.arena !in Arguments(calls) + Memories(kept)
    requires Memories(kept) !! Arguments(calls)
    modifies gil, a.mutex, a.module_, a.module_.arena, b.mutex, b.module_, b.module_.arena, Arguments(calls)
    ensures AtRest(gil, a, b) && old(a.module_.log) <= a.module_.log && old(b.module_.log) <= b.module_.log
    ensures a.module_.arena !in Memories(kept) && b.module_.arena !in Memories(kept)
    ensures ReadResults(kept) == old(ReadResults(kept))
  {
    hide AtRest, SaneModule;
    for i := 0 to |calls|
      invariant AtRest(gil, a, b)
      invariant a.module_.arena == old(a.module_.arena) || fresh(a.module_.arena)
      invariant b.module_.arena == old(b.module_.arena) || fresh(b.module_.arena)
      invariant old(a.module_.log) <= a.module_.log && old(b.module_.log) <= b.module_.log
      invariant forall j | 0 <= j < |kept| && kept[j].PyArray? :: kept[j].buffer[..] == old(kept[j].buffer[..])
    {
      var call := calls[i];
      assert forall j | 0 <= j < |call.arrs| :: call.arrs[j].data in Arguments(calls);
      AtRestSwaps(gil, a, b);
      if call.onFirst {
        var out, fault := CallBeside(gil, a, b, p, call.name, call.arrs);
      } else {
        var out, fault := CallBeside(gil, b, a, p, call.name, call.arrs);
      }
      AtRestSwaps(gil, a, b);
    }
  }

  lemma AtRestSwaps(gil: Mutex, a: Runtime, b: Runtime)
    ensures AtRest(gil, a, b) <==> AtRest(gil, b, a)
    ensures AtRest(gil, a, b) ==> gil != a.mutex && gil != b.mutex && a.mutex != b.mutex && a.module_ != b.module_
  {
  }

  /** Permanence at the binding: what the first call returned still is the sequential reference's
      outcome at its place after any number of calls that do not take it as an argument. */
  method KeepResults(gil: Mutex, a: Runtime, b: Runtime, p: Process, name: string, arrs: seq<NdArray<array<byte>>>,
                     calls: seq<Later>)
    returns (out: seq<PyValue<array<byte>>>, fault: Option<Fault>)
    requires AtRest(gil, a, b)
    requires forall i | 0 <= i < |arrs| :: arrs[i].data != a.module_.arena && arrs[i].data != b.module_.arena
    requires a.module_.arena !in Arguments(calls) && b.module_.arena !in Arguments(calls)
    modifies gil, a.mutex, a.module_, a.module_.arena, b.mutex, b.module_, b.module_.arena, Arguments(calls),
             set i | 0 <= i < |arrs| :: arrs[i].data
    ensures AtRest(gil, a, b)
    ensures (forall x | x in Memories(out) :: fresh(x)) && Distinct(out)
    ensures a.module_.arena !in Memories(out) && b.module_.arena !in Memories(out)
    ensures fault.None? ==> AnswersAt(a, |old(a.module_.log)| + 1, out)
    ensures fault.None? ==> Gives(a.module_.c, a.module_.r, a.module_.log, |old(a.module_.log)| + 1, out)
  {
    hide AtRest, SaneModule, SeqOutcome, ReadResults, Distinct, Gives;
    AtRestSwaps(gil, a, b);
    out, fault := CallBeside(gil, a, b, p, name, arrs);
    ghost var log := a.module_.log;
    MoreCalls(gil, a, b, p, calls, out);
    if fault.None? {
      PrefixAgrees(a.module_.c, a.module_.r, log, a.module_.log, |old(a.module_.log)| + 1);
      OutcomeGives(a.module_.c, a.module_.r, a.module_.log, |old(a.module_.log)| + 1, out);
    }
  }
}
