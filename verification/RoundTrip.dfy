/** The marshalling round trip: a program that returns its inputs; and the sizes of what is returned. */
module RoundTrip {
  import opened Values
  import opened DtypeMap
  import opened Marshal
  import opened Protocol
  import opened Sequential
  import opened Executions
  import opened Linearizability
  import opened Outcomes

  // ---------- the final copy stays inside owned storage ----------

  /** For every rank and shape, numpy reads exactly the bytes the core stored for the output:
      product(shape) times the mapped itemsize is their number. */
  lemma FinalCopyIsExact(decode: seq<byte> -> Option<string>, arena: seq<byte>, ev: EValue, i: nat)
    requires ev.Tensor? && Sane(|arena|, ev)
    ensures
      var v := CopyOne(arena, ev).value;
      var p := PyOne(decode, v, i);
      && (p.Ok? <==> Mapped(ev.scalarType))
      && |v.data| == ev.nbytes
      && (p.Ok? ==> Numel(v.shape) * p.value.dtype.itemsize == |v.data| && p.value.buffer == v.data
                    && p.value.buffer == arena[ev.offset..ev.offset + ev.nbytes])
  {
    if Mapped(ev.scalarType) {
      assert ScalarTypeToNumpy(ev.scalarType).value.itemsize == ElementSize(ev.scalarType);
    }
  }

  /** Over whole runs: every array a call returned holds exactly product(shape) * itemsize bytes. */
  lemma ReturnedSizes(c: Config, s: State, g: Turn, i: nat)
    requires Trusted(c) && SaneModule(c) && Reachable(c, s) && ReturnedArray(s, g, i)
    ensures RecordOf(s, g).seen.Returned? && i < |RecordOf(s, g).seen.values|
    ensures
      var p := RecordOf(s, g).seen.values[i];
      p.PyArray? && |p.buffer| == Numel(p.shape) * p.dtype.itemsize
  {
    var rec := RecordOf(s, g);
    ReturnedWasExecuted(c, s, g);
    SeenIsSequential(c, s, g);
    hide Reachable;
    var r, log, k := rec.call.rt, LogOf(s.sh, rec.call.rt), rec.exec.value;
    ExecuteAt(c, r, log, k);
    ReplyMeans(c, r, log, k);
    assert SaneOutputs(c.execute(r, Replay(c, r, log[..k]), log[k].method_, log[k].inputs));
    var arena, evs := Replay(c, r, log[..k + 1]).arena, ReplyAt(c, r, log, k).evs;
    var views := CopyAll(arena, evs).value;
    UnsupportedIffOther(arena, evs);
    FirstBadOutputIsNamed(c.decode, views, 0);
    assert CopyOne(arena, evs[i]) == Ok(views[i]) && evs[i].Tensor?;
    FinalCopyIsExact(c.decode, arena, evs[i], i);
  }

  // ---------- dtypes there and back ----------

  /** The DLPack dtype `copy_out` gives an array. */
  function OutDtype(d: NpDtype): DlDtype {
    DlDtype(if d.kind == 'f' then DlCode.Float
            else if d.kind == 'i' then DlCode.Int
            else if d.kind == 'u' then UInt
            else DlCode.Bool,
            d.itemsize * 8, 1)
  }

  /** An accepted dtype comes back as it went in exactly when it has whole bytes and one lane:
      the itemsize is bits / 8 rounded down, and lanes are not looked at. */
  lemma DtypeRoundTrip(dt: DlDtype)
    requires ScalarTypeOf(dt).Ok?
    ensures
      var st := ScalarTypeOf(dt).value;
      && Mapped(st)
      && ElementSize(st) == dt.bits / 8
      && (OutDtype(ScalarTypeToNumpy(st).value) == dt <==> dt.bits % 8 == 0 && dt.lanes == 1)
  {
    TablesAreMutualInverses(KindOf(dt.code).value, dt.bits / 8, ScalarTypeOf(dt).value);
    assert dt.bits == dt.bits / 8 * 8 + dt.bits % 8;
  }

  // ---------- the program that returns its inputs ----------

  predicate NonNegative(sizes: seq<int>) { forall i | 0 <= i < |sizes| :: sizes[i] >= 0 }

  function Extents(sizes: seq<int>): seq<nat>
    requires NonNegative(sizes)
  {
    seq(|sizes|, i requires 0 <= i < |sizes| => sizes[i])
  }

  /** The bytes an input tensor covers: as many as its 32-bit sizes say. */
  function Covered(x: Input): seq<byte>
    requires NonNegative(x.sizes)
  {
    var n := Numel(Extents(x.sizes)) * ElementSize(x.scalarType);
    if n <= |x.bytes| then x.bytes[..n] else x.bytes
  }

  /** The arena after the inputs were copied into it one after the other. */
  function EchoArena(inputs: seq<Input>): seq<byte>
    requires forall i | 0 <= i < |inputs| :: NonNegative(inputs[i].sizes)
  {
    if inputs == [] then [] else Covered(inputs[0]) + EchoArena(inputs[1..])
  }

  /** One output per input, at the place the input has in the arena. */
  function EchoOutputs(inputs: seq<Input>, base: nat): (evs: seq<EValue>)
    requires forall i | 0 <= i < |inputs| :: NonNegative(inputs[i].sizes)
    ensures |evs| == |inputs|
  {
    if inputs == [] then []
    else
      var n := |Covered(inputs[0])|;
      [EValue.Tensor(base, n, Extents(inputs[0].sizes), inputs[0].scalarType)] + EchoOutputs(inputs[1..], base + n)
  }

  predicate AllNonNegative(inputs: seq<Input>) { forall i | 0 <= i < |inputs| :: NonNegative(inputs[i].sizes) }

  /** What such a Module does: a tensor with a negative size cannot be built. */
  function Echo(m: Mod, inputs: seq<Input>): (Mod, Option<seq<EValue>>) {
    if AllNonNegative(inputs) then (Mod(m.internal, EchoArena(inputs)), Some(EchoOutputs(inputs, 0))) else (m, None)
  }

  ghost predicate IsEcho(c: Config) {
    forall r: Rid, m: Mod, name: string, inputs: seq<Input> :: c.execute(r, m, name, inputs) == Echo(m, inputs)
  }

  /** The outcome of executing it on arrays. */
  ghost function EchoCall(c: Config, arrays: seq<NdArray<seq<byte>>>): Outcome<seq<byte>>
    requires AllMapped(arrays)
  {
    var inputs := InputsFor(arrays);
    if !AllNonNegative(inputs) then Raised(ExecutionFailed)
    else OutcomeOf(c, EchoArena(inputs), Protocol.Values(EchoOutputs(inputs, 0)))
  }

  /** The list of arrays an outcome is, if it is one. */
  function AsArray(p: PyValue<seq<byte>>): Option<NdArray<seq<byte>>> {
    if p.PyArray? then Some(NdArray(OutDtype(p.dtype), p.shape, p.buffer)) else None
  }

  predicate IsArrays(o: Outcome<seq<byte>>, arrays: seq<NdArray<seq<byte>>>) {
    o.Returned? && |o.values| == |arrays| && forall i | 0 <= i < |arrays| :: AsArray(o.values[i]) == Some(arrays[i])
  }

  /** An array as numpy makes it: whole bytes, one lane, all its bytes there. */
  predicate FromNumpy(a: NdArray<seq<byte>>) {
    a.dtype.bits % 8 == 0 && a.dtype.lanes == 1 && |a.data| == Numel(a.shape) * (a.dtype.bits / 8)
  }

  predicate Fits(a: NdArray<seq<byte>>) { forall i | 0 <= i < |a.shape| :: a.shape[i] < 0x8000_0000 }

  /** Output `ev` is tensor `x`, and its range of `arena` holds the bytes `x` covers. */
  predicate Placed(arena: seq<byte>, ev: EValue, x: Input)
    requires NonNegative(x.sizes)
  {
    && ev.Tensor? && ev.sizes == Extents(x.sizes) && ev.scalarType == x.scalarType
    && ev.nbytes == |Covered(x)| && Slice(arena, ev.offset, ev.nbytes) == Covered(x)
  }

  lemma {:induction false} ArenaParts(inputs: seq<Input>, before: seq<byte>, i: nat)
    requires forall j | 0 <= j < |inputs| :: NonNegative(inputs[j].sizes)
    requires i < |inputs|
    ensures Placed(before + EchoArena(inputs), EchoOutputs(inputs, |before|)[i], inputs[i])
  {
    hide Covered, Extents;
    var first := Covered(inputs[0]);
    if i == 0 {
      var arena := before + EchoArena(inputs);
      assert arena[|before|..|before| + |first|] == first;
    } else {
      assert forall j | 0 <= j < |inputs[1..]| :: inputs[1..][j] == inputs[j + 1];
      ArenaParts(inputs[1..], before + first, i - 1);
      assert before + EchoArena(inputs) == (before + first) + EchoArena(inputs[1..]);
      assert EchoOutputs(inputs, |before|)[i] == EchoOutputs(inputs[1..], |before + first|)[i - 1];
    }
  }

  /** What output number `i` of the echo is: the tensor ExecuTorch saw, in numpy's terms. */
  lemma EchoOne(c: Config, arrays: seq<NdArray<seq<byte>>>, i: nat)
    requires AllMapped(arrays) && i < |arrays| && FromNumpy(arrays[i])
    requires forall j | 0 <= j < |arrays| :: NonNegative(InputsFor(arrays)[j].sizes)
    ensures
      var inputs := InputsFor(arrays);
      var v := CopyOne(EchoArena(inputs), EchoOutputs(inputs, 0)[i]);
      && v.Ok? && PyOne(c.decode, v.value, i).Ok?
      && var a := AsArray(PyOne(c.decode, v.value, i).value);
         && a.Some? && a.value.shape == Extents(inputs[i].sizes) && a.value.dtype == arrays[i].dtype
         && a.value.data == NumpyCopy(Covered(inputs[i]), a.value.shape, NpDtype('u', arrays[i].dtype.bits / 8))
  {
    var inputs := InputsFor(arrays);
    ArenaParts(inputs, [], i);
    assert [] + EchoArena(inputs) == EchoArena(inputs);
    DtypeRoundTrip(arrays[i].dtype);
    assert inputs[i].scalarType == MakeHeldInput(arrays[i]).value.scalarType;
    var d := ScalarTypeToNumpy(inputs[i].scalarType).value;
    assert d.itemsize == arrays[i].dtype.bits / 8;
  }

  /** Narrowing keeps the extents exactly when all of them fit. */
  lemma FitsMeansExtents(shape: seq<nat>)
    ensures NonNegative(SizesOf(shape)) && Extents(SizesOf(shape)) == shape
       <==> forall i | 0 <= i < |shape| :: shape[i] < 0x8000_0000
  {
    var sizes := SizesOf(shape);
    if NonNegative(sizes) && Extents(sizes) == shape {
      forall i | 0 <= i < |shape| ensures shape[i] < 0x8000_0000 { assert Extents(sizes)[i] == sizes[i]; }
    }
    if forall i | 0 <= i < |shape| :: shape[i] < 0x8000_0000 {
      forall i | 0 <= i < |shape| ensures sizes[i] == shape[i] {}
    }
  }

  lemma FitsMeansSame(a: NdArray<seq<byte>>)
    requires MakeHeldInput(a).Ok? && FromNumpy(a)
    ensures
      var x := ToInput(MakeHeldInput(a).value);
      && (Fits(a) ==> NonNegative(x.sizes) && Extents(x.sizes) == a.shape && Covered(x) == a.data)
      && (NonNegative(x.sizes) && Extents(x.sizes) == a.shape ==> Fits(a))
  {
    DtypeRoundTrip(a.dtype);
    FitsMeansExtents(a.shape);
    hide SizesOf, Extents, NonNegative, ScalarTypeOf, ElementSize;
    if Fits(a) { assert a.data[..|a.data|] == a.data; }
  }

  /** The outcome is the list of the echoed arrays, each what `EchoOne` says it is. */
  lemma EchoAll(c: Config, arrays: seq<NdArray<seq<byte>>>)
    requires AllMapped(arrays) && (forall i | 0 <= i < |arrays| :: FromNumpy(arrays[i]))
    requires forall j | 0 <= j < |arrays| :: NonNegative(InputsFor(arrays)[j].sizes)
    ensures
      var inputs := InputsFor(arrays);
      var o := EchoCall(c, arrays);
      && o.Returned? && |o.values| == |arrays|
      && forall i | 0 <= i < |arrays| ::
           var v := CopyOne(EchoArena(inputs), EchoOutputs(inputs, 0)[i]);
           v.Ok? && PyOne(c.decode, v.value, i) == Ok(o.values[i])
  {
    var inputs := InputsFor(arrays);
    var arena, evs := EchoArena(inputs), EchoOutputs(inputs, 0);
    forall i | 0 <= i < |arrays|
      ensures CopyOne(arena, evs[i]).Ok? && PyOne(c.decode, CopyOne(arena, evs[i]).value, i).Ok?
    {
      EchoOne(c, arrays, i);
    }
    var views := seq(|arrays|, i requires 0 <= i < |arrays| => CopyOne(arena, evs[i]).value);
    var values := seq(|arrays|, i requires 0 <= i < |arrays| => PyOne(c.decode, CopyOne(arena, evs[i]).value, i).value);
    CopyAllByIndex(arena, evs, views);
    PyFromByIndex(c.decode, views, values, 0);
    assert values[0..] == values;
  }

  /** The round trip, for any list of contiguous arrays of supported dtype: the same count, order,
      dtypes, shapes and bytes come back exactly when every extent fits 32 bits. */
  lemma RoundTrip(c: Config, arrays: seq<NdArray<seq<byte>>>)
    requires AllMapped(arrays) && forall i | 0 <= i < |arrays| :: FromNumpy(arrays[i])
    ensures IsArrays(EchoCall(c, arrays), arrays) <==> forall i | 0 <= i < |arrays| :: Fits(arrays[i])
  {
    var inputs := InputsFor(arrays);
    forall i | 0 <= i < |arrays| ensures inputs[i] == ToInput(MakeHeldInput(arrays[i]).value) {}
    if !AllNonNegative(inputs) {
      var i :| 0 <= i < |inputs| && !NonNegative(inputs[i].sizes);
      FitsMeansSame(arrays[i]);
    } else {
      EchoAll(c, arrays);
      forall i | 0 <= i < |arrays|
        ensures AsArray(EchoCall(c, arrays).values[i]) == Some(arrays[i]) <==> Fits(arrays[i])
      {
        EchoOne(c, arrays, i);
        FitsMeansSame(arrays[i]);
        if Fits(arrays[i]) { assert arrays[i].data[..|arrays[i].data|] == arrays[i].data; }
      }
    }
  }

  /** Arrays as numpy makes them come back exactly when their extents fit. */
  ghost predicate Echoes(seen: Outcome<seq<byte>>, arrays: seq<NdArray<seq<byte>>>) {
    (forall i | 0 <= i < |arrays| :: FromNumpy(arrays[i])) ==>
      (IsArrays(seen, arrays) <==> forall i | 0 <= i < |arrays| :: Fits(arrays[i]))
  }

  lemma EchoAt(c: Config, r: Rid, log: seq<Access>, k: nat, name: string, arrays: seq<NdArray<seq<byte>>>)
    requires IsEcho(c) && k < |log| && AllMapped(arrays) && log[k] == Exec(name, InputsFor(arrays))
    ensures Echoes(SeqOutcome(c, r, log, k), arrays)
  {
    ExecuteAt(c, r, log, k);
    ReplyMeans(c, r, log, k);
    if forall i | 0 <= i < |arrays| :: FromNumpy(arrays[i]) { RoundTrip(c, arrays); }
  }

  /** The round trip over whole runs: when Modules return their inputs, every finished call that
      executed, in every run, returned its arguments as they were when it was about to execute,
      exactly when their extents fit. */
  lemma EveryCallEchoes(c: Config, s: State, g: Turn) returns (before: State)
    requires Trusted(c) && IsEcho(c) && Reachable(c, s)
    requires Finished(s, g) && RecordOf(s, g).call.RunMethod? && RecordOf(s, g).exec.Some?
    ensures Echoes(RecordOf(s, g).seen, Contents(before.sh.heap, RecordOf(s, g).call.args))
    ensures AtExecute(before, g) && CallOf(before, g) == RecordOf(s, g).call
    ensures Reachable(c, before) && Leads(c, before, s)
  {
    before := Linearizable(c, s, g);
    var rec := RecordOf(s, g);
    var arrays := Contents(before.sh.heap, rec.call.args);
    assert AllMapped(arrays);
    EchoAt(c, rec.call.rt, LogOf(s.sh, rec.call.rt), rec.exec.value, rec.call.name, arrays);
  }

  /** And the very arrays it was called with, when no execute before its own borrows one of them. */
  lemma CallsEchoTheirArguments(c: Config, s: State, run: seq<Action>, g: Turn)
    requires Trusted(c) && IsEcho(c) && Reachable(c, s) && Feasible(c, s, run)
    requires HasCall(s, g) && !Finished(s, g) && s.threads[g.t].pc.Start? && CallOf(s, g).RunMethod?
    requires Finished(After(c, s, run), g) && RecordOf(After(c, s, run), g).exec.Some?
    requires forall i | 0 <= i < |CallOf(s, g).args| :: UntouchedUntil(c, s, run, g, CallOf(s, g).args[i].data)
    ensures Echoes(RecordOf(After(c, s, run), g).seen, Contents(s.sh.heap, CallOf(s, g).args))
  {
    ExecutesOnItsArguments(c, s, run, g);
    var call, arrays := CallOf(s, g), Contents(s.sh.heap, CallOf(s, g).args);
    assert AllMapped(arrays);
    EchoAt(c, call.rt, LogOf(After(c, s, run).sh, call.rt), RecordOf(After(c, s, run), g).exec.value, call.name, arrays);
  }
}
