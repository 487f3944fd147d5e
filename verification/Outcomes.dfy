/** Main results about what calls return, in terms of what the Module itself lists, describes and
    computes. */
module Outcomes {
  import opened Values
  import opened Marshal
  import opened Protocol
  import opened Sequential
  import opened Invariant
  import opened Runs
  import opened Executions
  import opened Linearizability
  import opened Permanence

  /** What the execute of a finished call did: the Module it left and the outputs it computed. */
  function Computed(c: Config, s: State, g: Turn): (Mod, Option<seq<EValue>>)
    requires Finished(s, g) && RecordOf(s, g).exec.Some? && RecordOf(s, g).exec.value < |LogOf(s.sh, RecordOf(s, g).call.rt)|
    requires LogOf(s.sh, RecordOf(s, g).call.rt)[RecordOf(s, g).exec.value].Exec?
  {
    var r, k := RecordOf(s, g).call.rt, RecordOf(s, g).exec.value;
    var log := LogOf(s.sh, r);
    c.execute(r, Replay(c, r, log[..k]), log[k].method_, log[k].inputs)
  }

  lemma SeenIsSequential(c: Config, s: State, g: Turn)
    requires Trusted(c) && Reachable(c, s)
    requires Finished(s, g) && RecordOf(s, g).call.RunMethod? && RecordOf(s, g).exec.Some?
    ensures
      var rec := RecordOf(s, g);
      var log, k := LogOf(s.sh, rec.call.rt), rec.exec.value;
      k < |log| && log[k].Exec? && rec.seen == SeqOutcome(c, rec.call.rt, log, k)
  {
    var before := Linearizable(c, s, g);
  }

  lemma ReturnedWasExecuted(c: Config, s: State, g: Turn)
    requires Trusted(c) && Reachable(c, s) && Finished(s, g) && RecordOf(s, g).outcome.Returned?
    ensures RecordOf(s, g).call.RunMethod? && RecordOf(s, g).exec.Some?
    ensures RecordOf(s, g).seen.Returned? && Resemble(RecordOf(s, g).outcome.values, RecordOf(s, g).seen.values)
  {
    ReachableInv(c, s);
    assert RecordOk(c, s.sh, g.t, g.n, RecordOf(s, g));
  }

  /** What a finished call returned is, output by output, what its execute computed: integers, floats,
      booleans and texts themselves, tensors as arrays of their shape, of their element type in
      numpy's terms, and of their bytes. */
  lemma ReturnsWhatWasComputed(c: Config, s: State, g: Turn)
    requires Trusted(c) && Reachable(c, s) && Finished(s, g) && RecordOf(s, g).outcome.Returned?
    ensures RecordOf(s, g).exec.Some? && RecordOf(s, g).exec.value < |LogOf(s.sh, RecordOf(s, g).call.rt)|
    ensures LogOf(s.sh, RecordOf(s, g).call.rt)[RecordOf(s, g).exec.value].Exec?
    ensures
      var rec, result := RecordOf(s, g), Computed(c, s, g);
      && result.1.Some? && rec.seen.Returned?
      && |rec.outcome.values| == |rec.seen.values| == |result.1.value|
      && forall i | 0 <= i < |result.1.value| ::
           var ev, bytes := result.1.value[i], PyBytes(rec.seen.values[i]);
           && IsPythonOf(c.decode, result.0.arena, ev, rec.outcome.values[i], bytes)
           && IsPythonOf(c.decode, result.0.arena, ev, rec.seen.values[i], bytes)
  {
    ReturnedWasExecuted(c, s, g);
    SeenIsSequential(c, s, g);
    var rec := RecordOf(s, g);
    ReturnedMeans(c, rec.call.rt, LogOf(s.sh, rec.call.rt), rec.exec.value);
    hide Reachable, IsPythonOf, SeqOutcome, Similar, PyBytes;
    var result := Computed(c, s, g);
    forall i | 0 <= i < |rec.seen.values|
      ensures IsPythonOf(c.decode, result.0.arena, result.1.value[i], rec.outcome.values[i], PyBytes(rec.seen.values[i]))
    {
      SimilarMeans(c.decode, result.0.arena, result.1.value[i], rec.outcome.values[i], rec.seen.values[i]);
    }
  }

  lemma SimilarMeans(decode: seq<byte> -> Option<string>, arena: seq<byte>, ev: EValue, p: PyValue<BufId>, q: PyValue<seq<byte>>)
    requires Similar(p, q) && IsPythonOf(decode, arena, ev, q, PyBytes(q))
    ensures IsPythonOf(decode, arena, ev, p, PyBytes(q))
  {
  }

  /** How a finished call that executed ended: it raised ExecutionError if its execute failed or some
      output has no Python form; or else the fault of the first output that cannot be given to
      Python, a text that is not UTF-8 by its number; or else it returned. */
  lemma EndsAsComputed(c: Config, s: State, g: Turn)
    requires Trusted(c) && SaneModule(c) && Reachable(c, s)
    requires Finished(s, g) && RecordOf(s, g).call.RunMethod? && RecordOf(s, g).exec.Some?
    ensures RecordOf(s, g).exec.value < |LogOf(s.sh, RecordOf(s, g).call.rt)|
    ensures LogOf(s.sh, RecordOf(s, g).call.rt)[RecordOf(s, g).exec.value].Exec?
    ensures SaneOutputs(Computed(c, s, g)) && EndsAs(c, Computed(c, s, g), RecordOf(s, g).outcome)
  {
    SeenIsSequential(c, s, g);
    SeenEndsTheSame(c, s, g);
    hide Reachable, SeqOutcome, SaneModule;
    var rec := RecordOf(s, g);
    OutcomeMeans(c, rec.call.rt, LogOf(s.sh, rec.call.rt), rec.exec.value);
  }

  lemma SeenEndsTheSame(c: Config, s: State, g: Turn)
    requires Trusted(c) && Reachable(c, s) && Finished(s, g) && RecordOf(s, g).call.RunMethod?
    ensures
      var outcome, seen := RecordOf(s, g).outcome, RecordOf(s, g).seen;
      if outcome.Raised? then seen == Raised(outcome.fault) else outcome.Returned? && seen.Returned?
  {
    ReachableInv(c, s);
    assert RecordOk(c, s.sh, g.t, g.n, RecordOf(s, g));
  }

  /** And it stays: in every later state, whatever has run on any Runtime, an array that was passed to
      no call holds what was computed for it. */
  lemma ResultsHoldWhatWasComputed(c: Config, s: State, g: Turn, i: nat)
    requires Trusted(c) && Reachable(c, s) && ReturnedArray(s, g, i) && !Passed(s, ArrayBuffer(s, g, i))
    ensures RecordOf(s, g).exec.Some? && RecordOf(s, g).exec.value < |LogOf(s.sh, RecordOf(s, g).call.rt)|
    ensures LogOf(s.sh, RecordOf(s, g).call.rt)[RecordOf(s, g).exec.value].Exec?
    ensures
      var result, b := Computed(c, s, g), ArrayBuffer(s, g, i);
      && b in s.sh.heap && result.1.Some? && i < |result.1.value|
      && IsPythonOf(c.decode, result.0.arena, result.1.value[i], RecordOf(s, g).outcome.values[i], s.sh.heap[b].bytes)
  {
    ReturnsWhatWasComputed(c, s, g);
    assert Feasible(c, s, []);
    ResultsArePermanent(c, s, [], g, i);
    hide Reachable;
  }

  // ---------- arguments ----------

  /** What a call executed on: in the state in which it was about to, each tensor is its argument's,
      with the bytes then in the argument's own buffer. */
  lemma ExecutesOnWhatWasPassed(c: Config, s: State, g: Turn) returns (before: State)
    requires Trusted(c) && Reachable(c, s)
    requires Finished(s, g) && RecordOf(s, g).call.RunMethod? && RecordOf(s, g).exec.Some?
    ensures AtExecute(before, g) && CallOf(before, g) == RecordOf(s, g).call && Reachable(c, before) && Leads(c, before, s)
    ensures
      var call, k := RecordOf(s, g).call, RecordOf(s, g).exec.value;
      var log := LogOf(s.sh, call.rt);
      && k < |log| && log[k].Exec? && log[k].method_ == call.name && |log[k].inputs| == |call.args|
      && forall i | 0 <= i < |call.args| ::
           && call.args[i].data in before.sh.heap
           && IsTensorOf(log[k].inputs[i], call.args[i].dtype, call.args[i].shape, before.sh.heap[call.args[i].data].bytes)
  {
    before := Linearizable(c, s, g);
    ReachableInv(c, before);
    hide Reachable, Inv, Leads, IsTensorOf, InputsFor, SeqOutcome, AtExecute;
    var args := RecordOf(s, g).call.args;
    var arrays := Protocol.Contents(before.sh.heap, args);
    assert AllMapped(arrays);
    TensorsAreTheArrays(arrays);
    forall i | 0 <= i < |args| ensures args[i].data in before.sh.heap { ArgumentsAreAlive(c, before, g, i); }
  }

  function ArgumentBuffers(args: seq<NdArray<BufId>>): seq<BufId> {
    seq(|args|, i requires 0 <= i < |args| => args[i].data)
  }

  /** An execute borrows its call's arguments, all of them and nothing else. */
  lemma ArgumentsAreBorrowed(c: Config, s: State, t: Tid, b: BufId)
    requires Trusted(c) && Reachable(c, s) && t < |s.threads|
    ensures
      var g := Turn(t, |s.threads[t].done|);
      Borrows(s, t, b) <==> AtExecute(s, g) && CallOf(s, g).RunMethod? && b in ArgumentBuffers(CallOf(s, g).args)
    ensures
      var g := Turn(t, |s.threads[t].done|);
      AtExecute(s, g) ==> CallOf(s, g).RunMethod? && Borrowed(s.threads[t].held) == ArgumentBuffers(CallOf(s, g).args)
  {
    ReachableInv(c, s);
    ThreadFacts(c, s, t);
    hide Reachable, Inv, ThreadOk, TurnsOk, LastEntry, Borrowed;
    if s.threads[t].pc.ExecIn? { HoldsItsArguments(c, s.sh, t, s.threads[t]); }
  }

  lemma HoldsItsArguments(c: Config, sh: Shared, t: Tid, th: Thread)
    requires ThreadOk(c, sh, t, th) && th.pc.ExecIn? && th.call.Some? && th.call.value.RunMethod?
    ensures Borrowed(th.held) == ArgumentBuffers(th.call.value.args)
  {
    var args := th.call.value.args;
    assert HeldOk(sh, t, |th.done|, args, th.held) && |th.held| == |args|;
    forall i | 0 <= i < |args| ensures th.held[i].data == args[i].data {
      assert MakeHeldInput(args[i]) == Ok(th.held[i]);
    }
  }

  /** The writes of the execute that call `g` is about to make: those its Module makes in the state its
      log took it to, on the tensors logged. */
  function WritesLogged(c: Config, s: State, s': State, g: Turn): seq<seq<byte>>
    requires HasCall(s, g) && CallOf(s, g).RunMethod? && |LogOf(s.sh, CallOf(s, g).rt)| < |LogOf(s'.sh, CallOf(s, g).rt)|
    requires LogOf(s'.sh, CallOf(s, g).rt)[|LogOf(s.sh, CallOf(s, g).rt)|].Exec?
  {
    var r, name := CallOf(s, g).rt, CallOf(s, g).name;
    var log := LogOf(s.sh, r);
    c.writes(r, Replay(c, r, log), name, LogOf(s'.sh, r)[|log|].inputs)
  }

  lemma LogsItsInputs(c: Config, t: Tid, sh: Shared, th: Thread)
    requires th.call.Some? && Shape(th) && th.pc.ExecIn?
    ensures
      var r, a := th.call.value.rt, Exec(th.call.value.name, InputsOf(sh.heap, th.held));
      LogOf(Act(c, t, sh, th).sh, r) == LogOf(sh, r) + [a]
  {
  }

  /** Nothing but an execute changes what is in a buffer. */
  lemma OthersWriteNothing(c: Config, s: State, a: Action, b: BufId)
    requires Trusted(c) && Reachable(c, s) && CanDo(c, s, a) && b in s.sh.heap && b in Next(c, s, a).sh.heap
    requires a.Run? ==> a.t < |s.threads| && !AtExecute(s, Turn(a.t, |s.threads[a.t].done|))
    ensures Next(c, s, a).sh.heap[b] == s.sh.heap[b]
  {
    ReachableInv(c, s);
    OnlyExecutesWrite(c, s, a, b);
    if a.Run? { ArgumentsAreBorrowed(c, s, a.t, b); }
    hide Act, Inv, Reachable, LastWrite;
  }

  /** What is logged is what the writes are made on. */
  lemma WritesAreLogged(c: Config, s: State, t: Tid)
    requires Trusted(c) && Inv(c, s) && CanDo(c, s, Run(t)) && AtExecute(s, Turn(t, |s.threads[t].done|))
    ensures
      var g, s' := Turn(t, |s.threads[t].done|), Next(c, s, Run(t));
      && CallOf(s, g).RunMethod? && |LogOf(s.sh, CallOf(s, g).rt)| < |LogOf(s'.sh, CallOf(s, g).rt)|
      && LogOf(s'.sh, CallOf(s, g).rt)[|LogOf(s.sh, CallOf(s, g).rt)|].Exec?
      && WritesOf(c, s, t) == WritesLogged(c, s, s', g)
  {
    ThreadFacts(c, s, t);
    LogsItsInputs(c, t, s.sh, s.threads[t]);
    hide Act, ThreadOk, TurnsOk;
    var r := s.threads[t].call.value.rt;
    assert ModOf(c, s.sh, r) == Replay(c, r, LogOf(s.sh, r));
  }

  /** An execute leaves in each of its arguments the last thing its Module wrote there, if that fits. */
  lemma WhatExecutesWrite(c: Config, s: State, t: Tid, b: BufId)
    requires Trusted(c) && Reachable(c, s) && CanDo(c, s, Run(t))
    requires b in s.sh.heap && b in Next(c, s, Run(t)).sh.heap && AtExecute(s, Turn(t, |s.threads[t].done|))
    ensures
      var g, s' := Turn(t, |s.threads[t].done|), Next(c, s, Run(t));
      && CallOf(s, g).RunMethod? && |LogOf(s.sh, CallOf(s, g).rt)| < |LogOf(s'.sh, CallOf(s, g).rt)|
      && LogOf(s'.sh, CallOf(s, g).rt)[|LogOf(s.sh, CallOf(s, g).rt)|].Exec?
      && IsLastWrite(ArgumentBuffers(CallOf(s, g).args), WritesLogged(c, s, s', g), b,
                     s.sh.heap[b].bytes, s'.sh.heap[b].bytes)
  {
    ReachableInv(c, s);
    ArgumentsAreBorrowed(c, s, t, b);
    OnlyExecutesWrite(c, s, Run(t), b);
    WritesAreLogged(c, s, t);
    LastWriteMeans(Borrowed(s.threads[t].held), WritesOf(c, s, t), b, s.sh.heap[b].bytes);
    hide Inv, Reachable, IsLastWrite, LastWrite, Next, CanDo, WritesOf, WritesLogged, Borrowed, ArgumentBuffers;
    if b !in ArgumentBuffers(CallOf(s, Turn(t, |s.threads[t].done|)).args) {
      assert !Borrows(s, t, b);
    }
  }

  // ---------- metadata ----------

  /** To have seen OpenVINO is to have read metadata that names it. */
  lemma SawMeans(c: Config, sh: Shared, r: Rid, name: string, k: Option<nat>)
    ensures SawOpenvino(c, sh, r, name, k) <==>
      && k.Some? && k.value < |LogOf(sh, r)| && LogOf(sh, r)[k.value] == MetaRead(name)
      && var info := c.readMeta(r, Replay(c, r, LogOf(sh, r)[..k.value]), name).1;
         info.Some? && OPENVINO in info.value.backends
  {
    if k.Some? && k.value < |LogOf(sh, r)| { ReplyMeans(c, r, LogOf(sh, r), k.value); }
  }

  /** The Module listed `names` at place `k`. */
  ghost predicate ListedAt(c: Config, sh: Shared, r: Rid, names: seq<string>, k: nat) {
    && k < |LogOf(sh, r)| && LogOf(sh, r)[k].NamesRead?
    && c.readNames(r, Replay(c, r, LogOf(sh, r)[..k])).1 == Some(names)
  }

  /** What a finished constructor had read: when it found no OpenVINO method, none of the methods the
      Module listed is delegated; when it found one, its last read was of metadata that names
      OpenVINO; when it could not read, the Module failed to list or describe. */
  lemma ConstructorsReadTheirProgram(c: Config, s: State, g: Turn)
    requires Trusted(c) && Reachable(c, s) && Finished(s, g) && RecordOf(s, g).call.Resolve?
    ensures
      var rec := RecordOf(s, g);
      var r, log := rec.call.rt, LogOf(s.sh, rec.call.rt);
      && (rec.outcome == Resolved(false) ==>
            exists k, names :: ListedAt(c, s.sh, r, names, k) && forall name | name in names :: !c.delegates(r, name))
      && (rec.outcome == Resolved(true) || rec.outcome == Raised(BackendMissing) ==>
            exists name :: SawOpenvino(c, s.sh, r, name, rec.meta))
      && (rec.outcome == Raised(LoadFailed) ==>
            && rec.meta.Some? && rec.meta.value < |log|
            && var m, a := Replay(c, r, log[..rec.meta.value]), log[rec.meta.value];
               (a.NamesRead? && c.readNames(r, m).1.None?) || (a.MetaRead? && c.readMeta(r, m, a.name).1.None?)
               || (a.Exec? && c.execute(r, m, a.method_, a.inputs).1.None?))
  {
    ConstructorRecord(c, s, g);
    hide Reachable, RecordOk, Replay, ReplyAt, Perform;
    var rec := RecordOf(s, g);
    var r, log := rec.call.rt, LogOf(s.sh, rec.call.rt);
    if rec.outcome == Resolved(false) {
      var names :| Listed(c, s.sh, r, names) && Plain(c, r, names, |names|);
      var k: nat :| Replied(c, s.sh, r, Some(k), NamesRead, Names(names));
      ReplyMeans(c, r, log, k);
      assert ListedAt(c, s.sh, r, names, k);
    } else if rec.outcome == Raised(LoadFailed) {
      ReplyMeans(c, r, log, rec.meta.value);
    }
  }

  lemma ConstructorRecord(c: Config, s: State, g: Turn)
    requires Trusted(c) && Reachable(c, s) && Finished(s, g) && RecordOf(s, g).call.Resolve?
    ensures ResolveRecordOk(c, s.sh, RecordOf(s, g))
  {
    ReachableInv(c, s);
    hide ResolveRecordOk;
    assert RecordOk(c, s.sh, g.t, g.n, RecordOf(s, g));
  }
}
