/** Main results about calls under any interleaving: linearizability, metadata calls included, and
    its agreement with real time. */
module Linearizability {
  import opened Values
  import opened Marshal
  import opened Protocol
  import opened Sequential
  import opened Invariant
  import opened Runs
  import opened Growth
  import opened Executions

  /** Every execute in a Runtime's log is the one a call made, on its arguments: there was a state in
      which the call was about to execute, and what is logged is its method on the tensors of its
      arguments with the bytes they had in that state. */
  lemma ExecutesAreOnArguments(c: Config, s: State, r: Rid, k: nat) returns (before: State)
    requires Trusted(c) && Reachable(c, s) && k < |LogOf(s.sh, r)| && LogOf(s.sh, r)[k].Exec?
    ensures k < |TurnsOf(s.sh, r)| && RanOn(before, TurnsOf(s.sh, r)[k], s)
    ensures CallOf(before, TurnsOf(s.sh, r)[k]).rt == r && |LogOf(before.sh, r)| == k
    ensures Reachable(c, before) && Leads(c, before, s)
  {
    hide Inv, CanDo, Next;
    ReachableInv(c, s);
    LogHasTurns(c, s, r);
    var g := TurnsOf(s.sh, r)[k];
    assert HasExecuted(s, g);
    var count: nat, run :| Feasible(c, Initial(c, count), run) && After(c, Initial(c, count), run) == s;
    InvStart(c, count);
    var i := FindsExecute(c, Initial(c, count), run, g);
    before := After(c, Initial(c, count), run[..i]);
    Prefix(c, Initial(c, count), run, i);
    OnlyExecute(c, s, before, g, r, k);
  }

  /** Linearizability: whatever the interleaving, a call that executed has exactly one place in the
      order in which the Runtime's mutex was taken; the access there is the execute of its method on
      its arguments, with the contents they had when it was about to execute; and what it returned
      is what the sequential reference returns at that place. */
  lemma Linearizable(c: Config, s: State, g: Turn) returns (before: State)
    requires Trusted(c) && Reachable(c, s)
    requires Finished(s, g) && RecordOf(s, g).call.RunMethod? && RecordOf(s, g).exec.Some?
    ensures
      var rec := RecordOf(s, g);
      var r, k := rec.call.rt, rec.exec.value;
      && k < |LogOf(s.sh, r)| <= |TurnsOf(s.sh, r)| && TurnsOf(s.sh, r)[k] == g
      && AllMapped(rec.call.args)
      && LogOf(s.sh, r)[k] == Exec(rec.call.name, InputsFor(Contents(before.sh.heap, rec.call.args)))
      && rec.seen == SeqOutcome(c, r, LogOf(s.sh, r), k)
    ensures AtExecute(before, g) && CallOf(before, g) == RecordOf(s, g).call
    ensures Reachable(c, before) && Leads(c, before, s)
  {
    ReachableInv(c, s);
    assert RecordOk(c, s.sh, g.t, g.n, RecordOf(s, g));
    assert PlaceOf(s, g, ExecOf(s, g));
    before := ExecutesAreOnArguments(c, s, RecordOf(s, g).call.rt, RecordOf(s, g).exec.value);
    LeadsGrown(c, before, s);
  }

  /** End to end: when no execute between the making of a call and its own execute borrows one of its
      arguments, it executed on these as they were when it was made, and returned the sequential
      outcome of that. */
  lemma ExecutesOnItsArguments(c: Config, s: State, run: seq<Action>, g: Turn)
    requires Trusted(c) && Reachable(c, s) && Feasible(c, s, run)
    requires HasCall(s, g) && !Finished(s, g) && s.threads[g.t].pc.Start? && CallOf(s, g).RunMethod?
    requires Finished(After(c, s, run), g) && RecordOf(After(c, s, run), g).exec.Some?
    requires forall i | 0 <= i < |CallOf(s, g).args| :: UntouchedUntil(c, s, run, g, CallOf(s, g).args[i].data)
    ensures
      var s', call := After(c, s, run), CallOf(s, g);
      var log, k := LogOf(s'.sh, call.rt), RecordOf(s', g).exec.value;
      && RecordOf(s', g).call == call && AllMapped(call.args)
      && k < |log| <= |TurnsOf(s'.sh, call.rt)| && TurnsOf(s'.sh, call.rt)[k] == g
      && log[k] == Exec(call.name, InputsFor(Contents(s.sh.heap, call.args)))
      && RecordOf(s', g).seen == SeqOutcome(c, call.rt, log, k)
  {
    hide CanDo, Next;
    var s', call := After(c, s, run), CallOf(s, g);
    ReachableInv(c, s);
    GrownByRun(c, s, run);
    assert RecordOk(c, s'.sh, g.t, g.n, RecordOf(s', g));
    assert PlaceOf(s', g, ExecOf(s', g));
    NotExecutedYet(c, s, g);
    LogHasTurns(c, s', call.rt);
    assert HasExecuted(s', g);
    var i := FindsExecute(c, s, run, g);
    var before := After(c, s, run[..i]);
    OnlyExecute(c, s', before, g, call.rt, RecordOf(s', g).exec.value);
    GrownByRun(c, s, run[..i]);
    SameContents(c, s, run[..i], g);
  }

  /** The order has nothing in it but the places of calls on that Runtime, at most the last of
      them without its access yet, and every execute is its call's only one. */
  lemma ExecutesAreCalls(c: Config, s: State, r: Rid, k: nat)
    requires Trusted(c) && Reachable(c, s) && k < |TurnsOf(s.sh, r)|
    ensures |LogOf(s.sh, r)| <= |TurnsOf(s.sh, r)| <= |LogOf(s.sh, r)| + 1
    ensures
      var g := TurnsOf(s.sh, r)[k];
      && HasCall(s, g) && CallOf(s, g).rt == r
      && (k < |LogOf(s.sh, r)| && LogOf(s.sh, r)[k].Exec? ==> ExecOf(s, g) == Some(k))
  {
    ReachableInv(c, s);
    assert EntryOk(s, r, k);
    assert |TurnsOf(s.sh, r)| == |LogOf(s.sh, r)| + (if Underway(s, r) then 1 else 0);
  }

  /** Metadata calls are linearizable too, lazily mutating as they are: each has its own place, and
      gets there exactly what the Module lists or describes, or raises if that fails; load_method
      returns a Method exactly when the list has its name. */
  lemma MetadataLinearizable(c: Config, s: State, g: Turn)
    requires Trusted(c) && Reachable(c, s)
    requires Finished(s, g) && UseFits(Direct, RecordOf(s, g).call)
    ensures
      var rec := RecordOf(s, g);
      var r, call := rec.call.rt, rec.call;
      && rec.meta.Some? && rec.meta.value < |LogOf(s.sh, r)| <= |TurnsOf(s.sh, r)| && TurnsOf(s.sh, r)[rec.meta.value] == g
      && LogOf(s.sh, r)[rec.meta.value] == (if call.ReadMeta? then MetaRead(call.name) else NamesRead)
      && var m := Replay(c, r, LogOf(s.sh, r)[..rec.meta.value]);
         if call.ReadMeta? then
           var info := c.readMeta(r, m, call.name).1;
           rec.outcome == if info.None? then Raised(LoadFailed) else Answered(Meta(info.value))
         else
           var names := c.readNames(r, m).1;
           rec.outcome ==
             if names.None? then Raised(LoadFailed)
             else if call.ReadNames? then Answered(Names(names.value))
             else if call.name in names.value then Opened
             else Raised(LoadFailed)
  {
    ReachableInv(c, s);
    var rec := RecordOf(s, g);
    assert RecordOk(c, s.sh, g.t, g.n, rec);
    assert PlaceOf(s, g, MetaOf(s, g));
    LogHasTurns(c, s, rec.call.rt);
    ReplyMeans(c, rec.call.rt, LogOf(s.sh, rec.call.rt), rec.meta.value);
  }

  // ---------- real time ----------

  /** Real-time order, for executes and metadata reads alike: whatever place is taken after `g` has
      returned is behind all places of `g`; so is every place of a call made after that. */
  lemma RealTimeOrder(c: Config, s: State, run: seq<Action>, g: Turn, h: Turn, r: Rid)
    requires Trusted(c) && Reachable(c, s) && Feasible(c, s, run) && Finished(s, g)
    ensures
      var places, places' := TurnsOf(s.sh, r), TurnsOf(After(c, s, run).sh, r);
      && places <= places'
      && forall k | |places| <= k < |places'| :: places'[k] != g
    ensures !HasCall(s, h) ==> Precedes(After(c, s, run), r, g, h)
  {
    var s' := After(c, s, run);
    ReachableInv(c, s);
    GrownByRun(c, s, run);
    if !HasCall(s, h) { NoPlaceBeforeCall(s, r, h); }
  }
}
