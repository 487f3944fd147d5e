/** Main results about buffers: what a call returned is its own and keeps its contents unless it is
    passed to another call; what a call executes on; and that no reference dangles. */
module Permanence {
  import opened Values
  import opened Marshal
  import opened Protocol
  import opened Invariant
  import opened Preservation
  import opened Turns
  import opened Runs
  import opened Growth
  import opened Executions

  // ---------- what was passed on ----------

  /** Some call so far had buffer `b` as an argument. */
  ghost predicate Passed(s: State, b: BufId) { exists g: Turn :: PassedBy(s, g, b) }

  lemma PassedStays(s: State, s': State, b: BufId)
    requires Grown(s, s')
    ensures Passed(s, b) ==> Passed(s', b)
  {
    if Passed(s, b) {
      var g :| PassedBy(s, g, b);
      assert PassedBy(s', g, b);
    }
  }

  lemma PassedIsOld(s: State, b: BufId)
    requires ArgsPublic(s)
    ensures Passed(s, b) ==> b < s.sh.next
  {
    if Passed(s, b) {
      var g :| PassedBy(s, g, b);
      assert Public(s, b);
    }
  }

  lemma BorrowedIsPassed(c: Config, s: State, t: Tid, b: BufId)
    requires Inv(c, s) && Borrows(s, t, b)
    ensures Passed(s, b)
  {
    var th := s.threads[t];
    assert ThreadOk(c, s.sh, t, th) && th.call.Some? && th.call.value.RunMethod?;
    var i :| 0 <= i < |th.held| && Borrowed(th.held)[i] == b;
    HeldIsPassed(s, t, i);
  }

  // ---------- nothing dangles ----------

  /** Whatever a thread still needs is alive: arguments, keepalives, storage and results. */
  lemma ReferencesAreAlive(c: Config, s: State, t: Tid, b: BufId)
    requires Trusted(c) && Reachable(c, s) && t < |s.threads| && !Unpinned(s.threads[t], b)
    ensures b in s.sh.heap
  {
    ReachableInv(c, s);
    PinnedIsAlive(c, s.sh, t, s.threads[t], b);
  }

  lemma PinnedIsAlive(c: Config, sh: Shared, t: Tid, th: Thread, b: BufId)
    requires ThreadOk(c, sh, t, th) && !Unpinned(th, b)
    ensures b in sh.heap
  {
    if n :| 0 <= n < |th.done| && !OutcomeAvoids(th.done[n].outcome, b) {
      assert RecordOk(c, sh, t, n, th.done[n]);
      assert th.done[n].call.RunMethod?;
    } else {
      assert th.call.Some? && th.call.value.RunMethod? && RunOk(c, sh, t, th);
      if i :| 0 <= i < |th.held| && th.held[i].data == b {
        assert HeldOk(sh, t, |th.done|, th.call.value.args, th.held);
        assert Lent(sh, t, |th.done|, th.held[i].data);
      }
    }
  }

  /** Nothing is kept for longer than it is needed: a caller's array can be collected as soon as no
      unfinished call has it as an argument, and storage of the core as soon as its call is over. */
  lemma UnneededCanBeCollected(c: Config, s: State, b: BufId)
    requires Trusted(c) && Reachable(c, s) && b in s.sh.heap
    requires match s.sh.heap[b].owner
             case CallerOf => true
             case StorageOf(t, n, _) => Finished(s, Turn(t, n))
             case ResultOf(_, _, _) => false
    requires forall t, i | 0 <= t < |s.threads| && s.threads[t].call.Some? && s.threads[t].call.value.RunMethod?
                        && 0 <= i < |s.threads[t].call.value.args| :: s.threads[t].call.value.args[i].data != b
    ensures CanDo(c, s, Collect(b))
  {
    ReachableInv(c, s);
    hide Reachable, Unpinned, ThreadOk;
    forall t | 0 <= t < |s.threads| ensures Unpinned(s.threads[t], b) {
      ThreadFacts(c, s, t);
      NotNeeded(c, s.sh, t, s.threads[t], b);
    }
  }

  lemma NotNeeded(c: Config, sh: Shared, t: Tid, th: Thread, b: BufId)
    requires ThreadOk(c, sh, t, th) && b in sh.heap && !sh.heap[b].owner.ResultOf?
    requires sh.heap[b].owner.StorageOf? && sh.heap[b].owner.t == t ==> sh.heap[b].owner.n < |th.done|
    requires th.call.Some? && th.call.value.RunMethod? ==>
      forall i | 0 <= i < |th.call.value.args| :: th.call.value.args[i].data != b
    ensures Unpinned(th, b)
  {
    forall n | 0 <= n < |th.done| ensures OutcomeAvoids(th.done[n].outcome, b) { assert RecordOk(c, sh, t, n, th.done[n]); }
    if th.call.Some? && th.call.value.RunMethod? {
      var args := th.call.value.args;
      assert RunOk(c, sh, t, th);
      forall i | 0 <= i < |th.held| ensures th.held[i].data != b {
        assert HeldOk(sh, t, |th.done|, args, th.held);
        assert MakeHeldInput(args[i]) == Ok(th.held[i]);
      }
    }
  }

  /** Storage and results are made in fresh buffers: a buffer that appears was never there before,
      no thread refers to it, and it was never passed to any call. */
  lemma NewBuffersAreFresh(c: Config, s: State, a: Action, b: BufId, t: Tid)
    requires Trusted(c) && Reachable(c, s) && CanDo(c, s, a)
    requires b in Next(c, s, a).sh.heap && b !in s.sh.heap
    ensures s.sh.next <= b < Next(c, s, a).sh.next
    ensures !Passed(s, b) && (t < |s.threads| ==> Unpinned(s.threads[t], b))
  {
    hide Act, Unpinned;
    ReachableInv(c, s);
    PassedIsOld(s, b);
    InvStep(c, s, a);
    if a.Run? { InvThreadStep(c, s, a.t); }
    if t < |s.threads| && !Unpinned(s.threads[t], b) { PinnedIsAlive(c, s.sh, t, s.threads[t], b); }
  }

  // ---------- permanence of results ----------

  /** The outcome reads as when it was returned, up to arrays that were passed on. */
  ghost predicate IntactRecord(s: State, rec: Record) {
    rec.outcome.Returned? ==>
      && rec.seen.Returned? && |rec.seen.values| == |rec.outcome.values|
      && forall i | 0 <= i < |rec.outcome.values| ::
           (rec.outcome.values[i].PyArray? ==> !Passed(s, rec.outcome.values[i].buffer))
             ==> ReadPy(s.sh.heap, rec.outcome.values[i]) == rec.seen.values[i]
  }

  ghost predicate Intact(s: State) {
    forall g: Turn | Finished(s, g) :: IntactRecord(s, RecordOf(s, g))
  }

  /** A step leaves a finished call's results as they are, unless they are passed on. */
  lemma RecordStaysIntact(c: Config, s: State, a: Action, g: Turn)
    requires Trusted(c) && Inv(c, s) && CanDo(c, s, a) && Finished(s, g) && IntactRecord(s, RecordOf(s, g))
    ensures Finished(Next(c, s, a), g) && IntactRecord(Next(c, s, a), RecordOf(Next(c, s, a), g))
  {
    hide Act, CanDo, Next;
    var s' := Next(c, s, a);
    GrownByStep(c, s, a);
    var rec := RecordOf(s, g);
    if rec.outcome.Returned? {
      var values := rec.outcome.values;
      assert RecordOk(c, s.sh, g.t, g.n, rec) && RecordOk(c, s'.sh, g.t, g.n, rec) && rec.call.RunMethod?;
      forall i | 0 <= i < |values| && (values[i].PyArray? ==> !Passed(s', values[i].buffer))
        ensures ReadPy(s'.sh.heap, values[i]) == ReadPy(s.sh.heap, values[i])
        ensures values[i].PyArray? ==> !Passed(s, values[i].buffer)
      {
        if values[i].PyArray? {
          var b := values[i].buffer;
          PassedStays(s, s', b);
          assert Owned(s.sh, b, ResultOf(g.t, g.n, i)) && Owned(s'.sh, b, ResultOf(g.t, g.n, i));
          OnlyExecutesWrite(c, s, a, b);
          if a.Run? && Borrows(s, a.t, b) { BorrowedIsPassed(c, s, a.t, b); }
        }
      }
    }
  }

  /** A call that ends is recorded with what its arrays hold at that moment. */
  lemma RecordStartsIntact(c: Config, s: State, a: Action, g: Turn)
    requires CanDo(c, s, a) && !Finished(s, g) && Finished(Next(c, s, a), g)
    ensures a.Run?
    ensures
      var s' := Next(c, s, a);
      RecordOf(s', g).seen == Seen(s'.sh.heap, RecordOf(s', g).outcome) && IntactRecord(s', RecordOf(s', g))
  {
    if a.Run? { EndsAsSeen(c, a.t, s.sh, s.threads[a.t]); }
  }

  lemma EndsAsSeen(c: Config, t: Tid, sh: Shared, th: Thread)
    requires th.call.Some? && Shape(th)
    ensures
      var e := Act(c, t, sh, th);
      e.th.done == th.done || exists rec ::
        e.th.done == th.done + [rec] && rec.seen == Seen(e.sh.heap, rec.outcome)
  {
    var e := Act(c, t, sh, th);
    if e.th.done != th.done {
      var rec := e.th.done[|th.done|];
      assert e.th.done == th.done + [rec];
    }
  }

  lemma {:induction false} IntactAfter(c: Config, s: State, run: seq<Action>)
    requires Trusted(c) && Inv(c, s) && Intact(s) && Feasible(c, s, run)
    ensures Inv(c, After(c, s, run)) && Intact(After(c, s, run))
    decreases |run|
  {
    hide Act, CanDo, Next, Inv, IntactRecord;
    if run == [] {
    } else {
      var s' := Next(c, s, run[0]);
      InvStep(c, s, run[0]);
      forall g: Turn | Finished(s', g) ensures IntactRecord(s', RecordOf(s', g)) {
        if Finished(s, g) { RecordStaysIntact(c, s, run[0], g); } else { RecordStartsIntact(c, s, run[0], g); }
      }
      IntactAfter(c, s', run[1..]);
    }
  }

  lemma ReachableIntact(c: Config, s: State)
    requires Trusted(c) && Reachable(c, s)
    ensures Inv(c, s) && Intact(s)
  {
    hide CanDo, Next;
    var count: nat, run :| Feasible(c, Initial(c, count), run) && After(c, Initial(c, count), run) == s;
    InvStart(c, count);
    IntactAfter(c, Initial(c, count), run);
  }

  /** Permanence: an array that was returned is alive in every later state, and as long as it is
      passed to no call it holds what it held when it was returned, whatever executes on any
      Runtime. `PassedOnChanges` shows that the condition is needed. */
  lemma ResultsArePermanent(c: Config, s: State, run: seq<Action>, g: Turn, i: nat)
    requires Trusted(c) && Reachable(c, s) && Feasible(c, s, run) && ReturnedArray(s, g, i)
    ensures
      var s' := After(c, s, run);
      && ReturnedArray(s', g, i) && RecordOf(s', g) == RecordOf(s, g)
      && Owned(s'.sh, ArrayBuffer(s, g, i), ResultOf(g.t, g.n, i))
      && (!Passed(s', ArrayBuffer(s, g, i)) ==>
            && ReadPy(s'.sh.heap, RecordOf(s, g).outcome.values[i]) == ReadPy(s.sh.heap, RecordOf(s, g).outcome.values[i])
            && RecordOf(s, g).seen.Returned? && i < |RecordOf(s, g).seen.values|
            && ReadPy(s'.sh.heap, RecordOf(s, g).outcome.values[i]) == RecordOf(s, g).seen.values[i])
  {
    hide CanDo, Next;
    var s', b := After(c, s, run), ArrayBuffer(s, g, i);
    ReachableIntact(c, s);
    IntactAfter(c, s, run);
    GrownByRun(c, s, run);
    assert RecordOk(c, s'.sh, g.t, g.n, RecordOf(s', g));
    assert IntactRecord(s, RecordOf(s, g)) && IntactRecord(s', RecordOf(s', g));
    PassedStays(s, s', b);
  }

  /** The same condition seen from the run: passed on or not, an array keeps its contents over any run
      in which no execute borrows it; so a call that is refused, or fails before its execute,
      changes none of its arguments. */
  lemma UnborrowedArraysAreKept(c: Config, s: State, run: seq<Action>, g: Turn, i: nat)
    requires Trusted(c) && Reachable(c, s) && Feasible(c, s, run) && ReturnedArray(s, g, i)
    requires Untouched(c, s, run, ArrayBuffer(s, g, i))
    ensures
      var s', p := After(c, s, run), RecordOf(s, g).outcome.values[i];
      ReturnedArray(s', g, i) && RecordOf(s', g) == RecordOf(s, g) && ReadPy(s'.sh.heap, p) == ReadPy(s.sh.heap, p)
  {
    hide CanDo, Next;
    ReachableInv(c, s);
    GrownByRun(c, s, run);
    hide Inv;
    ResultIsOwned(c, s, g, i);
    ResultIsOwned(c, After(c, s, run), g, i);
    BytesStay(c, s, run, ArrayBuffer(s, g, i));
  }

  /** When a call returns, its arrays read as recorded, and they have been passed to no call. */
  lemma NewResultsAreUnshared(c: Config, s: State, a: Action, g: Turn, i: nat)
    requires Trusted(c) && Reachable(c, s) && CanDo(c, s, a) && !Finished(s, g) && ReturnedArray(Next(c, s, a), g, i)
    ensures !Passed(Next(c, s, a), ArrayBuffer(Next(c, s, a), g, i))
    ensures RecordOf(Next(c, s, a), g).seen == Seen(Next(c, s, a).sh.heap, RecordOf(Next(c, s, a), g).outcome)
  {
    hide Act, Inv;
    var s' := Next(c, s, a);
    var b := ArrayBuffer(s', g, i);
    ReachableInv(c, s);
    InvStep(c, s, a);
    RecordStartsIntact(c, s, a, g);
    ResultIsOwned(c, s', g, i);
    InvThreadStep(c, s, a.t);
    IsStepOf(c, s, a.t);
    if Passed(s', b) { PassedEarlier(c, s, s', a.t, Act(c, a.t, s.sh, s.threads[a.t]), b); }
  }

  lemma ResultIsOwned(c: Config, s: State, g: Turn, i: nat)
    requires Inv(c, s) && ReturnedArray(s, g, i)
    ensures Owned(s.sh, ArrayBuffer(s, g, i), ResultOf(g.t, g.n, i))
  {
    assert RecordOk(c, s.sh, g.t, g.n, RecordOf(s, g)) && RecordOf(s, g).call.RunMethod?;
  }

  /** A thread's step passes nothing on, and what was passed belongs to no call in progress. */
  lemma PassedEarlier(c: Config, s: State, s': State, t: Tid, e: Effect, b: BufId)
    requires Inv(c, s) && StepOf(s, s', t, e) && Extends(s.sh, s'.sh, s.threads[t])
    requires b in s'.sh.heap && !s'.sh.heap[b].owner.CallerOf? && Passed(s', b)
    ensures Finished(s, Turn(s'.sh.heap[b].owner.t, s'.sh.heap[b].owner.n))
  {
    var h :| PassedBy(s', h, b);
    CallsStay(s, s', t, e, h);
    assert PassedBy(s, h, b) && Public(s, b);
  }

  /** Every returned array has a live buffer of its own: shared with no other returned array, with
      no storage of the core, and with an input only if it was passed on. */
  lemma ResultsAreDisjoint(c: Config, s: State, g: Turn, i: nat, h: Turn, j: nat)
    requires Trusted(c) && Reachable(c, s) && ReturnedArray(s, g, i)
    ensures Owned(s.sh, ArrayBuffer(s, g, i), ResultOf(g.t, g.n, i))
    ensures ReturnedArray(s, h, j) && ArrayBuffer(s, g, i) == ArrayBuffer(s, h, j) ==> g == h && i == j
    ensures forall u, k | 0 <= u < |s.threads| && HasViews(s.threads[u].pc) && 0 <= k < |s.threads[u].pc.views| ::
      !(s.threads[u].pc.views[k].TensorView? && s.threads[u].pc.views[k].data == ArrayBuffer(s, g, i))
    ensures !Passed(s, ArrayBuffer(s, g, i)) ==> forall u | 0 <= u < |s.threads| :: !Borrows(s, u, ArrayBuffer(s, g, i))
  {
    ReachableInv(c, s);
    hide Inv;
    var b := ArrayBuffer(s, g, i);
    ResultIsOwned(c, s, g, i);
    if ReturnedArray(s, h, j) { ResultIsOwned(c, s, h, j); }
    forall u, k | 0 <= u < |s.threads| && HasViews(s.threads[u].pc) && 0 <= k < |s.threads[u].pc.views|
      ensures !(s.threads[u].pc.views[k].TensorView? && s.threads[u].pc.views[k].data == b)
    {
      StorageIsPrivate(c, s, u, k);
    }
    forall u | 0 <= u < |s.threads| && Borrows(s, u, b) ensures Passed(s, b) { BorrowedIsPassed(c, s, u, b); }
  }

  predicate HasViews(pc: PC) { pc.CopyOut? || pc.GilWait? || pc.Build? }

  lemma StorageIsPrivate(c: Config, s: State, u: Tid, k: nat)
    requires Inv(c, s) && u < |s.threads| && HasViews(s.threads[u].pc) && k < |s.threads[u].pc.views|
    ensures s.threads[u].pc.views[k].TensorView? ==>
      Owned(s.sh, s.threads[u].pc.views[k].data, StorageOf(u, |s.threads[u].done|, k))
  {
    var th := s.threads[u];
    assert ThreadOk(c, s.sh, u, th) && th.call.Some? && RunOk(c, s.sh, u, th);
  }
}
