/** What one action does to the places, the log and the calls of its thread. */
module Turns {
  import opened Values
  import opened Protocol
  import opened Locks
  import opened Invariant

  /** The action took a place, or made the access of the place it had; or it left the places and
      the log alone; and at most it ended the call in progress. */
  ghost predicate CallsEffect(th: Thread, e: Effect, t: Tid, sh: Shared)
    requires th.call.Some?
  {
    var r, m := th.call.value.rt, |th.done|;
    && (forall q: Rid | q != r :: TurnsOf(e.sh, q) == TurnsOf(sh, q) && LogOf(e.sh, q) == LogOf(sh, q))
    && if e.mutex == MutexTake then
         && e.th.done == th.done && e.th.call == th.call && !Pending(th) && Pending(e.th)
         && TurnsOf(e.sh, r) == TurnsOf(sh, r) + [Turn(t, m)] && LogOf(e.sh, r) == LogOf(sh, r)
         && (if th.pc.ExecWait? then e.th.exec == Some(|LogOf(sh, r)|) && e.th.meta == th.meta && e.th.pc.ExecIn?
             else e.th.meta == Some(|LogOf(sh, r)|) && e.th.exec == th.exec && e.th.pc.AccessIn?)
       else
         && TurnsOf(e.sh, r) == TurnsOf(sh, r) && !Pending(e.th)
         && (if Pending(th) then
               && |LogOf(e.sh, r)| == |LogOf(sh, r)| + 1 && LogOf(sh, r) <= LogOf(e.sh, r)
               && (LogOf(e.sh, r)[|LogOf(sh, r)|].Exec? ==> th.pc.ExecIn?)
             else
               LogOf(e.sh, r) == LogOf(sh, r))
         && (|| (e.th.done == th.done && e.th.call == th.call && e.th.meta == th.meta && e.th.exec == th.exec)
             || (e.th.call.None? && e.th.meta == None && e.th.exec == None && Ended(th, e.th)))
  }

  ghost predicate Ended(th: Thread, th': Thread)
    requires th.call.Some?
  {
    var m := |th.done|;
    && |th'.done| == m + 1 && th'.done[..m] == th.done
    && th'.done[m].call == th.call.value && th'.done[m].meta == th.meta && th'.done[m].exec == th.exec
  }

  lemma TakesPlace(c: Config, t: Tid, sh: Shared, th: Thread)
    requires th.call.Some? && Shape(th) && (th.pc.AccessWait? || th.pc.ExecWait?)
    ensures CallsEffect(th, Act(c, t, sh, th), t, sh)
  {
  }

  lemma MakesAccess(c: Config, t: Tid, sh: Shared, th: Thread)
    requires th.call.Some? && Shape(th) && (th.pc.AccessIn? || th.pc.ExecIn?)
    ensures CallsEffect(th, Act(c, t, sh, th), t, sh)
  {
  }

  lemma KeepsPlacesInCopy(c: Config, t: Tid, sh: Shared, th: Thread)
    requires th.call.Some? && Shape(th) && th.pc.CopyOut?
    ensures CallsEffect(th, Act(c, t, sh, th), t, sh)
  {
  }

  lemma KeepsPlacesInBuild(c: Config, t: Tid, sh: Shared, th: Thread)
    requires th.call.Some? && Shape(th) && th.pc.Build?
    ensures CallsEffect(th, Act(c, t, sh, th), t, sh)
  {
  }

  lemma KeepsPlacesInResolve(c: Config, t: Tid, sh: Shared, th: Thread)
    requires th.call.Some? && Shape(th)
    requires th.pc.ScanHeld? || th.pc.Scan? || th.pc.IsFile? || th.pc.FindWheel? || th.pc.SetEnv?
    ensures CallsEffect(th, Act(c, t, sh, th), t, sh)
  {
  }

  lemma KeepsPlacesElsewhere(c: Config, t: Tid, sh: Shared, th: Thread)
    requires th.call.Some? && Shape(th)
    requires th.pc.Start? || th.pc.AccessOut? || th.pc.Answer? || th.pc.Marshalling? || th.pc.CheckBackend? || th.pc.CheckEnv?
          || th.pc.CheckFile? || th.pc.Abort? || th.pc.GilWait? || th.pc.Unwind? || th.pc.Raising?
    ensures CallsEffect(th, Act(c, t, sh, th), t, sh)
  {
  }

  lemma CallsEffectHolds(c: Config, t: Tid, sh: Shared, th: Thread)
    requires th.call.Some? && Shape(th)
    ensures CallsEffect(th, Act(c, t, sh, th), t, sh)
  {
    if th.pc.AccessWait? || th.pc.ExecWait? {
      TakesPlace(c, t, sh, th);
    } else if th.pc.AccessIn? || th.pc.ExecIn? {
      MakesAccess(c, t, sh, th);
    } else if th.pc.CopyOut? {
      KeepsPlacesInCopy(c, t, sh, th);
    } else if th.pc.Build? {
      KeepsPlacesInBuild(c, t, sh, th);
    } else if th.pc.ScanHeld? || th.pc.Scan? || th.pc.IsFile? || th.pc.FindWheel? || th.pc.SetEnv? {
      KeepsPlacesInResolve(c, t, sh, th);
    } else {
      KeepsPlacesElsewhere(c, t, sh, th);
    }
  }

  // ---------- the step from `s` to `s'` that thread `t` makes with effect `e` ----------

  ghost predicate StepOf(s: State, s': State, t: Tid, e: Effect) {
    && t < |s.threads| && s.threads[t].call.Some? && CallsEffect(s.threads[t], e, t, s.sh)
    && s'.sh == e.sh && s'.threads == s.threads[t := e.th]
    && s'.mutex == match e.mutex
                   case MutexTake => s.mutex[s.threads[t].call.value.rt := t]
                   case MutexDrop => s.mutex - {s.threads[t].call.value.rt}
                   case MutexKeep => s.mutex
  }

  /** Calls stay what they are, with their arguments. */
  lemma CallsStay(s: State, s': State, t: Tid, e: Effect, g: Turn)
    requires StepOf(s, s', t, e)
    ensures HasCall(s', g) <==> HasCall(s, g)
    ensures HasCall(s, g) ==> CallOf(s', g) == CallOf(s, g)
    ensures Finished(s, g) ==> Finished(s', g) && RecordOf(s', g) == RecordOf(s, g)
  {
    if g.t == t && Finished(s, g) && e.th.done != s.threads[t].done {
      assert e.th.done[..|s.threads[t].done|][g.n] == e.th.done[g.n];
    }
  }

  lemma TurnCounts(s: State, s': State, t: Tid, e: Effect, r: Rid)
    requires LocksOk(s) && LocksOk(s') && TurnsOk(s) && StepOf(s, s', t, e)
    requires Disciplined(s.threads[t], e) && LocksFree(s, s.threads[t].call.value.rt, e)
    ensures |TurnsOf(s'.sh, r)| == |LogOf(s'.sh, r)| + (if Underway(s', r) then 1 else 0)
  {
    hide Shape;
    var th := s.threads[t];
    assert |TurnsOf(s.sh, r)| == |LogOf(s.sh, r)| + (if Underway(s, r) then 1 else 0);
    if r != th.call.value.rt {
      assert r in s.mutex && s.mutex[r] == t ==> Inside(th, r);
      assert Underway(s', r) == Underway(s, r);
    } else if HoldsMutex(th.pc) {
      assert Inside(th, r);
    } else if r in s.mutex {
      assert Inside(s.threads[s.mutex[r]], r);
    }
  }

  lemma EntriesKept(s: State, s': State, t: Tid, e: Effect, r: Rid, k: nat)
    requires TurnsOk(s) && StepOf(s, s', t, e) && LastEntry(s.sh, s.threads[t])
    requires s.threads[t].pc.ExecWait? ==> s.threads[t].exec == None
    requires k < |TurnsOf(s'.sh, r)|
    ensures EntryOk(s', r, k)
  {
    var th := s.threads[t];
    var g := TurnsOf(s'.sh, r)[k];
    CallsStay(s, s', t, e, g);
    if k < |TurnsOf(s.sh, r)| {
      assert TurnsOf(s.sh, r)[k] == g && EntryOk(s, r, k);
      if k == |LogOf(s.sh, r)| && k < |LogOf(s'.sh, r)| && LogOf(s'.sh, r)[k].Exec? {
        assert th.pc.ExecIn? && Ticket(th) == Some(k);
        assert HasCall(s, Turn(t, |th.done|)) && PlaceOf(s, Turn(t, |th.done|), ExecOf(s, Turn(t, |th.done|)));
      }
    }
  }

  lemma PlacesKept(s: State, s': State, t: Tid, e: Effect, g: Turn)
    requires TurnsOk(s) && StepOf(s, s', t, e) && HasCall(s', g)
    requires !Underway(s, s.threads[t].call.value.rt) || e.mutex != MutexTake
    ensures PlaceOf(s', g, ExecOf(s', g)) && PlaceOf(s', g, MetaOf(s', g))
  {
    CallsStay(s, s', t, e, g);
    assert PlaceOf(s, g, ExecOf(s, g)) && PlaceOf(s, g, MetaOf(s, g));
  }

  lemma TurnsStep(s: State, s': State, t: Tid, e: Effect)
    requires LocksOk(s) && LocksOk(s') && TurnsOk(s) && StepOf(s, s', t, e) && LastEntry(s.sh, s.threads[t])
    requires Disciplined(s.threads[t], e) && LocksFree(s, s.threads[t].call.value.rt, e)
    requires s.threads[t].pc.ExecWait? ==> s.threads[t].exec == None
    ensures TurnsOk(s')
  {
    hide CallsEffect, EntryOk, PlaceOf, Disciplined, LocksOk;
    forall r: Rid ensures |TurnsOf(s'.sh, r)| == |LogOf(s'.sh, r)| + (if Underway(s', r) then 1 else 0) {
      TurnCounts(s, s', t, e, r);
    }
    forall r: Rid, k: nat | k < |TurnsOf(s'.sh, r)| ensures EntryOk(s', r, k) { EntriesKept(s, s', t, e, r, k); }
    forall g: Turn | HasCall(s', g) ensures PlaceOf(s', g, ExecOf(s', g)) && PlaceOf(s', g, MetaOf(s', g)) {
      PlacesKept(s, s', t, e, g);
    }
  }
}
