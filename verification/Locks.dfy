/** The GIL and the mutexes: mutual exclusion, no self-acquire and freedom from deadlock. */
module Locks {
  import opened Values
  import opened Protocol

  /** Thread `th` is inside the Module of Runtime `r`. */
  predicate Inside(th: Thread, r: Rid) {
    th.call.Some? && HoldsMutex(th.pc) && th.call.value.rt == r
  }

  /** Each lock is owned exactly by the thread whose program point holds it. */
  ghost predicate LocksOk(s: State) {
    && (forall t | 0 <= t < |s.threads| :: Shape(s.threads[t]))
    && (s.gil.Some? ==> s.gil.value < |s.threads| && HoldsGil(s.threads[s.gil.value].pc))
    && (forall t | 0 <= t < |s.threads| :: HoldsGil(s.threads[t].pc) ==> s.gil == Some(t))
    && (forall r | r in s.mutex :: s.mutex[r] < |s.threads| && Inside(s.threads[s.mutex[r]], r))
    && (forall t, r | 0 <= t < |s.threads| && Inside(s.threads[t], r) :: r in s.mutex && s.mutex[r] == t)
  }

  /** An action claims and releases exactly what its two program points say, asks for no lock
      it holds, never asks for the GIL while it holds a mutex, and stays on its call while it
      is inside a Module. */
  predicate Disciplined(th: Thread, e: Effect) {
    && Shape(e.th)
    && HoldsGil(e.th.pc) == (match e.gil case GilTake => true case GilKeep => HoldsGil(th.pc) case _ => false)
    && (e.gil == GilDrop <==> HoldsGil(th.pc) && !HoldsGil(e.th.pc))
    && (e.gil == GilTake || e.gil == GilPulse ==> !HoldsGil(th.pc) && !HoldsMutex(th.pc))
    && HoldsMutex(e.th.pc) == (match e.mutex case MutexTake => true case MutexKeep => HoldsMutex(th.pc) case MutexDrop => false)
    && (e.mutex == MutexTake ==> !HoldsMutex(th.pc))
    && (e.mutex == MutexDrop ==> HoldsMutex(th.pc))
    && (HoldsMutex(th.pc) || HoldsMutex(e.th.pc) ==> e.th.call == th.call)
  }

  lemma AccessDisciplined(c: Config, t: Tid, sh: Shared, th: Thread)
    requires th.call.Some? && Shape(th)
    requires th.pc.AccessWait? || th.pc.AccessIn? || th.pc.AccessOut? || th.pc.Answer? || th.pc.Start? || th.pc.ExecWait?
    ensures Disciplined(th, Act(c, t, sh, th))
  {
  }

  lemma RunDisciplined(c: Config, t: Tid, sh: Shared, th: Thread)
    requires th.call.Some? && Shape(th)
    requires th.pc.Marshalling? || th.pc.CheckBackend? || th.pc.CheckEnv? || th.pc.CheckFile? || th.pc.Abort?
          || th.pc.GilWait? || th.pc.Unwind? || th.pc.Raising?
    ensures Disciplined(th, Act(c, t, sh, th))
  {
  }

  lemma ExecDisciplined(c: Config, t: Tid, sh: Shared, th: Thread)
    requires th.call.Some? && Shape(th)
    requires th.pc.ExecIn? || th.pc.CopyOut? || th.pc.Build?
    ensures Disciplined(th, Act(c, t, sh, th))
  {
  }

  lemma ResolverDisciplined(c: Config, t: Tid, sh: Shared, th: Thread)
    requires th.call.Some? && Shape(th)
    requires th.pc.ScanHeld? || th.pc.Scan? || th.pc.IsFile? || th.pc.FindWheel? || th.pc.SetEnv?
    ensures Disciplined(th, Act(c, t, sh, th))
  {
  }

  lemma Discipline(c: Config, t: Tid, sh: Shared, th: Thread)
    requires th.call.Some? && Shape(th)
    ensures Disciplined(th, Act(c, t, sh, th))
  {
    if th.pc.ScanHeld? || th.pc.Scan? || th.pc.IsFile? || th.pc.FindWheel? || th.pc.SetEnv? {
      ResolverDisciplined(c, t, sh, th);
    } else if th.pc.ExecIn? || th.pc.CopyOut? || th.pc.Build? {
      ExecDisciplined(c, t, sh, th);
    } else if th.pc.AccessWait? || th.pc.AccessIn? || th.pc.AccessOut? || th.pc.Answer? || th.pc.Start? || th.pc.ExecWait? {
      AccessDisciplined(c, t, sh, th);
    } else {
      RunDisciplined(c, t, sh, th);
    }
  }

  /** A disciplined action of thread `t` keeps the locks right, whatever else it does. */
  lemma LocksEffect(s: State, s': State, t: Tid, e: Effect)
    requires LocksOk(s) && t < |s.threads| && s.threads[t].call.Some?
    requires Disciplined(s.threads[t], e) && LocksFree(s, s.threads[t].call.value.rt, e)
    requires s'.threads == s.threads[t := e.th]
    requires s'.gil == match e.gil case GilTake => Some(t) case GilDrop => None case _ => s.gil
    requires s'.mutex == match e.mutex
                         case MutexTake => s.mutex[s.threads[t].call.value.rt := t]
                         case MutexDrop => s.mutex - {s.threads[t].call.value.rt}
                         case MutexKeep => s.mutex
    ensures LocksOk(s')
  {
    hide Shape, HoldsGil, HoldsMutex;
    var r0 := s.threads[t].call.value.rt;
    assert HoldsMutex(s.threads[t].pc) <==> Inside(s.threads[t], r0);
    forall r | r in s'.mutex ensures s'.mutex[r] < |s'.threads| && Inside(s'.threads[s'.mutex[r]], r) {
      if r != r0 { assert r in s.mutex && s'.mutex[r] == s.mutex[r] && s.mutex[r] != t; }
    }
    forall u, r | 0 <= u < |s'.threads| && Inside(s'.threads[u], r) ensures r in s'.mutex && s'.mutex[r] == u {
      if u == t {
        assert r == r0 && (e.mutex == MutexKeep ==> Inside(s.threads[t], r0));
      } else {
        assert Inside(s.threads[u], r) && s.mutex[r] == u;
        assert r == r0 ==> e.mutex == MutexKeep;
      }
    }
  }

  /** A new call holds nothing yet. */
  lemma LocksIssue(s: State, s': State, t: Tid, call: Call)
    requires LocksOk(s) && t < |s.threads| && s.threads[t].call.None?
    requires s' == s.(threads := s.threads[t := s.threads[t].(call := Some(call))])
    ensures LocksOk(s')
  {
    forall r | r in s'.mutex ensures Inside(s'.threads[s'.mutex[r]], r) {
      assert Inside(s.threads[s.mutex[r]], r);
    }
    forall u, r | 0 <= u < |s'.threads| && Inside(s'.threads[u], r) ensures r in s'.mutex && s'.mutex[r] == u {
      assert Inside(s.threads[u], r);
    }
  }

  lemma LocksStep(c: Config, s: State, a: Action)
    requires LocksOk(s) && CanDo(c, s, a)
    ensures LocksOk(Next(c, s, a))
  {
    if a.Run? {
      Discipline(c, a.t, s.sh, s.threads[a.t]);
      LocksEffect(s, Next(c, s, a), a.t, Act(c, a.t, s.sh, s.threads[a.t]));
    } else if a.Issue? {
      LocksIssue(s, Next(c, s, a), a.u, a.call);
    }
  }

  lemma {:induction false} LocksAfter(c: Config, s: State, run: seq<Action>)
    requires LocksOk(s) && Feasible(c, s, run)
    ensures LocksOk(After(c, s, run))
    decreases |run|
  {
    if run == [] {
    } else {
      LocksStep(c, s, run[0]);
      LocksAfter(c, Next(c, s, run[0]), run[1..]);
    }
  }

  lemma ReachableLocks(c: Config, s: State)
    requires Reachable(c, s)
    ensures LocksOk(s)
  {
    hide Act;
    var count: nat, run :| Feasible(c, Initial(c, count), run) && After(c, Initial(c, count), run) == s;
    LocksAfter(c, Initial(c, count), run);
  }

  /** At most one thread is ever inside a Runtime's Module, metadata reads included. */
  lemma MutualExclusion(c: Config, s: State, r: Rid, t: Tid, u: Tid)
    requires Reachable(c, s) && t < |s.threads| && u < |s.threads|
    ensures Inside(s.threads[t], r) && Inside(s.threads[u], r) ==> t == u
    ensures HoldsGil(s.threads[t].pc) && HoldsGil(s.threads[u].pc) ==> t == u
  {
    ReachableLocks(c, s);
    if Inside(s.threads[t], r) && Inside(s.threads[u], r) {
      assert s.mutex[r] == t && s.mutex[r] == u;
    }
  }

  /** Which program points are under which lock. Python values are made and read under the GIL, by
      metadata calls from beginning to end; the guard, the execute and the copying run without it;
      and whatever reads or writes a Module is under its mutex. */
  lemma WhereLocksAreHeld(c: Config, s: State, t: Tid)
    requires Reachable(c, s) && t < |s.threads| && s.threads[t].call.Some?
    ensures
      var pc := s.threads[t].pc;
      var access := pc.AccessWait? || pc.AccessIn? || pc.AccessOut?;
      var python := pc.Marshalling? || pc.Build? || pc.Answer? || pc.Raising? || pc.ScanHeld? || (access && !pc.use.Guard?);
      var core := pc.CheckBackend? || pc.CheckEnv? || pc.CheckFile? || pc.ExecWait? || pc.ExecIn? || pc.CopyOut?
               || (access && pc.use.Guard?);
      (python ==> s.gil == Some(t)) && (core ==> s.gil != Some(t))
    ensures
      var th := s.threads[t];
      th.pc.AccessIn? || th.pc.AccessOut? || th.pc.ExecIn? || th.pc.CopyOut? ==>
        th.call.value.rt in s.mutex && s.mutex[th.call.value.rt] == t
  {
    ReachableLocks(c, s);
    var th := s.threads[t];
    assert HoldsMutex(th.pc) ==> Inside(th, th.call.value.rt);
  }

  /** A buffer for this owner appears. */
  ghost predicate Appears(sh: Shared, sh': Shared, result: bool) {
    exists b :: b in sh'.heap && b !in sh.heap && if result then sh'.heap[b].owner.ResultOf? else sh'.heap[b].owner.StorageOf?
  }

  lemma MutexNeeded(c: Config, t: Tid, sh: Shared, th: Thread)
    requires th.call.Some? && Shape(th)
    ensures
      var sh' := Act(c, t, sh, th).sh;
      sh'.mods != sh.mods || sh'.log != sh.log || Appears(sh, sh', false) ==> HoldsMutex(th.pc)
  {
  }

  lemma GilNeeded(c: Config, t: Tid, sh: Shared, th: Thread)
    requires th.call.Some? && Shape(th)
    ensures
      var e := Act(c, t, sh, th);
      e.th.done != th.done || e.sh.env != sh.env || Appears(sh, e.sh, true) ==> HoldsGil(th.pc) || e.gil == GilPulse
  {
  }

  /** What a step needs its locks for: only under a Runtime's mutex does its Module or log change, or
      an output leave its arena; only with the GIL, or free for it to take, does a call return. */
  lemma EffectsNeedTheirLocks(c: Config, s: State, t: Tid)
    requires Reachable(c, s) && CanDo(c, s, Run(t))
    ensures
      var sh', r := Next(c, s, Run(t)).sh, s.threads[t].call.value.rt;
      sh'.mods != s.sh.mods || sh'.log != s.sh.log || Appears(s.sh, sh', false) ==> r in s.mutex && s.mutex[r] == t
    ensures
      var s' := Next(c, s, Run(t));
      var made := s'.threads[t].done != s.threads[t].done || s'.sh.env != s.sh.env || Appears(s.sh, s'.sh, true);
      made ==> s.gil == Some(t) || s.gil == None
  {
    ReachableLocks(c, s);
    var th := s.threads[t];
    assert HoldsMutex(th.pc) ==> Inside(th, th.call.value.rt);
    MutexNeeded(c, t, s.sh, th);
    GilNeeded(c, t, s.sh, th);
    hide Act, Shape, LocksOk, HoldsMutex, HoldsGil;
  }

  /** No thread ever asks for a lock it already holds. */
  lemma NoSelfAcquire(c: Config, s: State, t: Tid)
    requires Reachable(c, s) && t < |s.threads| && s.threads[t].call.Some?
    ensures
      var th := s.threads[t];
      && Shape(th)
      && (Act(c, t, s.sh, th).mutex == MutexTake ==>
            !(th.call.value.rt in s.mutex && s.mutex[th.call.value.rt] == t))
      && (Act(c, t, s.sh, th).gil == GilTake || Act(c, t, s.sh, th).gil == GilPulse ==>
            s.gil != Some(t) && forall r | r in s.mutex :: s.mutex[r] != t)
  {
    ReachableLocks(c, s);
    Discipline(c, t, s.sh, s.threads[t]);
  }

  /** Whoever is inside a Module can step: nothing it does there waits. */
  lemma HolderCanStep(c: Config, s: State, r: Rid)
    requires LocksOk(s) && r in s.mutex
    ensures Enabled(c, s, s.mutex[r])
  {
    var t := s.mutex[r];
    Discipline(c, t, s.sh, s.threads[t]);
  }

  /** Deadlock freedom: a thread with an unfinished call means some thread can step. */
  lemma SomeThreadCanStep(c: Config, s: State, t: Tid) returns (u: Tid)
    requires LocksOk(s) && t < |s.threads| && s.threads[t].call.Some?
    ensures Enabled(c, s, u)
  {
    if r :| r in s.mutex {
      HolderCanStep(c, s, r);
      u := s.mutex[r];
    } else if s.gil.Some? {
      u := s.gil.value;
      Discipline(c, u, s.sh, s.threads[u]);
    } else {
      u := t;
    }
  }

  lemma DeadlockFreedom(c: Config, s: State)
    requires Reachable(c, s)
    ensures (exists t :: 0 <= t < |s.threads| && s.threads[t].call.Some?) ==> exists u :: Enabled(c, s, u)
  {
    ReachableLocks(c, s);
    if t :| 0 <= t < |s.threads| && s.threads[t].call.Some? {
      var u := SomeThreadCanStep(c, s, t);
    }
  }
}
