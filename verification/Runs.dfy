/** The invariant over whole runs. */
module Runs {
  import opened Values
  import opened Marshal
  import opened Protocol
  import opened Locks
  import opened Sequential
  import opened Invariant
  import opened Preservation
  import opened Turns

  // ---------- a thread's step ----------

  lemma IsStepOf(c: Config, s: State, t: Tid)
    requires Enabled(c, s, t)
    ensures StepOf(s, Next(c, s, Run(t)), t, Act(c, t, s.sh, s.threads[t]))
  {
    CallsEffectHolds(c, t, s.sh, s.threads[t]);
    hide Act, CallsEffect;
  }

  lemma HeldIsPassed(s: State, t: Tid, i: nat)
    requires t < |s.threads| && s.threads[t].call.Some? && s.threads[t].call.value.RunMethod?
    requires HeldOk(s.sh, t, |s.threads[t].done|, s.threads[t].call.value.args, s.threads[t].held) && i < |s.threads[t].held|
    ensures PassedBy(s, Turn(t, |s.threads[t].done|), s.threads[t].held[i].data)
  {
    var g := Turn(t, |s.threads[t].done|);
    assert MakeHeldInput(s.threads[t].call.value.args[i]) == Ok(s.threads[t].held[i]);
    assert CallOf(s, g).args[i].data == s.threads[t].held[i].data;
  }

  /** What thread `t` borrows is nothing that a call in progress has made for itself. */
  lemma BorrowedIsPublic(c: Config, s: State, t: Tid, u: Tid)
    requires Inv(c, s) && t < |s.threads| && u < |s.threads| && s.threads[t].call.Some? && s.threads[t].pc.ExecIn?
    ensures forall b | b in Borrowed(s.threads[t].held) :: Lent(s.sh, u, |s.threads[u].done|, b)
  {
    var th := s.threads[t];
    assert ThreadOk(c, s.sh, t, th) && th.call.value.RunMethod?;
    forall i | 0 <= i < |th.held| ensures Lent(s.sh, u, |s.threads[u].done|, th.held[i].data) {
      HeldIsPassed(s, t, i);
    }
  }

  lemma OtherThreadsKept(c: Config, s: State, t: Tid, u: Tid)
    requires Inv(c, s) && Enabled(c, s, t) && u < |s.threads| && u != t
    requires GoodEffect(c, s.sh, s.threads[t], Act(c, t, s.sh, s.threads[t]))
    ensures ThreadOk(c, Act(c, t, s.sh, s.threads[t]).sh, u, s.threads[u])
    ensures LastEntry(Act(c, t, s.sh, s.threads[t]).sh, s.threads[u])
  {
    var e := Act(c, t, s.sh, s.threads[t]);
    if s.threads[t].pc.ExecIn? { BorrowedIsPublic(c, s, t, u); }
    hide Act, Shape, ThreadOk, TurnsOk, ArgsPublic, EnvOk, ModsOk, Lent;
    ExtendsKeeps(s.sh, e.sh, s.threads[t], u, s.threads[u]);
    ThreadKept(c, s.sh, e.sh, u, s.threads[u]);
    OthersKeepPlaces(c, s, t, u, e);
  }

  /** Nobody else makes an access on a Runtime that thread `u` is inside of. */
  lemma OthersKeepPlaces(c: Config, s: State, t: Tid, u: Tid, e: Effect)
    requires LocksOk(s) && t < |s.threads| && u < |s.threads| && u != t && s.threads[t].call.Some?
    requires LastEntry(s.sh, s.threads[u]) && ModuleEffect(c, s.sh, s.threads[t], e)
    ensures LastEntry(e.sh, s.threads[u])
  {
    if s.threads[u].call.Some? && HoldsMutex(s.threads[u].pc) {
      var r, q := s.threads[u].call.value.rt, s.threads[t].call.value.rt;
      assert Inside(s.threads[u], r);
      assert s.mutex[r] == u;
      if Pending(s.threads[t]) {
        assert Inside(s.threads[t], q);
        assert s.mutex[q] == t;
      }
      assert LogOf(e.sh, r) == LogOf(s.sh, r);
    }
  }

  /** Arguments stay public when thread `t` acts. */
  lemma ArgsStayPublic(s: State, s': State, t: Tid, e: Effect)
    requires ArgsPublic(s) && StepOf(s, s', t, e) && Extends(s.sh, e.sh, s.threads[t])
    ensures ArgsPublic(s')
  {
    forall g: Turn, b: BufId | PassedBy(s', g, b) ensures Public(s', b) {
      CallsStay(s, s', t, e, g);
      assert PassedBy(s, g, b) && Public(s, b);
      if b in s'.sh.heap && !s'.sh.heap[b].owner.CallerOf? {
        CallsStay(s, s', t, e, Turn(s.sh.heap[b].owner.t, s.sh.heap[b].owner.n));
      }
    }
  }

  lemma InvThreadStep(c: Config, s: State, t: Tid)
    requires Honest(c) && Inv(c, s) && Enabled(c, s, t)
    ensures Inv(c, Next(c, s, Run(t)))
    ensures GoodEffect(c, s.sh, s.threads[t], Act(c, t, s.sh, s.threads[t]))
  {
    var th := s.threads[t];
    var e := Act(c, t, s.sh, th);
    var s' := Next(c, s, Run(t));
    assert Ready(c, s.sh, t, th);
    LocksStep(c, s, Run(t));
    Effects(c, t, s.sh, th);
    Advances(c, t, s.sh, th);
    ModsFollow(c, s.sh, th, e);
    IsStepOf(c, s, t);
    Discipline(c, t, s.sh, th);
    assert th.pc.ExecWait? ==> th.exec == None;
    hide Act, StepOf, ThreadOk, Disciplined, LastEntry, LocksOk, TurnsOk, ArgsPublic;
    forall u | 0 <= u < |s'.threads| ensures ThreadOk(c, s'.sh, u, s'.threads[u]) && LastEntry(s'.sh, s'.threads[u]) {
      if u != t { OtherThreadsKept(c, s, t, u); }
    }
    TurnsStep(s, s', t, e);
    ArgsStayPublic(s, s', t, e);
  }

  // ---------- a new call ----------

  /** The arrays a thread is given are alive and not of its call in progress. */
  lemma ArraysAreLent(s: State, t: Tid, b: BufId)
    requires PythonArray(s, b) && HeapOk(s.sh) && t < |s.threads|
    ensures Lent(s.sh, t, |s.threads[t].done|, b) && Public(s, b)
  {
  }

  lemma IssueKeepsThread(c: Config, s: State, t: Tid, call: Call)
    requires Inv(c, s) && CanDo(c, s, Issue(t, call))
    ensures ThreadOk(c, s.sh, t, s.threads[t].(call := Some(call)))
    ensures s.threads[t].pc.Start? && s.threads[t].meta == None && s.threads[t].exec == None
  {
    hide RecordOk, TurnsOk, ArgsPublic, LocksOk, EnvOk, ModsOk;
    var th := s.threads[t];
    assert ThreadOk(c, s.sh, t, th);
    if call.RunMethod? {
      forall i | 0 <= i < |call.args| ensures Lent(s.sh, t, |th.done|, call.args[i].data) {
        ArraysAreLent(s, t, call.args[i].data);
      }
    }
  }

  lemma IssueKeepsPublic(s: State, s': State, t: Tid, call: Call)
    requires ArgsPublic(s) && HeapOk(s.sh) && t < |s.threads| && s.threads[t].call.None? && Callable(s, call)
    requires s' == s.(threads := s.threads[t := s.threads[t].(call := Some(call))])
    ensures ArgsPublic(s')
  {
    var new_ := Turn(t, |s.threads[t].done|);
    forall g: Turn, b: BufId | PassedBy(s', g, b) ensures Public(s', b) {
      if g == new_ {
        assert PythonArray(s, b);
        ArraysAreLent(s, t, b);
      } else {
        assert PassedBy(s, g, b);
      }
      assert Public(s, b);
    }
  }

  lemma InvIssue(c: Config, s: State, t: Tid, call: Call)
    requires Inv(c, s) && CanDo(c, s, Issue(t, call))
    ensures Inv(c, Next(c, s, Issue(t, call)))
  {
    var s' := Next(c, s, Issue(t, call));
    LocksIssue(s, s', t, call);
    IssueKeepsThread(c, s, t, call);
    TurnsIssue(s, s', t, call);
    IssueKeepsPublic(s, s', t, call);
    hide LocksOk, ThreadOk, TurnsOk, ArgsPublic, EnvOk, ModsOk, Callable;
  }

  lemma TurnsIssue(s: State, s': State, t: Tid, call: Call)
    requires TurnsOk(s) && t < |s.threads| && s.threads[t].call.None?
    requires s.threads[t].pc.Start? && s.threads[t].meta == None && s.threads[t].exec == None
    requires s' == s.(threads := s.threads[t := s.threads[t].(call := Some(call))])
    ensures TurnsOk(s')
  {
    forall r: Rid ensures |TurnsOf(s'.sh, r)| == |LogOf(s'.sh, r)| + (if Underway(s', r) then 1 else 0) {
      assert Underway(s', r) == Underway(s, r);
    }
    forall r: Rid, k: nat | k < |TurnsOf(s'.sh, r)| ensures EntryOk(s', r, k) { assert EntryOk(s, r, k); }
    forall g: Turn | HasCall(s', g) ensures PlaceOf(s', g, ExecOf(s', g)) && PlaceOf(s', g, MetaOf(s', g)) {
      if HasCall(s, g) { assert PlaceOf(s, g, ExecOf(s, g)) && PlaceOf(s, g, MetaOf(s, g)); }
    }
  }

  // ---------- the rest of the process ----------

  /** Only a caller's new buffer is there, buffers nobody refers to are gone, or files added. */
  ghost predicate Environment(s: State, s': State) {
    && s'.gil == s.gil && s'.mutex == s.mutex && s'.threads == s.threads && s.sh.next <= s'.sh.next
    && s'.sh == s.sh.(heap := s'.sh.heap, next := s'.sh.next, files := s'.sh.files)
    && (forall b | b in s'.sh.heap ::
          if b in s.sh.heap then s'.sh.heap[b] == s.sh.heap[b]
          else b == s.sh.next < s'.sh.next && s'.sh.heap[b].owner.CallerOf?)
    && s.sh.files <= s'.sh.files && ("" in s'.sh.files ==> "" in s.sh.files)
    && forall u | 0 <= u < |s.threads| :: Keeps(s.sh, s'.sh, u, s.threads[u])
  }

  lemma EnvironmentStep(c: Config, s: State, a: Action)
    requires CanDo(c, s, a) && !a.Run? && !a.Issue? && HeapOk(s.sh)
    ensures Environment(s, Next(c, s, a))
  {
    assert forall r: Rid :: LogOf(Next(c, s, a).sh, r) == LogOf(s.sh, r);
  }

  lemma TurnsEnvironment(s: State, s': State)
    requires TurnsOk(s) && ArgsPublic(s) && Environment(s, s')
    ensures TurnsOk(s') && ArgsPublic(s')
  {
    assert forall r: Rid :: LogOf(s'.sh, r) == LogOf(s.sh, r) && TurnsOf(s'.sh, r) == TurnsOf(s.sh, r);
    forall r: Rid, k: nat | k < |TurnsOf(s'.sh, r)| ensures EntryOk(s', r, k) { assert EntryOk(s, r, k); }
    forall g: Turn | HasCall(s', g) ensures PlaceOf(s', g, ExecOf(s', g)) && PlaceOf(s', g, MetaOf(s', g)) {
      assert PlaceOf(s, g, ExecOf(s, g)) && PlaceOf(s, g, MetaOf(s, g));
    }
    forall g: Turn, b: BufId | PassedBy(s', g, b) ensures Public(s', b) { assert PassedBy(s, g, b) && Public(s, b); }
  }

  lemma ModsEnvironment(c: Config, s: State, s': State)
    requires ModsOk(c, s.sh) && Environment(s, s')
    ensures ModsOk(c, s'.sh)
  {
    forall r: Rid ensures ModOf(c, s'.sh, r) == Replay(c, r, LogOf(s'.sh, r)) {
      assert ModOf(c, s.sh, r) == Replay(c, r, LogOf(s.sh, r));
    }
  }

  lemma ThreadEnvironment(c: Config, s: State, s': State, u: Tid)
    requires Environment(s, s') && u < |s.threads| && ThreadOk(c, s.sh, u, s.threads[u]) && LastEntry(s.sh, s.threads[u])
    ensures ThreadOk(c, s'.sh, u, s'.threads[u]) && LastEntry(s'.sh, s'.threads[u])
  {
    ThreadKept(c, s.sh, s'.sh, u, s.threads[u]);
    hide ThreadOk, Keeps;
  }

  lemma SharedEnvironment(c: Config, s: State, s': State)
    requires LocksOk(s) && EnvOk(c, s.sh) && HeapOk(s.sh) && Environment(s, s')
    ensures LocksOk(s') && EnvOk(c, s'.sh) && HeapOk(s'.sh)
  {
    hide Keeps, Shape;
  }

  lemma InvEnvironment(c: Config, s: State, s': State)
    requires Inv(c, s) && Environment(s, s')
    ensures Inv(c, s')
  {
    assert |s'.threads| == |s.threads|;
    hide LocksOk, EnvOk, HeapOk, ModsOk, ThreadOk, LastEntry, TurnsOk, ArgsPublic, Environment;
    SharedEnvironment(c, s, s');
    ModsEnvironment(c, s, s');
    TurnsEnvironment(s, s');
    forall u | 0 <= u < |s'.threads| ensures ThreadOk(c, s'.sh, u, s'.threads[u]) && LastEntry(s'.sh, s'.threads[u]) {
      ThreadEnvironment(c, s, s', u);
    }
  }

  // ---------- runs ----------

  lemma InvStart(c: Config, count: nat)
    requires "" !in c.files0
    ensures Inv(c, Initial(c, count))
  {
  }

  lemma InvStep(c: Config, s: State, a: Action)
    requires Honest(c) && Inv(c, s) && CanDo(c, s, a)
    ensures Inv(c, Next(c, s, a))
  {
    hide Act;
    match a
    case Run(t) => InvThreadStep(c, s, t);
    case Issue(t, call) => InvIssue(c, s, t, call);
    case _ =>
      EnvironmentStep(c, s, a);
      InvEnvironment(c, s, Next(c, s, a));
  }

  lemma {:induction false} InvAfter(c: Config, s: State, run: seq<Action>)
    requires Honest(c) && Inv(c, s) && Feasible(c, s, run)
    ensures Inv(c, After(c, s, run))
    decreases |run|
  {
    if run == [] {
    } else {
      InvStep(c, s, run[0]);
      InvAfter(c, Next(c, s, run[0]), run[1..]);
    }
  }

  lemma ReachableInv(c: Config, s: State)
    requires Trusted(c) && Reachable(c, s)
    ensures Inv(c, s)
  {
    var count: nat, run :| Feasible(c, Initial(c, count), run) && After(c, Initial(c, count), run) == s;
    InvStart(c, count);
    InvAfter(c, Initial(c, count), run);
  }

  // ---------- building runs ----------

  lemma {:induction false} AfterConcat(c: Config, s: State, run: seq<Action>, more: seq<Action>)
    requires Feasible(c, s, run) && Feasible(c, After(c, s, run), more)
    ensures Feasible(c, s, run + more) && After(c, s, run + more) == After(c, After(c, s, run), more)
    decreases |run|
  {
    if run == [] {
      assert run + more == more;
    } else {
      AfterConcat(c, Next(c, s, run[0]), run[1..], more);
      assert (run + more)[0] == run[0] && (run + more)[1..] == run[1..] + more;
    }
  }

  /** One more action at the end of a run. */
  lemma Extend(c: Config, s: State, run: seq<Action>, a: Action) returns (s': State, run': seq<Action>)
    requires Feasible(c, s, run) && CanDo(c, After(c, s, run), a)
    ensures run' == run + [a] && Feasible(c, s, run') && s' == After(c, s, run') == Next(c, After(c, s, run), a)
  {
    hide CanDo, Next;
    assert [a][1..] == [];
    AfterConcat(c, s, run, [a]);
    run' := run + [a];
    s' := After(c, s, run');
  }
}
