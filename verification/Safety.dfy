/** Main results about faults, lifetimes and the once-only load of the OpenVINO delegate. */
module Safety {
  import opened Values
  import opened Marshal
  import opened Protocol
  import opened Sequential
  import opened Invariant
  import opened Preservation
  import opened Turns
  import opened Runs
  import opened Growth

  // ---------- exits ----------

  /** A thread between two calls holds neither the GIL nor any mutex, and keeps no input alive. */
  lemma FinishedHoldsNothing(c: Config, s: State, t: Tid)
    requires Trusted(c) && Reachable(c, s)
    requires t < |s.threads| && s.threads[t].pc.Start?
    ensures s.gil != Some(t) && (forall r | r in s.mutex :: s.mutex[r] != t) && s.threads[t].held == []
  {
    ReachableInv(c, s);
    assert Shape(s.threads[t]);
  }

  /** A call that reached its execute, however it ended, had mapped dtypes and read
      metadata, and if that names OpenVINO the backend is there and the path was and is usable. */
  lemma ExecutedWasCleared(c: Config, s: State, g: Turn)
    requires Trusted(c) && Reachable(c, s)
    requires Finished(s, g) && RecordOf(s, g).call.RunMethod? && RecordOf(s, g).exec.Some?
    ensures
      var rec := RecordOf(s, g);
      && AllMapped(rec.call.args) && Logged(s.sh, rec.call.rt, rec.meta, MetaRead(rec.call.name))
      && ReplyAt(c, rec.call.rt, LogOf(s.sh, rec.call.rt), rec.meta.value).Meta?
      && (SawOpenvino(c, s.sh, rec.call.rt, rec.call.name, rec.meta) ==> c.registered && PathGood(s.sh))
  {
    ReachableInv(c, s);
    assert RecordOk(c, s.sh, g.t, g.n, RecordOf(s, g));
  }

  // ---------- lifetime of inputs ----------

  /** From the end of marshalling until the outputs are built every borrowed pointer is the
      argument's own buffer, with its shape and dtype, and alive, although buffers are collected at
      any time; so a dereference, by the execute too, finds it. */
  lemma InputsStayAlive(c: Config, s: State, t: Tid)
    requires Trusted(c) && Reachable(c, s)
    requires t < |s.threads| && s.threads[t].call.Some? && s.threads[t].call.value.RunMethod?
    requires !s.threads[t].pc.Start? && !s.threads[t].pc.Marshalling? && !s.threads[t].pc.Raising?
    ensures
      var args, held := s.threads[t].call.value.args, s.threads[t].held;
      && |held| == |args|
      && forall i | 0 <= i < |args| :: held[i].data in s.sh.heap && MakeHeldInput(args[i]) == Ok(held[i])
  {
    ReachableInv(c, s);
    var th := s.threads[t];
    assert ThreadOk(c, s.sh, t, th);
    assert HeldOk(s.sh, t, |th.done|, th.call.value.args, th.held);
    forall i | 0 <= i < |th.held| ensures th.held[i].data in s.sh.heap {
      assert Lent(s.sh, t, |th.done|, th.held[i].data);
    }
  }

  // ---------- the once-only load ----------

  /** In no run does the delegate's load fail, and every execute that enters it finds the
      variable set to a regular file: resolvers may race and callers may skip the Python layer. */
  lemma LoadNeverPoisoned(c: Config, s: State, t: Tid)
    requires Trusted(c) && Reachable(c, s)
    ensures s.sh.loader != Poisoned
    ensures s.sh.loader.Loaded? ==> s.sh.env == Some(s.sh.loader.path) && s.sh.loader.path in s.sh.files
    ensures t < |s.threads| && s.threads[t].pc.ExecIn? && s.threads[t].call.Some? && s.threads[t].call.value.RunMethod?
            && c.delegates(s.threads[t].call.value.rt, s.threads[t].call.value.name)
        ==> c.registered && PathGood(s.sh)
  {
    ReachableInv(c, s);
    if t < |s.threads| && s.threads[t].call.Some? && s.threads[t].pc.ExecIn? {
      var th := s.threads[t];
      assert ThreadOk(c, s.sh, t, th) && th.call.value.RunMethod?;
      if c.delegates(th.call.value.rt, th.call.value.name) {
        ClearedMeansGood(c, s.sh, th.call.value.rt, th.call.value.name, th.meta);
      }
    }
  }

  /** What the guard let pass stays passed: a method that is cleared at one time finds, in every
      later state, the backend registered and a usable path if it is delegated. */
  lemma ClearedStaysGood(c: Config, s: State, run: seq<Action>, r: Rid, name: string, k: Option<nat>)
    requires Trusted(c) && Reachable(c, s) && Feasible(c, s, run) && Cleared(c, s.sh, r, name, k)
    ensures Cleared(c, After(c, s, run).sh, r, name, k)
    ensures c.delegates(r, name) ==> c.registered && PathGood(After(c, s, run).sh)
  {
    hide CanDo, Next;
    ReachableInv(c, s);
    GrownByRun(c, s, run);
    ClearedKept(c, s.sh, After(c, s, run).sh, r, name, k);
    if c.delegates(r, name) { ClearedMeansGood(c, After(c, s, run).sh, r, name, k); }
  }

  /** A path set at start-up is never overwritten; one set later is the wheel's and stays. */
  lemma PathIsKept(c: Config, s: State, run: seq<Action>)
    requires Trusted(c) && Reachable(c, s) && Feasible(c, s, run)
    ensures c.env0.Some? ==> s.sh.env == c.env0
    ensures s.sh.env.Some? ==> After(c, s, run).sh.env == s.sh.env
    ensures s.sh.env != c.env0 ==> s.sh.env == c.wheel && c.env0.None?
  {
    ReachableInv(c, s);
    GrownByRun(c, s, run);
  }

  /** Constructor `g` found an OpenVINO method and returned. */
  ghost predicate FoundOpenvino(s: State, g: Turn) {
    Finished(s, g) && RecordOf(s, g).call.Resolve? && RecordOf(s, g).outcome == Resolved(true)
  }

  /** The guard's two path checks, seen from any thread that is about to make one of them. */
  predicate GuardRefuses(c: Config, s: State, t: Tid)
    requires t < |s.threads| && (s.threads[t].pc.CheckEnv? || s.threads[t].pc.CheckFile?)
  {
    GuardStep(c, s.sh, s.threads[t]).th.pc == Unwind(BackendMissing)
  }

  lemma GuardVerdict(c: Config, s: State, t: Tid)
    requires Trusted(c) && Reachable(c, s)
    requires t < |s.threads| && (s.threads[t].pc.CheckEnv? || s.threads[t].pc.CheckFile?)
    ensures GuardRefuses(c, s, t) ==> !PathGood(s.sh)
    ensures s.threads[t].pc.CheckFile? && !PathGood(s.sh) ==> GuardRefuses(c, s, t)
  {
    ReachableInv(c, s);
    var th := s.threads[t];
    assert ThreadOk(c, s.sh, t, th) && th.call.value.RunMethod?;
  }

  /** Resolver and guard agree. Once `Program.__init__` has succeeded for some program with an
      OpenVINO method, the guard passes every method exactly when the path was set at start-up
      or the wheel's match is a regular file; the resolver checks the former only. */
  lemma ResolverMeetsGuard(c: Config, s: State, g: Turn, u: Tid)
    requires Trusted(c) && Reachable(c, s)
    requires FoundOpenvino(s, g)
    ensures c.env0.Some? || c.wheel.Some?
    ensures PathGood(s.sh) <==> c.env0.Some? || c.wheel.value in s.sh.files
    ensures u < |s.threads| && s.threads[u].pc.CheckFile? ==>
      (GuardRefuses(c, s, u) <==> !(c.env0.Some? || c.wheel.value in s.sh.files))
    ensures u < |s.threads| && s.threads[u].pc.CheckEnv? && (c.env0.Some? || c.wheel.value in s.sh.files) ==>
      !GuardRefuses(c, s, u)
  {
    ReachableInv(c, s);
    assert RecordOk(c, s.sh, g.t, g.n, RecordOf(s, g));
    hide ThreadOk, Inv;
    if u < |s.threads| && s.threads[u].pc.CheckFile? { GuardVerdict(c, s, u); }
  }

  /** The condition is needed: with one OpenVINO method and a glob match that is a directory,
      the constructor succeeds and the guard's path checks fail. */
  lemma ResolverAcceptsDirectory(c: Config) returns (s: State)
    requires c.env0 == None && c.files0 == {} && c.wheel == Some("/openvino/libs/libopenvino_c.so.d")
    requires forall r, m :: c.readNames(r, m) == (m, Some(["forward"]))
    requires forall r, m, name :: c.readMeta(r, m, name) == (m, Some(MetaInfo({OPENVINO}, [], [])))
    ensures Trusted(c) && Reachable(c, s)
    ensures FoundOpenvino(s, Turn(0, 0)) && RecordOf(s, Turn(0, 0)).call == Resolve(0)
    ensures !PathGood(s.sh)
  {
    hide Act, CanDo, Next;
    var start, run := ResolverStarts(c);
    var s1, run1 := ResolverReads(c, Initial(c, 1), start, run);
    var s2, run2 := ResolverReads(c, Initial(c, 1), s1, run1);
    var run3;
    s, run3 := ResolverSets(c, Initial(c, 1), s2, run2);
  }

  /** Thread 0, alone, is about to read metadata for the resolver. */
  predicate ResolverAlone(c: Config, s: State) {
    && |s.threads| == 1 && s.mutex == map[] && s.sh.env == None && s.sh.files == {} && s.threads[0].call == Some(Resolve(0))
    && s.threads[0].held == [] && s.threads[0].done == []
    && ((s.threads[0].pc.Start? && s.gil == None) || (s.threads[0].pc.ScanHeld? && s.gil == Some(0)))
  }

  lemma ResolverStarts(c: Config) returns (s: State, run: seq<Action>)
    requires c.env0 == None && c.files0 == {}
    ensures Feasible(c, Initial(c, 1), run) && After(c, Initial(c, 1), run) == s && ResolverAlone(c, s) && s.threads[0].pc.Start?
  {
    s, run := Extend(c, Initial(c, 1), [], Issue(0, Resolve(0)));
  }

  lemma ResolverAsks(c: Config, s: State, from: State, run: seq<Action>) returns (s': State, run': seq<Action>)
    requires Feasible(c, s, run) && After(c, s, run) == from && ResolverAlone(c, from)
    requires from.threads[0].pc.Start? || from.threads[0].pc == ScanHeld(["forward"], 0, false)
    ensures Feasible(c, s, run') && After(c, s, run') == s' && ResolverAlone(c, s'.(threads := from.threads, gil := from.gil))
    ensures s'.gil == Some(0) && |s'.threads| == 1
    ensures s'.threads[0] == from.threads[0].(pc :=
      AccessWait(if from.threads[0].pc.Start? then ForNames else ForUses(["forward"], 0)))
  {
    s', run' := Extend(c, s, run, Run(0));
    if from.threads[0].pc.ScanHeld? {
      assert s'.threads[0].pc == Scan(["forward"], 0, false);
      s', run' := Extend(c, s, run', Run(0));
    }
  }

  /** The thread is inside the Module with its read made. */
  predicate ResolverInside(s: State, use: Use, reply: Reply) {
    && |s.threads| == 1 && s.mutex == map[0 := 0] && s.gil == Some(0) && s.sh.env == None && s.sh.files == {}
    && s.threads[0].call == Some(Resolve(0)) && s.threads[0].held == [] && s.threads[0].done == []
    && s.threads[0].pc == AccessOut(use, reply)
  }

  lemma ResolverPerforms(c: Config, s: State, from: State, run: seq<Action>, use: Use) returns (s': State, run': seq<Action>)
    requires Feasible(c, s, run) && After(c, s, run) == from && from.gil == Some(0) && |from.threads| == 1
    requires ResolverAlone(c, from.(threads := [from.threads[0].(pc := Start)], gil := None))
    requires use == ForNames || use == ForUses(["forward"], 0)
    requires from.threads[0].pc == AccessWait(use)
    requires forall r, m :: c.readNames(r, m) == (m, Some(["forward"]))
    requires forall r, m, name :: c.readMeta(r, m, name) == (m, Some(MetaInfo({OPENVINO}, [], [])))
    ensures Feasible(c, s, run') && After(c, s, run') == s'
    ensures ResolverInside(s', use, if use.ForNames? then Names(["forward"]) else Protocol.Meta(MetaInfo({OPENVINO}, [], [])))
  {
    s', run' := Extend(c, s, run, Run(0));
    assert s'.threads[0].pc == AccessIn(use) && s'.mutex == map[0 := 0];
    s', run' := Extend(c, s, run', Run(0));
  }

  lemma ResolverLearns(c: Config, s: State, from: State, run: seq<Action>, use: Use, reply: Reply)
    returns (s': State, run': seq<Action>)
    requires Feasible(c, s, run) && After(c, s, run) == from && ResolverInside(from, use, reply)
    requires (use.ForNames? && reply == Names(["forward"]))
          || (use == ForUses(["forward"], 0) && reply == Protocol.Meta(MetaInfo({OPENVINO}, [], [])))
    ensures Feasible(c, s, run') && After(c, s, run') == s' && ResolverAlone(c, s')
    ensures s'.threads[0].pc == (if use.ForNames? then ScanHeld(["forward"], 0, false) else ScanHeld(["forward"], 1, true))
  {
    s', run' := Extend(c, s, run, Run(0));
  }

  /** From start-up or after the list of methods: one metadata read and back. */
  lemma ResolverReads(c: Config, s: State, from: State, run: seq<Action>) returns (s': State, run': seq<Action>)
    requires Feasible(c, s, run) && After(c, s, run) == from && ResolverAlone(c, from)
    requires from.threads[0].pc.Start? || from.threads[0].pc == ScanHeld(["forward"], 0, false)
    requires forall r, m :: c.readNames(r, m) == (m, Some(["forward"]))
    requires forall r, m, name :: c.readMeta(r, m, name) == (m, Some(MetaInfo({OPENVINO}, [], [])))
    ensures Feasible(c, s, run') && After(c, s, run') == s' && ResolverAlone(c, s')
    ensures s'.threads[0].pc ==
      if from.threads[0].pc.Start? then ScanHeld(["forward"], 0, false) else ScanHeld(["forward"], 1, true)
  {
    hide Act, CanDo, Next;
    s', run' := ResolverAsks(c, s, from, run);
    var use := s'.threads[0].pc.use;
    s', run' := ResolverPerforms(c, s, s', run', use);
    s', run' := ResolverLearns(c, s, s', run', use, s'.threads[0].pc.reply);
  }

  lemma ResolverScans(c: Config, s: State, from: State, run: seq<Action>) returns (s': State, run': seq<Action>)
    requires Feasible(c, s, run) && After(c, s, run) == from && ResolverAlone(c, from)
    requires from.threads[0].pc == ScanHeld(["forward"], 1, true)
    ensures Feasible(c, s, run') && After(c, s, run') == s'
    ensures s'.gil == None && s'.mutex == map[] && s'.sh == from.sh && s'.threads == [from.threads[0].(pc := FindWheel)]
  {
    s', run' := Extend(c, s, run, Run(0));
    assert s'.threads[0].pc == Scan(["forward"], 1, true) && s'.gil == None;
    s', run' := Extend(c, s, run', Run(0));
  }

  lemma ResolverSets(c: Config, s: State, from: State, run: seq<Action>) returns (s': State, run': seq<Action>)
    requires Feasible(c, s, run) && After(c, s, run) == from && ResolverAlone(c, from)
    requires from.threads[0].pc == ScanHeld(["forward"], 1, true) && c.wheel.Some? && c.wheel.value != ""
    ensures Feasible(c, s, run') && After(c, s, run') == s'
    ensures FoundOpenvino(s', Turn(0, 0)) && RecordOf(s', Turn(0, 0)).call == Resolve(0)
    ensures !PathGood(s'.sh)
  {
    s', run' := ResolverScans(c, s, from, run);
    s', run' := Extend(c, s, run', Run(0));
    assert s'.threads[0].pc == SetEnv(c.wheel.value);
    s', run' := Extend(c, s, run', Run(0));
  }

  // ---------- who is refused, over whole runs ----------

  /** Can a constructor find its path now? */
  predicate Findable(c: Config, sh: Shared) {
    if sh.env.Some? then sh.env.value in sh.files else c.wheel.Some? && c.wheel.value in sh.files
  }

  /** Nothing stands in the way of a call of this kind that needs OpenVINO. */
  predicate Fit(c: Config, sh: Shared, call: Call) {
    if call.RunMethod? then c.registered && PathGood(sh) else call.Resolve? && Findable(c, sh)
  }

  /** The program point is not on the way to raising a missing backend. */
  predicate Spared(pc: PC) { (pc.Unwind? || pc.Raising? || pc.Abort?) ==> pc.fault != BackendMissing }

  lemma RunIsSpared(c: Config, t: Tid, sh: Shared, th: Thread)
    requires Ready(c, sh, t, th) && th.call.value.RunMethod? && Fit(c, sh, th.call.value) && Spared(th.pc)
    requires !th.pc.CopyOut? && !th.pc.Build?
    ensures
      var e := Act(c, t, sh, th);
      if e.th.done == th.done then e.th.call == th.call && Spared(e.th.pc)
      else |e.th.done| > |th.done| && e.th.done[|th.done|].outcome != Raised(BackendMissing)
  {
    hide RecordOk, HeldOk, ArgsOk, FaultOk, Built;
  }

  lemma OutputsAreSpared(c: Config, t: Tid, sh: Shared, th: Thread)
    requires th.call.Some? && Shape(th) && (th.pc.CopyOut? || th.pc.Build?)
    ensures
      var e := Act(c, t, sh, th);
      if e.th.done == th.done then e.th.call == th.call && Spared(e.th.pc)
      else |e.th.done| > |th.done| && e.th.done[|th.done|].outcome != Raised(BackendMissing)
  {
  }

  lemma ResolveIsSpared(c: Config, t: Tid, sh: Shared, th: Thread)
    requires Ready(c, sh, t, th) && th.call.value.Resolve? && Fit(c, sh, th.call.value) && Spared(th.pc)
    ensures
      var e := Act(c, t, sh, th);
      if e.th.done == th.done then e.th.call == th.call && Spared(e.th.pc)
      else |e.th.done| > |th.done| && e.th.done[|th.done|].outcome != Raised(BackendMissing)
  {
    hide RecordOk, ScanOk, Progressed, Listed, SawOpenvino, ResolveFaultOk;
  }

  /** Call `g` has not raised, and is not about to raise, a missing backend. */
  predicate CallSpared(s: State, g: Turn)
    requires HasCall(s, g)
  {
    if Finished(s, g) then RecordOf(s, g).outcome != Raised(BackendMissing) else Spared(s.threads[g.t].pc)
  }

  /** That goes for every call made since `s0`, of a kind that was fit to be made then. */
  ghost predicate AllSpared(c: Config, s0: State, s: State) {
    forall g: Turn | HasCall(s, g) && !HasCall(s0, g) && Fit(c, s0.sh, CallOf(s, g)) :: CallSpared(s, g)
  }

  /** A usable path stays usable, whatever resolvers write. */
  lemma FitStays(c: Config, s: State, s': State, call: Call)
    requires Inv(c, s) && Inv(c, s') && Grown(s, s') && Fit(c, s.sh, call)
    ensures Fit(c, s'.sh, call)
  {
  }

  lemma ThreadIsSpared(c: Config, t: Tid, sh: Shared, th: Thread)
    requires Ready(c, sh, t, th) && Fit(c, sh, th.call.value) && Spared(th.pc)
    ensures
      var e := Act(c, t, sh, th);
      if e.th.done == th.done then e.th.call == th.call && Spared(e.th.pc)
      else |e.th.done| > |th.done| && e.th.done[|th.done|].outcome != Raised(BackendMissing)
  {
    if th.call.value.Resolve? {
      ResolveIsSpared(c, t, sh, th);
    } else if th.pc.CopyOut? || th.pc.Build? {
      OutputsAreSpared(c, t, sh, th);
    } else {
      RunIsSpared(c, t, sh, th);
    }
  }

  lemma SparedByThread(c: Config, s: State, t: Tid)
    requires Trusted(c) && Inv(c, s) && CanDo(c, s, Run(t))
    requires Fit(c, s.sh, s.threads[t].call.value) && Spared(s.threads[t].pc)
    ensures
      var s', g := Next(c, s, Run(t)), Turn(t, |s.threads[t].done|);
      HasCall(s', g) && CallSpared(s', g)
  {
    assert Ready(c, s.sh, t, s.threads[t]);
    ThreadIsSpared(c, t, s.sh, s.threads[t]);
    hide Act, Inv;
  }

  lemma SparedByStep(c: Config, s0: State, s: State, a: Action)
    requires Trusted(c) && Inv(c, s0) && Inv(c, s) && Grown(s0, s) && AllSpared(c, s0, s) && CanDo(c, s, a)
    ensures AllSpared(c, s0, Next(c, s, a))
  {
    hide Act, Inv, Fit, Spared;
    var s' := Next(c, s, a);
    GrownByStep(c, s, a);
    forall g: Turn | HasCall(s', g) && !HasCall(s0, g) && Fit(c, s0.sh, CallOf(s', g)) ensures CallSpared(s', g) {
      if HasCall(s, g) {
        assert CallSpared(s, g);
        if !Finished(s, g) && a == Run(g.t) {
          FitStays(c, s0, s, CallOf(s, g));
          SparedByThread(c, s, g.t);
        }
      } else {
        NewIsSpared(c, s, a, g);
      }
    }
  }

  lemma NewIsSpared(c: Config, s: State, a: Action, g: Turn)
    requires Trusted(c) && Inv(c, s) && CanDo(c, s, a) && !HasCall(s, g) && HasCall(Next(c, s, a), g)
    ensures CallSpared(Next(c, s, a), g)
  {
    hide Act;
    if a.Run? {
      IsStepOf(c, s, a.t);
      CallsStay(s, Next(c, s, a), a.t, Act(c, a.t, s.sh, s.threads[a.t]), g);
    } else if a.Issue? {
      assert ThreadOk(c, s.sh, a.u, s.threads[a.u]);
    }
  }

  lemma {:induction false} SparedAfter(c: Config, s0: State, s: State, run: seq<Action>)
    requires Trusted(c) && Inv(c, s0) && Inv(c, s) && Grown(s0, s) && AllSpared(c, s0, s) && Feasible(c, s, run)
    ensures AllSpared(c, s0, After(c, s, run))
    decreases |run|
  {
    hide Inv, CanDo, Next, AllSpared, Grown;
    if run == [] {
    } else {
      SparedByStep(c, s0, s, run[0]);
      GrownByStep(c, s, run[0]);
      GrownTransitive(s0, s, Next(c, s, run[0]));
      SparedAfter(c, s0, Next(c, s, run[0]), run[1..]);
    }
  }

  /** No call made when it was fit is ever refused for a missing backend: a run_method made when the
      backend was registered and the variable named a regular file, a constructor made when its path
      could be found. */
  lemma FitCallsAreAccepted(c: Config, s: State, run: seq<Action>, g: Turn)
    requires Trusted(c) && Reachable(c, s) && Feasible(c, s, run)
    requires !HasCall(s, g) && Finished(After(c, s, run), g) && Fit(c, s.sh, RecordOf(After(c, s, run), g).call)
    ensures RecordOf(After(c, s, run), g).outcome != Raised(BackendMissing)
  {
    hide CanDo, Next, Fit;
    ReachableInv(c, s);
    GrownRefl(s);
    SparedAfter(c, s, s, run);
    assert CallSpared(After(c, s, run), g);
  }

  /** How run_method fails, for a call made after `s`: which of the three early faults it was and why,
      none of them after an execute; and every other fault is the sequential reference's, with no
      list returned. */
  lemma FaultsAreExact(c: Config, s: State, run: seq<Action>, g: Turn)
    requires Trusted(c) && Reachable(c, s) && Feasible(c, s, run) && !HasCall(s, g)
    requires Finished(After(c, s, run), g)
    requires RecordOf(After(c, s, run), g).call.RunMethod? && RecordOf(After(c, s, run), g).outcome.Raised?
    ensures
      var s' := After(c, s, run);
      var rec := RecordOf(s', g);
      var r, f := rec.call.rt, rec.outcome.fault;
      && (!AllMapped(rec.call.args) <==> rec.meta.None?)
      && (rec.meta.None? ==> f == DtypeUnmapped && rec.exec.None?)
      && (rec.meta.Some? ==> Logged(s'.sh, r, rec.meta, MetaRead(rec.call.name)))
      && (rec.meta.Some? && rec.exec.None? ==>
            if ReplyAt(c, r, LogOf(s'.sh, r), rec.meta.value).Failed? then f == LoadFailed
            else f == BackendMissing && SawOpenvino(c, s'.sh, r, rec.call.name, rec.meta) && !(c.registered && PathGood(s.sh)))
      && (rec.exec.Some? ==>
            rec.exec.value < |LogOf(s'.sh, r)| && Raised(f) == SeqOutcome(c, r, LogOf(s'.sh, r), rec.exec.value))
  {
    hide CanDo, Next;
    var s' := After(c, s, run);
    ReachableInv(c, s);
    GrownByRun(c, s, run);
    assert RecordOk(c, s'.sh, g.t, g.n, RecordOf(s', g));
    if c.registered && PathGood(s.sh) { FitCallsAreAccepted(c, s, run, g); }
  }

  /** The guard is exact. A run_method made when the backend was registered and the path usable is
      never refused for a missing backend; one that needs OpenVINO and ends while that still is not
      so always is; and whichever is refused needs OpenVINO and never executed. */
  lemma GuardIsExact(c: Config, s: State, run: seq<Action>, g: Turn)
    requires Trusted(c) && Reachable(c, s) && Feasible(c, s, run) && !HasCall(s, g)
    requires Finished(After(c, s, run), g) && RecordOf(After(c, s, run), g).call.RunMethod?
    ensures
      var s' := After(c, s, run);
      var rec := RecordOf(s', g);
      var refused, needed := rec.outcome == Raised(BackendMissing), SawOpenvino(c, s'.sh, rec.call.rt, rec.call.name, rec.meta);
      && (c.registered && PathGood(s.sh) ==> !refused)
      && (needed && !(c.registered && PathGood(s'.sh)) ==> refused)
      && (refused ==> needed && rec.exec.None?)
  {
    hide CanDo, Next;
    var s' := After(c, s, run);
    ReachableInv(c, s);
    GrownByRun(c, s, run);
    assert RecordOk(c, s'.sh, g.t, g.n, RecordOf(s', g));
    if RecordOf(s', g).exec.Some? {
      ExecuteFaults(c, RecordOf(s', g).call.rt, LogOf(s'.sh, RecordOf(s', g).call.rt), RecordOf(s', g).exec.value);
    }
    if c.registered && PathGood(s.sh) { FitCallsAreAccepted(c, s, run, g); }
  }

  /** The resolver refines the guard. Once `Program.__init__` has succeeded for a program with an
      OpenVINO method, no run_method made later, of any program, is refused for a missing backend,
      provided this build has it and the path was set at start-up or the wheel's match is a regular
      file; and without that provision every one that needs OpenVINO is refused. */
  lemma ResolverRefinesGuard(c: Config, s: State, p: Turn, run: seq<Action>, g: Turn)
    requires Trusted(c) && Reachable(c, s) && FoundOpenvino(s, p) && Feasible(c, s, run) && !HasCall(s, g)
    requires Finished(After(c, s, run), g) && RecordOf(After(c, s, run), g).call.RunMethod?
    ensures c.env0.Some? || c.wheel.Some?
    ensures c.registered && (c.env0.Some? || c.wheel.value in s.sh.files)
      ==> RecordOf(After(c, s, run), g).outcome != Raised(BackendMissing)
    ensures
      var s' := After(c, s, run);
      var rec := RecordOf(s', g);
      && SawOpenvino(c, s'.sh, rec.call.rt, rec.call.name, rec.meta)
      && !(c.registered && (c.env0.Some? || c.wheel.value in s'.sh.files))
      ==> rec.outcome == Raised(BackendMissing)
  {
    hide CanDo, Next;
    ReachableInv(c, s);
    GrownByRun(c, s, run);
    assert RecordOk(c, s.sh, p.t, p.n, RecordOf(s, p));
    GuardIsExact(c, s, run, g);
    hide Inv;
  }

  /** Why `Program.__init__` raises, for a constructor called after `s`: a metadata read failed, or some
      method needs OpenVINO and no path could be found at `s`; so with one, no race between resolvers
      makes it fail. When it returns for a program with an OpenVINO method there was a path: a
      usable one if it was set at start-up, else the wheel's. */
  lemma ResolverFaultsAreExact(c: Config, s: State, run: seq<Action>, g: Turn)
    requires Trusted(c) && Reachable(c, s) && Feasible(c, s, run) && !HasCall(s, g)
    requires Finished(After(c, s, run), g) && RecordOf(After(c, s, run), g).call.Resolve?
    ensures
      var s' := After(c, s, run);
      var rec := RecordOf(s', g);
      match rec.outcome
      case Raised(f) =>
        if f == LoadFailed then exists a :: Replied(c, s'.sh, rec.call.rt, rec.meta, a, Failed)
        else
          && f == BackendMissing && !Findable(c, s.sh)
          && exists name :: SawOpenvino(c, s'.sh, rec.call.rt, name, rec.meta)
      case Resolved(needed) => needed ==> if c.env0.Some? then PathGood(s'.sh) else c.wheel.Some?
      case _ => false
  {
    hide CanDo, Next;
    var s' := After(c, s, run);
    ReachableInv(c, s);
    GrownByRun(c, s, run);
    assert RecordOk(c, s'.sh, g.t, g.n, RecordOf(s', g));
    if Findable(c, s.sh) { FitCallsAreAccepted(c, s, run, g); }
    hide Inv;
  }

  // ---------- programs without OpenVINO ----------

  ghost predicate WritesExplained(c: Config, s: State) { s.sh.env != c.env0 ==> exists g :: FoundOpenvino(s, g) }

  lemma OnlyResolverWrites(c: Config, t: Tid, sh: Shared, th: Thread)
    requires th.call.Some? && Shape(th)
    ensures
      var e := Act(c, t, sh, th);
      e.sh.env == sh.env
      || (&& th.call.value.Resolve?
          && e.th.done == th.done + [Record(th.call.value, th.meta, th.exec, Resolved(true), Resolved(true))])
  {
  }

  lemma WritesExplainedStep(c: Config, s: State, a: Action)
    requires WritesExplained(c, s) && CanDo(c, s, a) && Grown(s, Next(c, s, a))
    ensures WritesExplained(c, Next(c, s, a))
  {
    var s' := Next(c, s, a);
    if a.Run? { OnlyResolverWrites(c, a.t, s.sh, s.threads[a.t]); }
    hide Act;
    if s.sh.env != c.env0 {
      var g :| FoundOpenvino(s, g);
      assert FoundOpenvino(s', g);
    } else if s'.sh.env != s.sh.env {
      assert FoundOpenvino(s', Turn(a.t, |s.threads[a.t].done|));
    }
  }

  lemma {:induction false} WritesExplainedAfter(c: Config, s: State, run: seq<Action>)
    requires Trusted(c) && Inv(c, s) && WritesExplained(c, s) && Feasible(c, s, run)
    ensures Inv(c, After(c, s, run)) && WritesExplained(c, After(c, s, run))
    decreases |run|
  {
    hide Inv, CanDo, Next, WritesExplained;
    if run == [] {
    } else {
      GrownByStep(c, s, run[0]);
      WritesExplainedStep(c, s, run[0]);
      WritesExplainedAfter(c, Next(c, s, run[0]), run[1..]);
    }
  }

  /** Programs that do not use OpenVINO leave the environment alone: if it changed, some constructor
      that has returned read metadata of its own program that names the delegate. */
  lemma EnvChangesOnlyForOpenvino(c: Config, s: State)
    requires Trusted(c) && Reachable(c, s) && s.sh.env != c.env0
    ensures exists g, name :: FoundOpenvino(s, g) && SawOpenvino(c, s.sh, RecordOf(s, g).call.rt, name, RecordOf(s, g).meta)
  {
    hide CanDo, Next;
    var count: nat, run :| Feasible(c, Initial(c, count), run) && After(c, Initial(c, count), run) == s;
    InvStart(c, count);
    WritesExplainedAfter(c, Initial(c, count), run);
    var g :| FoundOpenvino(s, g);
    assert RecordOk(c, s.sh, g.t, g.n, RecordOf(s, g));
    var name :| SawOpenvino(c, s.sh, RecordOf(s, g).call.rt, name, RecordOf(s, g).meta);
  }
}
