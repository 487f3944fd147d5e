/** The public API as a protocol (executorch_numpy_runtime/_api.py): a Method comes from a Program,
    and a Program from a constructor that has resolved the path. */
module Api {
  import opened Values
  import opened Marshal
  import opened Protocol
  import opened Invariant
  import opened Turns
  import opened Runs
  import opened Growth
  import opened Executions
  import opened Permanence

  /** The constructor `p` returned a Program over `r`, and all its metadata reads come before every
      access of `g`. */
  ghost predicate ConstructedBefore(s: State, r: Rid, p: Turn, g: Turn) {
    IsProgram(s, p, r) && Precedes(s, r, p, g)
  }

  /** `h` is a load_method that returned the Method `name` of a Program over `r`; its list of methods
      was read before every access of `g`, and so were all metadata of the Program's constructor. */
  ghost predicate LoadedBefore(s: State, r: Rid, name: string, h: Turn, g: Turn) {
    IsMethod(s, h, r, name) && Precedes(s, r, h, g) && ConstructedBefore(s, r, RecordOf(s, h).call.program, g)
  }

  /** What call `g` is made on was returned by calls that were over before. */
  ghost predicate HandleOk(s: State, g: Turn)
    requires HasCall(s, g)
  {
    match CallOf(s, g)
    case LoadMethod(r, _, p) => ConstructedBefore(s, r, p, g)
    case RunMethod(r, name, _, Some(h)) => LoadedBefore(s, r, name, h, g)
    case _ => true
  }

  ghost predicate HandlesOk(s: State) {
    forall g: Turn | HasCall(s, g) :: HandleOk(s, g)
  }

  /** A call that has returned takes no more places. */
  lemma PrecedesStays(s: State, s': State, r: Rid, p: Turn, g: Turn)
    requires Grown(s, s') && Finished(s, p) && Precedes(s, r, p, g)
    ensures Precedes(s', r, p, g)
  {
    forall j, k | 0 <= j < |TurnsOf(s'.sh, r)| && 0 <= k < |TurnsOf(s'.sh, r)|
      && TurnsOf(s'.sh, r)[j] == p && TurnsOf(s'.sh, r)[k] == g
      ensures j < k
    {
      assert j < |TurnsOf(s.sh, r)|;
      if k < |TurnsOf(s.sh, r)| { assert TurnsOf(s.sh, r)[j] == p && TurnsOf(s.sh, r)[k] == g; }
    }
  }

  lemma HandleStays(s: State, s': State, g: Turn)
    requires Grown(s, s') && HasCall(s, g) && HandleOk(s, g)
    ensures HasCall(s', g) && HandleOk(s', g)
  {
    match CallOf(s, g)
    case LoadMethod(r, _, p) => PrecedesStays(s, s', r, p, g);
    case RunMethod(r, name, _, Some(h)) =>
      PrecedesStays(s, s', r, h, g);
      PrecedesStays(s, s', r, RecordOf(s, h).call.program, g);
    case _ =>
  }

  /** A new call is made on objects that exist, and has no access yet. */
  lemma HandleStarts(c: Config, s: State, t: Tid, call: Call)
    requires TurnsOk(s) && HandlesOk(s) && CanDo(c, s, Issue(t, call))
    ensures
      var s', g := Next(c, s, Issue(t, call)), Turn(t, |s.threads[t].done|);
      HasCall(s', g) && HandleOk(s', g)
  {
    var s', g := Next(c, s, Issue(t, call)), Turn(t, |s.threads[t].done|);
    match call
    case LoadMethod(r, _, p) => NoPlaceBeforeCall(s, r, g);
    case RunMethod(r, _, _, Some(h)) =>
      assert HandleOk(s, h);
      NoPlaceBeforeCall(s, r, g);
    case _ =>
  }

  lemma HandlesStep(c: Config, s: State, a: Action)
    requires Trusted(c) && Inv(c, s) && HandlesOk(s) && CanDo(c, s, a)
    ensures Inv(c, Next(c, s, a)) && HandlesOk(Next(c, s, a))
  {
    hide Act, HandleOk;
    var s' := Next(c, s, a);
    GrownByStep(c, s, a);
    if a.Run? { IsStepOf(c, s, a.t); }
    hide Inv, CallsEffect;
    forall g: Turn | HasCall(s', g) ensures HandleOk(s', g) {
      if HasCall(s, g) {
        HandleStays(s, s', g);
      } else if a.Issue? {
        HandleStarts(c, s, a.u, a.call);
      } else if a.Run? {
        CallsStay(s, s', a.t, Act(c, a.t, s.sh, s.threads[a.t]), g);
      }
    }
  }

  lemma {:induction false} HandlesAfter(c: Config, s: State, run: seq<Action>)
    requires Trusted(c) && Inv(c, s) && HandlesOk(s) && Feasible(c, s, run)
    ensures Inv(c, After(c, s, run)) && HandlesOk(After(c, s, run))
    decreases |run|
  {
    hide CanDo, Next, Inv, HandlesOk;
    if run == [] {
    } else {
      HandlesStep(c, s, run[0]);
      HandlesAfter(c, Next(c, s, run[0]), run[1..]);
    }
  }

  lemma ReachableHandles(c: Config, s: State)
    requires Trusted(c) && Reachable(c, s)
    ensures Inv(c, s) && HandlesOk(s)
  {
    hide CanDo, Next;
    var count: nat, run :| Feasible(c, Initial(c, count), run) && After(c, Initial(c, count), run) == s;
    InvStart(c, count);
    HandlesAfter(c, Initial(c, count), run);
  }

  /** What was returned can be used, by any thread between two calls: a Program to load methods, a Method
      to run on callers' arrays and on arrays that calls returned. Metadata calls, constructors and calls
      that skip the Python layer need no object. */
  lemma ReturnedObjectsCanBeUsed(c: Config, s: State, t: Tid, g: Turn, r: Rid, name: string, args: seq<NdArray<BufId>>)
    requires Trusted(c) && Reachable(c, s) && t < |s.threads| && s.threads[t].call.None?
    requires forall i | 0 <= i < |args| ::
      || (args[i].data in s.sh.heap && s.sh.heap[args[i].data].owner.CallerOf?)
      || exists h, j :: ReturnedArray(s, h, j) && ArrayBuffer(s, h, j) == args[i].data
    ensures CanDo(c, s, Issue(t, ReadMeta(r, name))) && CanDo(c, s, Issue(t, ReadNames(r))) && CanDo(c, s, Issue(t, Resolve(r)))
    ensures CanDo(c, s, Issue(t, RunMethod(r, name, args, None)))
    ensures Finished(s, g) && RecordOf(s, g).call == Resolve(r) && RecordOf(s, g).outcome.Resolved?
        ==> CanDo(c, s, Issue(t, LoadMethod(r, name, g)))
    ensures Finished(s, g) && RecordOf(s, g).outcome.Opened? && RecordOf(s, g).call.LoadMethod?
            && RecordOf(s, g).call.rt == r && RecordOf(s, g).call.name == name
        ==> CanDo(c, s, Issue(t, RunMethod(r, name, args, Some(g))))
  {
    ReachableInv(c, s);
    hide Inv, Reachable, PythonArray, Enabled, Callable, Finished;
    forall i | 0 <= i < |args| ensures PythonArray(s, args[i].data) { IsPythonArray(c, s, args[i].data); }
    CallableOnThese(s, g, r, name, args);
  }

  lemma CallableOnThese(s: State, g: Turn, r: Rid, name: string, args: seq<NdArray<BufId>>)
    requires forall i | 0 <= i < |args| :: PythonArray(s, args[i].data)
    ensures Callable(s, ReadMeta(r, name)) && Callable(s, ReadNames(r)) && Callable(s, Resolve(r))
    ensures Callable(s, RunMethod(r, name, args, None))
    ensures Finished(s, g) && RecordOf(s, g).call == Resolve(r) && RecordOf(s, g).outcome.Resolved?
        ==> Callable(s, LoadMethod(r, name, g))
    ensures Finished(s, g) && RecordOf(s, g).outcome.Opened? && RecordOf(s, g).call.LoadMethod?
            && RecordOf(s, g).call.rt == r && RecordOf(s, g).call.name == name
        ==> Callable(s, RunMethod(r, name, args, Some(g)))
  {
  }

  lemma IsPythonArray(c: Config, s: State, b: BufId)
    requires Inv(c, s)
    requires || (b in s.sh.heap && s.sh.heap[b].owner.CallerOf?)
             || exists h, j :: ReturnedArray(s, h, j) && ArrayBuffer(s, h, j) == b
    ensures PythonArray(s, b)
  {
    hide Inv;
    if !(b in s.sh.heap && s.sh.heap[b].owner.CallerOf?) {
      var h, j :| ReturnedArray(s, h, j) && ArrayBuffer(s, h, j) == b;
      ResultIsOwned(c, s, h, j);
    }
  }

  // ---------- the order of resolution and execute ----------

  /** Every call, finished or in progress, is made on objects whose own calls are over: a Method's
      Program had been constructed and its path resolved before the call was made, and all metadata
      reads of that constructor have places before those of the call. */
  lemma CallsAreOnFinishedObjects(c: Config, s: State, g: Turn)
    requires Trusted(c) && Reachable(c, s) && HasCall(s, g)
    ensures HandleOk(s, g)
  {
    ReachableHandles(c, s);
  }

  /** Place `k` of `r` is a run_method's; if that was made through a Method, the Method was loaded and
      its own Program constructed before. */
  ghost predicate ExecuteIsLate(s: State, r: Rid, k: nat) {
    && k < |TurnsOf(s.sh, r)| && HasCall(s, TurnsOf(s.sh, r)[k])
    && var g := TurnsOf(s.sh, r)[k];
       var call := CallOf(s, g);
       && call.RunMethod? && call.rt == r
       && (call.via.Some? ==> LoadedBefore(s, r, call.name, call.via.value, g))
  }

  lemma ExecuteIsResolved(c: Config, s: State, r: Rid, k: nat)
    requires Inv(c, s) && HandlesOk(s) && k < |LogOf(s.sh, r)| && LogOf(s.sh, r)[k].Exec?
    ensures ExecuteIsLate(s, r, k)
  {
    LogHasTurns(c, s, r);
    var g := TurnsOf(s.sh, r)[k];
    assert EntryOk(s, r, k) && HandleOk(s, g);
    ExecutesRun(c, s, g);
  }

  /** In every reachable state, every execute made through a Method stands behind the method list it
      was loaded from and behind all metadata reads of the constructor of its Program, which have
      both returned. */
  lemma ResolutionPrecedesExecute(c: Config, s: State, r: Rid, k: nat)
    requires Trusted(c) && Reachable(c, s) && k < |LogOf(s.sh, r)| && LogOf(s.sh, r)[k].Exec?
    ensures ExecuteIsLate(s, r, k)
  {
    ReachableHandles(c, s);
    ExecuteIsResolved(c, s, r, k);
  }

  lemma ExecutesRun(c: Config, s: State, g: Turn)
    requires Inv(c, s) && HasCall(s, g) && ExecOf(s, g).Some?
    ensures CallOf(s, g).RunMethod?
  {
    assert ThreadOk(c, s.sh, g.t, s.threads[g.t]);
    if Finished(s, g) { assert RecordOk(c, s.sh, g.t, g.n, RecordOf(s, g)); }
  }

  lemma LoadsInExecute(c: Config, t: Tid, sh: Shared, th: Thread)
    requires th.call.Some? && Shape(th) && sh.loader == Unloaded && Act(c, t, sh, th).sh.loader != Unloaded
    ensures th.pc.ExecIn? && c.delegates(th.call.value.rt, th.call.value.name)
    ensures
      var r := th.call.value.rt;
      LogOf(Act(c, t, sh, th).sh, r) == LogOf(sh, r) + [Exec(th.call.value.name, InputsOf(sh.heap, th.held))]
  {
  }

  /** Delegate initialisation order: the once-only load leaves Unloaded only in an execute of a
      delegated method; and if that execute is made through a Method, the Method's own Program had
      been constructed, with its path resolved, and all metadata reads of that are behind it. */
  lemma DelegateInitialisationOrder(c: Config, s: State, a: Action) returns (r: Rid)
    requires Trusted(c) && Reachable(c, s) && CanDo(c, s, a)
    requires s.sh.loader == Unloaded && Next(c, s, a).sh.loader != Unloaded
    ensures
      var s', k := Next(c, s, a), |LogOf(s.sh, r)|;
      && |LogOf(s'.sh, r)| == k + 1 && LogOf(s'.sh, r)[..k] == LogOf(s.sh, r)
      && LogOf(s'.sh, r)[k].Exec? && c.delegates(r, LogOf(s'.sh, r)[k].method_)
    ensures ExecuteIsLate(Next(c, s, a), r, |LogOf(s.sh, r)|)
  {
    ReachableHandles(c, s);
    HandlesStep(c, s, a);
    LoadsInExecute(c, a.t, s.sh, s.threads[a.t]);
    r := s.threads[a.t].call.value.rt;
    ExecuteIsResolved(c, Next(c, s, a), r, |LogOf(s.sh, r)|);
  }

  // ---------- when the delegate is loaded ----------

  /** Some delegated method has been executed. */
  ghost predicate DelegateRan(c: Config, s: State) {
    exists r: Rid, k: nat :: k < |LogOf(s.sh, r)| && LogOf(s.sh, r)[k].Exec? && c.delegates(r, LogOf(s.sh, r)[k].method_)
  }

  lemma LoaderInExecute(c: Config, t: Tid, sh: Shared, th: Thread)
    requires th.call.Some? && Shape(th) && th.pc.ExecIn?
    ensures
      var sh', r := Act(c, t, sh, th).sh, th.call.value.rt;
      && LogOf(sh', r) == LogOf(sh, r) + [Exec(th.call.value.name, InputsOf(sh.heap, th.held))]
      && if c.delegates(r, th.call.value.name) then sh'.loader != Unloaded else sh'.loader == sh.loader
  {
  }

  lemma LoaderElsewhere(c: Config, t: Tid, sh: Shared, th: Thread)
    requires th.call.Some? && Shape(th) && !th.pc.ExecIn?
    ensures Act(c, t, sh, th).sh.loader == sh.loader
  {
  }

  /** An execute of a delegated method makes the load, and nothing else touches it. */
  lemma LoaderByThread(c: Config, s: State, t: Tid)
    requires CanDo(c, s, Run(t)) && (s.sh.loader != Unloaded <==> DelegateRan(c, s))
    ensures Next(c, s, Run(t)).sh.loader != Unloaded <==> DelegateRan(c, Next(c, s, Run(t)))
  {
    var s', th := Next(c, s, Run(t)), s.threads[t];
    var q, n := th.call.value.rt, |LogOf(s.sh, th.call.value.rt)|;
    IsStepOf(c, s, t);
    if th.pc.ExecIn? { LoaderInExecute(c, t, s.sh, th); } else { LoaderElsewhere(c, t, s.sh, th); }
    hide Act;
    if DelegateRan(c, s) {
      var r: Rid, k: nat :| k < |LogOf(s.sh, r)| && LogOf(s.sh, r)[k].Exec? && c.delegates(r, LogOf(s.sh, r)[k].method_);
      assert LogOf(s'.sh, r)[k] == LogOf(s.sh, r)[k];
    }
    if th.pc.ExecIn? && c.delegates(q, th.call.value.name) { assert LogOf(s'.sh, q)[n].Exec?; }
  }

  lemma LoaderByStep(c: Config, s: State, a: Action)
    requires CanDo(c, s, a) && (s.sh.loader != Unloaded <==> DelegateRan(c, s))
    ensures Next(c, s, a).sh.loader != Unloaded <==> DelegateRan(c, Next(c, s, a))
  {
    if a.Run? {
      LoaderByThread(c, s, a.t);
    } else {
      assert forall r: Rid :: LogOf(Next(c, s, a).sh, r) == LogOf(s.sh, r);
    }
  }

  lemma {:induction false} LoaderAfter(c: Config, s: State, run: seq<Action>)
    requires Feasible(c, s, run) && (s.sh.loader != Unloaded <==> DelegateRan(c, s))
    ensures After(c, s, run).sh.loader != Unloaded <==> DelegateRan(c, After(c, s, run))
    decreases |run|
  {
    hide CanDo, Next, DelegateRan;
    if run == [] {
    } else {
      LoaderByStep(c, s, run[0]);
      LoaderAfter(c, Next(c, s, run[0]), run[1..]);
    }
  }

  /** The delegate is loaded exactly when some delegated method has been executed. */
  lemma LoadedExactlyByExecutes(c: Config, s: State)
    requires Trusted(c) && Reachable(c, s)
    ensures s.sh.loader.Loaded? <==> DelegateRan(c, s)
  {
    hide CanDo, Next, DelegateRan;
    ReachableInv(c, s);
    var count: nat, run :| Feasible(c, Initial(c, count), run) && After(c, Initial(c, count), run) == s;
    NothingRan(c, count);
    LoaderAfter(c, Initial(c, count), run);
  }

  lemma NothingRan(c: Config, count: nat)
    ensures !DelegateRan(c, Initial(c, count)) && Initial(c, count).sh.loader == Unloaded
  {
  }
}
