/** Linearizability of whole calls: when metadata reads only fill caches, the outcomes are those
    of the run_method calls alone, one after the other, in the order of their executes. */
module CallLevel {
  import opened Values
  import opened Marshal
  import opened Protocol
  import opened Sequential
  import opened Executions
  import opened Linearizability

  /** Metadata reads are transparent: they keep a Module `same`, and the same Modules execute
      to the same outcome and stay the same. This is what lazy loading promises. */
  ghost predicate Transparent(c: Config, same: (Rid, Mod, Mod) -> bool) {
    && (forall r, m :: same(r, m, m))
    && (forall r, m, m', a: Access :: same(r, m, m') && !a.Exec? ==> same(r, Perform(c, r, m, a).0, m'))
    && (forall r, m, m', a: Access :: same(r, m, m') && a.Exec? ==>
          same(r, Perform(c, r, m, a).0, Perform(c, r, m', a).0) && ExecOutcome(c, r, m, a) == ExecOutcome(c, r, m', a))
  }

  function ExecOutcome(c: Config, r: Rid, m: Mod, a: Access): Outcome<seq<byte>> {
    var (m', reply) := Perform(c, r, m, a);
    OutcomeOf(c, m'.arena, reply)
  }

  /** The executes of a log, in order. */
  function Executes(log: seq<Access>): seq<Access> {
    if log == [] then []
    else
      var last := log[|log| - 1];
      Executes(log[..|log| - 1]) + (if last.Exec? then [last] else [])
  }

  /** Exactly the executes count, each once and in order. */
  lemma {:induction false} ExecutesInOrder(log: seq<Access>, more: seq<Access>, a: Access)
    ensures Executes([]) == [] && Executes([a]) == if a.Exec? then [a] else []
    ensures Executes(log + more) == Executes(log) + Executes(more)
  {
    assert [a][..0] == [];
    if more == [] {
      assert log + more == log;
    } else {
      var before := more[..|more| - 1];
      assert (log + more)[..|log + more| - 1] == log + before;
      ExecutesInOrder(log, before, a);
    }
  }

  /** Modules whose metadata reads leave them as they are are transparent. */
  lemma PureReadsAreTransparent(c: Config)
    requires forall r: Rid, m: Mod :: c.readNames(r, m).0 == m
    requires forall r: Rid, m: Mod, name: string :: c.readMeta(r, m, name).0 == m
    ensures Transparent(c, (r: Rid, m: Mod, m': Mod) => m == m')
  {
    forall r: Rid, m: Mod, a: Access | !a.Exec? ensures Perform(c, r, m, a).0 == m {}
  }

  /** The outcomes of the executes `execs` of a fresh Module, one after the other. */
  function SequentialRun(c: Config, r: Rid, execs: seq<Access>): (outcomes: seq<Outcome<seq<byte>>>)
    ensures |outcomes| == |execs|
  {
    if execs == [] then []
    else
      var before := execs[..|execs| - 1];
      SequentialRun(c, r, before) + [ExecOutcome(c, r, Replay(c, r, before), execs[|execs| - 1])]
  }

  lemma {:induction false} ReplayExecutes(c: Config, same: (Rid, Mod, Mod) -> bool, r: Rid, log: seq<Access>)
    requires Transparent(c, same)
    ensures same(r, Replay(c, r, log), Replay(c, r, Executes(log)))
  {
    if log == [] {
    } else {
      var before, last := log[..|log| - 1], log[|log| - 1];
      ReplayExecutes(c, same, r, before);
      if last.Exec? {
        var execs := Executes(log);
        assert execs[..|execs| - 1] == Executes(before) && execs[|execs| - 1] == last;
      } else {
        assert Executes(log) == Executes(before);
      }
    }
  }

  lemma {:induction false} ExecutesGrow(log: seq<Access>, k: nat)
    requires k <= |log|
    ensures Executes(log[..k]) <= Executes(log)
    decreases |log| - k
  {
    if k == |log| {
      assert log[..k] == log;
    } else {
      ExecutesGrow(log, k + 1);
      assert log[..k + 1][..k] == log[..k];
    }
  }

  lemma {:induction false} SequentialRunPrefix(c: Config, r: Rid, execs: seq<Access>, j: nat)
    requires j < |execs|
    ensures SequentialRun(c, r, execs)[j] == ExecOutcome(c, r, Replay(c, r, execs[..j]), execs[j])
  {
    var before := execs[..|execs| - 1];
    if j == |before| {
    } else {
      SequentialRunPrefix(c, r, before, j);
      assert before[..j] == execs[..j];
    }
  }

  /** The execute at position `k` of a log is number |Executes(log[..k])| among the executes,
      and gives the outcome it has in the run of the executes alone. */
  lemma ExecuteAlone(c: Config, same: (Rid, Mod, Mod) -> bool, r: Rid, log: seq<Access>, k: nat)
    requires Transparent(c, same) && k < |log| && log[k].Exec?
    ensures
      var j, execs := |Executes(log[..k])|, Executes(log);
      j < |execs| && execs[j] == log[k] && SequentialRun(c, r, execs)[j] == SeqOutcome(c, r, log, k)
  {
    var j, execs := |Executes(log[..k])|, Executes(log);
    assert log[..k + 1][..k] == log[..k];
    ExecutesGrow(log, k + 1);
    assert Executes(log[..k + 1]) == Executes(log[..k]) + [log[k]];
    ReplayExecutes(c, same, r, log[..k]);
    ReplayNext(c, r, log, k);
    assert ExecOutcome(c, r, Replay(c, r, log[..k]), log[k]) == SeqOutcome(c, r, log, k);
    SequentialRunPrefix(c, r, execs, j);
    assert execs[..j] == Executes(log[..k]);
  }

  /** For any number of threads and Runtimes and any interleaving with metadata calls, a completed
      run_method returned what the sequential run of the executed calls, in the order in which they
      took the mutex, gives at its place; and the execute at its place is its method on its
      arguments with the contents they had when it was about to execute. By
      `Linearizability.ExecutesAreOnArguments` that goes for every execute of the sequential run. */
  lemma CallsAreLinearizable(c: Config, same: (Rid, Mod, Mod) -> bool, s: State, g: Turn) returns (before: State)
    requires Trusted(c) && Transparent(c, same) && Reachable(c, s)
    requires Finished(s, g) && RecordOf(s, g).call.RunMethod? && RecordOf(s, g).exec.Some?
    ensures
      var rec := RecordOf(s, g);
      var r, k := rec.call.rt, rec.exec.value;
      k < |LogOf(s.sh, r)| && AllMapped(rec.call.args) &&
      var j, execs := |Executes(LogOf(s.sh, r)[..k])|, Executes(LogOf(s.sh, r));
      && j < |execs| && execs[j] == Exec(rec.call.name, InputsFor(Contents(before.sh.heap, rec.call.args)))
      && rec.seen == SequentialRun(c, r, execs)[j]
    ensures AtExecute(before, g) && CallOf(before, g) == RecordOf(s, g).call
    ensures Reachable(c, before) && Leads(c, before, s)
  {
    before := Linearizable(c, s, g);
    var rec := RecordOf(s, g);
    ExecuteAlone(c, same, rec.call.rt, LogOf(s.sh, rec.call.rt), rec.exec.value);
  }
}
