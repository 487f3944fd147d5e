/** ensure_openvino_lib_path (executorch_numpy_runtime/_openvino.py) as one thread executes it, and a
    call on the Program it prepares. */
module Openvino {
  import opened Values
  import opened Marshal
  import opened Protocol
  import opened Sequential
  import opened EtCore
  import Binding

  /** The accesses `any(method_uses_backend(...) for ...)` makes, and what it finds: it stops at
      the first method that uses OpenVINO or whose metadata cannot be read. */
  function AnyUses(c: Config, r: Rid, log: seq<Access>, names: seq<string>): (seq<Access>, Result<bool>)
    decreases |names|
  {
    if names == [] then (log, Ok(false))
    else
      var log' := log + [MetaRead(names[0])];
      var reply := ReplyAt(c, r, log', |log|);
      if !reply.Meta? then (log', Err(LoadFailed))
      else if OPENVINO in reply.info.backends then (log', Ok(true))
      else AnyUses(c, r, log', names[1..])
  }

  /** The whole detection, starting with the list of methods. */
  function NeedsOpenvino(c: Config, r: Rid, log: seq<Access>): (seq<Access>, Result<bool>) {
    var log' := log + [NamesRead];
    var reply := ReplyAt(c, r, log', |log|);
    if reply.Names? then AnyUses(c, r, log', reply.names) else (log', Err(LoadFailed))
  }

  // ---------- what the detection means ----------

  /** What the Module answered to the metadata read at position `k`. */
  function InfoAt(c: Config, r: Rid, log: seq<Access>, k: nat): Option<MetaInfo>
    requires k < |log| && log[k].MetaRead?
  {
    c.readMeta(r, Replay(c, r, log[..k]), log[k].name).1
  }

  /** From position `from` on the metadata of the first of `names` was read, in order, and until the
      last read it was there and did not name OpenVINO. */
  ghost predicate ReadInOrder(c: Config, r: Rid, log: seq<Access>, from: nat, names: seq<string>) {
    && from <= |log| <= from + |names|
    && (forall k | from <= k < |log| :: log[k] == MetaRead(names[k - from]))
    && forall k | from <= k < |log| - 1 :: InfoAt(c, r, log, k).Some? && OPENVINO !in InfoAt(c, r, log, k).value.backends
  }

  lemma InfoIsReply(c: Config, r: Rid, log: seq<Access>, k: nat)
    requires k < |log| && log[k].MetaRead?
    ensures
      var info := InfoAt(c, r, log, k);
      ReplyAt(c, r, log, k) == if info.None? then Failed else Protocol.Meta(info.value)
  {
    ReplyMeans(c, r, log, k);
  }

  lemma InfoStays(c: Config, r: Rid, log: seq<Access>, log': seq<Access>, k: nat)
    requires log <= log' && k < |log| && log[k].MetaRead?
    ensures log'[k] == log[k] && InfoAt(c, r, log', k) == InfoAt(c, r, log, k)
  {
    assert log'[..k] == log[..k];
  }

  lemma InOrderFrom(c: Config, r: Rid, log: seq<Access>, from: nat, names: seq<string>)
    requires names != [] && from < |log| && log[from] == MetaRead(names[0])
    requires ReadInOrder(c, r, log, from + 1, names[1..])
    requires InfoAt(c, r, log, from).Some? && OPENVINO !in InfoAt(c, r, log, from).value.backends
    ensures ReadInOrder(c, r, log, from, names)
  {
    hide InfoAt;
    assert forall k | from < k < |log| :: log[k] == MetaRead(names[1..][k - (from + 1)]);
  }

  /** The detection answers as the Module's metadata says: it finds OpenVINO when the last method it read
      names it, fails when that one could not be read, and finds nothing when it has read all of
      them and none names it. */
  lemma {:induction false} AnyUsesIsExact(c: Config, r: Rid, log: seq<Access>, names: seq<string>)
    ensures
      var (log', res) := AnyUses(c, r, log, names);
      && log <= log' && ReadInOrder(c, r, log', |log|, names)
      && (|log'| == |log| ==> names == [] && res == Ok(false))
      && (|log'| > |log| ==>
            var info := InfoAt(c, r, log', |log'| - 1);
            && (res.Err? <==> info.None?) && (res.Err? ==> res.fault == LoadFailed)
            && (res == Ok(true) <==> info.Some? && OPENVINO in info.value.backends)
            && (res == Ok(false) ==> |log'| == |log| + |names|))
    decreases |names|
  {
    hide Replay, ReplyAt, InfoAt;
    if names == [] {
    } else {
      var log1 := log + [MetaRead(names[0])];
      assert log1[..|log|] == log;
      InfoIsReply(c, r, log1, |log|);
      var info := InfoAt(c, r, log1, |log|);
      if info.Some? && OPENVINO !in info.value.backends {
        AnyUsesIsExact(c, r, log1, names[1..]);
        var log' := AnyUses(c, r, log1, names[1..]).0;
        InfoStays(c, r, log1, log', |log|);
        InOrderFrom(c, r, log', |log|, names);
      }
    }
  }

  /** The whole detection, over a Module in any state: whoever has no OpenVINO metadata among its listed
      methods has no delegated one. */
  lemma DetectionIsExact(c: Config, r: Rid, log: seq<Access>)
    ensures
      var (log', res) := NeedsOpenvino(c, r, log);
      var names := c.readNames(r, Replay(c, r, log)).1;
      && log + [NamesRead] <= log'
      && (names.None? ==> log' == log + [NamesRead] && res == Err(LoadFailed))
      && (names.Some? ==> (log', res) == AnyUses(c, r, log + [NamesRead], names.value))
      && (Honest(c) && res == Ok(false) ==> names.Some? && forall name | name in names.value :: !c.delegates(r, name))
  {
    var log1 := log + [NamesRead];
    assert log1[..|log|] == log;
    ReplyMeans(c, r, log1, |log|);
    var names := c.readNames(r, Replay(c, r, log)).1;
    if names.Some? {
      AnyUsesIsExact(c, r, log1, names.value);
      var (log', res) := NeedsOpenvino(c, r, log);
      if Honest(c) && res == Ok(false) {
        forall i | 0 <= i < |names.value| ensures !c.delegates(r, names.value[i]) {
          assert InfoAt(c, r, log', |log1| + i).Some?;
        }
      }
    }
  }

  method DetectOpenvino(rt: Runtime) returns (res: Result<bool>)
    requires rt.Valid()
    modifies rt.mutex, rt.module_, rt.module_.arena
    ensures rt.Valid() && (rt.module_.arena == old(rt.module_.arena) || fresh(rt.module_.arena))
    ensures (rt.module_.log, res) == NeedsOpenvino(rt.module_.c, rt.module_.r, old(rt.module_.log))
    ensures
      var names := rt.module_.c.readNames(rt.module_.r, old(rt.module_.State())).1;
      && (names.None? ==> res == Err(LoadFailed))
      && (Honest(rt.module_.c) && res == Ok(false) ==>
            names.Some? && forall name | name in names.value :: !rt.module_.c.delegates(rt.module_.r, name))
  {
    DetectionIsExact(rt.module_.c, rt.module_.r, rt.module_.log);
    var names := rt.MethodNames();
    if names.Err? { return Err(names.fault); }
    var i := 0;
    while i < |names.value|
      invariant i <= |names.value| && rt.Valid()
      invariant rt.module_.arena == old(rt.module_.arena) || fresh(rt.module_.arena)
      invariant NeedsOpenvino(rt.module_.c, rt.module_.r, old(rt.module_.log))
             == AnyUses(rt.module_.c, rt.module_.r, rt.module_.log, names.value[i..])
    {
      ghost var before := rt.module_.log;
      var uses := rt.MethodUsesBackend(names.value[i], OPENVINO);
      if uses.Err? { return Err(uses.fault); }
      if uses.value { return Ok(true); }
      assert names.value[i..][1..] == names.value[i + 1..];
      i := i + 1;
    }
    res := Ok(false);
  }

  /** Ok(true): configured for OpenVINO. Ok(false): not needed. A path that was set is checked and
      never overwritten; the variable is written only when it was unset, and never on a failure. */
  method EnsureOpenvinoLibPath(rt: Runtime, p: Process, wheel: Option<string>) returns (res: Result<bool>)
    requires rt.Valid()
    modifies p`env, rt.mutex, rt.module_, rt.module_.arena
    ensures rt.Valid() && (rt.module_.arena == old(rt.module_.arena) || fresh(rt.module_.arena))
    ensures rt.module_.log == NeedsOpenvino(rt.module_.c, rt.module_.r, old(rt.module_.log)).0
    ensures
      var detected := NeedsOpenvino(rt.module_.c, rt.module_.r, old(rt.module_.log)).1;
      if detected != Ok(true) then res == detected && p.env == old(p.env)
      else if old(p.env).Some? then
        p.env == old(p.env) && res == (if p.env.value in p.files then Ok(true) else Err(BackendMissing))
      else if wheel.None? then p.env == None && res == Err(BackendMissing)
      else p.env == wheel && res == Ok(true)
  {
    var any := DetectOpenvino(rt);
    if any != Ok(true) { return any; }
    var existing := p.env;
    if existing.Some? {
      return if existing.value in p.files then Ok(true) else Err(BackendMissing);
    }
    if wheel.None? { return Err(BackendMissing); }
    p.env := wheel;
    return Ok(true);
  }

  // ---------- a call on a Program ----------

  /** Constructor and call, one after the other: when the build has the backend and what the
      wheel offers is a regular file, a call on a Program that needs OpenVINO is never refused for a
      missing backend. */
  method LoadAndRun(gil: Mutex, rt: Runtime, p: Process, wheel: Option<string>, name: string, arrs: seq<NdArray<array<byte>>>)
    returns (loaded: Result<bool>, out: seq<PyValue<array<byte>>>, fault: Option<Fault>)
    requires gil.held && gil != rt.mutex && rt.Valid() && SaneModule(rt.module_.c)
    requires forall i | 0 <= i < |arrs| :: arrs[i].data != rt.module_.arena
    modifies gil, p`env, rt.mutex, rt.module_, rt.module_.arena, set i | 0 <= i < |arrs| :: arrs[i].data
    ensures gil.held && rt.Valid() && (rt.module_.arena == old(rt.module_.arena) || fresh(rt.module_.arena))
    ensures loaded.Err? ==> out == [] && fault == Some(loaded.fault)
    ensures loaded == Ok(true) && rt.module_.c.registered && "" !in p.files && (wheel.Some? ==> wheel.value in p.files)
      ==> fault != Some(BackendMissing)
    ensures forall j | 0 <= j < |out| && out[j].PyArray? :: fresh(out[j].buffer) && out[j].buffer != rt.module_.arena
    ensures Binding.Distinct(out)
  {
    hide SaneModule, SeqOutcome, ReplyAt, LastWrite, WritesAt, InputsFor, Binding.ReadResults, NeedsOpenvino;
    loaded := EnsureOpenvinoLibPath(rt, p, wheel);
    if loaded.Err? { return loaded, [], Some(loaded.fault); }
    ghost var before := rt.module_.log;
    out, fault := Binding.RunMethod(gil, rt, p, name, arrs);
    if |rt.module_.log| > |before| + 1 { ExecuteFaults(rt.module_.c, rt.module_.r, rt.module_.log, |before| + 1); }
  }
}
