/** The probe checker of scripts/check-usdt-notes.sh: the awk scanner, the arity count and the
    verdict. Lines and fields are sequences of characters. */
module UsdtNotes {
  import opened Values

  // ---------- characters and fields ----------

  predicate IsBlank(c: char) { c == ' ' || c == '\t' || c == '\n' }         // awk's field separators
  predicate IsSpace(c: char) { IsBlank(c) || c == '\U{b}' || c == '\U{c}' || c == '\r' }   // [[:space:]]

  function SkipSpace(s: string): string {
    if s != "" && IsSpace(s[0]) then SkipSpace(s[1..]) else s
  }

  function SkipBlank(s: string): string {
    if s != "" && IsBlank(s[0]) then SkipBlank(s[1..]) else s
  }

  function Field(s: string): string {
    if s == "" || IsBlank(s[0]) then "" else [s[0]] + Field(s[1..])
  }

  function AfterField(s: string): string {
    if s == "" || IsBlank(s[0]) then s else AfterField(s[1..])
  }

  /** $2 */
  function SecondField(line: string): string {
    Field(SkipBlank(AfterField(SkipBlank(line))))
  }

  const NAME := "Name:"
  const ARGUMENTS := "Arguments:"

  predicate IsNameLine(line: string) {
    var s := SkipSpace(line);
    NAME <= s && |s| > |NAME| && IsSpace(s[|NAME|])
  }

  predicate IsArgumentsLine(line: string) {
    ARGUMENTS <= SkipSpace(line)
  }

  /** What is left of an Arguments line after the substitution. */
  function ArgumentsText(line: string): string
    requires IsArgumentsLine(line)
  {
    SkipSpace(SkipSpace(line)[|ARGUMENTS|..])
  }

  // ---------- what the patterns match ----------

  predicate AllSpace(s: string) { forall i | 0 <= i < |s| :: IsSpace(s[i]) }
  predicate AllBlank(s: string) { forall i | 0 <= i < |s| :: IsBlank(s[i]) }
  predicate NoBlank(s: string) { forall i | 0 <= i < |s| :: !IsBlank(s[i]) }

  /** White space in front goes, and nothing else. */
  lemma {:induction false} SkipSpaceTo(pre: string, s: string)
    requires AllSpace(pre) && (s == "" || !IsSpace(s[0]))
    ensures SkipSpace(pre + s) == s
  {
    if pre == "" {
      assert pre + s == s;
    } else {
      assert (pre + s)[1..] == pre[1..] + s;
      SkipSpaceTo(pre[1..], s);
    }
  }

  lemma {:induction false} SkipSpaceFrom(s: string) returns (i: nat)
    ensures i <= |s| && AllSpace(s[..i]) && SkipSpace(s) == s[i..] && (i < |s| ==> !IsSpace(s[i]))
  {
    if s != "" && IsSpace(s[0]) {
      var j := SkipSpaceFrom(s[1..]);
      i := j + 1;
      assert s[..i] == [s[0]] + s[1..][..j];
    } else {
      i := 0;
    }
  }

  lemma {:induction false} SkipBlankTo(pre: string, s: string)
    requires AllBlank(pre) && (s == "" || !IsBlank(s[0]))
    ensures SkipBlank(pre + s) == s
  {
    if pre == "" {
      assert pre + s == s;
    } else {
      assert (pre + s)[1..] == pre[1..] + s;
      SkipBlankTo(pre[1..], s);
    }
  }

  lemma {:induction false} FieldIsWord(word: string, rest: string)
    requires NoBlank(word) && (rest == "" || IsBlank(rest[0]))
    ensures Field(word + rest) == word && AfterField(word + rest) == rest
  {
    if word == "" {
      assert word + rest == rest;
    } else {
      assert (word + rest)[1..] == word[1..] + rest;
      FieldIsWord(word[1..], rest);
      assert word == [word[0]] + word[1..];
    }
  }

  /** $2 is the second word of a line, however far it is indented and whatever follows it; it is empty
      when there is only one. */
  lemma SecondFieldMeans(pre: string, first: string, gap: string, second: string, rest: string)
    requires AllBlank(pre) && AllBlank(gap) && NoBlank(first) && NoBlank(second) && first != "" && gap != ""
    requires (rest == "" || IsBlank(rest[0])) && (second == "" ==> rest == "")
    ensures SecondField(pre + (first + (gap + (second + rest)))) == second
  {
    SkipBlankTo(pre, first + (gap + (second + rest)));
    FieldIsWord(first, gap + (second + rest));
    SkipBlankTo(gap, second + rest);
    FieldIsWord(second, rest);
  }

  /** At position `i` of the line, behind nothing but white space, stands `word`. */
  predicate StartsAt(line: string, i: nat, word: string) {
    i + |word| <= |line| && AllSpace(line[..i]) && line[i..i + |word|] == word
  }

  lemma StartsWhere(line: string, i: nat, word: string)
    requires word != "" && !IsSpace(word[0])
    ensures StartsAt(line, i, word) ==> SkipSpace(line) == line[i..] && word <= SkipSpace(line)
  {
    if StartsAt(line, i, word) {
      assert line[i] == line[i..i + |word|][0];
      assert line == line[..i] + line[i..];
      SkipSpaceTo(line[..i], line[i..]);
      assert line[i..][..|word|] == word;
    }
  }

  lemma StartsSomewhere(line: string, word: string)
    requires word <= SkipSpace(line)
    ensures exists i: nat :: StartsAt(line, i, word) && SkipSpace(line) == line[i..]
  {
    var i := SkipSpaceFrom(line);
    assert line[i..i + |word|] == line[i..][..|word|];
    assert StartsAt(line, i, word);
  }

  predicate NameAtPosition(line: string, i: nat) {
    StartsAt(line, i, "Name:") && i + 5 < |line| && IsSpace(line[i + 5])
  }

  lemma NameLineHere(line: string, i: nat)
    requires NameAtPosition(line, i)
    ensures IsNameLine(line)
  {
    StartsWhere(line, i, NAME);
    hide SkipSpace, StartsAt;
    assert line[i..][5] == line[i + 5];
  }

  /** A Name line is one that has, behind white space only, "Name:" and a white space. */
  lemma NameLineMeans(line: string)
    ensures IsNameLine(line) <==> exists i: nat :: NameAtPosition(line, i)
  {
    if IsNameLine(line) {
      StartsSomewhere(line, NAME);
      hide SkipSpace;
      var i: nat :| StartsAt(line, i, NAME) && SkipSpace(line) == line[i..];
      assert line[i..][5] == line[i + 5];
      assert NameAtPosition(line, i);
    }
    if i: nat :| NameAtPosition(line, i) { NameLineHere(line, i); }
  }

  /** The text of an Arguments line that has "Arguments:" at `i` starts at `k`. */
  predicate TextFrom(line: string, i: nat, k: nat) {
    StartsAt(line, i, "Arguments:") && i + 10 <= k <= |line| && AllSpace(line[i + 10..k]) && (k < |line| ==> !IsSpace(line[k]))
  }

  /** An Arguments line is one that has, behind white space only, "Arguments:"; its text is the rest
      from the first character on that is no white space. */
  lemma ArgumentsLineMeans(line: string)
    ensures IsArgumentsLine(line) <==> exists i: nat :: StartsAt(line, i, "Arguments:")
    ensures IsArgumentsLine(line) ==> exists i, k: nat :: TextFrom(line, i, k) && ArgumentsText(line) == line[k..]
  {
    if i: nat :| StartsAt(line, i, "Arguments:") { StartsWhere(line, i, ARGUMENTS); }
    if IsArgumentsLine(line) {
      StartsSomewhere(line, ARGUMENTS);
      hide SkipSpace, StartsAt;
      var i: nat :| StartsAt(line, i, ARGUMENTS) && SkipSpace(line) == line[i..];
      TextStarts(line, i);
    }
  }

  lemma TextStarts(line: string, i: nat)
    requires StartsAt(line, i, "Arguments:") && SkipSpace(line) == line[i..] && IsArgumentsLine(line)
    ensures exists k: nat :: TextFrom(line, i, k) && ArgumentsText(line) == line[k..]
  {
    var rest := line[i + 10..];
    assert line[i..][10..] == rest;
    var j := SkipSpaceFrom(rest);
    hide SkipSpace, AllSpace;
    var k := i + 10 + j;
    assert rest[..j] == line[i + 10..k] && rest[j..] == line[k..];
    assert TextFrom(line, i, k);
  }

  // ---------- the scanner ----------

  /** The first Arguments line that stands under a Name line for `n`; `cur` is the current name. */
  function Scan(lines: seq<string>, n: string, cur: string): Option<string> {
    if lines == [] then None
    else
      var cur' := if IsNameLine(lines[0]) then SecondField(lines[0]) else cur;
      if IsArgumentsLine(lines[0]) && cur' == n then Some(ArgumentsText(lines[0]))
      else Scan(lines[1..], n, cur')
  }

  method AwkScan(lines: seq<string>, n: string) returns (args: Option<string>)
    ensures args == Scan(lines, n, "")
  {
    var cur := "";
    for i := 0 to |lines|
      invariant Scan(lines, n, "") == Scan(lines[i..], n, cur)
    {
      assert lines[i..][1..] == lines[i + 1..];
      if IsNameLine(lines[i]) { cur := SecondField(lines[i]); }
      if IsArgumentsLine(lines[i]) {
        if cur == n { return Some(ArgumentsText(lines[i])); }
      }
    }
    args := None;
  }

  /** The name in force at line `j`: that of the latest Name line up to there. Independently of any
      loop, scanning finds the text of the first Arguments line with `n` in force ... */
  function NameAt(lines: seq<string>, j: nat, start: string): string
    requires j < |lines|
  {
    if IsNameLine(lines[j]) then SecondField(lines[j]) else if j == 0 then start else NameAt(lines, j - 1, start)
  }

  ghost predicate Matches(lines: seq<string>, n: string, start: string, j: nat) {
    j < |lines| && IsArgumentsLine(lines[j]) && NameAt(lines, j, start) == n
  }

  lemma {:induction false} NameAtTail(lines: seq<string>, j: nat, start: string)
    requires 0 < j < |lines|
    ensures NameAt(lines, j, start) == NameAt(lines[1..], j - 1, if IsNameLine(lines[0]) then SecondField(lines[0]) else start)
    decreases j
  {
    if j == 1 || IsNameLine(lines[j]) {
    } else {
      NameAtTail(lines, j - 1, start);
    }
  }

  lemma MatchesTail(lines: seq<string>, n: string, start: string, j: nat)
    requires 0 < j < |lines|
    ensures Matches(lines, n, start, j)
       <==> Matches(lines[1..], n, if IsNameLine(lines[0]) then SecondField(lines[0]) else start, j - 1)
  {
    NameAtTail(lines, j, start);
  }

  lemma {:induction false} ScanFindsFirstMatch(lines: seq<string>, n: string, start: string, j: nat)
    requires Matches(lines, n, start, j) && forall i: nat | i < j :: !Matches(lines, n, start, i)
    ensures Scan(lines, n, start) == Some(ArgumentsText(lines[j]))
    decreases j
  {
    if j == 0 {
    } else {
      assert !Matches(lines, n, start, 0);
      var cur := if IsNameLine(lines[0]) then SecondField(lines[0]) else start;
      MatchesTail(lines, n, start, j);
      forall i: nat | i < j - 1 ensures !Matches(lines[1..], n, cur, i) {
        MatchesTail(lines, n, start, i + 1);
        assert !Matches(lines, n, start, i + 1);
      }
      ScanFindsFirstMatch(lines[1..], n, cur, j - 1);
    }
  }

  /** ... and finds nothing when there is no such line. */
  lemma {:induction false} ScanFindsNothingElse(lines: seq<string>, n: string, start: string)
    requires forall i: nat :: !Matches(lines, n, start, i)
    ensures Scan(lines, n, start) == None
  {
    if lines == [] {
    } else {
      assert !Matches(lines, n, start, 0);
      var cur := if IsNameLine(lines[0]) then SecondField(lines[0]) else start;
      forall i: nat ensures !Matches(lines[1..], n, cur, i) {
        if i + 1 < |lines| {
          MatchesTail(lines, n, start, i + 1);
          assert !Matches(lines, n, start, i + 1);
        }
      }
      ScanFindsNothingElse(lines[1..], n, cur);
    }
  }

  // ---------- the verdict ----------

  predicate Contains(s: string, part: string) {
    part <= s || (s != "" && Contains(s[1..], part))
  }

  /** `grep -q`: the part stands somewhere in the line. */
  lemma {:induction false} ContainsMeans(s: string, part: string)
    ensures Contains(s, part) <==> exists i, j :: 0 <= i <= j <= |s| && s[i..j] == part
  {
    if part <= s {
      assert s[0..|part|] == part;
    } else if s != "" {
      ContainsMeans(s[1..], part);
      if i, j :| 0 <= i <= j <= |s[1..]| && s[1..][i..j] == part {
        var k, m := i + 1, j + 1;
        assert s[k..m] == part;
      }
      if i, j :| 0 <= i <= j <= |s| && s[i..j] == part {
        var k, m := i - 1, j - 1;
        assert i > 0 && s[1..][k..m] == part;
      }
    }
  }

  /** Wherever a line has the part, before whatever and behind whatever, it contains it. */
  lemma ContainsInside(pre: string, part: string, post: string)
    ensures Contains(pre + (part + post), part)
  {
    var s := pre + (part + post);
    ContainsMeans(s, part);
    var i, j := |pre|, |pre| + |part|;
    assert s[i..j] == part;
  }

  function CountAt(s: string): nat {
    if s == "" then 0 else (if s[0] == '@' then 1 else 0) + CountAt(s[1..])
  }

  lemma {:induction false} CountAtMeans(s: string)
    ensures CountAt(s) == multiset(s)['@']
  {
    if s == "" {
    } else {
      CountAtMeans(s[1..]);
      assert s == [s[0]] + s[1..];
    }
  }

  /** check_probe: found, with some argument, and as many '@' as wanted. */
  predicate ProbeOk(lines: seq<string>, name: string, want: nat) {
    var args := Scan(lines, name, "");
    args.Some? && args.value != "" && CountAt(args.value) == want
  }

  const PROBES: seq<(string, nat)> :=
    [("lstm_xnn_cache__hit", 4), ("lstm_xnn_cache__miss", 4), ("lstm_xnn_cache__evict", 7)]

  function Failing(lines: seq<string>, probes: seq<(string, nat)>): nat {
    if probes == [] then 0
    else
      var last := probes[|probes| - 1];
      Failing(lines, probes[..|probes| - 1]) + (if ProbeOk(lines, last.0, last.1) then 0 else 1)
  }

  /** The failure counter is the number of failing probes. */
  lemma {:induction false} FailingCounts(lines: seq<string>, probes: seq<(string, nat)>)
    ensures Failing(lines, probes) == |set i | 0 <= i < |probes| && !ProbeOk(lines, probes[i].0, probes[i].1)|
  {
    hide ProbeOk;
    var all := set i | 0 <= i < |probes| && !ProbeOk(lines, probes[i].0, probes[i].1);
    if probes == [] {
      assert all == {};
    } else {
      var last := |probes| - 1;
      var init := probes[..last];
      FailingCounts(lines, init);
      var before := set i | 0 <= i < |init| && !ProbeOk(lines, init[i].0, init[i].1);
      assert all == before + if ProbeOk(lines, probes[last].0, probes[last].1) then {} else {last};
    }
  }

  predicate HasProvider(lines: seq<string>) {
    exists k | 0 <= k < |lines| :: Contains(lines[k], "Provider: etnp")
  }

  /** `--expect on`: the provider is named on some line, and the arities are 4, 4 and 7. */
  predicate Accepts(lines: seq<string>) {
    && HasProvider(lines)
    && ProbeOk(lines, "lstm_xnn_cache__hit", 4)
    && ProbeOk(lines, "lstm_xnn_cache__miss", 4)
    && ProbeOk(lines, "lstm_xnn_cache__evict", 7)
  }

  method Grep(lines: seq<string>, part: string) returns (found: bool)
    ensures found <==> exists k | 0 <= k < |lines| :: Contains(lines[k], part)
  {
    for i := 0 to |lines|
      invariant forall k | 0 <= k < i :: !Contains(lines[k], part)
    {
      if Contains(lines[i], part) { return true; }
    }
    found := false;
  }

  method TrCount(args: string) returns (got: nat)
    ensures got == CountAt(args)
  {
    got := 0;
    for i := 0 to |args|
      invariant got + CountAt(args[i..]) == CountAt(args)
    {
      assert args[i..][1..] == args[i + 1..];
      if args[i] == '@' { got := got + 1; }
    }
  }

  method CheckProbe(lines: seq<string>, name: string, want: nat) returns (ok: bool)
    ensures ok <==> ProbeOk(lines, name, want)
    ensures ok <==> var args := Scan(lines, name, ""); args.Some? && args.value != "" && multiset(args.value)['@'] == want
  {
    var args := AwkScan(lines, name);
    if args.None? || args.value == "" { return false; }
    var got := TrCount(args.value);
    CountAtMeans(args.value);
    ok := got == want;
  }

  /** The script after its arguments are parsed: exit code, and the failure counter. No failing
      probe ends the count early. */
  method Check(lines: seq<string>, expectOn: bool) returns (code: nat, fails: nat)
    ensures code == 0 || code == 1
    ensures !expectOn ==> (code == 0 <==> !exists k | 0 <= k < |lines| :: Contains(lines[k], "NT_STAPSDT"))
    ensures expectOn ==> (code == 0 <==> Accepts(lines))
    ensures expectOn && HasProvider(lines) ==> fails == Failing(lines, PROBES)
    ensures expectOn && HasProvider(lines) ==>
      fails == |set i | 0 <= i < |PROBES| && !ProbeOk(lines, PROBES[i].0, PROBES[i].1)|
  {
    fails := 0;
    if !expectOn {
      var present := Grep(lines, "NT_STAPSDT");
      return if present then 1 else 0, 0;
    }
    var provider := Grep(lines, "Provider: etnp");
    if !provider { return 1, 0; }
    for i := 0 to |PROBES|
      invariant fails == Failing(lines, PROBES[..i]) <= i
      invariant fails == 0 <==> forall k | 0 <= k < i :: ProbeOk(lines, PROBES[k].0, PROBES[k].1)
    {
      var ok := CheckProbe(lines, PROBES[i].0, PROBES[i].1);
      assert PROBES[..i + 1][..i] == PROBES[..i];
      if !ok { fails := fails + 1; }
    }
    assert PROBES[..|PROBES|] == PROBES;
    FailingCounts(lines, PROBES);
    assert PROBES[0].0 == "lstm_xnn_cache__hit" && PROBES[1].0 == "lstm_xnn_cache__miss"
        && PROBES[2].0 == "lstm_xnn_cache__evict";
    code := if fails == 0 then 0 else 1;
  }
}
