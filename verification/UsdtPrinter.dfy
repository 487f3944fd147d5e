/** Probe notes as readelf prints them, and what the scanner makes of them when lines are lost. */
module UsdtPrinter {
  import opened Values
  import opened UsdtNotes

  /** A note: lines that are neither Name nor Arguments lines around the two that matter. Either of
      the two can have been lost. */
  datatype Note = Note(before: seq<string>, name: string, between: seq<string>, args: seq<string>,
                       named: bool, argued: bool)

  const INDENT := "    "

  function Join(args: seq<string>): string {
    if args == [] then "" else if |args| == 1 then args[0] else args[0] + " " + Join(args[1..])
  }

  function NameLine(name: string): string { INDENT + (NAME + (" " + name)) }
  function ArgumentsLine(args: seq<string>): string { INDENT + (ARGUMENTS + (" " + Join(args))) }

  function Print(note: Note): seq<string> {
    note.before + (if note.named then [NameLine(note.name)] else []) + note.between
    + (if note.argued then [ArgumentsLine(note.args)] else [])
  }

  function PrintAll(notes: seq<Note>): seq<string> {
    if notes == [] then [] else Print(notes[0]) + PrintAll(notes[1..])
  }

  predicate Neutral(line: string) { !IsNameLine(line) && !IsArgumentsLine(line) }

  /** A name or argument as probes have them: no white space, at least one character. */
  predicate Word(s: string) { s != "" && forall i | 0 <= i < |s| :: !IsSpace(s[i]) }

  predicate WellFormed(note: Note) {
    && Word(note.name)
    && (forall i | 0 <= i < |note.before| :: Neutral(note.before[i]))
    && (forall i | 0 <= i < |note.between| :: Neutral(note.between[i]))
    && (forall i | 0 <= i < |note.args| :: Word(note.args[i]) && CountAt(note.args[i]) == 1)   // size@loc
  }

  predicate AllWellFormed(notes: seq<Note>) { forall i | 0 <= i < |notes| :: WellFormed(notes[i]) }

  // ---------- single lines ----------

  /** An indented word that is neither of the two the patterns start with makes a line Neutral. */
  lemma OtherLinesAreNeutral(pre: string, s: string)
    requires AllSpace(pre) && s != "" && !IsSpace(s[0]) && s[0] != NAME[0] && s[0] != ARGUMENTS[0]
    ensures Neutral(pre + s)
  {
    SkipSpaceTo(pre, s);
  }

  lemma NameLineReads(name: string)
    requires Word(name)
    ensures IsNameLine(NameLine(name)) && !IsArgumentsLine(NameLine(name)) && SecondField(NameLine(name)) == name
  {
    var tail := NAME + (" " + name);
    SkipSpaceTo(INDENT, tail);
    assert tail[..5] == NAME && tail[5] == ' ' && tail[0] == 'N' && ARGUMENTS[0] == 'A';
    assert name + "" == name;
    SecondFieldMeans(INDENT, NAME, " ", name, "");
  }

  lemma JoinStarts(args: seq<string>)
    requires forall i | 0 <= i < |args| :: Word(args[i])
    ensures Join(args) == "" || !IsSpace(Join(args)[0])
    ensures Join(args) == "" <==> args == []
  {
  }

  lemma ArgumentsTextReads(text: string)
    requires text == "" || !IsSpace(text[0])
    ensures
      var line := INDENT + (ARGUMENTS + (" " + text));
      IsArgumentsLine(line) && !IsNameLine(line) && ArgumentsText(line) == text
  {
    var tail := ARGUMENTS + (" " + text);
    SkipSpaceTo(INDENT, tail);
    assert tail[..|ARGUMENTS|] == ARGUMENTS && tail[|ARGUMENTS|..] == " " + text && tail[0] == 'A' && NAME[0] == 'N';
    SkipSpaceTo(" ", text);
  }

  lemma ArgumentsLineReads(args: seq<string>)
    requires forall i | 0 <= i < |args| :: Word(args[i])
    ensures IsArgumentsLine(ArgumentsLine(args)) && !IsNameLine(ArgumentsLine(args))
    ensures ArgumentsText(ArgumentsLine(args)) == Join(args)
  {
    JoinStarts(args);
    ArgumentsTextReads(Join(args));
  }

  lemma {:induction false} CountConcat(a: string, b: string)
    ensures CountAt(a + b) == CountAt(a) + CountAt(b)
  {
    if a == "" {
      assert a + b == b;
    } else {
      assert (a + b)[1..] == a[1..] + b;
      CountConcat(a[1..], b);
    }
  }

  /** The '@' count of a printed argument list is its number of arguments. */
  lemma {:induction false} JoinCounts(args: seq<string>)
    requires forall i | 0 <= i < |args| :: CountAt(args[i]) == 1
    ensures CountAt(Join(args)) == |args|
  {
    if |args| <= 1 {
    } else {
      JoinCounts(args[1..]);
      CountConcat(args[0] + " ", Join(args[1..]));
      CountConcat(args[0], " ");
      assert CountAt(" ") == 0;
    }
  }

  // ---------- whole outputs ----------

  lemma {:induction false} ScanNeutral(skipped: seq<string>, rest: seq<string>, p: string, cur: string)
    requires forall i | 0 <= i < |skipped| :: Neutral(skipped[i])
    ensures Scan(skipped + rest, p, cur) == Scan(rest, p, cur)
  {
    if skipped == [] {
      assert skipped + rest == rest;
    } else {
      assert (skipped + rest)[1..] == skipped[1..] + rest;
      assert Neutral(skipped[0]);
      ScanNeutral(skipped[1..], rest, p, cur);
    }
  }

  /** Whose arguments a probe is given: those of the first note with an Arguments line whose
      nearest Name line, in it or before it, names the probe. */
  function Attributed(notes: seq<Note>, p: string, cur: string): Option<seq<string>> {
    if notes == [] then None
    else
      var cur' := if notes[0].named then notes[0].name else cur;
      if notes[0].argued && cur' == p then Some(notes[0].args) else Attributed(notes[1..], p, cur')
  }

  lemma ScanNote(note: Note, rest: seq<string>, p: string, cur: string)
    requires WellFormed(note)
    ensures
      var cur' := if note.named then note.name else cur;
      Scan(Print(note) + rest, p, cur) ==
        if note.argued && cur' == p then Some(Join(note.args)) else Scan(rest, p, cur')
  {
    hide IsNameLine, IsArgumentsLine, SecondField, ArgumentsText, NameLine, ArgumentsLine, Join, Neutral, Word, CountAt;
    var cur' := if note.named then note.name else cur;
    var args := if note.argued then [ArgumentsLine(note.args)] else [];
    var name := if note.named then [NameLine(note.name)] else [];
    assert Print(note) + rest == note.before + (name + (note.between + (args + rest)));
    ScanNeutral(note.before, name + (note.between + (args + rest)), p, cur);
    NameLineReads(note.name);
    if note.named {
      assert (name + (note.between + (args + rest)))[1..] == note.between + (args + rest);
    } else {
      assert name + (note.between + (args + rest)) == note.between + (args + rest);
    }
    ScanNeutral(note.between, args + rest, p, cur');
    ArgumentsLineReads(note.args);
    if note.argued {
      assert (args + rest)[1..] == rest;
    } else {
      assert args + rest == rest;
    }
  }

  /** Scanning printed notes, whatever lines they lost, is attribution by the nearest name. */
  lemma {:induction false} ScanIsAttribution(notes: seq<Note>, p: string, cur: string)
    requires AllWellFormed(notes)
    ensures
      var found := Attributed(notes, p, cur);
      Scan(PrintAll(notes), p, cur) == if found.Some? then Some(Join(found.value)) else None
  {
    if notes == [] {
    } else {
      ScanNote(notes[0], PrintAll(notes[1..]), p, cur);
      ScanIsAttribution(notes[1..], p, if notes[0].named then notes[0].name else cur);
    }
  }

  /** The arguments of the first note that still has its name `p`. */
  function FirstNamed(notes: seq<Note>, p: string): Option<seq<string>> {
    if notes == [] then None
    else if notes[0].named && notes[0].name == p then Some(notes[0].args)
    else FirstNamed(notes[1..], p)
  }

  lemma {:induction false} AttributionIsFirst(notes: seq<Note>, p: string, cur: string)
    requires cur != p && forall i | 0 <= i < |notes| :: notes[i].argued
    ensures Attributed(notes, p, cur) == FirstNamed(notes, p)
  {
    if notes == [] || (notes[0].named && notes[0].name == p) {
    } else {
      AttributionIsFirst(notes[1..], p, if notes[0].named then notes[0].name else cur);
    }
  }

  /** The scanner inverts the printer, even when any number of Name lines are lost: every probe gets
      the arguments of the first note that still names it, and nothing if there is none. */
  lemma ScannerInvertsPrinter(notes: seq<Note>, p: string)
    requires AllWellFormed(notes) && p != "" && forall i | 0 <= i < |notes| :: notes[i].argued
    ensures
      var found := FirstNamed(notes, p);
      && Scan(PrintAll(notes), p, "") == (if found.Some? then Some(Join(found.value)) else None)
      && (found.Some? ==> CountAt(Join(found.value)) == |found.value|)
  {
    ScanIsAttribution(notes, p, "");
    AttributionIsFirst(notes, p, "");
    FirstIsWellFormed(notes, p);
    if FirstNamed(notes, p).Some? { JoinCounts(FirstNamed(notes, p).value); }
  }

  lemma {:induction false} FirstIsWellFormed(notes: seq<Note>, p: string)
    requires AllWellFormed(notes)
    ensures FirstNamed(notes, p).Some? ==>
      forall i | 0 <= i < |FirstNamed(notes, p).value| ::
        Word(FirstNamed(notes, p).value[i]) && CountAt(FirstNamed(notes, p).value[i]) == 1
  {
    if notes == [] {
    } else {
      assert WellFormed(notes[0]);
      FirstIsWellFormed(notes[1..], p);
    }
  }

  // ---------- lost names ----------

  function LoseName(notes: seq<Note>, i: nat): seq<Note>
    requires i < |notes|
  {
    notes[i := notes[i].(named := false)]
  }

  lemma {:induction false} FirstAfterLoss(notes: seq<Note>, i: nat, q: string)
    requires i < |notes|
    ensures q != notes[i].name ==> FirstNamed(LoseName(notes, i), q) == FirstNamed(notes, q)
    ensures q == notes[i].name && (forall j | 0 <= j < |notes| && j != i :: !(notes[j].named && notes[j].name == q))
        ==> FirstNamed(LoseName(notes, i), q) == None
  {
    var lost := LoseName(notes, i);
    if i == 0 {
      assert lost[1..] == notes[1..];
      if q == notes[0].name && forall j | 0 < j < |notes| :: !(notes[j].named && notes[j].name == q) {
        NoneNamed(notes[1..], q);
      }
    } else {
      assert lost[1..] == LoseName(notes[1..], i - 1);
      FirstAfterLoss(notes[1..], i - 1, q);
    }
  }

  lemma {:induction false} NoneNamed(notes: seq<Note>, q: string)
    requires forall j | 0 <= j < |notes| :: !(notes[j].named && notes[j].name == q)
    ensures FirstNamed(notes, q) == None
  {
    if notes == [] {
    } else {
      NoneNamed(notes[1..], q);
    }
  }

  /** Losing the Name line of note `i` changes what is found for no other probe, although its
      Arguments line now stands under the name before it; and its own probe is not found any
      more if no other note names it. */
  lemma LosingANameIsLocal(notes: seq<Note>, i: nat, q: string)
    requires AllWellFormed(notes) && q != "" && i < |notes| && forall j | 0 <= j < |notes| :: notes[j].argued
    ensures q != notes[i].name ==> Scan(PrintAll(LoseName(notes, i)), q, "") == Scan(PrintAll(notes), q, "")
    ensures q == notes[i].name && (forall j | 0 <= j < |notes| && j != i :: !(notes[j].named && notes[j].name == q))
        ==> Scan(PrintAll(LoseName(notes, i)), q, "") == None
  {
    ScannerInvertsPrinter(notes, q);
    ScannerInvertsPrinter(LoseName(notes, i), q);
    FirstAfterLoss(notes, i, q);
  }

  /** Every note's own Arguments line is what protects its neighbours: when note `a` lost its
      Arguments line and the note after it its Name line, `a` is given the other's arguments. */
  lemma LosingBothMisleads(a: Note, b: Note)
    requires WellFormed(a) && WellFormed(b) && a.named && !a.argued && !b.named && b.argued
    ensures Scan(PrintAll([a, b]), a.name, "") == Some(Join(b.args))
    ensures Scan(PrintAll([a]), a.name, "") == None
  {
    ScanIsAttribution([a, b], a.name, "");
    ScanIsAttribution([a], a.name, "");
  }

  // ---------- who is given foreign arguments ----------

  /** The name in force at note `j`: that of the latest note up to there that still has its Name line. */
  function InForce(notes: seq<Note>, j: nat, cur: string): string
    requires j < |notes|
  {
    if notes[j].named then notes[j].name else if j == 0 then cur else InForce(notes, j - 1, cur)
  }

  predicate Offers(notes: seq<Note>, p: string, cur: string, j: nat) {
    j < |notes| && notes[j].argued && InForce(notes, j, cur) == p
  }

  lemma {:induction false} InForceTail(notes: seq<Note>, j: nat, cur: string)
    requires 0 < j < |notes|
    ensures InForce(notes, j, cur) == InForce(notes[1..], j - 1, if notes[0].named then notes[0].name else cur)
    decreases j
  {
    if j == 1 || notes[j].named {
    } else {
      InForceTail(notes, j - 1, cur);
    }
  }

  /** Attribution gives the arguments of the first note that offers some under the name, or nothing. */
  lemma {:induction false} AttributionIsFirstOffer(notes: seq<Note>, p: string, cur: string)
    ensures match Attributed(notes, p, cur)
            case None => forall j :: 0 <= j < |notes| ==> !Offers(notes, p, cur, j)
            case Some(args) => exists j :: 0 <= j < |notes| && FirstOffer(notes, p, cur, j) && args == notes[j].args
  {
    if notes == [] {
    } else {
      var cur' := if notes[0].named then notes[0].name else cur;
      forall j | 0 < j < |notes| ensures Offers(notes, p, cur, j) <==> Offers(notes[1..], p, cur', j - 1) {
        InForceTail(notes, j, cur);
      }
      if Offers(notes, p, cur, 0) {
        assert FirstOffer(notes, p, cur, 0);
      } else {
        AttributionIsFirstOffer(notes[1..], p, cur');
        if Attributed(notes[1..], p, cur').Some? {
          var j :|
            && 0 <= j < |notes[1..]| && FirstOffer(notes[1..], p, cur', j)
            && Attributed(notes[1..], p, cur').value == notes[1..][j].args;
          assert FirstOffer(notes, p, cur, j + 1);
        }
      }
    }
  }

  ghost predicate FirstOffer(notes: seq<Note>, p: string, cur: string, j: nat) {
    Offers(notes, p, cur, j) && forall m: nat | m < j :: !Offers(notes, p, cur, m)
  }

  /** Note `i` names `p`, and no note after it up to `j` has a Name line. */
  predicate Governs(notes: seq<Note>, i: nat, j: nat, p: string) {
    i <= j < |notes| && notes[i].named && notes[i].name == p && forall m | i < m <= j :: !notes[m].named
  }

  /** The name in force at `j` is `p` exactly when some note up to `j` governs it. */
  lemma {:induction false} InForceMeans(notes: seq<Note>, j: nat, p: string)
    requires j < |notes| && p != ""
    ensures InForce(notes, j, "") == p <==> exists i :: 0 <= i <= j && Governs(notes, i, j, p)
    decreases j
  {
    if notes[j].named {
      if notes[j].name == p { assert Governs(notes, j, j, p); }
    } else if j == 0 {
    } else {
      var prev := j - 1;
      InForceMeans(notes, prev, p);
      if exists i :: 0 <= i <= prev && Governs(notes, i, prev, p) {
        var i :| 0 <= i <= prev && Governs(notes, i, prev, p);
        assert Governs(notes, i, j, p);
      }
      if exists i :: 0 <= i <= j && Governs(notes, i, j, p) {
        var i :| 0 <= i <= j && Governs(notes, i, j, p);
        assert Governs(notes, i, prev, p);
      }
    }
  }

  /** Note `i` is `p`'s own with both lines. */
  predicate Own(notes: seq<Note>, p: string, i: nat) {
    i < |notes| && notes[i].named && notes[i].name == p && notes[i].argued
  }

  /** Before any note of its own with both lines, a note of `p` lost its Arguments line, and the next
      Arguments line, with no Name line in between, is that of a note that lost its Name line. */
  predicate MisledAt(notes: seq<Note>, p: string, i: nat, j: nat) {
    && Governs(notes, i, j, p) && notes[j].argued && (forall m | i <= m < j :: !notes[m].argued)
    && forall m: nat | m < i :: !Own(notes, p, m)
  }

  ghost predicate Misled(notes: seq<Note>, p: string) {
    exists i, j :: 0 <= i < j < |notes| && MisledAt(notes, p, i, j)
  }

  /** Both are offers. */
  lemma OwnOffers(notes: seq<Note>, p: string)
    requires p != ""
    ensures forall j: nat | Own(notes, p, j) :: Offers(notes, p, "", j)
    ensures forall i: nat, j: nat | MisledAt(notes, p, i, j) :: Offers(notes, p, "", j)
  {
    forall i: nat, j: nat | MisledAt(notes, p, i, j) ensures Offers(notes, p, "", j) { InForceMeans(notes, j, p); }
  }

  /** Where the first offer is: in a note of the probe's own, or where the probe is misled. */
  lemma OfferIsOwnOrMisled(notes: seq<Note>, p: string, j: nat)
    requires p != "" && FirstOffer(notes, p, "", j)
    ensures notes[j].named <==> Own(notes, p, j)
    ensures notes[j].named ==> FirstOwn(notes, p, j) && !Misled(notes, p)
    ensures !notes[j].named ==> exists i :: 0 <= i < j && MisledAt(notes, p, i, j)
  {
    OwnOffers(notes, p);
    if !notes[j].named {
      InForceMeans(notes, j, p);
      var i :| 0 <= i <= j && Governs(notes, i, j, p);
      forall m | i <= m < j ensures !notes[m].argued {
        assert Governs(notes, i, m, p);
        InForceMeans(notes, m, p);
        assert !Offers(notes, p, "", m);
      }
      assert MisledAt(notes, p, i, j);
    }
  }

  /** The arguments of the first note of the probe's own that has both lines. */
  ghost predicate FirstOwn(notes: seq<Note>, p: string, j: nat) {
    Own(notes, p, j) && forall m: nat | m < j :: !Own(notes, p, m)
  }

  /** What scanning damaged notes gives, whatever Name and Arguments lines they lost: a probe that is
      misled is given the arguments of a note that lost its name, and any other probe those of its own
      first note with both lines, or nothing when it has none. So a probe is given foreign
      arguments exactly when it is misled. */
  lemma ScanIsOwnUnlessMisled(notes: seq<Note>, p: string)
    requires AllWellFormed(notes) && p != ""
    ensures
      var found := Scan(PrintAll(notes), p, "");
      if Misled(notes, p) then
        exists i, j :: 0 <= i < j < |notes| && MisledAt(notes, p, i, j) && !notes[j].named && found == Some(Join(notes[j].args))
      else if exists j :: 0 <= j < |notes| && Own(notes, p, j) then
        exists j :: 0 <= j < |notes| && FirstOwn(notes, p, j) && found == Some(Join(notes[j].args))
      else
        found == None
  {
    ScanIsAttribution(notes, p, "");
    AttributionIsFirstOffer(notes, p, "");
    match Attributed(notes, p, "")
    case None => NoOffer(notes, p);
    case Some(args) =>
      var j :| 0 <= j < |notes| && FirstOffer(notes, p, "", j) && args == notes[j].args;
      OfferIsOwnOrMisled(notes, p, j);
      if notes[j].named {
        assert FirstOwn(notes, p, j);
      } else {
        var i :| 0 <= i < j && MisledAt(notes, p, i, j);
        assert Misled(notes, p);
      }
  }

  lemma NoOffer(notes: seq<Note>, p: string)
    requires p != "" && forall j :: 0 <= j < |notes| ==> !Offers(notes, p, "", j)
    ensures !Misled(notes, p) && forall j :: 0 <= j < |notes| ==> !Own(notes, p, j)
  {
    OwnOffers(notes, p);
  }

  /** Losing any number of Arguments lines is harmless as long as every name stays. */
  lemma NamesProtect(notes: seq<Note>, p: string)
    requires forall j | 0 <= j < |notes| :: notes[j].named
    ensures !Misled(notes, p)
  {
  }

  // ---------- the verdict ----------

  lemma ProbeOkOnNotes(notes: seq<Note>, p: string, want: nat)
    requires AllWellFormed(notes) && p != "" && want > 0 && forall i | 0 <= i < |notes| :: notes[i].argued
    ensures ProbeOk(PrintAll(notes), p, want) <==> ArityIs(notes, p, want)
  {
    ScannerInvertsPrinter(notes, p);
    FirstIsWellFormed(notes, p);
    if FirstNamed(notes, p).Some? { JoinStarts(FirstNamed(notes, p).value); }
  }

  predicate ArityIs(notes: seq<Note>, p: string, want: nat) {
    FirstNamed(notes, p).Some? && |FirstNamed(notes, p).value| == want
  }

  /** The verdict on printed notes, damaged or not: the provider is named on some line, and the
      first notes that still name the three probes have 4, 4 and 7 arguments. */
  lemma VerdictOnNotes(notes: seq<Note>)
    requires AllWellFormed(notes) && forall i | 0 <= i < |notes| :: notes[i].argued
    ensures Accepts(PrintAll(notes)) <==>
      && HasProvider(PrintAll(notes))
      && ArityIs(notes, "lstm_xnn_cache__hit", 4)
      && ArityIs(notes, "lstm_xnn_cache__miss", 4)
      && ArityIs(notes, "lstm_xnn_cache__evict", 7)
  {
    ProbeOkOnNotes(notes, "lstm_xnn_cache__hit", 4);
    ProbeOkOnNotes(notes, "lstm_xnn_cache__miss", 4);
    ProbeOkOnNotes(notes, "lstm_xnn_cache__evict", 7);
  }

  // ---------- what readelf prints ----------

  /** A probe as it is in the binary. */
  datatype Probe = Probe(name: string, size: string, location: string, args: seq<string>)

  function Title(): string { "Displaying notes found in: .note.stapsdt" }
  function Columns(): string { "Owner                Data size \tDescription" }
  function Header(): seq<string> { [Title(), "  " + Columns()] }

  /** `readelf --notes`: the lines of one probe. */
  function Owner(): string { "stapsdt              " }
  function Descriptors(): string { " (SystemTap probe descriptors)" }
  function OwnerLine(size: string): string { "  " + (Owner() + (size + ("\t" + ("NT_STAPSDT" + Descriptors())))) }
  function ProviderLine(): string { INDENT + "Provider: etnp" }
  function LocationLine(location: string): string { INDENT + ("Location: " + location) }

  function NoteOf(p: Probe): Note {
    Note([OwnerLine(p.size), ProviderLine()], p.name, [LocationLine(p.location)], p.args, true, true)
  }

  function NotesOf(probes: seq<Probe>): seq<Note> {
    seq(|probes|, i requires 0 <= i < |probes| => NoteOf(probes[i]))
  }

  function Readelf(probes: seq<Probe>): seq<string> { Header() + PrintAll(NotesOf(probes)) }

  predicate IsProbe(p: Probe) { Word(p.name) && forall i | 0 <= i < |p.args| :: Word(p.args[i]) && CountAt(p.args[i]) == 1 }

  /** Owner, Provider and Location lines are neither Name nor Arguments lines. */
  lemma ReadelfLinesAreNeutral(size: string, location: string)
    ensures Neutral(OwnerLine(size)) && Neutral(ProviderLine()) && Neutral(LocationLine(location))
  {
    OtherLinesAreNeutral("  ", Owner() + (size + ("\t" + ("NT_STAPSDT" + Descriptors()))));
    OtherLinesAreNeutral(INDENT, "Provider: etnp");
    OtherLinesAreNeutral(INDENT, "Location: " + location);
  }

  lemma HeaderIsNeutral()
    ensures forall i | 0 <= i < |Header()| :: Neutral(Header()[i])
  {
    assert "" + Title() == Title();
    OtherLinesAreNeutral("", Title());
    OtherLinesAreNeutral("  ", Columns());
  }

  lemma ReadelfIsWellFormed(probes: seq<Probe>)
    requires forall i | 0 <= i < |probes| :: IsProbe(probes[i])
    ensures AllWellFormed(NotesOf(probes))
  {
    hide Neutral, OwnerLine, ProviderLine, LocationLine, Word, CountAt;
    forall i | 0 <= i < |probes| ensures WellFormed(NotesOf(probes)[i]) {
      assert NotesOf(probes)[i] == NoteOf(probes[i]) && IsProbe(probes[i]);
      ReadelfLinesAreNeutral(probes[i].size, probes[i].location);
    }
  }

  /** The first probe called `p` has `want` arguments. */
  ghost predicate FirstHas(probes: seq<Probe>, p: string, want: nat) {
    exists j :: 0 <= j < |probes| && probes[j].name == p && |probes[j].args| == want
             && forall m | 0 <= m < j :: probes[m].name != p
  }

  lemma {:induction false} FirstNamedProbe(probes: seq<Probe>, p: string, want: nat)
    ensures ArityIs(NotesOf(probes), p, want) <==> FirstHas(probes, p, want)
  {
    if probes == [] {
    } else {
      var rest := probes[1..];
      assert NotesOf(probes)[1..] == NotesOf(rest);
      FirstNamedProbe(rest, p, want);
      if probes[0].name != p {
        if FirstHas(rest, p, want) {
          var j :| 0 <= j < |rest| && rest[j].name == p && |rest[j].args| == want && forall m | 0 <= m < j :: rest[m].name != p;
          var k := j + 1;
          assert probes[k] == rest[j] && forall m | 0 < m < k :: probes[m] == rest[m - 1];
        }
        if FirstHas(probes, p, want) {
          var j :| 0 <= j < |probes| && probes[j].name == p && |probes[j].args| == want
               && forall m | 0 <= m < j :: probes[m].name != p;
          var k := j - 1;
          assert rest[k] == probes[j] && forall m | 0 <= m < k :: rest[m] == probes[m + 1];
        }
      }
    }
  }

  /** The lines of the first probe are there, behind the header. */
  lemma FirstNoteIsPrinted(probes: seq<Probe>)
    requires probes != []
    ensures |Readelf(probes)| > 3 && Readelf(probes)[2] == OwnerLine(probes[0].size) && Readelf(probes)[3] == ProviderLine()
  {
    var note := NoteOf(probes[0]);
    assert PrintAll(NotesOf(probes)) == Print(note) + PrintAll(NotesOf(probes)[1..]);
    assert Print(note)[0] == note.before[0] && Print(note)[1] == note.before[1];
  }

  /** The verdict on what readelf prints for a binary, whatever the probes in it are called, wherever
      they are and whatever arguments they have: `--expect on` accepts exactly when the first probes of
      the three names have 4, 4 and 7 arguments ... */
  lemma VerdictOnReadelf(probes: seq<Probe>)
    requires forall i | 0 <= i < |probes| :: IsProbe(probes[i])
    ensures Accepts(Readelf(probes)) <==>
      && FirstHas(probes, "lstm_xnn_cache__hit", 4)
      && FirstHas(probes, "lstm_xnn_cache__miss", 4)
      && FirstHas(probes, "lstm_xnn_cache__evict", 7)
  {
    var notes := NotesOf(probes);
    ReadelfIsWellFormed(probes);
    if probes != [] {
      FirstNoteIsPrinted(probes);
      ContainsInside(INDENT, "Provider: etnp", "");
      assert Contains(Readelf(probes)[3], "Provider: etnp");
    }
    HeaderIsSkipped(notes, "lstm_xnn_cache__hit", 4);
    HeaderIsSkipped(notes, "lstm_xnn_cache__miss", 4);
    HeaderIsSkipped(notes, "lstm_xnn_cache__evict", 7);
    FirstNamedProbe(probes, "lstm_xnn_cache__hit", 4);
    FirstNamedProbe(probes, "lstm_xnn_cache__miss", 4);
    FirstNamedProbe(probes, "lstm_xnn_cache__evict", 7);
  }

  lemma HeaderIsSkipped(notes: seq<Note>, p: string, want: nat)
    requires AllWellFormed(notes) && p != "" && want > 0 && forall i | 0 <= i < |notes| :: notes[i].argued
    ensures ProbeOk(Header() + PrintAll(notes), p, want) <==> ArityIs(notes, p, want)
  {
    hide Header, AllWellFormed, ArityIs;
    HeaderIsNeutral();
    ScanNeutral(Header(), PrintAll(notes), p, "");
    ProbeOkOnNotes(notes, p, want);
  }

  /** ... and `--expect off` exactly when there is none: the owner line of any probe gives it away. */
  lemma VerdictWithoutProbes(probes: seq<Probe>)
    ensures (exists k | 0 <= k < |Readelf(probes)| :: Contains(Readelf(probes)[k], "NT_STAPSDT")) <==> probes != []
  {
    hide Contains, OwnerLine, Title, Columns;
    if probes != [] {
      FirstNoteIsPrinted(probes);
      OwnerLineTells(probes[0].size);
    } else {
      assert Readelf(probes) == Header();
      HeaderTellsNothing();
    }
  }

  lemma OwnerLineTells(size: string)
    ensures Contains(OwnerLine(size), "NT_STAPSDT")
  {
    hide Owner, Descriptors, Contains;
    var pre := "  " + Owner() + size + "\t";
    ContainsInside(pre, "NT_STAPSDT", Descriptors());
    assert OwnerLine(size) == pre + ("NT_STAPSDT" + Descriptors());
  }

  lemma PlainTitle()
    ensures '_' !in Title()
  {
  }

  lemma PlainColumns()
    ensures '_' !in "  " + Columns()
  {
  }

  lemma HeaderTellsNothing()
    ensures !Contains(Header()[0], "NT_STAPSDT") && !Contains(Header()[1], "NT_STAPSDT")
  {
    PlainTitle();
    PlainColumns();
    hide Contains, Title, Columns;
    assert "NT_STAPSDT"[2] == '_';
    NotContained(Header()[0], "NT_STAPSDT", '_');
    NotContained(Header()[1], "NT_STAPSDT", '_');
  }

  lemma NotContained(s: string, part: string, c: char)
    requires c in part && c !in s
    ensures !Contains(s, part)
  {
    ContainsMeans(s, part);
  }
}
