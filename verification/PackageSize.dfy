/**
 Reading `git diff --numstat -z -M` and accounting for it (scripts/package-size.py:51-84, 107-176).
 Bytes and the text they decode to are one and the same here.
 */
module PackageSize {
  import opened Prelude

  const NUL: char := '\0'
  const TAB: char := '\t'

  datatype Change = Change(added: string, deleted: string, before: string, after: string)

  // ---------------------------------------------------------------- splitting

  function Split(s: string, sep: char): (parts: seq<string>)
    ensures parts != []
  {
    if s == "" then [""]
    else
      var rest := Split(s[1..], sep);
      if s[0] == sep then [""] + rest else [[s[0]] + rest[0]] + rest[1..]
  }

  lemma {:induction false} SplitWord(word: string, sep: char, rest: string)
    requires sep !in word
    ensures Split(word + [sep] + rest, sep) == [word] + Split(rest, sep)
    ensures Split(word, sep) == [word]
  {
    if word == "" {
      assert word + [sep] + rest == [sep] + rest;
      assert ([sep] + rest)[1..] == rest;
    } else {
      SplitWord(word[1..], sep, rest);
      assert (word + [sep] + rest)[1..] == word[1..] + [sep] + rest;
      assert [word[0]] + word[1..] == word;
    }
  }

  // ---------------------------------------------------------------- printing

  function Counts(c: Change): string { c.added + [TAB] + c.deleted + [TAB] }

  /** One record as git prints it; a rename leaves the path empty and gives both names after it. */
  function Printed(c: Change): string {
    if c.before == c.after then Counts(c) + c.before + [NUL]
    else Counts(c) + [NUL] + c.before + [NUL] + c.after + [NUL]
  }

  function Print(cs: seq<Change>): string {
    if cs == [] then "" else Printed(cs[0]) + Print(cs[1..])
  }

  predicate PlainWord(s: string) { TAB !in s && NUL !in s }

  /** What git can print: names are not empty, and an unrenamed path holds no TAB. */
  predicate Printable(c: Change) {
    && PlainWord(c.added) && PlainWord(c.deleted) && c.before != "" && c.after != ""
    && NUL !in c.before && NUL !in c.after
    && (c.before == c.after ==> TAB !in c.before)
  }

  // ---------------------------------------------------------------- parsing

  /** The records from part `i` on, or nothing when one is malformed. */
  function Parsed(parts: seq<string>, i: nat): Option<seq<Change>>
    requires i <= |parts|
    decreases |parts| - i
  {
    if i == |parts| then Some([])
    else if parts[i] == "" then Parsed(parts, i + 1)
    else
      var fields := Split(parts[i], TAB);
      if |fields| != 3 then None
      else if fields[2] != "" then Joined([Change(fields[0], fields[1], fields[2], fields[2])], Parsed(parts, i + 1))
      else if i + 2 >= |parts| then None
      else Joined([Change(fields[0], fields[1], parts[i + 1], parts[i + 2])], Parsed(parts, i + 3))
  }

  function Joined(cs: seq<Change>, rest: Option<seq<Change>>): Option<seq<Change>> {
    if rest.None? then None else Some(cs + rest.value)
  }

  lemma JoinedTwice(a: seq<Change>, b: seq<Change>, rest: Option<seq<Change>>)
    ensures Joined(a, Joined(b, rest)) == Joined(a + b, rest) && Joined([], rest) == rest
  {
    if rest.Some? {
      assert a + (b + rest.value) == a + b + rest.value;
      assert [] + rest.value == rest.value;
    }
  }

  /** `changes`: walks the parts with an index. */
  method Changes(output: string) returns (r: Option<seq<Change>>)
    ensures r == Parsed(Split(output, NUL), 0)
  {
    var parts := Split(output, NUL);
    var found: seq<Change> := [];
    var index := 0;
    JoinedTwice([], [], Parsed(parts, 0));
    while index < |parts|
      invariant index <= |parts|
      invariant Parsed(parts, 0) == Joined(found, Parsed(parts, index))
    {
      var record := parts[index];
      if record == "" {
        index := index + 1;
        continue;
      }
      var fields := Split(record, TAB);
      if |fields| != 3 { return None; }
      if fields[2] != "" {
        var c := Change(fields[0], fields[1], fields[2], fields[2]);
        JoinedTwice(found, [c], Parsed(parts, index + 1));
        found := found + [c];
        index := index + 1;
      } else {
        if index + 2 >= |parts| { return None; }
        var c := Change(fields[0], fields[1], parts[index + 1], parts[index + 2]);
        JoinedTwice(found, [c], Parsed(parts, index + 3));
        found := found + [c];
        index := index + 3;
      }
    }
    assert found + [] == found;
    r := Some(found);
  }

  /** Parsing depends only on the parts that are left. */
  lemma {:induction false} ParsedSuffix(front: seq<string>, back: seq<string>, i: nat)
    requires i <= |back|
    ensures Parsed(front + back, |front| + i) == Parsed(back, i)
    decreases |back| - i
  {
    if i < |back| {
      assert (front + back)[|front| + i] == back[i];
      ParsedSuffix(front, back, i + 1);
      if i + 2 < |back| {
        assert (front + back)[|front| + i + 1] == back[i + 1] && (front + back)[|front| + i + 2] == back[i + 2];
        ParsedSuffix(front, back, i + 3);
      }
    }
  }

  lemma FieldsOf(added: string, deleted: string, path: string)
    requires PlainWord(added) && PlainWord(deleted) && TAB !in path
    ensures Split(added + [TAB] + deleted + [TAB] + path, TAB) == [added, deleted, path]
  {
    SplitWord(path, TAB, "");
    SplitWord(deleted, TAB, path);
    SplitWord(added, TAB, deleted + [TAB] + path);
    assert added + [TAB] + (deleted + [TAB] + path) == added + [TAB] + deleted + [TAB] + path;
  }

  lemma PrintedParts(c: Change, rest: string)
    requires Printable(c)
    ensures Split(Printed(c) + rest, NUL) == Parts(c) + Split(rest, NUL)
  {
    hide Split;
    var counts := Counts(c);
    if c.before == c.after {
      SplitWord(counts + c.before, NUL, rest);
      assert counts + c.before + [NUL] + rest == Printed(c) + rest;
    } else {
      SplitThree(counts, c.before, c.after, rest);
      assert counts + [NUL] + c.before + [NUL] + c.after + [NUL] + rest == Printed(c) + rest;
    }
  }

  lemma SplitThree(a: string, b: string, c: string, rest: string)
    requires NUL !in a && NUL !in b && NUL !in c
    ensures Split(a + [NUL] + b + [NUL] + c + [NUL] + rest, NUL) == [a, b, c] + Split(rest, NUL)
  {
    hide Split;
    SplitWord(c, NUL, rest);
    SplitWord(b, NUL, c + [NUL] + rest);
    SplitWord(a, NUL, b + [NUL] + (c + [NUL] + rest));
    assert a + [NUL] + (b + [NUL] + (c + [NUL] + rest)) == a + [NUL] + b + [NUL] + c + [NUL] + rest;
  }

  function Parts(c: Change): seq<string> {
    if c.before == c.after then [Counts(c) + c.before] else [Counts(c), c.before, c.after]
  }

  lemma ParsedRecord(c: Change, back: seq<string>)
    requires Printable(c)
    ensures Parsed(Parts(c) + back, 0) == Joined([c], Parsed(back, 0))
  {
    var counts := Counts(c);
    ParsedSuffix(Parts(c), back, 0);
    if c.before == c.after {
      FieldsOf(c.added, c.deleted, c.before);
    } else {
      FieldsOf(c.added, c.deleted, "");
      assert counts + "" == counts;
    }
    assert (Parts(c) + back)[0] == Parts(c)[0] != "";
  }

  /** The parser inverts the printer, whatever follows parsing as it would alone. */
  lemma {:induction false} ParsesPrinted(cs: seq<Change>, rest: string)
    requires forall c <- cs :: Printable(c)
    ensures Parsed(Split(Print(cs) + rest, NUL), 0) == Joined(cs, Parsed(Split(rest, NUL), 0))
  {
    hide Parsed, Printable, Printed, Split;
    var tail := Parsed(Split(rest, NUL), 0);
    if cs == [] {
      assert Print(cs) + rest == rest;
      JoinedTwice([], [], tail);
    } else {
      var more := Print(cs[1..]) + rest;
      assert Print(cs) + rest == Printed(cs[0]) + more;
      PrintedParts(cs[0], more);
      ParsedRecord(cs[0], Split(more, NUL));
      ParsesPrinted(cs[1..], rest);
      JoinedTwice([cs[0]], cs[1..], tail);
      assert [cs[0]] + cs[1..] == cs;
    }
  }

  /** The round trip: every printable sequence of records is read back exactly. */
  lemma RoundTrip(cs: seq<Change>)
    requires forall c <- cs :: Printable(c)
    ensures Parsed(Split(Print(cs), NUL), 0) == Some(cs)
  {
    assert Parsed([""], 0) == Parsed([""], 1) == Some([]);
    assert Split("", NUL) == [""];
    hide Parsed, Printable, Split;
    ParsesPrinted(cs, "");
    assert Print(cs) + "" == Print(cs);
    assert cs + [] == cs;
  }

  // ---------------------------------------------------------------- truncated output

  /** How much of a record can be lost at its end and still be missed: all beyond this prefix. */
  function Needed(c: Change): nat { |Counts(c)| + if c.before == c.after then 0 else 1 + |c.before| }

  /** What a cut record is taken for: its last name is cut short, down to nothing for a rename. */
  function CutShort(c: Change, k: nat): Change
    requires Needed(c) < k < |Printed(c)|
  {
    if c.before == c.after then Change(c.added, c.deleted, c.before[..k - Needed(c)], c.before[..k - Needed(c)])
    else c.(after := c.after[..k - Needed(c) - 1])
  }

  /**
   Truncation, exactly, for output that ends inside any record at any point. It is rejected if and
   only if the cut comes before the last name begins; for a rename, if fewer than two NULs are left.
   Otherwise the last name is read cut short, and rightly only if nothing but the final NUL is lost.
   */
  lemma Truncated(cs: seq<Change>, c: Change, k: nat)
    requires (forall d <- cs :: Printable(d)) && Printable(c) && 0 < k < |Printed(c)|
    ensures var r := Parsed(Split(Print(cs) + Printed(c)[..k], NUL), 0);
      && (r.None? <==> k <= Needed(c))
      && (k > Needed(c) ==> r == Some(cs + [CutShort(c, k)]))
      && (r == Some(cs + [c]) <==> k == |Printed(c)| - 1)
    ensures c.before != c.after ==> (k <= Needed(c) <==> |Split(Printed(c)[..k], NUL)| < 3)
  {
    CutRecord(c, k);
    hide Parsed, Printable, Split;
    ParsesPrinted(cs, Printed(c)[..k]);
    if k > Needed(c) {
      assert CutShort(c, k) == c <==> k == |Printed(c)| - 1;
      assert (cs + [CutShort(c, k)])[|cs|] == CutShort(c, k) && (cs + [c])[|cs|] == c;
    }
  }

  /** One cut record by itself. */
  lemma CutRecord(c: Change, k: nat)
    requires Printable(c) && 0 < k < |Printed(c)|
    ensures Parsed(Split(Printed(c)[..k], NUL), 0) == if k <= Needed(c) then None else Some([CutShort(c, k)])
    ensures c.before != c.after ==> (k <= Needed(c) <==> |Split(Printed(c)[..k], NUL)| < 3)
  {
    var counts := Counts(c);
    if k <= |counts| {
      assert Printed(c)[..k] == counts[..k];
      CutCounts(c, k);
    } else if c.before == c.after {
      var name := c.before[..k - |counts|];
      assert Printed(c)[..k] == counts + name;
      SplitWord(counts + name, NUL, "");
      FieldsOf(c.added, c.deleted, name);
      hide Split;
      ParsedOne(counts + name, c.added, c.deleted, name);
    } else {
      FieldsOf(c.added, c.deleted, "");
      assert counts + "" == counts;
      CutNames(c, k);
    }
  }

  lemma ParsedOne(record: string, added: string, deleted: string, name: string)
    requires record != "" && name != "" && Split(record, TAB) == [added, deleted, name]
    ensures Parsed([record], 0) == Some([Change(added, deleted, name, name)])
  {
    var c := Change(added, deleted, name, name);
    assert Parsed([record], 1) == Some([]);
    assert [c] + [] == [c];
  }

  /** A cut inside the counts leaves no record with three fields and a name. */
  lemma CutCounts(c: Change, k: nat)
    requires Printable(c) && 0 < k <= |Counts(c)|
    ensures Split(Counts(c)[..k], NUL) == [Counts(c)[..k]] && Parsed([Counts(c)[..k]], 0) == None
  {
    var cut := Counts(c)[..k];
    SplitWord(cut, NUL, "");
    if k <= |c.added| {
      assert cut == c.added[..k];
      SplitWord(cut, TAB, "");
    } else if k < |Counts(c)| {
      var rest := c.deleted[..k - |c.added| - 1];
      assert cut == c.added + [TAB] + rest;
      SplitWord(rest, TAB, "");
      SplitWord(c.added, TAB, rest);
    } else {
      FieldsOf(c.added, c.deleted, "");
      assert Counts(c) + "" == Counts(c) == cut;
    }
    hide Split;
  }

  /** A cut inside or after the names of a rename. */
  lemma CutNames(c: Change, k: nat)
    requires Printable(c) && c.before != c.after && |Counts(c)| < k < |Printed(c)|
    requires Split(Counts(c), TAB) == [c.added, c.deleted, ""]
    ensures Parsed(Split(Printed(c)[..k], NUL), 0) == if k <= Needed(c) then None else Some([CutShort(c, k)])
    ensures k <= Needed(c) <==> |Split(Printed(c)[..k], NUL)| < 3
  {
    var counts := Counts(c);
    if k <= Needed(c) {
      var name := c.before[..k - |counts| - 1];
      assert Printed(c)[..k] == counts + [NUL] + name;
      SplitWord(name, NUL, "");
      SplitWord(counts, NUL, name);
      hide Split;
    } else {
      var name := c.after[..k - Needed(c) - 1];
      assert Printed(c)[..k] == counts + [NUL] + c.before + [NUL] + name;
      assert counts + [NUL] + (c.before + [NUL] + name) == counts + [NUL] + c.before + [NUL] + name;
      SplitWord(name, NUL, "");
      SplitWord(c.before, NUL, name);
      SplitWord(counts, NUL, c.before + [NUL] + name);
      hide Split;
      var parts := [counts, c.before, name];
      assert Split(Printed(c)[..k], NUL) == parts;
      assert Parsed(parts, 3) == Some([]);
      assert Parsed(parts, 0) == Joined([CutShort(c, k)], Some([]));
      assert [CutShort(c, k)] + [] == [CutShort(c, k)];
    }
  }

  // ---------------------------------------------------------------- accounting

  /** Which paths belong to the package, which to its support, and which renamed entries are the same. */
  datatype Scope = Scope(package: string -> bool, support: string -> bool, same: (string, string) -> bool)

  datatype Verdict = Counted(support: bool, gross: nat) | Unexplained

  function Digits(s: string): Option<nat> {
    if s == "" then None
    else if !('0' <= s[|s| - 1] <= '9') then None
    else
      var low := (s[|s| - 1] - '0') as nat;
      if |s| == 1 then Some(low)
      else
        var high := Digits(s[..|s| - 1]);
        if high.None? then None else Some(10 * high.value + low)
  }

  predicate Binary(c: Change) { c.added == "-" || c.deleted == "-" }

  /** How one change is accounted for; a count that is no number stops the report. */
  function Judged(s: Scope, c: Change): Option<Verdict> {
    if s.package(c.before) != s.package(c.after) || !s.package(c.before) || s.support(c.before) != s.support(c.after)
    then Some(Unexplained)
    else if Binary(c) then
      Some(if c.before != c.after && s.same(c.before, c.after) then Counted(s.support(c.before), 0) else Unexplained)
    else if Digits(c.added).None? || Digits(c.deleted).None? then None
    else Some(Counted(s.support(c.before), Digits(c.added).value + Digits(c.deleted).value))
  }

  /** The decimal digits of a number, as git prints them. */
  function Decimal(n: nat): string {
    if n < 10 then [('0' as int + n) as char] else Decimal(n / 10) + [('0' as int + n % 10) as char]
  }

  /** Printed counts are read back. */
  lemma {:induction false} DigitsRoundTrip(n: nat)
    ensures Digits(Decimal(n)) == Some(n) && Decimal(n) != ""
  {
    if n >= 10 {
      DigitsRoundTrip(n / 10);
      var s := Decimal(n);
      assert s[..|s| - 1] == Decimal(n / 10) && s[|s| - 1] == ('0' as int + n % 10) as char;
    }
  }

  /** A count is read if and only if it is made of digits. */
  lemma {:induction false} DigitsExactly(s: string)
    ensures Digits(s).Some? <==> s != "" && forall i :: 0 <= i < |s| ==> '0' <= s[i] <= '9'
  {
    if |s| > 1 { DigitsExactly(s[..|s| - 1]); }
  }

  /** Both names are in the package and on one side of the support line. */
  predicate Inside(s: Scope, c: Change) {
    s.package(c.before) && s.package(c.after) && (s.support(c.before) <==> s.support(c.after))
  }

  /** What keeps a change from being explained, and what stops the report. */
  lemma JudgedExactly(s: Scope, c: Change)
    ensures Judged(s, c) == Some(Unexplained) <==>
      !Inside(s, c) || (Binary(c) && !(c.before != c.after && s.same(c.before, c.after)))
    ensures Judged(s, c) == None <==>
      Inside(s, c) && !Binary(c) && (Digits(c.added).None? || Digits(c.deleted).None?)
    ensures Binary(c) <==> c.added == ['-'] || c.deleted == ['-']
  {}

  datatype Report = Report(production: nat, support: nat, files: seq<Verdict>, unexplained: nat)

  predicate Ok(r: Report) { r.unexplained == 0 }

  /** The lines a change adds and deletes; binary content has none. */
  function Gross(c: Change): nat {
    if Binary(c) || Digits(c.added).None? || Digits(c.deleted).None? then 0
    else Digits(c.added).value + Digits(c.deleted).value
  }

  function TotalGross(cs: seq<Change>): nat {
    if cs == [] then 0 else TotalGross(cs[..|cs| - 1]) + Gross(cs[|cs| - 1])
  }

  /** The gross lines of the changes on one side of the support line. */
  function ClassGross(s: Scope, cs: seq<Change>, support: bool): nat {
    if cs == [] then 0
    else
      ClassGross(s, cs[..|cs| - 1], support)
      + if s.support(cs[|cs| - 1].after) == support then Gross(cs[|cs| - 1]) else 0
  }

  /** Every line belongs to exactly one class. */
  lemma {:induction false} ClassesPartition(s: Scope, cs: seq<Change>)
    ensures ClassGross(s, cs, true) + ClassGross(s, cs, false) == TotalGross(cs)
  {
    if cs != [] { ClassesPartition(s, cs[..|cs| - 1]); }
  }

  /**
   `build_report`, the counting loop. The report is OK exactly when every change stays inside the
   package and its class and is no unexplained binary change; then nothing is lost or counted twice.
   */
  method Account(s: Scope, cs: seq<Change>) returns (r: Option<Report>)
    ensures r.None? <==> exists c <- cs ::
              Inside(s, c) && !Binary(c) && (Digits(c.added).None? || Digits(c.deleted).None?)
    ensures r.Some? ==> (Ok(r.value) <==> forall c <- cs ::
              Inside(s, c) && (Binary(c) ==> c.before != c.after && s.same(c.before, c.after)))
    ensures r.Some? && Ok(r.value) ==>
      && r.value.production == ClassGross(s, cs, false) && r.value.support == ClassGross(s, cs, true)
      && r.value.production + r.value.support == TotalGross(cs)
    ensures r.Some? ==> |r.value.files| + r.value.unexplained == |cs|
  {
    var report := Report(0, 0, [], 0);
    for i := 0 to |cs|
      invariant forall c <- cs[..i] :: Judged(s, c).Some?
      invariant Ok(report) <==> forall c <- cs[..i] :: Judged(s, c) != Some(Unexplained)
      invariant Ok(report) ==>
        && report.production == ClassGross(s, cs[..i], false) && report.support == ClassGross(s, cs[..i], true)
      invariant |report.files| + report.unexplained == i
    {
      assert cs[..i + 1] == cs[..i] + [cs[i]];
      var verdict := Judged(s, cs[i]);
      JudgedExactly(s, cs[i]);
      if verdict.None? { return None; }
      match verdict.value
      case Unexplained => report := report.(unexplained := report.unexplained + 1);
      case Counted(support, gross) =>
        report := report.(
          production := report.production + if support then 0 else gross,
          support := report.support + if support then gross else 0,
          files := report.files + [verdict.value]);
    }
    assert cs[..|cs|] == cs;
    ClassesPartition(s, cs);
    forall c <- cs ensures Judged(s, c) != Some(Unexplained) <==>
                             Inside(s, c) && (Binary(c) ==> c.before != c.after && s.same(c.before, c.after))
    {
      JudgedExactly(s, c);
    }
    r := Some(report);
  }
}
