/**
  The section reader of knowledge/internal/navigation.go: headings outside fenced code, and the ranges of sections.

  The heading rule is the code's simplification of sections 4.2 and 4.5 of CommonMark 0.31.  What holds here holds
  whichever function turns a heading line into its base id; `MarkdownTitles` has the code's.  A text is a sequence of
  characters, and offsets count characters.
*/
module Markdown {
  import opened Core
  import opened Text

  // ---- Lines ------------------------------------------------------------------------------------------------------

  function NewlineAt(text: string): (i: nat)
    ensures i <= |text| && (i < |text| ==> text[i] == '\n') && forall j :: 0 <= j < i ==> text[j] != '\n'
  {
    if text == "" || text[0] == '\n' then 0 else 1 + NewlineAt(text[1..])
  }

  /** `strings.SplitAfter` on newlines. */
  function Lines(text: string): (r: seq<string>)
    ensures |r| >= 1
    decreases |text|
  {
    var i := NewlineAt(text);
    if i == |text| then [text] else [text[..i + 1]] + Lines(text[i + 1..])
  }

  /** Where line k starts. */
  function Offset(lines: seq<string>, k: nat): (n: nat)
    requires k <= |lines|
    decreases k
  {
    if k == 0 then 0 else Offset(lines, k - 1) + |lines[k - 1]|
  }

  predicate IsLineStart(text: string, o: nat) {
    o <= |text| && (o == 0 || text[o - 1] == '\n')
  }

  lemma {:induction false} OffsetOfTail(lines: seq<string>, k: nat)
    requires 1 <= k <= |lines|
    ensures Offset(lines, k) == |lines[0]| + Offset(lines[1..], k - 1)
    decreases k
  {
    if k > 1 { OffsetOfTail(lines, k - 1); }
  }

  /** Line k sits at its offset, which starts a line; every line but the last ends in a newline. */
  ghost predicate Tiles(text: string, lines: seq<string>, k: nat)
    requires k < |lines|
  {
    var o := Offset(lines, k);
    && o + |lines[k]| <= |text| && text[o..o + |lines[k]|] == lines[k] && IsLineStart(text, o)
    && (k < |lines| - 1 ==> lines[k] != "" && lines[k][|lines[k]| - 1] == '\n')
    && (k == |lines| - 1 ==> o + |lines[k]| == |text|)
  }

  lemma LinesUnfold(text: string)
    ensures Lines(text) == if NewlineAt(text) == |text| then [text]
                           else [text[..NewlineAt(text) + 1]] + Lines(text[NewlineAt(text) + 1..])
  {
    hide NewlineAt;
  }

  lemma FirstLine(text: string)
    ensures var i := NewlineAt(text);
            if i == |text| then Lines(text) == [text]
            else Lines(text) == [text[..i + 1]] + Lines(text[i + 1..]) && |Lines(text)| > 1
  {
    LinesUnfold(text);
    hide NewlineAt, Lines;
  }

  lemma FirstTiles(text: string)
    ensures Tiles(text, Lines(text), 0)
  {
    FirstLine(text);
    StartOfText(text);
    hide Lines, IsLineStart;
    var i, lines := NewlineAt(text), Lines(text);
    hide NewlineAt;
    var line := lines[0];
    assert line == if i == |text| then text else text[..i + 1];
    assert text[0..0 + |line|] == line;
  }

  lemma StartOfText(text: string)
    ensures IsLineStart(text, 0)
  {
  }

  lemma {:induction false} LinesTile(text: string, k: nat)
    requires k < |Lines(text)|
    ensures Tiles(text, Lines(text), k)
    decreases |text|
  {
    FirstTiles(text);
    FirstLine(text);
    hide Lines, NewlineAt, Tiles;
    if k > 0 {
      var i := NewlineAt(text);
      var rest := text[i + 1..];
      LinesTile(rest, k - 1);
      TailTiles(text, i + 1, Lines(text), Lines(rest), k);
    }
  }

  lemma TailTiles(text: string, n: nat, lines: seq<string>, rest: seq<string>, k: nat)
    requires 1 <= n <= |text| && lines == [text[..n]] + rest && 1 <= k < |lines| && text[n - 1] == '\n'
    requires Tiles(text[n..], rest, k - 1)
    ensures Tiles(text, lines, k)
  {
    assert lines[1..] == rest;
    OffsetOfTail(lines, k);
    ShiftedLine(text, n, Offset(rest, k - 1), lines[k]);
  }

  lemma ShiftedLine(text: string, n: nat, o: nat, line: string)
    requires n <= |text| && o + |line| <= |text[n..]| && text[n..][o..o + |line|] == line
    requires IsLineStart(text[n..], o) && IsLineStart(text, n)
    ensures text[n + o..n + o + |line|] == line && IsLineStart(text, n + o)
  {
    assert text[n + o..n + o + |line|] == text[n..][o..o + |line|];
  }

  // ---- Fences and headings ----------------------------------------------------------------------------------------

  datatype Fence = Closed | Open(marker: char, length: nat)

  function RunLength(line: string, c: char): (n: nat)
    ensures n <= |line|
  {
    if line == "" || line[0] != c then 0 else 1 + RunLength(line[1..], c)
  }

  /** `markdownFence` on a trimmed line. */
  function FenceOf(trimmed: string): (r: Option<(char, nat)>)
    ensures r.Some? ==> r.value.1 <= |trimmed|
  {
    if |trimmed| < 3 || (trimmed[0] != '`' && trimmed[0] != '~') then None
    else if RunLength(trimmed, trimmed[0]) >= 3 then Some((trimmed[0], RunLength(trimmed, trimmed[0])))
    else None
  }

  function StepFence(f: Fence, line: string): (r: Fence) {
    var trimmed := TrimSpace(line);
    match FenceOf(trimmed)
    case None => f
    case Some((marker, length)) =>
      if f.Closed? then Open(marker, length)
      else if marker == f.marker && length >= f.length && TrimSpace(trimmed[length..]) == "" then Closed
      else f
  }

  function FenceAfter(lines: seq<string>, k: nat): (f: Fence)
    requires k <= |lines|
    decreases k
  {
    if k == 0 then Closed else StepFence(FenceAfter(lines, k - 1), lines[k - 1])
  }

  function TrimLineEnd(line: string): (r: string)
    decreases |line|
  {
    if line != "" && (line[|line| - 1] == '\n' || line[|line| - 1] == '\r') then TrimLineEnd(line[..|line| - 1])
      else line
  }

  /** One to six number signs, a blank, and something more; 0 when the line is no heading. */
  function Level(line: string): (n: nat)
    ensures n <= 6
  {
    var t := TrimLineEnd(line);
    var n := RunLength(t, '#');
    if 1 <= n <= 6 && n + 2 <= |t| && (t[n] == ' ' || t[n] == '\t') then n else 0
  }

  datatype Heading = Heading(id: string, level: nat, start: nat)

  function CountBase(lines: seq<string>, k: nat, base: string -> string, id: string): (n: nat)
    requires k <= |lines|
    decreases k
  {
    if k == 0 then 0
    else CountBase(lines, k - 1, base, id) + if IsHeading(lines, k - 1) && base(lines[k - 1]) == id then 1 else 0
  }

  predicate IsHeading(lines: seq<string>, k: nat)
    requires k < |lines|
  {
    FenceAfter(lines, k + 1).Closed? && Level(lines[k]) > 0
  }

  function IdOf(base: string, count: nat): (id: string) {
    if count > 1 then base + "-" + Decimal(count) else base
  }

  function HeadingOf(lines: seq<string>, k: nat, base: string -> string): (h: Heading)
    requires k < |lines|
  {
    var id := base(lines[k]);
    Heading(IdOf(id, CountBase(lines, k, base, id) + 1), Level(lines[k]), Offset(lines, k))
  }

  /** The headings of the first k lines. */
  function Headings(lines: seq<string>, k: nat, base: string -> string): (r: seq<Heading>)
    requires k <= |lines|
    decreases k
  {
    if k == 0 then []
    else Headings(lines, k - 1, base) + if IsHeading(lines, k - 1) then [HeadingOf(lines, k - 1, base)] else []
  }

  lemma {:induction false} OffsetsRise(lines: seq<string>, j: nat, k: nat)
    requires j <= k <= |lines|
    ensures Offset(lines, j) <= Offset(lines, k)
    ensures j < k && lines[j] != "" ==> Offset(lines, j) < Offset(lines, k)
    decreases k
  {
    if j < k { OffsetsRise(lines, j, k - 1); }
  }

  ghost predicate Rising(hs: seq<Heading>) {
    forall i, j :: 0 <= i < j < |hs| ==> hs[i].start < hs[j].start
  }

  ghost predicate StartsAt(hs: seq<Heading>, o: nat) {
    exists i :: 0 <= i < |hs| && hs[i].start == o
  }

  lemma HeadingHasText(line: string)
    ensures Level(line) > 0 ==> line != ""
  {
  }

  /** The line a heading was read from. */
  lemma {:induction false} SourceLine(lines: seq<string>, k: nat, base: string -> string, i: nat) returns (j: nat)
    requires k <= |lines| && i < |Headings(lines, k, base)|
    ensures j < k && IsHeading(lines, j) && Headings(lines, k, base)[i] == HeadingOf(lines, j, base)
    decreases k
  {
    hide IsHeading, HeadingOf;
    if i < |Headings(lines, k - 1, base)| { j := SourceLine(lines, k - 1, base, i); } else { j := k - 1; }
  }

  /** Where the heading of a line is. */
  lemma {:induction false} HeadingAt(lines: seq<string>, k: nat, base: string -> string, j: nat) returns (i: nat)
    requires k <= |lines| && j < k && IsHeading(lines, j)
    ensures i < |Headings(lines, k, base)| && Headings(lines, k, base)[i] == HeadingOf(lines, j, base)
    decreases k
  {
    hide IsHeading, HeadingOf;
    if j < k - 1 { i := HeadingAt(lines, k - 1, base, j); } else { i := |Headings(lines, k - 1, base)|; }
  }

  lemma {:induction false} HeadingsRise(lines: seq<string>, k: nat, base: string -> string)
    requires k <= |lines|
    ensures Rising(Headings(lines, k, base))
    decreases k
  {
    hide Level, FenceAfter, CountBase, IdOf;
    if k > 0 {
      HeadingsRise(lines, k - 1, base);
      var front := Headings(lines, k - 1, base);
      forall i | 0 <= i < |front| ensures IsHeading(lines, k - 1) ==> front[i].start < Offset(lines, k - 1) {
        var j := SourceLine(lines, k - 1, base, i);
        HeadingHasText(lines[j]);
        OffsetsRise(lines, j, k - 1);
      }
      hide Offset;
    }
  }

  lemma HeadingStart(text: string, base: string -> string, i: nat)
    requires i < |Headings(Lines(text), |Lines(text)|, base)|
    ensures var h := Headings(Lines(text), |Lines(text)|, base)[i];
            IsLineStart(text, h.start) && 1 <= h.level <= 6
  {
    var j := SourceLine(Lines(text), |Lines(text)|, base, i);
    LinesTile(text, j);
    hide Lines, Headings, FenceAfter, CountBase, IdOf;
  }

  lemma HeadingHere(lines: seq<string>, base: string -> string, k: nat)
    requires k < |lines| && lines[k] != ""
    ensures IsHeading(lines, k) <==> StartsAt(Headings(lines, |lines|, base), Offset(lines, k))
  {
    hide Headings, Level, FenceAfter, CountBase, IdOf, Offset;
    var hs := Headings(lines, |lines|, base);
    if IsHeading(lines, k) { var i := HeadingAt(lines, |lines|, base, k); assert hs[i].start == Offset(lines, k); }
    if StartsAt(hs, Offset(lines, k)) {
      var i :| 0 <= i < |hs| && hs[i].start == Offset(lines, k);
      var j := SourceLine(lines, |lines|, base, i);
      HeadingHasText(lines[j]);
      if j < k { OffsetsRise(lines, j, k); } else { OffsetsRise(lines, k, j); }
    }
  }

  /**
    The headings of a text, in strictly increasing offsets, are exactly the lines outside any open fence that match the
    heading rule, and each starts a line.
  */
  lemma HeadingsMeaning(text: string, base: string -> string)
    ensures var lines := Lines(text);
            var hs := Headings(lines, |lines|, base);
            && Rising(hs)
            && (forall i :: 0 <= i < |hs| ==> IsLineStart(text, hs[i].start) && 1 <= hs[i].level <= 6)
            && (forall k :: 0 <= k < |lines| && lines[k] != "" ==>
                  (IsHeading(lines, k) <==> StartsAt(hs, Offset(lines, k))))
  {
    hide Lines, Headings, IsHeading, Rising, IsLineStart, StartsAt, Offset;
    var lines := Lines(text);
    var hs := Headings(lines, |lines|, base);
    HeadingsRise(lines, |lines|, base);
    forall i | 0 <= i < |hs| ensures IsLineStart(text, hs[i].start) && 1 <= hs[i].level <= 6 {
      HeadingStart(text, base, i);
    }
    forall k | 0 <= k < |lines| && lines[k] != "" ensures IsHeading(lines, k) <==> StartsAt(hs, Offset(lines, k)) {
      HeadingHere(lines, base, k);
    }
  }

  // ---- Sections ---------------------------------------------------------------------------------------------------

  /** A section ends at the first later heading of equal or higher rank, or with the text. */
  function SectionEnd(hs: seq<Heading>, level: nat, from: nat, size: nat): (e: nat)
    requires from <= |hs|
    decreases |hs| - from
  {
    if from == |hs| then size else if hs[from].level <= level then hs[from].start
      else SectionEnd(hs, level, from + 1, size)
  }

  lemma {:induction false} EndMeaning(hs: seq<Heading>, level: nat, from: nat, size: nat)
    requires from <= |hs|
    ensures var e := SectionEnd(hs, level, from, size);
            || (e == size && forall j :: from <= j < |hs| ==> hs[j].level > level)
            || (exists j :: from <= j < |hs| && e == hs[j].start && hs[j].level <= level
                            && forall m :: from <= m < j ==> hs[m].level > level)
    decreases |hs| - from
  {
    if from < |hs| && hs[from].level > level { EndMeaning(hs, level, from + 1, size); }
  }

  /** The ranges of two sections are nested or disjoint. */
  lemma SectionsNest(hs: seq<Heading>, i: nat, j: nat, size: nat)
    requires Rising(hs) && i < j < |hs| && forall k :: 0 <= k < |hs| ==> hs[k].start <= size
    ensures var a, b := SectionEnd(hs, hs[i].level, i + 1, size), SectionEnd(hs, hs[j].level, j + 1, size);
            hs[i].start < hs[j].start && (a <= hs[j].start || b <= a)
  {
    EndMeaning(hs, hs[i].level, i + 1, size);
    EndMeaning(hs, hs[j].level, j + 1, size);
  }

  // ---- Ids --------------------------------------------------------------------------------------------------------

  /** Which occurrence of its base the heading of line k is. */
  function Occurrence(lines: seq<string>, k: nat, base: string -> string): (n: nat)
    requires k < |lines|
  {
    CountBase(lines, k, base, base(lines[k])) + 1
  }

  lemma {:induction false} CountRises(lines: seq<string>, j: nat, k: nat, base: string -> string, id: string)
    requires j <= k <= |lines|
    ensures CountBase(lines, j, base, id) <= CountBase(lines, k, base, id)
    ensures j < k && IsHeading(lines, j) && base(lines[j]) == id ==>
              CountBase(lines, j, base, id) < CountBase(lines, k, base, id)
    decreases k
  {
    hide IsHeading;
    if j < k { CountRises(lines, j, k - 1, base, id); }
  }

  /** The heading that is the n-th of its base. */
  lemma {:induction false} NthOfBase(lines: seq<string>, k: nat, base: string -> string, id: string, n: nat)
      returns (j: nat)
    requires k <= |lines| && 1 <= n <= CountBase(lines, k, base, id)
    ensures j < k && IsHeading(lines, j) && base(lines[j]) == id && Occurrence(lines, j, base) == n
    decreases k
  {
    hide IsHeading;
    if n <= CountBase(lines, k - 1, base, id) { j := NthOfBase(lines, k - 1, base, id, n); } else { j := k - 1; }
  }

  /** The heading of line k takes the numbered id of another base, n times over or more. */
  ghost predicate ClashAt(lines: seq<string>, base: string -> string, j: nat, k: nat, n: nat) {
    && j < |lines| && IsHeading(lines, j) && k < |lines| && IsHeading(lines, k)
    && 2 <= n <= CountBase(lines, |lines|, base, base(lines[j]))
    && base(lines[k]) == base(lines[j]) + "-" + Decimal(n)
  }

  ghost predicate Clash(lines: seq<string>, base: string -> string) {
    exists j: nat, k: nat, n: nat :: ClashAt(lines, base, j, k, n)
  }

  ghost predicate DistinctIds(hs: seq<Heading>) {
    forall i, j :: 0 <= i < j < |hs| ==> hs[i].id != hs[j].id
  }

  function LineId(lines: seq<string>, k: nat, base: string -> string): (id: string)
    requires k < |lines|
  {
    IdOf(base(lines[k]), Occurrence(lines, k, base))
  }

  lemma LastDash(a: string, d: string, b: string, e: string)
    requires a + "-" + d == b + "-" + e
    requires (forall i :: 0 <= i < |d| ==> d[i] != '-') && (forall i :: 0 <= i < |e| ==> e[i] != '-')
    ensures a == b && d == e
  {
    var s, t := a + "-" + d, b + "-" + e;
    assert s[|a|] == '-' && t[|b|] == '-';
    assert forall i :: |a| < i < |s| ==> s[i] == d[i - |a| - 1];
    assert forall i :: |b| < i < |t| ==> t[i] == e[i - |b| - 1];
    assert |a| == |b|;
    assert s[..|a|] == a && t[..|b|] == b;
    assert s[|a| + 1..] == d && t[|b| + 1..] == e;
  }

  /** A numbered id splits at its last dash. */
  lemma NumberedSplits(a: string, m: nat, b: string, n: nat)
    requires a + "-" + Decimal(m) == b + "-" + Decimal(n)
    ensures a == b && m == n
  {
    LastDash(a, Decimal(m), b, Decimal(n));
    DecimalInjective(m, n);
  }

  /** Two headings share an id only if one is the first of its base and the other is numbered. */
  lemma SharedClashes(lines: seq<string>, j: nat, k: nat, base: string -> string)
    requires j < k < |lines| && IsHeading(lines, j) && IsHeading(lines, k)
    requires LineId(lines, j, base) == LineId(lines, k, base)
    ensures Clash(lines, base)
  {
    hide IsHeading, Decimal;
    var b, c := base(lines[j]), base(lines[k]);
    var m, n := Occurrence(lines, j, base), Occurrence(lines, k, base);
    CountRises(lines, j, |lines|, base, b);
    CountRises(lines, k, |lines|, base, c);
    CountRises(lines, j, k, base, b);
    hide CountBase;
    if m > 1 && n > 1 { NumberedSplits(b, m, c, n); }
    assert m > 1 || n > 1;
    if n == 1 {
      assert ClashAt(lines, base, j, k, m);
    } else {
      assert ClashAt(lines, base, k, j, n);
    }
  }

  lemma ClashShares(lines: seq<string>, base: string -> string, j: nat, k: nat, n: nat) returns (x: nat, y: nat)
    requires ClashAt(lines, base, j, k, n)
    ensures x < |lines| && IsHeading(lines, x) && y < |lines| && IsHeading(lines, y) && x != y
    ensures LineId(lines, x, base) == LineId(lines, y, base)
  {
    hide IsHeading, Decimal;
    var b, c := base(lines[j]), base(lines[k]);
    CountRises(lines, k, |lines|, base, c);
    x := NthOfBase(lines, |lines|, base, b, n);
    y := NthOfBase(lines, |lines|, base, c, 1);
    assert |c| > |b|;
  }

  /** Headings of different lines sit at different positions of the list. */
  lemma PositionsOf(lines: seq<string>, base: string -> string, x: nat, y: nat) returns (i: nat, j: nat)
    requires x < |lines| && IsHeading(lines, x) && y < |lines| && IsHeading(lines, y) && x != y
    ensures var hs := Headings(lines, |lines|, base);
            i < |hs| && j < |hs| && i != j && hs[i].id == LineId(lines, x, base) && hs[j].id == LineId(lines, y, base)
  {
    hide Headings, Level, FenceAfter, CountBase, IdOf, Offset;
    i := HeadingAt(lines, |lines|, base, x);
    j := HeadingAt(lines, |lines|, base, y);
    HeadingHasText(lines[x]);
    HeadingHasText(lines[y]);
    if x < y { OffsetsRise(lines, x, y); } else { OffsetsRise(lines, y, x); }
  }

  /**
    Exactly when the ids of a text are distinct: when no heading is named like the n-th repetition of another one that
    occurs n times or more.
  */
  lemma IdsDistinctExactly(lines: seq<string>, base: string -> string)
    ensures DistinctIds(Headings(lines, |lines|, base)) <==> !Clash(lines, base)
  {
    hide Headings, IsHeading, CountBase, IdOf, Decimal, ClashAt;
    var hs := Headings(lines, |lines|, base);
    if Clash(lines, base) {
      var j: nat, k: nat, n: nat :| ClashAt(lines, base, j, k, n);
      var x, y := ClashShares(lines, base, j, k, n);
      var i, m := PositionsOf(lines, base, x, y);
      hide Clash;
    } else {
      forall i, j | 0 <= i < j < |hs| ensures hs[i].id != hs[j].id {
        if hs[i].id == hs[j].id { EqualIdsClash(lines, base, i, j); }
        hide Clash;
      }
    }
  }

  lemma SameStart(lines: seq<string>, base: string -> string, x: nat, y: nat)
    requires x < |lines| && y < |lines| && HeadingOf(lines, x, base).start != HeadingOf(lines, y, base).start
    ensures x != y
  {
    hide Offset, IdOf, CountBase, Level;
  }

  lemma HeadingId(lines: seq<string>, base: string -> string, x: nat)
    requires x < |lines|
    ensures HeadingOf(lines, x, base).id == LineId(lines, x, base)
  {
    hide Offset, IdOf, CountBase, Level;
  }

  lemma EqualIdsClash(lines: seq<string>, base: string -> string, i: nat, j: nat)
    requires i < j < |Headings(lines, |lines|, base)|
    requires Headings(lines, |lines|, base)[i].id == Headings(lines, |lines|, base)[j].id
    ensures Clash(lines, base)
  {
    HeadingsRise(lines, |lines|, base);
    hide Headings, IsHeading, HeadingOf, LineId, Clash;
    var x := SourceLine(lines, |lines|, base, i);
    var y := SourceLine(lines, |lines|, base, j);
    HeadingId(lines, base, x);
    HeadingId(lines, base, y);
    SameStart(lines, base, x, y);
    if x < y { SharedClashes(lines, x, y, base); } else { SharedClashes(lines, y, x, base); }
  }

  lemma HashOpensNoFence(line: string)
    requires line != "" && line[0] == '#'
    ensures StepFence(Closed, line) == Closed
  {
    assert TrimLeft(line) == line;
    assert TrimSpace(line) == "" || TrimSpace(line)[0] == '#';
  }

  /** A line with the newline that ends it. */
  predicate OneLine(line: string) {
    line != "" && line[|line| - 1] == '\n' && forall i :: 0 <= i < |line| - 1 ==> line[i] != '\n'
  }

  lemma {:induction false} LineOf(line: string, rest: string)
    requires OneLine(line)
    ensures Lines(line + rest) == [line] + Lines(rest)
  {
    var text := line + rest;
    var i := NewlineAt(text);
    assert text[|line| - 1] == '\n';
    assert i == |line| - 1;
    assert text[..i + 1] == line && text[i + 1..] == rest;
  }

  const First: string := "# a\n"

  const Second: string := "# a 2\n"

  lemma FirstLevels()
    ensures Level(First) == 1 && Level(Second) == 1
  {
    assert First[..3] == "# a" && TrimLineEnd("# a") == "# a";
    assert Second[..5] == "# a 2" && TrimLineEnd("# a 2") == "# a 2";
    assert "# a"[1..] == " a" && "# a 2"[1..] == " a 2";
    assert RunLength(" a", '#') == 0 && RunLength(" a 2", '#') == 0;
  }

  const Repeated: string := First + (First + (Second + ""))

  lemma NoMoreLines()
    ensures Lines("") == [""]
  {
  }

  lemma RepeatedParts()
    ensures OneLine(First) && OneLine(Second) && Repeated == First + (First + (Second + ""))
  {
  }

  lemma RepeatedLines()
    ensures Lines(Repeated) == [First, First, Second, ""]
  {
    hide Lines, OneLine, Repeated, First, Second;
    RepeatedParts();
    LineOf(First, First + (Second + ""));
    LineOf(First, Second + "");
    LineOf(Second, "");
    NoMoreLines();
    assert [First] + ([First] + ([Second] + [""])) == [First, First, Second, ""];
  }

  lemma RepeatedHeadings(lines: seq<string>, base: string -> string)
    requires lines == [First, First, Second, ""] && base(First) == "a"
    ensures IsHeading(lines, 0) && IsHeading(lines, 2) && CountBase(lines, 2, base, "a") == 2
  {
    FirstLevels();
    HashOpensNoFence(First);
    HashOpensNoFence(Second);
    hide StepFence, Level;
    assert FenceAfter(lines, 1) == Closed && FenceAfter(lines, 2) == Closed && FenceAfter(lines, 3) == Closed;
  }

  lemma DashTwo()
    ensures "a" + "-" + Decimal(2) == "a-2"
  {
    assert Decimal(2) == "2";
  }

  lemma RepeatedClash(lines: seq<string>, base: string -> string)
    requires 3 <= |lines| && IsHeading(lines, 0) && IsHeading(lines, 2) && CountBase(lines, 2, base, "a") == 2
    requires base(lines[0]) == "a" && base(lines[2]) == "a-2"
    ensures Clash(lines, base)
  {
    CountRises(lines, 2, |lines|, base, "a");
    DashTwo();
    hide IsHeading, CountBase, Decimal;
    assert ClashAt(lines, base, 0, 2, 2);
  }

  /** Ids are not unique: a title that ends in a number takes the id of a repeated one. */
  lemma IdsRepeat(base: string -> string)
    requires base(First) == "a" && base(Second) == "a-2"
    ensures var lines := Lines(Repeated); !DistinctIds(Headings(lines, |lines|, base))
  {
    RepeatedLines();
    var lines := Lines(Repeated);
    RepeatedHeadings(lines, base);
    hide Lines, IsHeading, CountBase, Headings, First, Second, Repeated, Clash, DistinctIds;
    RepeatedClash(lines, base);
    IdsDistinctExactly(lines, base);
  }

  // ---- The loops --------------------------------------------------------------------------------------------------

  ghost predicate Counts(counts: map<string, nat>, lines: seq<string>, k: nat, base: string -> string)
    requires k <= |lines|
  {
    forall id :: Count(counts, id) == CountBase(lines, k, base, id)
  }

  function Count(counts: map<string, nat>, id: string): (n: nat) {
    if id in counts then counts[id] else 0
  }

  lemma CountsGrow(counts: map<string, nat>, lines: seq<string>, k: nat, base: string -> string)
    requires k < |lines| && Counts(counts, lines, k, base)
    ensures IsHeading(lines, k) ==>
              Counts(counts[base(lines[k]) := Count(counts, base(lines[k])) + 1], lines, k + 1, base)
    ensures !IsHeading(lines, k) ==> Counts(counts, lines, k + 1, base)
  {
    hide IsHeading;
    var id := base(lines[k]);
    var next := counts[id := Count(counts, id) + 1];
    forall x ensures Count(next, x) == Count(counts, x) + if x == id then 1 else 0 {}
    forall x
      ensures CountBase(lines, k + 1, base, x)
              == CountBase(lines, k, base, x) + if IsHeading(lines, k) && x == id then 1 else 0 {}
  }

  /** What the loop knows after k lines. */
  ghost predicate Progress(lines: seq<string>, k: nat, base: string -> string, hs: seq<Heading>, offset: nat,
                           fence: Fence, counts: map<string, nat>)
  {
    && k <= |lines| && hs == Headings(lines, k, base) && offset == Offset(lines, k) && fence == FenceAfter(lines, k)
    && Counts(counts, lines, k, base)
  }

  lemma ProgressStarts(lines: seq<string>, base: string -> string)
    ensures Progress(lines, 0, base, [], 0, Closed, map[])
  {
    NothingCounted(lines, base);
    Beginning(lines, base);
  }

  lemma ProgressEnds(lines: seq<string>, base: string -> string, hs: seq<Heading>, offset: nat, fence: Fence,
                     counts: map<string, nat>)
    requires Progress(lines, |lines|, base, hs, offset, fence, counts)
    ensures hs == Headings(lines, |lines|, base)
  {
  }

  lemma ProgressGrows(lines: seq<string>, k: nat, base: string -> string, hs: seq<Heading>, offset: nat, fence: Fence,
                      counts: map<string, nat>)
    requires k < |lines| && Progress(lines, k, base, hs, offset, fence, counts)
    ensures var next, id := StepFence(fence, lines[k]), base(lines[k]);
            if next.Closed? && Level(lines[k]) > 0
            then Progress(lines, k + 1, base, hs + [Heading(IdOf(id, Count(counts, id) + 1), Level(lines[k]), offset)],
                          offset + |lines[k]|, next, counts[id := Count(counts, id) + 1])
            else Progress(lines, k + 1, base, hs, offset + |lines[k]|, next, counts)
  {
    hide StepFence, Level, Counts, IdOf, CountBase, Count, Headings, FenceAfter, Offset, IsHeading;
    CountsGrow(counts, lines, k, base);
    CountOf(counts, lines, k, base, base(lines[k]));
    NextHeading(lines, k, base);
    assert hs + [] == hs;
  }

  /** `markdownHeadings`. */
  method MarkdownHeadings(text: string, base: string -> string) returns (hs: seq<Heading>)
    ensures hs == Headings(Lines(text), |Lines(text)|, base) && Rising(hs)
  {
    hide Lines, StepFence, Level, Rising, IdOf, Count, Headings, Progress;
    var lines := Lines(text);
    hs := [];
    var counts: map<string, nat> := map[];
    var offset: nat := 0;
    var fence := Closed;
    ProgressStarts(lines, base);
    for k := 0 to |lines|
      invariant Progress(lines, k, base, hs, offset, fence, counts)
    {
      var line := lines[k];
      ProgressGrows(lines, k, base, hs, offset, fence, counts);
      fence := StepFence(fence, line);
      if fence.Closed? && Level(line) > 0 {
        var heading;
        heading, counts := NumberHeading(line, base(line), offset, counts);
        hs := hs + [heading];
      }
      offset := offset + |line|;
    }
    ProgressEnds(lines, base, hs, offset, fence, counts);
    HeadingsRise(lines, |lines|, base);
  }

  method NumberHeading(line: string, id: string, offset: nat, counts0: map<string, nat>)
    returns (h: Heading, counts: map<string, nat>)
    ensures counts == counts0[id := Count(counts0, id) + 1]
    ensures h == Heading(IdOf(id, Count(counts0, id) + 1), Level(line), offset)
  {
    hide IdOf, Level;
    counts := counts0[id := Count(counts0, id) + 1];
    h := Heading(IdOf(id, counts[id]), Level(line), offset);
  }

  lemma Beginning(lines: seq<string>, base: string -> string)
    ensures Headings(lines, 0, base) == [] && FenceAfter(lines, 0) == Closed && Offset(lines, 0) == 0
  {
  }

  lemma NextHeading(lines: seq<string>, k: nat, base: string -> string)
    requires k < |lines|
    ensures Offset(lines, k + 1) == Offset(lines, k) + |lines[k]|
    ensures FenceAfter(lines, k + 1) == StepFence(FenceAfter(lines, k), lines[k])
    ensures IsHeading(lines, k) <==> FenceAfter(lines, k + 1).Closed? && Level(lines[k]) > 0
    ensures Headings(lines, k + 1, base) == Headings(lines, k, base) +
              if IsHeading(lines, k)
              then [Heading(IdOf(base(lines[k]), CountBase(lines, k, base, base(lines[k])) + 1), Level(lines[k]),
                            Offset(lines, k))]
              else []
  {
    hide StepFence, Level, CountBase, IdOf;
  }

  lemma NothingCounted(lines: seq<string>, base: string -> string)
    ensures Counts(map[], lines, 0, base)
  {
  }

  lemma CountOf(counts: map<string, nat>, lines: seq<string>, k: nat, base: string -> string, id: string)
    requires k <= |lines| && Counts(counts, lines, k, base)
    ensures Count(counts, id) == CountBase(lines, k, base, id)
  {
  }

  const MaxSectionBytes := 49152

  datatype Selected = Found(heading: Heading, body: string) | NotFound | TooLarge

  /** The text of the section of heading i. */
  function SectionText(text: string, hs: seq<Heading>, i: nat): (body: string)
    requires i < |hs| && hs[i].start <= SectionEnd(hs, hs[i].level, i + 1, |text|) <= |text|
  {
    TrimSpace(text[hs[i].start..SectionEnd(hs, hs[i].level, i + 1, |text|)])
  }

  /** The answer is the section of heading i, refused when it is too large. */
  ghost predicate Selects(r: Selected, text: string, hs: seq<Heading>, i: nat, bytes: string -> nat) {
    && i < |hs| && hs[i].start <= SectionEnd(hs, hs[i].level, i + 1, |text|) <= |text|
    && var body := SectionText(text, hs, i);
       r == if bytes(body) > MaxSectionBytes then TooLarge else Found(hs[i], body)
  }

  /** Heading i is the first one with this id. */
  ghost predicate IsFirst(hs: seq<Heading>, i: nat, id: string) {
    i < |hs| && hs[i].id == id && forall j :: 0 <= j < i ==> hs[j].id != id
  }

  /** `selectMarkdownSection`: the first heading with the id, and its range; `bytes` is the length of its encoding. */
  method SelectSection(text: string, wanted: string, base: string -> string, bytes: string -> nat) returns (r: Selected)
    ensures var hs := Headings(Lines(text), |Lines(text)|, base);
            && (r.NotFound? <==> TrimSpace(wanted) == "" || forall i :: 0 <= i < |hs| ==> hs[i].id != TrimSpace(wanted))
            && (!r.NotFound? ==> exists i: nat :: IsFirst(hs, i, TrimSpace(wanted)) && Selects(r, text, hs, i, bytes))
  {
    hide TrimSpace, Headings, Lines;
    var id := TrimSpace(wanted);
    if id == "" { return NotFound; }
    var hs := MarkdownHeadings(text, base);
    HeadingsMeaning(text, base);
    for i := 0 to |hs|
      invariant forall j :: 0 <= j < i ==> hs[j].id != id
    {
      if hs[i].id == id {
        EndMeaning(hs, hs[i].level, i + 1, |text|);
        var end := EndOfSection(hs, i, |text|);
        var body := TrimSpace(text[hs[i].start..end]);
        assert IsFirst(hs, i, id) && body == SectionText(text, hs, i);
        r := if bytes(body) > MaxSectionBytes then TooLarge else Found(hs[i], body);
        assert Selects(r, text, hs, i, bytes);
        return;
      }
    }
    return NotFound;
  }

  method EndOfSection(hs: seq<Heading>, i: nat, size: nat) returns (end: nat)
    requires i < |hs|
    ensures end == SectionEnd(hs, hs[i].level, i + 1, size)
  {
    var j := i + 1;
    while j < |hs| && hs[j].level > hs[i].level
      invariant i < j <= |hs|
      invariant SectionEnd(hs, hs[i].level, i + 1, size) == SectionEnd(hs, hs[i].level, j, size)
    {
      j := j + 1;
    }
    end := if j < |hs| then hs[j].start else size;
  }
}
