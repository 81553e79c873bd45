/** Titles and base ids of headings: knowledge/internal/navigation.go `markdownHeadings` and `headingID`. */
module MarkdownTitles {
  import opened Text
  import opened Markdown
  import S = Slugs

  // ---- Titles -----------------------------------------------------------------------------------------------------

  predicate IsBlank(c: char) {
    c == ' ' || c == '\t'
  }

  function DropBlanks(s: string): (r: string) {
    if s != "" && IsBlank(s[0]) then DropBlanks(s[1..]) else s
  }

  function CutBlanks(s: string): (r: string)
    decreases |s|
  {
    if s != "" && IsBlank(s[|s| - 1]) then CutBlanks(s[..|s| - 1]) else s
  }

  /** A closing run of number signs goes, with the blanks before it, unless it is all there is. */
  function CutClosing(s: string): (r: string) {
    var t := TrimCharRight(s, '#');
    if |t| < |s| && t != "" && IsBlank(t[|t| - 1]) then CutBlanks(t) else s
  }

  /** The title of a heading line. */
  function Title(line: string): (title: string) {
    var t := TrimLineEnd(line);
    TrimSpace(CutClosing(CutBlanks(DropBlanks(t[RunLength(t, '#')..]))))
  }

  // ---- Base ids ---------------------------------------------------------------------------------------------------

  /** Letters and digits in lower case; any run of other characters after one of them is one dash. */
  function Dashed(s: string): (r: string)
    ensures S.DashesApart(r) && (r != "" ==> r[0] != '-')
    decreases |s|
  {
    if s == "" then "" else
      var front, c := Dashed(s[..|s| - 1]), S.Lower(s[|s| - 1]);
      if S.SlugChar(c) then front + [c]
      else if front != "" && front[|front| - 1] != '-' then front + ['-']
      else front
  }

  /** `headingID`; a title without letters and digits has the id its digest gives. */
  function HeadingId(title: string, digest: string -> string): (id: string) {
    var id := TrimChar(Dashed(title), '-');
    if id != "" then id else "heading-" + digest(title)
  }

  /** What a heading line is counted under. */
  function BaseOf(line: string, digest: string -> string): (id: string) {
    HeadingId(Title(line), digest)
  }

  lemma {:induction false} DashedHolds(s: string, i: nat)
    requires i < |s| && S.SlugChar(S.Lower(s[i]))
    ensures S.Lower(s[i]) in Dashed(s)
    decreases |s|
  {
    hide S.DashesApart, S.Lower;
    if i < |s| - 1 { DashedHolds(s[..|s| - 1], i); }
  }

  lemma {:induction false} OnlyDashes(s: string)
    requires forall i :: 0 <= i < |s| ==> !S.SlugChar(S.Lower(s[i]))
    ensures Dashed(s) == ""
    decreases |s|
  {
    if s != "" { OnlyDashes(s[..|s| - 1]); }
  }

  /** A base id has the shape of a slug, of any length, unless no character of the title is a letter or a digit. */
  lemma HeadingIdShape(title: string, digest: string -> string)
    ensures var id := HeadingId(title, digest);
            if exists i :: 0 <= i < |title| && S.SlugChar(S.Lower(title[i]))
            then id != "" && S.DashesApart(id) && id[0] != '-' && id[|id| - 1] != '-'
            else id == "heading-" + digest(title)
  {
    hide S.DashesApart, S.Lower;
    S.TrimKeepsApart(Dashed(title));
    if i :| 0 <= i < |title| && S.SlugChar(S.Lower(title[i])) {
      DashedHolds(title, i);
      TrimmedNotEmpty(Dashed(title), S.Lower(title[i]));
    } else {
      OnlyDashes(title);
    }
  }

  lemma {:induction false} TrimmedNotEmpty(s: string, c: char)
    requires c in s && c != '-' && s[0] != '-'
    ensures TrimChar(s, '-') != "" && TrimChar(s, '-')[0] == s[0]
  {
    assert TrimCharLeft(s, '-') == s;
    FrontStays(s);
  }

  lemma {:induction false} FrontStays(s: string)
    requires s != "" && s[0] != '-'
    ensures TrimCharRight(s, '-') != "" && TrimCharRight(s, '-')[0] == s[0]
    decreases |s|
  {
    if s[|s| - 1] == '-' { FrontStays(s[..|s| - 1]); }
  }

  /** `headingID`: a character is written as it comes, a dash only after something else than a dash. */
  method HeadingIdOf(title: string, digest: string -> string) returns (id: string)
    ensures id == HeadingId(title, digest)
  {
    hide S.Lower, S.DashesApart;
    var built := "";
    var lastDash := false;
    for i := 0 to |title|
      invariant built == Dashed(title[..i]) && (lastDash <==> built != "" && built[|built| - 1] == '-')
    {
      var c := S.Lower(title[i]);
      assert title[..i + 1][..i] == title[..i];
      if S.SlugChar(c) {
        built, lastDash := built + [c], false;
      } else if !lastDash && |built| > 0 {
        built, lastDash := built + ['-'], true;
      }
    }
    assert title[..|title|] == title;
    id := TrimChar(built, '-');
    if id == "" { id := "heading-" + digest(title); }
  }

  // ---- A text whose ids repeat ------------------------------------------------------------------------------------

  /** A heading line of one number sign and a blank, whose text starts and ends with something else. */
  lemma PlainTitle(line: string, text: string)
    requires TrimLineEnd(line) == "# " + text && text != "" && !IsSpace(text[0]) && !IsSpace(text[|text| - 1])
    requires text[|text| - 1] != '#'
    ensures Title(line) == text
  {
    hide TrimLineEnd, TrimSpace;
    var t := "# " + text;
    assert t[1..] == " " + text && t[1..][1..] == text;
    assert RunLength(t[1..], '#') == 0 && RunLength(t, '#') == 1;
    assert DropBlanks(t[1..]) == DropBlanks(text) == text && CutBlanks(text) == text;
    assert CutClosing(text) == text;
    NothingToTrim(text);
  }

  lemma NothingToTrim(s: string)
    requires s != "" && !IsSpace(s[0]) && !IsSpace(s[|s| - 1])
    ensures TrimSpace(s) == s
  {
    assert TrimLeft(s) == s;
  }

  lemma FirstBase(digest: string -> string)
    ensures BaseOf(First, digest) == "a"
  {
    hide TrimSpace, Title, S.DashesApart, TrimChar;
    assert First[..3] == "# a" && TrimLineEnd("# a") == "# a" && "# a" == "# " + "a";
    PlainTitle(First, "a");
    assert "a"[..0] == "" && Dashed("") == "" && Dashed("a") == "a";
    NoDashEnds("a");
  }

  lemma NoDashEnds(s: string)
    requires s != "" && s[0] != '-' && s[|s| - 1] != '-'
    ensures TrimChar(s, '-') == s
  {
  }

  lemma DashedTwo()
    ensures Dashed("a 2") == "a-2"
  {
    hide S.DashesApart;
    assert "a 2"[..2] == "a " && "a "[..1] == "a" && "a"[..0] == "";
    assert Dashed("") == "" && Dashed("a") == "a";
    assert Dashed("a ") == "a-";
  }

  lemma SecondBase(digest: string -> string)
    ensures BaseOf(Second, digest) == "a-2"
  {
    hide TrimSpace, Title, S.DashesApart, TrimChar, Dashed;
    assert Second[..5] == "# a 2" && TrimLineEnd("# a 2") == "# a 2" && "# a 2" == "# " + "a 2";
    PlainTitle(Second, "a 2");
    DashedTwo();
    NoDashEnds("a-2");
  }

  /** Ids are not unique: in the text "# a", "# a", "# a 2" the second and the third heading share one. */
  lemma TextRepeats(digest: string -> string)
    ensures var lines := Lines(Repeated); !DistinctIds(Headings(lines, |lines|, line => BaseOf(line, digest)))
  {
    FirstBase(digest);
    SecondBase(digest);
    hide BaseOf, First, Second, Repeated, Lines, Headings, DistinctIds;
    IdsRepeat(line => BaseOf(line, digest));
  }
}
