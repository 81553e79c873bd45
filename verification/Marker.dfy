/** Relay markers: board-relay/internal/marker.go, and the replay keys of board-relay/internal/service.go. */
module Marker {
  import opened Core
  import opened Text

  const Prefix := "<!-- den-board-relay:v1"
  const Close := "-->"

  datatype Marker = Marker(project: string, post: int, comment: int, parent: int)

  const NoMarker := Marker("", 0, 0, 0)

  // ---- Printing -------------------------------------------------------------------------------------------------

  function HexDigit(d: int): (c: char)
    requires 0 <= d < 16
  {
    if d < 10 then '0' + d as char else 'a' + (d - 10) as char
  }

  function Hex(n: int, digits: nat): (s: string)
    requires 0 <= n
    ensures forall i :: 0 <= i < |s| ==> '0' <= s[i] <= '9' || 'a' <= s[i] <= 'f'
  {
    if digits == 0 then "" else Hex(n / 16, digits - 1) + [HexDigit(n % 16)]
  }

  /** The characters beyond ASCII that the Unicode tables call printable.  Which they are is left open. */
  const PrintableBeyondAscii: set<char>

  /** `strconv.IsPrint`. */
  predicate Printable(c: char) {
    if c < '\U{80}' then ' ' <= c && c != '\U{7F}' else c in PrintableBeyondAscii
  }

  /** `%q` for one character. */
  function QuoteChar(c: char): (s: string)
    ensures PlainChar(c) ==> s == [c]
  {
    if c == '"' || c == '\\' then ['\\', c]
    else if Printable(c) then [c]
    else Escape(c)
  }

  function Escape(c: char): (s: string) {
    if c == '\U{07}' then "\\a"
    else if c == '\U{08}' then "\\b"
    else if c == '\t' then "\\t"
    else if c == '\n' then "\\n"
    else if c == '\U{0B}' then "\\v"
    else if c == '\U{0C}' then "\\f"
    else if c == '\r' then "\\r"
    else if c < ' ' || c == '\U{7F}' then "\\x" + Hex(c as int, 2)
    else if c < '\U{10000}' then "\\u" + Hex(c as int, 4)
    else "\\U" + Hex(c as int, 8)
  }

  predicate PlainChar(c: char) {
    c > ' ' && c != '"' && c != '\\' && Printable(c) && !IsSpace(c)
  }

  function QuoteBody(p: string): (s: string) {
    if p == [] then [] else QuoteChar(p[0]) + QuoteBody(p[1..])
  }

  function Quote(p: string): (s: string) {
    "\"" + QuoteBody(p) + "\""
  }

  /** A marker up to its closing arrow. */
  function MarkerWith(words: seq<string>): (s: string) {
    Prefix + ([' '] + (Join(words) + [' ']))
  }

  function PostWords(project: string, id: int): (ws: seq<string>) {
    ["project=" + Quote(project), "board-post=" + Decimal(id)]
  }

  function CommentWords(project: string, id: int, parent: Option<int>): (ws: seq<string>) {
    ["project=" + Quote(project), "board-comment=" + Decimal(id)]
    + match parent case None => [] case Some(q) => ["parent-comment=" + Decimal(q)]
  }

  function PostMarker(project: string, id: int): (s: string) {
    MarkerWith(PostWords(project, id)) + Close
  }

  function CommentMarker(project: string, id: int, parent: Option<int>): (s: string) {
    MarkerWith(CommentWords(project, id, parent)) + Close
  }

  /** An item's body as the relay exports it. */
  function Marked(body: string, marker: string): (s: string) {
    body + "\n\n" + marker
  }

  // ---- Parsing --------------------------------------------------------------------------------------------------

  /** The text between the first prefix and the first closing arrow after it. */
  function MarkerText(body: string): (r: Option<string>)
    ensures r.Some? ==> Prefix <= r.value
  {
    var start := Index(body, Prefix);
    if start < 0 then None else
      var end := Index(body[start..], Close);
      if end < 0 then None else
        CloseIsBeyondPrefix(body[start..], end);
        Some(body[start..start + end])
  }

  lemma CloseIsBeyondPrefix(s: string, end: int)
    requires Prefix <= s && OccursAt(s, Close, end)
    ensures end >= |Prefix|
  {
    var t := s[end..end + 3];
    assert t[2] == '>' && s[end + 2] == t[2];
    assert t[1] == '-' && s[end + 1] == t[1];
    assert forall i :: 0 <= i < |Prefix| ==> Prefix[i] == s[i] && Prefix[i] != '>';
    assert s[|Prefix| - 1] == Prefix[|Prefix| - 1] == '1';
    assert s[|Prefix| - 2] == Prefix[|Prefix| - 2] == 'v';
  }

  /** `strings.SplitN(field, "=", 2)` followed by the switch on the key. */
  function Fill(m: Marker, field: string): (r: Marker) {
    var eq := Index(field, "=");
    if eq < 0 then m else SetField(m, field[..eq], TrimChar(field[eq + 1..], '"'))
  }

  function SetField(m: Marker, key: string, value: string): (r: Marker) {
    match key
    case "project" => m.(project := value)
    case "board-post" => m.(post := ParseInt(value))
    case "board-comment" => m.(comment := ParseInt(value))
    case "parent-comment" => m.(parent := ParseInt(value))
    case _ => m
  }

  function FillAll(m: Marker, fields: seq<string>): (r: Marker)
    decreases |fields|
  {
    if fields == [] then m else FillAll(Fill(m, fields[0]), fields[1..])
  }

  lemma FieldsOfTwoWords(t: string)
    requires |t| >= 6 && t[..5] == "<!-- " && !IsSpace(t[5])
    ensures |Fields(t)| >= 2
  {
    var rest := t[5..];
    assert t == "<!--" + ([' '] + rest);
    FieldsWord("<!--", [' '] + rest);
    FieldsSpace(' ', rest);
    assert TrimLeft(rest) == rest;
    assert |Fields(rest)| >= 1;
  }

  /** Every located marker has the two words of the prefix, so dropping two fields is in range on any input. */
  lemma FieldsOfMarker(text: string)
    requires Prefix <= text
    ensures |Fields(TrimSpace(text))| >= 2
  {
    assert text[0] == Prefix[0] && !IsSpace(Prefix[0]);
    assert TrimLeft(text) == text;
    var t := TrimSpace(text);
    assert text[22] == Prefix[22] && !IsSpace(Prefix[22]);
    assert |t| >= 23 && t == text[..|t|];
    assert t[..5] == Prefix[..5] == "<!-- ";
    assert t[5] == Prefix[5] && !IsSpace(Prefix[5]);
    FieldsOfTwoWords(t);
  }

  /** `parseMarker` as a value. */
  function Parse(body: string): (r: (Marker, bool))
    ensures r.1 <==> r.0.project != ""
  {
    match MarkerText(body)
    case None => (NoMarker, false)
    case Some(text) =>
      FieldsOfMarker(text);
      var m := FillAll(NoMarker, Fields(TrimSpace(text))[2..]);
      (m, m.project != "")
  }

  method FillFields(fields: seq<string>) returns (m: Marker)
    ensures m == FillAll(NoMarker, fields)
  {
    m := NoMarker;
    for i := 0 to |fields|
      invariant FillAll(m, fields[i..]) == FillAll(NoMarker, fields)
    {
      FillStep(m, fields, i);
      m := Fill(m, fields[i]);
    }
  }

  lemma FillStep(m: Marker, fields: seq<string>, i: nat)
    requires i < |fields|
    ensures FillAll(m, fields[i..]) == FillAll(Fill(m, fields[i]), fields[i + 1..])
  {
    assert fields[i..][1..] == fields[i + 1..];
  }

  /** `parseMarker`: locate the marker, then fill the record field by field. */
  method ParseMarker(body: string) returns (m: Marker, marked: bool)
    ensures (m, marked) == Parse(body)
  {
    var start := Index(body, Prefix);
    if start < 0 { return NoMarker, false; }
    var end := Index(body[start..], Close);
    if end < 0 { return NoMarker, false; }
    CloseIsBeyondPrefix(body[start..], end);
    var text := body[start..start + end];
    assert MarkerText(body) == Some(text);
    FieldsOfMarker(text);
    m := FillFields(Fields(TrimSpace(text))[2..]);
    marked := m.project != "";
  }

  // ---- Round trip -----------------------------------------------------------------------------------------------

  /** Project ids that survive quoting, field splitting and the search for the closing arrow. */
  predicate Plain(p: string) {
    && p != ""
    && (forall i :: 0 <= i < |p| ==> PlainChar(p[i]))
    && !Contains(p, Close)
  }

  lemma {:induction false} PlainQuote(p: string)
    requires forall i :: 0 <= i < |p| ==> PlainChar(p[i])
    ensures QuoteBody(p) == p
    decreases |p|
  {
    if p != [] {
      PlainQuote(p[1..]);
      assert QuoteChar(p[0]) == [p[0]];
    }
  }

  lemma OccursCharacter(s: string, sub: string, i: int, k: nat)
    requires k < |sub|
    ensures OccursAt(s, sub, i) ==> s[i + k] == sub[k]
  {
    assert OccursAt(s, sub, i) ==> s[i..i + |sub|][k] == sub[k];
  }

  lemma NoEarlierMarker(body: string, prefix: string, marker: string, i: int)
    requires !Contains(body, prefix) && prefix != "" && forall j :: 0 <= j < |prefix| ==> prefix[j] != '\n'
    requires 0 <= i < |body| + 2
    ensures !OccursAt(Marked(body, marker), prefix, i)
  {
    var s := Marked(body, marker);
    if i + |prefix| <= |body| {
      assert s[i..i + |prefix|] == body[i..i + |prefix|];
      assert !OccursAt(body, prefix, i);
    } else {
      var k := if i <= |body| then |body| - i else 1 + |body| - i;
      assert s[i + k] == '\n';
      OccursCharacter(s, prefix, i, k);
    }
  }

  /** A marker appended to a body without one is the marker that the parser finds. */
  lemma Located(body: string, text: string)
    requires !Contains(body, Prefix)
    requires Prefix <= text
    requires forall i :: 0 <= i < |text| ==> !OccursAt(text + Close, Close, i)
    ensures MarkerText(Marked(body, text + Close)) == Some(text)
  {
    var s := Marked(body, text + Close);
    var at := |body| + 2;
    assert s[at..] == text + Close;
    assert s[at..at + |Prefix|] == text[..|Prefix|] == Prefix;
    forall i | 0 <= i < at ensures !OccursAt(s, Prefix, i) {
      hide OccursAt, Contains;
      NoEarlierMarker(body, Prefix, text + Close, i);
    }
    IndexIs(s, Prefix, at);
    assert (text + Close)[|text|..|text| + 3] == Close;
    IndexIs(s[at..], Close, |text|);
    assert s[at..at + |text|] == text;
  }

  const Word0 := "<!--"
  const Word1 := "den-board-relay:v1"

  lemma PrefixWords()
    ensures Prefix == Word0 + ([' '] + Word1)
  {
  }

  lemma RegroupWords(a: string, b: string, c: string)
    ensures a + ([' '] + (b + ([' '] + c))) == (a + ([' '] + b)) + ([' '] + c)
  {
  }

  lemma PrefixIsTwoWords(ws: seq<string>)
    requires ws != []
    ensures Join([Word0, Word1] + ws) == Prefix + ([' '] + Join(ws))
    ensures Prefix <= MarkerWith(ws)
  {
    JoinTwo(Word0, Word1, ws);
    PrefixWords();
    hide Prefix, Word0, Word1;
    RegroupWords(Word0, Word1, Join(ws));
    hide Join;
  }

  lemma JoinTwo(v: string, w: string, ws: seq<string>)
    requires ws != []
    ensures Join([v, w] + ws) == v + ([' '] + (w + ([' '] + Join(ws))))
  {
    var all := [v, w] + ws;
    assert all[1..] == [w] + ws && all[1..][1..] == ws;
  }

  lemma FixedWords()
    ensures Words([Word0, Word1])
    ensures NoBracket(Word0) && NoBracket(Word1)
  {
  }

  /** The fields of a printed marker are the words that were printed. */
  lemma MarkerFields(ws: seq<string>)
    requires Words(ws) && ws != []
    ensures Fields(TrimSpace(MarkerWith(ws))) == [Word0, Word1] + ws
  {
    var all := [Word0, Word1] + ws;
    FixedWords();
    PrefixIsTwoWords(ws);
    assert MarkerWith(ws) == Join(all) + [' '];
    JoinEnds(all);
    TrimOneSpace(Join(all));
    FieldsOfJoin(all);
  }

  predicate NoBracket(w: string) {
    forall i :: 0 <= i < |w| ==> w[i] != '>'
  }

  lemma NoBracketNoClose(w: string)
    requires NoBracket(w)
    ensures !Contains(w, Close)
  {
    forall i | 0 <= i <= |w| ensures !OccursAt(w, Close, i) {
      OccursCharacter(w, Close, i, 2);
      assert Close[2] == '>';
    }
  }

  /** A printed marker has no closing arrow before its own. */
  lemma CloseOnlyAtEnd(ws: seq<string>, i: int)
    requires Words(ws) && ws != [] && forall k :: 0 <= k < |ws| ==> !Contains(ws[k], Close)
    requires 0 <= i < |MarkerWith(ws)|
    ensures !OccursAt(MarkerWith(ws) + Close, Close, i)
  {
    var all := [Word0, Word1] + ws;
    FixedWords();
    NoBracketNoClose(Word0);
    NoBracketNoClose(Word1);
    PrefixIsTwoWords(ws);
    assert MarkerWith(ws) + Close == Join(all) + ([' '] + Close);
    JoinOccurs(all, Close, i);
    SpaceSplits(Join(all), Close, Close, i);
  }

  lemma PrintedLocated(body: string, ws: seq<string>)
    requires !Contains(body, Prefix)
    requires Words(ws) && ws != [] && forall k :: 0 <= k < |ws| ==> !Contains(ws[k], Close)
    ensures MarkerText(Marked(body, MarkerWith(ws) + Close)) == Some(MarkerWith(ws))
  {
    PrefixIsTwoWords(ws);
    forall i | 0 <= i < |MarkerWith(ws)| ensures !OccursAt(MarkerWith(ws) + Close, Close, i) {
      CloseOnlyAtEnd(ws, i);
    }
    Located(body, MarkerWith(ws));
  }

  /** Parsing a body with an appended marker fills a record from the printed words. */
  lemma ParsePrintedMarker(body: string, ws: seq<string>)
    requires !Contains(body, Prefix)
    requires Words(ws) && ws != [] && forall k :: 0 <= k < |ws| ==> !Contains(ws[k], Close)
    ensures Parse(Marked(body, MarkerWith(ws) + Close)).0 == FillAll(NoMarker, ws)
  {
    PrintedLocated(body, ws);
    MarkerFields(ws);
    assert ([Word0, Word1] + ws)[2..] == ws;
  }

  /** A field `key=value` splits at its first equals sign. */
  lemma SplitField(key: string, value: string)
    requires forall i :: 0 <= i < |key| ==> key[i] != '='
    ensures var f := key + "=" + value;
            Index(f, "=") == |key| && f[..|key|] == key && f[|key| + 1..] == value
  {
    var f := key + "=" + value;
    assert f[|key|..|key| + 1] == "=";
    forall i | 0 <= i < |key| ensures !OccursAt(f, "=", i) {
      assert f[i..i + 1] == [key[i]];
    }
    IndexIs(f, "=", |key|);
  }

  lemma TrimBoth(p: string, c: char)
    requires p != "" && p[0] != c && p[|p| - 1] != c
    ensures TrimChar([c] + p + [c], c) == p
  {
    var q := [c] + p + [c];
    var r := p + [c];
    assert q[1..] == r && q[0] == c;
    assert r[0] == p[0] && r[|r| - 1] == c && r[..|r| - 1] == p;
    assert TrimCharLeft(r, c) == r;
    assert TrimCharLeft(q, c) == r;
    assert TrimCharRight(p, c) == p;
  }

  lemma FillField(m: Marker, key: string, value: string)
    requires forall i :: 0 <= i < |key| ==> key[i] != '='
    ensures Fill(m, key + "=" + value) == SetField(m, key, TrimChar(value, '"'))
  {
    SplitField(key, value);
    hide Index, SetField, TrimChar;
  }

  lemma FillProject(m: Marker, p: string)
    requires Plain(p)
    ensures Fill(m, "project=" + Quote(p)) == m.(project := p)
  {
    hide Fill, TrimChar;
    PlainQuote(p);
    assert PlainChar(p[0]) && PlainChar(p[|p| - 1]);
    TrimBoth(p, '"');
    assert Quote(p) == ['"'] + p + ['"'];
    FillField(m, "project", Quote(p));
    assert "project=" == "project" + "=";
  }

  lemma DecimalValue(n: int)
    requires -TwoTo63 <= n < TwoTo63
    ensures ParseInt(TrimChar(Decimal(n), '"')) == n
  {
    ParsePrinted(n);
    var d := Decimal(n);
    assert d[0] != '"' && d[|d| - 1] != '"';
  }

  lemma FillPost(m: Marker, n: int)
    requires -TwoTo63 <= n < TwoTo63
    ensures Fill(m, "board-post=" + Decimal(n)) == m.(post := n)
  {
    hide Fill, TrimChar, ParseInt, Decimal;
    DecimalValue(n);
    FillField(m, "board-post", Decimal(n));
    assert "board-post=" == "board-post" + "=";
  }

  lemma FillComment(m: Marker, n: int)
    requires -TwoTo63 <= n < TwoTo63
    ensures Fill(m, "board-comment=" + Decimal(n)) == m.(comment := n)
  {
    hide Fill, TrimChar, ParseInt, Decimal;
    DecimalValue(n);
    FillField(m, "board-comment", Decimal(n));
    assert "board-comment=" == "board-comment" + "=";
  }

  lemma FillParent(m: Marker, n: int)
    requires -TwoTo63 <= n < TwoTo63
    ensures Fill(m, "parent-comment=" + Decimal(n)) == m.(parent := n)
  {
    hide Fill, TrimChar, ParseInt, Decimal;
    DecimalValue(n);
    FillField(m, "parent-comment", Decimal(n));
    assert "parent-comment=" == "parent-comment" + "=";
  }

  lemma DecimalIsWord(key: string, n: int)
    requires NoSpace(key) && key != ""
    ensures NoSpace(key + Decimal(n)) && key + Decimal(n) != ""
  {
    var d := Decimal(n);
    assert forall i :: 0 <= i < |d| ==> IsDigit(d[i]) || d[i] == '-';
  }

  lemma QuotedIsWord(p: string)
    requires Plain(p)
    ensures NoSpace("project=" + Quote(p)) && !Contains("project=" + Quote(p), Close)
  {
    PlainQuote(p);
    var a := "project=\"";
    var w := a + p + "\"";
    assert "project=" + Quote(p) == w;
    assert NoBracket(a);
    assert NoSpace(w) by { hide Contains, Quote, NoBracket; }
    hide Quote, QuoteBody, Contains;
    ArrowAround(a, p);
  }

  lemma ArrowAround(a: string, p: string)
    requires |a| >= 1 && a[|a| - 1] == '"' && NoBracket(a) && !Contains(p, Close)
    ensures !Contains(a + p + "\"", Close)
  {
    var w := a + p + "\"";
    forall i | 0 <= i <= |w| ensures !OccursAt(w, Close, i) {
      if i + 3 <= |w| {
        hide Contains;
        ArrowInside(a, p, i);
      }
    }
  }

  lemma ArrowInside(a: string, p: string, i: int)
    requires |a| >= 1 && a[|a| - 1] == '"' && NoBracket(a) && !Contains(p, Close)
    requires 0 <= i && i + 3 <= |a + p + "\""|
    ensures (a + p + "\"")[i..i + 3] != Close
  {
    var w := a + p + "\"";
    var j := i - |a|;
    assert w[i..i + 3] == [w[i], w[i + 1], w[i + 2]];
    assert w[|a| - 1] == '"';
    if 0 <= j && j + 3 <= |p| {
      assert w[i..i + 3] == p[j..j + 3];
      assert !OccursAt(p, Close, j);
    }
  }

  lemma PrintedWords(p: string, key: string, n: int)
    requires Plain(p) && key != "" && NoSpace(key) && NoBracket(key)
    ensures Words(["project=" + Quote(p), key + Decimal(n)])
    ensures !Contains("project=" + Quote(p), Close) && !Contains(key + Decimal(n), Close)
  {
    hide Contains, Decimal, Quote;
    QuotedIsWord(p);
    NumberWord(key, n);
  }

  lemma FillTwo(m: Marker, f: string, g: string)
    ensures FillAll(m, [f, g]) == Fill(Fill(m, f), g)
  {
    FillStep(m, [f, g], 0);
    FillStep(Fill(m, f), [f, g], 1);
    assert [f, g][0..] == [f, g] && [f, g][2..] == [];
  }

  lemma FillThree(m: Marker, f: string, g: string, h: string)
    ensures FillAll(m, [f, g, h]) == Fill(Fill(Fill(m, f), g), h)
  {
    FillStep(m, [f, g, h], 0);
    assert [f, g, h][1..] == [g, h] && [f, g, h][0..] == [f, g, h];
    FillTwo(Fill(m, f), g, h);
  }

  /** Parsing an exported post body gives back the project and the post id that were printed. */
  lemma PostRoundTrip(body: string, p: string, n: int)
    requires Plain(p) && !Contains(body, Prefix) && -TwoTo63 <= n < TwoTo63
    ensures Parse(Marked(body, PostMarker(p, n))) == (Marker(p, n, 0, 0), true)
  {
    hide Parse, Words, Contains, Fill, FillAll, Quote, Decimal;
    PrintedWords(p, "board-post=", n);
    ParsePrintedMarker(body, PostWords(p, n));
    FillTwo(NoMarker, "project=" + Quote(p), "board-post=" + Decimal(n));
    FillProject(NoMarker, p);
    FillPost(NoMarker.(project := p), n);
  }

  lemma RootCommentRoundTrip(body: string, p: string, n: int)
    requires Plain(p) && !Contains(body, Prefix) && -TwoTo63 <= n < TwoTo63
    ensures Parse(Marked(body, CommentMarker(p, n, None))) == (Marker(p, 0, n, 0), true)
  {
    var f, g := "project=" + Quote(p), "board-comment=" + Decimal(n);
    assert CommentWords(p, n, None) == [f, g];
    hide Parse, Words, Contains, Fill, FillAll, Quote, Decimal, Plain, CommentWords, MarkerWith, Marked, NoSpace;
    WordKey("board-comment=");
    PrintedWords(p, "board-comment=", n);
    ParsePrintedMarker(body, [f, g]);
    FillTwo(NoMarker, f, g);
    FillProject(NoMarker, p);
    FillComment(NoMarker.(project := p), n);
    PlainIsSome(p);
  }

  lemma WordKey(key: string)
    requires key == "board-comment=" || key == "parent-comment=" || key == "board-post="
    ensures key != "" && NoSpace(key) && NoBracket(key)
  {
  }

  lemma PlainIsSome(p: string)
    requires Plain(p)
    ensures p != ""
  {
    hide Contains;
  }

  lemma ThreeWords(f: string, g: string, h: string)
    requires Words([f, g]) && Words([f, h])
    requires !Contains(f, Close) && !Contains(g, Close) && !Contains(h, Close)
    ensures Words([f, g, h]) && forall k :: 0 <= k < 3 ==> !Contains([f, g, h][k], Close)
  {
    assert [f, g][0] == f && [f, g][1] == g && [f, h][1] == h;
  }

  lemma ReplyRoundTrip(body: string, p: string, n: int, q: int)
    requires Plain(p) && !Contains(body, Prefix) && -TwoTo63 <= n < TwoTo63 && -TwoTo63 <= q < TwoTo63
    ensures Parse(Marked(body, CommentMarker(p, n, Some(q)))) == (Marker(p, 0, n, q), true)
  {
    hide Parse, Words, Contains, Fill, FillAll, Quote, Decimal;
    PrintedWords(p, "board-comment=", n);
    PrintedWords(p, "parent-comment=", q);
    ThreeWords("project=" + Quote(p), "board-comment=" + Decimal(n), "parent-comment=" + Decimal(q));
    var ws := ["project=" + Quote(p), "board-comment=" + Decimal(n), "parent-comment=" + Decimal(q)];
    assert CommentWords(p, n, Some(q)) == ws;
    ParsePrintedMarker(body, ws);
    FillThree(NoMarker, ws[0], ws[1], ws[2]);
    FillProject(NoMarker, p);
    FillComment(NoMarker.(project := p), n);
    FillParent(Marker(p, 0, n, 0), q);
  }

  /** Parsing an exported comment body gives back the project, the comment id and the parent. */
  lemma CommentRoundTrip(body: string, p: string, n: int, parent: Option<int>)
    requires Plain(p) && !Contains(body, Prefix) && -TwoTo63 <= n < TwoTo63
    requires parent.Some? ==> -TwoTo63 <= parent.value < TwoTo63
    ensures Parse(Marked(body, CommentMarker(p, n, parent)))
            == (Marker(p, 0, n, if parent.Some? then parent.value else 0), true)
  {
    match parent
    case None => RootCommentRoundTrip(body, p, n);
    case Some(q) => ReplyRoundTrip(body, p, n, q);
  }

  // ---- Which project ids round trip -----------------------------------------------------------------------------

  /** What any parsed project looks like. */
  predicate Parseable(p: string) {
    NoSpace(p) && !Contains(p, Close)
  }

  lemma EmptyParseable()
    ensures Parseable("")
  {
    NoBracketNoClose("");
  }

  lemma NoSpaceTrimChar(s: string, c: char)
    requires NoSpace(s)
    ensures NoSpace(TrimChar(s, c))
  {
    var l := TrimCharLeft(s, c);
    assert NoSpace(l);
    assert TrimChar(s, c) == l[..|TrimCharRight(l, c)|];
  }

  lemma ParseableTail(s: string, from: nat)
    requires from <= |s| && Parseable(s)
    ensures Parseable(s[from..])
  {
    PartContains(s, from, |s|, Close);
    assert s[from..|s|] == s[from..];
  }

  lemma ParseableTrim(s: string, c: char)
    requires Parseable(s)
    ensures Parseable(TrimChar(s, c))
  {
    hide NoSpace, Contains, TrimChar;
    TrimCharContains(s, c, Close);
    NoSpaceTrimChar(s, c);
  }

  lemma FillParseable(m: Marker, field: string)
    requires Parseable(m.project) && Parseable(field)
    ensures Parseable(Fill(m, field).project)
  {
    hide Parseable, TrimChar, Contains;
    var eq := Index(field, "=");
    if eq >= 0 {
      ParseableTail(field, eq + 1);
      ParseableTrim(field[eq + 1..], '"');
    }
  }

  lemma {:induction false} FillAllParseable(m: Marker, fields: seq<string>)
    requires Parseable(m.project) && AllParseable(fields)
    ensures Parseable(FillAll(m, fields).project)
    decreases |fields|
  {
    hide Fill, Parseable;
    if fields != [] {
      FillParseable(m, fields[0]);
      FillAllParseable(Fill(m, fields[0]), fields[1..]);
    }
  }

  lemma MarkerTextHasNoClose(body: string)
    requires MarkerText(body).Some?
    ensures !Contains(MarkerText(body).value, Close)
  {
    var start := Index(body, Prefix);
    var rest := body[start..];
    var end := Index(rest, Close);
    var text := MarkerText(body).value;
    assert text == rest[..end];
    forall i | 0 <= i <= |text| ensures !OccursAt(text, Close, i) {
      if i + 3 <= |text| {
        assert !OccursAt(rest, Close, i);
        assert text[i..i + 3] == rest[i..i + 3];
      }
    }
  }

  predicate AllParseable(fs: seq<string>) {
    forall k :: 0 <= k < |fs| ==> Parseable(fs[k])
  }

  lemma FieldsParseable(t: string)
    requires !Contains(t, Close)
    ensures AllParseable(Fields(t))
  {
    FieldsContain(t, Close);
  }

  lemma AllParseableTail(fs: seq<string>, k: nat)
    requires AllParseable(fs) && k <= |fs|
    ensures AllParseable(fs[k..])
  {
  }

  lemma TextParseable(text: string, trimmed: string)
    requires trimmed == TrimSpace(text) && !Contains(text, Close)
    ensures AllParseable(Fields(trimmed))
  {
    TrimSpaceContains(text, Close);
    FieldsParseable(trimmed);
  }

  lemma ParsedProject(body: string)
    ensures Parseable(Parse(body).0.project)
  {
    EmptyParseable();
    var found := MarkerText(body);
    if found.Some? {
      MarkerTextHasNoClose(body);
      FieldsOfMarker(found.value);
      var trimmed := TrimSpace(found.value);
      TextParseable(found.value, trimmed);
      var fs := Fields(trimmed);
      AllParseableTail(fs, 2);
      FillAllParseable(NoMarker, fs[2..]);
      ParseFrom(body, found.value, fs[2..]);
    }
  }

  lemma ParseFrom(body: string, text: string, fs: seq<string>)
    requires MarkerText(body) == Some(text)
    requires |Fields(TrimSpace(text))| >= 2 && fs == Fields(TrimSpace(text))[2..]
    ensures Parse(body).0 == FillAll(NoMarker, fs)
  {
  }

  function Backslashes(s: string): (n: nat) {
    if s == [] then 0 else (if s[0] == '\\' then 1 else 0) + Backslashes(s[1..])
  }

  lemma {:induction false} BackslashesConcat(a: string, b: string)
    ensures Backslashes(a + b) == Backslashes(a) + Backslashes(b)
    decreases |a|
  {
    if a == [] {
      assert a + b == b;
    } else {
      assert (a + b)[1..] == a[1..] + b;
      BackslashesConcat(a[1..], b);
    }
  }

  lemma EscapeBackslashes(c: char)
    requires !IsSpace(c)
    ensures var e := QuoteChar(c);
            && NoSpace(e)
            && (PlainChar(c) ==> e == [c])
            && (!PlainChar(c) ==> e != "" && e[0] == '\\' && (forall i :: 0 <= i < |e| ==> e[i] != '-' && e[i] != '>'))
            && (c == '\\' ==> e == "\\\\")
  {
  }

  lemma QuoteCharCount(c: char)
    requires !IsSpace(c)
    ensures Backslashes(QuoteChar(c)) >= Backslashes([c])
    ensures !PlainChar(c) ==> Backslashes(QuoteChar(c)) > Backslashes([c])
  {
    EscapeBackslashes(c);
    var e := QuoteChar(c);
    assert [c][1..] == [];
    if c == '\\' {
      assert e[1..] == "\\" && e[1..][1..] == [];
    }
  }

  /** Quoting adds a backslash for every character that is not plain. */
  lemma {:induction false} QuoteCount(p: string)
    requires NoSpace(p)
    ensures NoSpace(QuoteBody(p))
    ensures Backslashes(QuoteBody(p)) >= Backslashes(p)
    ensures (exists i :: 0 <= i < |p| && !PlainChar(p[i])) ==> Backslashes(QuoteBody(p)) > Backslashes(p)
    decreases |p|
  {
    if p != [] {
      QuoteCount(p[1..]);
      QuoteCharCount(p[0]);
      EscapeBackslashes(p[0]);
      BackslashesConcat(QuoteChar(p[0]), QuoteBody(p[1..]));
      if i :| 0 <= i < |p| && !PlainChar(p[i]) && i > 0 { assert p[1..][i - 1] == p[i]; }
    }
  }

  /** A dash or bracket in a quoted string stands for itself. */
  lemma {:induction false} QuoteKeepsArrow(p: string, i: int)
    requires NoSpace(p) && OccursAt(QuoteBody(p), Close, i)
    ensures Contains(p, Close)
    decreases |p|
  {
    hide OccursAt, Contains, NoSpace, QuoteChar;
    EmptyHasNoArrow(i);
    var e, rest := QuoteChar(p[0]), QuoteBody(p[1..]);
    if i >= |e| {
      NoSpaceTail(p);
      OccursInTail(e, rest, Close, i);
      QuoteKeepsArrow(p[1..], i - |e|);
      TailContains(p);
    } else {
      ArrowAtHead(p, i);
    }
  }

  lemma EmptyHasNoArrow(i: int)
    ensures !OccursAt("", Close, i)
  {
  }

  lemma NoSpaceTail(p: string)
    requires NoSpace(p) && p != ""
    ensures NoSpace(p[1..])
  {
  }

  lemma OccursInTail(a: string, b: string, sub: string, i: int)
    requires OccursAt(a + b, sub, i) && i >= |a|
    ensures OccursAt(b, sub, i - |a|)
  {
    assert (a + b)[i..i + |sub|] == b[i - |a|..i - |a| + |sub|];
  }

  lemma TailContains(p: string)
    requires p != "" && Contains(p[1..], Close)
    ensures Contains(p, Close)
  {
    var k :| 0 <= k <= |p[1..]| && OccursAt(p[1..], Close, k);
    assert p[k + 1..k + 4] == p[1..][k..k + 3];
    assert OccursAt(p, Close, k + 1);
  }

  lemma ArrowAtHead(p: string, i: int)
    requires NoSpace(p) && p != "" && OccursAt(QuoteBody(p), Close, i) && i < |QuoteChar(p[0])|
    ensures Contains(p, Close)
  {
    var q, e := QuoteBody(p), QuoteChar(p[0]);
    EscapeBackslashes(p[0]);
    assert q[i..i + 3][0] == q[i] && q[i..i + 3][1] == q[i + 1] && q[i..i + 3][2] == q[i + 2];
    assert q[i] == e[i];
    assert e == [p[0]] && p[0] == '-';
    QuoteNext(p[1..], 0, '-');
    QuoteNext(p[2..], 0, '>');
    assert p[0..3] == Close;
    assert OccursAt(p, Close, 0);
  }

  /** A dash or bracket at the head of a quoted string is the head of the string. */
  lemma QuoteNext(p: string, i: int, c: char)
    requires NoSpace(p) && i == 0 && |QuoteBody(p)| > 0 && QuoteBody(p)[0] == c && (c == '-' || c == '>')
    ensures p != "" && p[0] == c && QuoteBody(p) == [c] + QuoteBody(p[1..])
  {
    EscapeBackslashes(p[0]);
  }

  lemma {:induction false} TrimQuotesKeepsBackslashes(s: string)
    ensures Backslashes(TrimChar(s, '"')) == Backslashes(s)
  {
    TrimLeftBackslashes(s);
    TrimRightBackslashes(TrimCharLeft(s, '"'));
  }

  lemma {:induction false} TrimLeftBackslashes(s: string)
    ensures Backslashes(TrimCharLeft(s, '"')) == Backslashes(s)
    decreases |s|
  {
    if s != [] && s[0] == '"' { TrimLeftBackslashes(s[1..]); }
  }

  lemma {:induction false} TrimRightBackslashes(s: string)
    ensures Backslashes(TrimCharRight(s, '"')) == Backslashes(s)
    decreases |s|
  {
    if s != [] && s[|s| - 1] == '"' {
      TrimRightBackslashes(s[..|s| - 1]);
      assert s == s[..|s| - 1] + ['"'];
      BackslashesConcat(s[..|s| - 1], ['"']);
      assert ['"'][1..] == [];
    }
  }

  /** The project that comes back from a marker printed for an id without spaces and arrows. */
  lemma PrintedProject(body: string, p: string, n: int)
    requires !Contains(body, Prefix) && Parseable(p) && -TwoTo63 <= n < TwoTo63
    ensures Parse(Marked(body, PostMarker(p, n))).0.project == TrimChar(Quote(p), '"')
  {
    var f, g := "project=" + Quote(p), "board-post=" + Decimal(n);
    PrintedTwo(p, n);
    hide Fill, TrimChar, Quote, Decimal, Parse, FillAll, Contains;
    ParsePrintedMarker(body, [f, g]);
    FillTwo(NoMarker, f, g);
    FillField(NoMarker, "project", Quote(p));
    assert "project=" == "project" + "=";
    FillPost(Fill(NoMarker, f), n);
  }

  lemma PrintedTwo(p: string, n: int)
    requires Parseable(p)
    ensures var f, g := "project=" + Quote(p), "board-post=" + Decimal(n);
            Words([f, g]) && !Contains(f, Close) && !Contains(g, Close)
  {
    hide Contains, Decimal, QuoteBody;
    var f, g := "project=" + Quote(p), "board-post=" + Decimal(n);
    QuoteCount(p);
    assert NoSpace(f);
    ArrowFree(p);
    NumberWord("board-post=", n);
  }

  lemma NumberWord(key: string, n: int)
    requires key != "" && NoSpace(key) && NoBracket(key)
    ensures var w := key + Decimal(n); w != "" && NoSpace(w) && !Contains(w, Close)
  {
    DecimalIsWord(key, n);
    assert NoBracket(key + Decimal(n));
    NoBracketNoClose(key + Decimal(n));
  }

  lemma QuoteBackslashes(p: string)
    ensures Backslashes(TrimChar(Quote(p), '"')) == Backslashes(QuoteBody(p))
  {
    hide TrimChar;
    TrimQuotesKeepsBackslashes(Quote(p));
    assert Quote(p) == ['"'] + QuoteBody(p) + ['"'];
    assert ['"'][1..] == [];
    BackslashesConcat(['"'] + QuoteBody(p), ['"']);
    BackslashesConcat(['"'], QuoteBody(p));
  }

  lemma ArrowFree(p: string)
    requires Parseable(p)
    ensures !Contains("project=" + Quote(p), Close)
  {
    var a, q := "project=\"", QuoteBody(p);
    var w := a + q + "\"";
    assert "project=" + Quote(p) == w;
    assert NoBracket(a);
    if Contains(q, Close) {
      var i :| 0 <= i <= |q| && OccursAt(q, Close, i);
      QuoteKeepsArrow(p, i);
    }
    ArrowAround(a, q);
  }

  /** The relay recognises its own marker for a project exactly when the project id is plain. */
  lemma RecognisedExactlyWhenPlain(body: string, p: string, n: int)
    requires !Contains(body, Prefix) && -TwoTo63 <= n < TwoTo63
    ensures (Parse(Marked(body, PostMarker(p, n))).1 && Parse(Marked(body, PostMarker(p, n))).0.project == p)
            <==> Plain(p)
  {
    hide Parse, Marked, PostMarker, Contains, Quote, QuoteBody, TrimChar, Backslashes;
    var s := Marked(body, PostMarker(p, n));
    if Plain(p) { PostRoundTrip(body, p, n); }
    ParsedProject(s);
    if Parse(s).0.project == p && p != "" {
      PrintedProject(body, p, n);
      QuoteCount(p);
      QuoteBackslashes(p);
    }
  }

  // ---- Replay keys ----------------------------------------------------------------------------------------------

  datatype Kind = IssueKind | CommentKind

  function KindWord(k: Kind): (s: string) {
    match k
    case IssueKind => ":issue:"
    case CommentKind => ":comment:"
  }

  /** `githubPostKey` and `githubCommentKey`. */
  function ReplayKey(project: string, k: Kind, id: int): (s: string) {
    "github-relay:" + project + KindWord(k) + Decimal(id)
  }

  lemma LastColon(a: string, d: string, b: string, e: string)
    requires a != "" && b != "" && a[|a| - 1] == ':' && b[|b| - 1] == ':'
    requires forall i :: 0 <= i < |d| ==> d[i] != ':'
    requires forall i :: 0 <= i < |e| ==> e[i] != ':'
    requires a + d == b + e
    ensures a == b && d == e
  {
    var s, t := a + d, b + e;
    assert forall i :: |a| <= i < |s| ==> s[i] == d[i - |a|];
    assert forall i :: |b| <= i < |t| ==> t[i] == e[i - |b|];
    assert s[|a| - 1] == ':' && t[|b| - 1] == ':';
    assert |a| == |b|;
    assert s[..|a|] == a && (b + e)[..|b|] == b && s[|a|..] == d && (b + e)[|b|..] == e;
  }

  /** Replay keys never collide: for any project ids, one key names one project, kind and GitHub id. */
  lemma ReplayKeyInjective(p: string, k: Kind, m: int, q: string, l: Kind, n: int)
    requires ReplayKey(p, k, m) == ReplayKey(q, l, n)
    ensures p == q && k == l && m == n
  {
    var a, b := "github-relay:" + p + KindWord(k), "github-relay:" + q + KindWord(l);
    LastColon(a, Decimal(m), b, Decimal(n));
    DecimalInjective(m, n);
    assert a[|a| - 2] == KindWord(k)[|KindWord(k)| - 2];
    assert b[|b| - 2] == KindWord(l)[|KindWord(l)| - 2];
    assert k == l;
    assert |a| == |b| && |p| == |q|;
    assert a[13..13 + |p|] == p && b[13..13 + |q|] == q;
  }
}
