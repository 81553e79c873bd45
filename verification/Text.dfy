/** The string functions of Go's standard library that the models use, over strings of characters. */
module Text {
  import opened Core

  /** `unicode.IsSpace`. */
  predicate IsSpace(c: char) {
    || c == ' ' || '\t' <= c <= '\r'
    || (c >= '\U{80}' && IsWideSpace(c))
  }

  predicate IsWideSpace(c: char) {
    || c == '\U{85}' || c == '\U{A0}' || c == '\U{1680}' || '\U{2000}' <= c <= '\U{200A}'
    || c == '\U{2028}' || c == '\U{2029}' || c == '\U{202F}' || c == '\U{205F}' || c == '\U{3000}'
  }

  predicate NoSpace(s: string) {
    forall i :: 0 <= i < |s| ==> !IsSpace(s[i])
  }

  // ---- Searching ----------------------------------------------------------------------------------------------

  predicate OccursAt(s: string, sub: string, i: int) {
    0 <= i && i + |sub| <= |s| && s[i..i + |sub|] == sub
  }

  predicate Contains(s: string, sub: string) {
    exists i :: 0 <= i <= |s| && OccursAt(s, sub, i)
  }

  function IndexFrom(s: string, sub: string, from: nat): (r: int)
    requires from <= |s|
    ensures r == -1 || (from <= r && OccursAt(s, sub, r))
    ensures forall i :: from <= i < (if r == -1 then |s| + 1 else r) ==> !OccursAt(s, sub, i)
    decreases |s| - from
  {
    if OccursAt(s, sub, from) then from
    else if from == |s| then -1
    else IndexFrom(s, sub, from + 1)
  }

  /** `strings.Index`: the first occurrence, or -1. */
  function Index(s: string, sub: string): (r: int)
    ensures r == -1 || OccursAt(s, sub, r)
    ensures forall i :: 0 <= i < (if r == -1 then |s| + 1 else r) ==> !OccursAt(s, sub, i)
  {
    IndexFrom(s, sub, 0)
  }

  /** The first occurrence is unique, so finding it by hand is finding what `Index` finds. */
  lemma IndexIs(s: string, sub: string, at: int)
    requires OccursAt(s, sub, at)
    requires forall i :: 0 <= i < at ==> !OccursAt(s, sub, i)
    ensures Index(s, sub) == at
  {
    assert OccursAt(s, sub, Index(s, sub)) || Index(s, sub) == -1;
  }

  // ---- Trimming and splitting -----------------------------------------------------------------------------------

  function TrimLeft(s: string): (r: string)
    ensures r == [] || !IsSpace(r[0])
    ensures |r| <= |s| && r == s[|s| - |r|..]
    ensures s != [] && !IsSpace(s[0]) ==> r == s
  {
    if s != [] && IsSpace(s[0]) then TrimLeft(s[1..]) else s
  }

  function TrimRight(s: string): (r: string)
    ensures r == [] || !IsSpace(r[|r| - 1])
    ensures |r| <= |s| && r == s[..|r|]
    ensures forall i :: |r| <= i < |s| ==> IsSpace(s[i])
    ensures s != [] && !IsSpace(s[|s| - 1]) ==> r == s
  {
    if s != [] && IsSpace(s[|s| - 1]) then TrimRight(s[..|s| - 1]) else s
  }

  /** `strings.TrimSpace`. */
  function TrimSpace(s: string): (r: string)
    ensures r == [] || (!IsSpace(r[0]) && !IsSpace(r[|r| - 1]))
    ensures |r| <= |s|
    ensures s != [] && !IsSpace(s[0]) && !IsSpace(s[|s| - 1]) ==> r == s
  {
    TrimRight(TrimLeft(s))
  }

  function TrimCharLeft(s: string, c: char): (r: string)
    ensures r == [] || r[0] != c
    ensures s != [] && s[0] != c ==> r == s
    ensures |r| <= |s| && r == s[|s| - |r|..]
  {
    if s != [] && s[0] == c then TrimCharLeft(s[1..], c) else s
  }

  function TrimCharRight(s: string, c: char): (r: string)
    ensures r == [] || r[|r| - 1] != c
    ensures s != [] && s[|s| - 1] != c ==> r == s
    ensures |r| <= |s| && r == s[..|r|]
  {
    if s != [] && s[|s| - 1] == c then TrimCharRight(s[..|s| - 1], c) else s
  }

  /** `strings.Trim` with a cutset of one character. */
  function TrimChar(s: string, c: char): (r: string)
    ensures r == [] || (r[0] != c && r[|r| - 1] != c)
    ensures s != [] && s[0] != c && s[|s| - 1] != c ==> r == s
    ensures |r| <= |s|
  {
    TrimCharRight(TrimCharLeft(s, c), c)
  }

  function TokenLength(s: string): (n: nat)
    ensures n <= |s|
    ensures NoSpace(s[..n])
    ensures n == |s| || IsSpace(s[n])
  {
    if s == [] || IsSpace(s[0]) then 0 else 1 + TokenLength(s[1..])
  }

  /** `strings.Fields`: the maximal runs of non-space characters. */
  function Fields(s: string): (r: seq<string>)
    ensures forall i :: 0 <= i < |r| ==> r[i] != [] && NoSpace(r[i])
    decreases |s|
  {
    var t := TrimLeft(s);
    if t == [] then [] else
      var n := TokenLength(t);
      [t[..n]] + Fields(t[n..])
  }

  lemma {:induction false} TokenLengthIs(w: string, rest: string)
    requires NoSpace(w)
    requires rest == [] || IsSpace(rest[0])
    ensures TokenLength(w + rest) == |w|
    decreases |w|
  {
    if w == [] {
      assert w + rest == rest;
    } else {
      assert !IsSpace(w[0]) && (w + rest)[0] == w[0];
      assert (w + rest)[1..] == w[1..] + rest;
      TokenLengthIs(w[1..], rest);
    }
  }

  lemma FieldsWord(w: string, rest: string)
    requires w != [] && NoSpace(w)
    requires rest == [] || IsSpace(rest[0])
    ensures Fields(w + rest) == [w] + Fields(rest)
  {
    TokenLengthIs(w, rest);
    assert (w + rest)[0] == w[0];
    assert TrimLeft(w + rest) == w + rest;
    assert (w + rest)[..|w|] == w && (w + rest)[|w|..] == rest;
  }

  lemma FieldsSpace(c: char, rest: string)
    requires IsSpace(c)
    ensures Fields([c] + rest) == Fields(rest)
  {
    assert ([c] + rest)[1..] == rest;
    assert TrimLeft([c] + rest) == TrimLeft(rest);
  }

  /** Words separated by single spaces. */
  function Join(ws: seq<string>): (s: string)
    decreases |ws|
  {
    if |ws| == 0 then "" else if |ws| == 1 then ws[0] else ws[0] + ([' '] + Join(ws[1..]))
  }

  predicate Words(ws: seq<string>) {
    forall i :: 0 <= i < |ws| ==> ws[i] != "" && NoSpace(ws[i])
  }

  lemma FieldsOfWord(w: string)
    requires w != "" && NoSpace(w)
    ensures Fields("") == [] && Fields(w) == [w]
  {
    FieldsWord(w, "");
    assert w + "" == w;
  }

  lemma {:induction false} FieldsOfJoin(ws: seq<string>)
    requires Words(ws)
    ensures Fields(Join(ws)) == ws
    decreases |ws|
  {
    hide Fields;
    FieldsOfWord("w");
    if |ws| == 1 {
      FieldsOfWord(ws[0]);
    } else if |ws| > 1 {
      var rest := Join(ws[1..]);
      FieldsOfJoin(ws[1..]);
      FieldsWord(ws[0], [' '] + rest);
      FieldsSpace(' ', rest);
      assert ws == [ws[0]] + ws[1..];
    }
  }

  lemma {:induction false} JoinEnds(ws: seq<string>)
    requires Words(ws) && ws != []
    ensures Join(ws) != "" && !IsSpace(Join(ws)[0]) && !IsSpace(Join(ws)[|Join(ws)| - 1])
    decreases |ws|
  {
    assert !IsSpace(ws[0][0]) && !IsSpace(ws[0][|ws[0]| - 1]);
    if |ws| > 1 { JoinEnds(ws[1..]); }
  }

  lemma TrimOneSpace(t: string)
    requires t != "" && !IsSpace(t[0]) && !IsSpace(t[|t| - 1])
    ensures TrimSpace(t + [' ']) == t
  {
    var u := t + [' '];
    assert u[0] == t[0] && u[|u| - 1] == ' ' && u[..|u| - 1] == t;
    assert TrimLeft(u) == u;
  }

  /** A word that no single word contains is not found in their join either. */
  lemma {:induction false} JoinOccurs(ws: seq<string>, sub: string, i: int)
    requires sub != "" && NoSpace(sub)
    requires forall k :: 0 <= k < |ws| ==> !Contains(ws[k], sub)
    ensures !OccursAt(Join(ws), sub, i)
    decreases |ws|
  {
    if |ws| == 1 {
      assert !Contains(ws[0], sub);
    } else if |ws| > 1 && 0 <= i {
      var w, rest := ws[0], Join(ws[1..]);
      SpaceSplits(w, rest, sub, i);
      assert !Contains(w, sub);
      JoinOccurs(ws[1..], sub, i - |w| - 1);
    }
  }

  lemma SpaceSplits(a: string, b: string, sub: string, i: int)
    requires sub != "" && NoSpace(sub) && 0 <= i
    ensures OccursAt(a + ([' '] + b), sub, i) ==> OccursAt(a, sub, i) || OccursAt(b, sub, i - |a| - 1)
  {
    var s := a + ([' '] + b);
    if OccursAt(s, sub, i) {
      assert forall k :: i <= k < i + |sub| ==> s[k] == s[i..i + |sub|][k - i];
      assert forall k :: i <= k < i + |sub| ==> !IsSpace(s[k]);
      assert s[|a|] == ' ';
      if i + |sub| <= |a| {
        assert s[i..i + |sub|] == a[i..i + |sub|];
      } else {
        assert s[i..i + |sub|] == b[i - |a| - 1..i - |a| - 1 + |sub|];
      }
    }
  }

  /** A part of a string contains no more than the string. */
  lemma PartContains(s: string, from: nat, to: nat, sub: string)
    requires from <= to <= |s| && !Contains(s, sub)
    ensures !Contains(s[from..to], sub)
  {
    forall i | 0 <= i <= to - from ensures !OccursAt(s[from..to], sub, i) {
      assert !OccursAt(s, sub, from + i);
      if i + |sub| <= to - from {
        var a, b := s[from..to][i..i + |sub|], s[from + i..from + i + |sub|];
        assert forall k :: 0 <= k < |sub| ==> a[k] == s[from + i + k] == b[k];
        assert a == b;
      }
    }
  }

  lemma TrimSpaceContains(s: string, sub: string)
    requires !Contains(s, sub)
    ensures !Contains(TrimSpace(s), sub)
  {
    var l := TrimLeft(s);
    TailContains(s, l, sub);
    HeadContains(l, TrimRight(l), sub);
  }

  lemma TrimCharContains(s: string, c: char, sub: string)
    requires !Contains(s, sub)
    ensures !Contains(TrimChar(s, c), sub)
  {
    var l := TrimCharLeft(s, c);
    TailContains(s, l, sub);
    HeadContains(l, TrimCharRight(l, c), sub);
  }

  lemma TailContains(s: string, t: string, sub: string)
    requires |t| <= |s| && t == s[|s| - |t|..] && !Contains(s, sub)
    ensures !Contains(t, sub)
  {
    PartContains(s, |s| - |t|, |s|, sub);
    assert s[|s| - |t|..|s|] == t;
  }

  lemma HeadContains(s: string, t: string, sub: string)
    requires |t| <= |s| && t == s[..|t|] && !Contains(s, sub)
    ensures !Contains(t, sub)
  {
    PartContains(s, 0, |t|, sub);
    assert s[0..|t|] == t;
  }

  predicate NoneContain(ws: seq<string>, sub: string) {
    forall k :: 0 <= k < |ws| ==> !Contains(ws[k], sub)
  }

  lemma NoneContainCons(w: string, ws: seq<string>, sub: string)
    requires !Contains(w, sub) && NoneContain(ws, sub)
    ensures NoneContain([w] + ws, sub)
  {
  }

  /** No field of a string contains what the string does not. */
  lemma {:induction false} FieldsContain(s: string, sub: string)
    requires !Contains(s, sub)
    ensures NoneContain(Fields(s), sub)
    decreases |s|
  {
    hide Contains, NoSpace, IsSpace, TokenLength;
    var t := TrimLeft(s);
    if t == [] {
      assert Fields(s) == [];
    } else {
      var n := TokenLength(t);
      FieldsStep(s, t, n);
      TailContains(s, t, sub);
      HeadContains(t, t[..n], sub);
      TailContains(t, t[n..], sub);
      hide Fields, TrimLeft, NoneContain;
      FieldsContain(t[n..], sub);
      NoneContainCons(t[..n], Fields(t[n..]), sub);
    }
  }

  lemma FieldsStep(s: string, t: string, n: nat)
    requires t == TrimLeft(s) && t != [] && n == TokenLength(t)
    ensures 0 < n <= |t| <= |s| && Fields(s) == [t[..n]] + Fields(t[n..])
  {
  }

  // ---- Decimal numbers ------------------------------------------------------------------------------------------

  predicate IsDigit(c: char) { '0' <= c <= '9' }

  function DigitChar(d: int): (c: char)
    requires 0 <= d < 10
    ensures IsDigit(c) && c as int - '0' as int == d
  {
    '0' + d as char
  }

  function Digits(n: nat): (s: string)
    ensures s != [] && forall i :: 0 <= i < |s| ==> IsDigit(s[i])
  {
    if n < 10 then [DigitChar(n)] else Digits(n / 10) + [DigitChar(n % 10)]
  }

  /** `%d`. */
  function Decimal(n: int): (s: string)
    ensures s != []
    ensures IsDigit(s[|s| - 1])
    ensures forall i :: 0 <= i < |s| ==> IsDigit(s[i]) || s[i] == '-'
  {
    if n < 0 then ['-'] + Digits(-n) else Digits(n)
  }

  const MaxUint64 := 0xFFFF_FFFF_FFFF_FFFF
  const TwoTo63 := 0x8000_0000_0000_0000

  datatype Scan = Scanned(value: nat) | Syntax | Range

  /** `strconv.ParseUint` in base 10: it stops at the first bad character or at the first overflow. */
  function ScanUint(s: string, acc: nat): (r: Scan)
    requires acc <= MaxUint64
  {
    if s == [] then Scanned(acc)
    else if !IsDigit(s[0]) then Syntax
    else
      var next := acc * 10 + (s[0] as int - '0' as int);
      if next > MaxUint64 then Range else ScanUint(s[1..], next)
  }

  /** `strconv.ParseInt(s, 10, 64)` with its error dropped: zero on bad syntax, the nearest bound on overflow. */
  function ParseInt(s: string): (r: int)
    ensures -TwoTo63 <= r < TwoTo63
  {
    if s == [] then 0 else
      var negative := s[0] == '-';
      var body := if s[0] == '-' || s[0] == '+' then s[1..] else s;
      if body == [] then 0 else
        match ScanUint(body, 0)
        case Syntax => 0
        case Range => if negative then -TwoTo63 else TwoTo63 - 1
        case Scanned(v) =>
          var n: int := v;
          if negative then (if n > TwoTo63 then -TwoTo63 else -n)
          else (if n >= TwoTo63 then TwoTo63 - 1 else n)
  }

  lemma {:induction false} ScanAppend(a: string, d: char, acc: nat)
    requires acc <= MaxUint64 && IsDigit(d) && ScanUint(a, acc).Scanned?
    requires ScanUint(a, acc).value * 10 + (d as int - '0' as int) <= MaxUint64
    ensures ScanUint(a + [d], acc) == Scanned(ScanUint(a, acc).value * 10 + (d as int - '0' as int))
    decreases |a|
  {
    if a == [] {
      assert a + [d] == [d];
      assert ScanUint([d][1..], acc * 10 + (d as int - '0' as int)).Scanned?;
    } else {
      ScanAppend(a[1..], d, acc * 10 + (a[0] as int - '0' as int));
      assert (a + [d])[1..] == a[1..] + [d];
    }
  }

  lemma {:induction false} ScanDigits(n: nat)
    requires n <= MaxUint64
    ensures ScanUint(Digits(n), 0) == Scanned(n)
    decreases n
  {
    if n < 10 {
      assert ScanUint([DigitChar(n)][1..], n) == Scanned(n);
    } else {
      ScanDigits(n / 10);
      ScanAppend(Digits(n / 10), DigitChar(n % 10), 0);
    }
  }

  /** Printing a 64-bit number and parsing it back gives the number. */
  lemma ParsePrinted(n: int)
    requires -TwoTo63 <= n < TwoTo63
    ensures ParseInt(Decimal(n)) == n
  {
    if n < 0 {
      ScanDigits(-n);
      assert Decimal(n)[1..] == Digits(-n);
    } else {
      ScanDigits(n);
    }
  }

  lemma DigitsLength(n: nat)
    ensures |Digits(n)| == 1 <==> n < 10
  {
  }

  lemma {:induction false} DigitsInjective(m: nat, n: nat)
    requires Digits(m) == Digits(n)
    ensures m == n
    decreases m
  {
    DigitsLength(m);
    DigitsLength(n);
    if m < 10 {
      assert Digits(m)[0] == Digits(n)[0];
    } else {
      var a, b := Digits(m / 10), Digits(n / 10);
      assert Digits(m)[..|a|] == a && Digits(n)[..|b|] == b;
      assert Digits(m)[|a|] == DigitChar(m % 10) && Digits(n)[|b|] == DigitChar(n % 10);
      assert |a| == |b|;
      DigitsInjective(m / 10, n / 10);
    }
  }

  lemma DecimalInjective(m: int, n: int)
    requires Decimal(m) == Decimal(n)
    ensures m == n
  {
    assert (m < 0) == (Decimal(m)[0] == '-') && (n < 0) == (Decimal(n)[0] == '-');
    if m < 0 {
      assert Decimal(m)[1..] == Digits(-m) && Decimal(n)[1..] == Digits(-n);
      DigitsInjective(-m, -n);
    } else {
      DigitsInjective(m, n);
    }
  }

  // ---- Order ------------------------------------------------------------------------------------------------------

  /** `<` on strings. */
  predicate StringBefore(a: string, b: string)
    decreases |a|
  {
    b != "" && (a == "" || a[0] < b[0] || (a[0] == b[0] && StringBefore(a[1..], b[1..])))
  }

  lemma {:induction false} StringTotal(a: string, b: string)
    ensures a == b || StringBefore(a, b) || StringBefore(b, a)
    ensures !(StringBefore(a, b) && StringBefore(b, a))
    decreases |a|
  {
    if a != "" && b != "" {
      StringTotal(a[1..], b[1..]);
      assert a == [a[0]] + a[1..] && b == [b[0]] + b[1..];
    }
  }

  lemma {:induction false} StringTransitive(a: string, b: string, c: string)
    requires StringBefore(a, b) && StringBefore(b, c)
    ensures StringBefore(a, c)
    decreases |a|
  {
    if a != "" && a[0] == b[0] == c[0] { StringTransitive(a[1..], b[1..], c[1..]); }
  }
}
