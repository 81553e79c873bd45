/** Slugs of published posts: doc-publish/internal/service.go `Slugify`. */
module Slugs {
  import opened Text

  predicate SlugChar(c: char) {
    'a' <= c <= 'z' || '0' <= c <= '9'
  }

  /** `strings.ToLower`, as far as its result can survive: other letters stay outside ASCII and are removed later. */
  function Lower(c: char): (r: char) {
    if 'A' <= c <= 'Z' then c + 32 as char
    else if c == '\U{212A}' then 'k'
    else if c == '\U{130}' then 'i'
    else c
  }

  /** White space of the regular expression class. */
  predicate Blank(c: char) {
    c == '\t' || c == '\n' || c == '\U{C}' || c == '\r' || c == ' '
  }

  predicate Separator(c: char) {
    Blank(c) || c == '-'
  }

  /** Lower case, underscores as dashes, and everything but slug characters and separators removed. */
  function Clean(s: string): (r: string)
    ensures forall i :: 0 <= i < |r| ==> SlugChar(r[i]) || Separator(r[i])
    decreases |s|
  {
    if s == "" then "" else
      var last := |s| - 1;
      var c := if Lower(s[last]) == '_' then '-' else Lower(s[last]);
      if SlugChar(c) || Separator(c) then Clean(s[..last]) + [c] else Clean(s[..last])
  }

  /** Every run of separators becomes one dash. */
  function Collapse(s: string): (r: string)
    requires forall i :: 0 <= i < |s| ==> SlugChar(s[i]) || Separator(s[i])
    ensures DashesApart(r)
    decreases |s|
  {
    if s == "" then "" else
      var last := |s| - 1;
      var rest := Collapse(s[..last]);
      if !Separator(s[last]) then rest + [s[last]]
      else if rest != "" && rest[|rest| - 1] == '-' then rest
      else rest + ['-']
  }

  /** Slug characters and dashes, no two dashes side by side. */
  predicate DashesApart(s: string) {
    && (forall i :: 0 <= i < |s| ==> SlugChar(s[i]) || s[i] == '-')
    && (forall i :: 0 <= i < |s| - 1 ==> !(s[i] == '-' && s[i + 1] == '-'))
  }

  function Slugify(value: string): (r: string) {
    var slug := TrimChar(Collapse(Clean(TrimSpace(value))), '-');
    if |slug| > 80 then TrimChar(slug[..80], '-') else slug
  }

  /** What a slug looks like. */
  predicate IsSlug(s: string) {
    && |s| <= 80 && DashesApart(s)
    && (s != "" ==> s[0] != '-' && s[|s| - 1] != '-')
  }

  lemma {:induction false} TrimLeftPart(s: string, c: char) returns (n: nat)
    ensures n <= |s| && TrimCharLeft(s, c) == s[n..]
    decreases |s|
  {
    n := 0;
    if s != "" && s[0] == c {
      var m := TrimLeftPart(s[1..], c);
      n := m + 1;
      assert s[1..][m..] == s[n..];
    }
  }

  lemma {:induction false} TrimRightPart(s: string, c: char) returns (n: nat)
    ensures n <= |s| && TrimCharRight(s, c) == s[..n]
    decreases |s|
  {
    n := |s|;
    if s != "" && s[|s| - 1] == c {
      n := TrimRightPart(s[..|s| - 1], c);
      assert s[..|s| - 1][..n] == s[..n];
    }
  }

  lemma TrimKeepsApart(s: string)
    requires DashesApart(s)
    ensures DashesApart(TrimChar(s, '-'))
  {
    hide DashesApart;
    var n := TrimLeftPart(s, '-');
    var m := TrimRightPart(s[n..], '-');
    DropKeepsApart(s, n);
    CutKeepsApart(s[n..], m);
  }

  lemma DropKeepsApart(s: string, n: nat)
    requires DashesApart(s) && n <= |s|
    ensures DashesApart(s[n..])
  {
    var t := s[n..];
    hide SlugChar;
    assert forall i :: 0 <= i < |t| ==> t[i] == s[n + i];
  }

  lemma CutKeepsApart(s: string, n: nat)
    requires DashesApart(s) && n <= |s|
    ensures DashesApart(s[..n])
  {
    hide SlugChar;
  }

  lemma TrimmedIsSlug(s: string)
    requires DashesApart(s) && |TrimChar(s, '-')| <= 80
    ensures IsSlug(TrimChar(s, '-'))
  {
    TrimKeepsApart(s);
    hide DashesApart;
  }

  /** Whatever the title, the result is a slug. */
  lemma SlugifyMakesSlug(value: string)
    ensures IsSlug(Slugify(value))
  {
    hide DashesApart, Collapse, Clean, TrimChar, TrimSpace, IsSlug;
    var collapsed := Collapse(Clean(TrimSpace(value)));
    var slug := TrimChar(collapsed, '-');
    TrimKeepsApart(collapsed);
    if |slug| > 80 {
      CutKeepsApart(slug, 80);
      TrimmedIsSlug(slug[..80]);
    } else {
      TrimmedIsSlug(collapsed);
    }
  }

  lemma {:induction false} CleanFixes(s: string)
    requires forall i :: 0 <= i < |s| ==> SlugChar(s[i]) || s[i] == '-'
    ensures Clean(s) == s
    decreases |s|
  {
    if s != "" { CleanFixes(s[..|s| - 1]); }
  }

  lemma {:induction false} CollapseFixes(s: string)
    requires DashesApart(s)
    ensures Collapse(s) == s
    decreases |s|
  {
    if s != "" {
      var last := |s| - 1;
      CutKeepsApart(s, last);
      CollapseFixes(s[..last]);
      assert last > 0 ==> s[..last][last - 1] == s[last - 1];
    }
  }

  /** A slug stays as it is. */
  lemma SlugStays(s: string)
    requires IsSlug(s)
    ensures Slugify(s) == s && TrimSpace(s) == s
  {
    NoSpaceAtEnds(s);
    hide TrimSpace, TrimChar;
    CleanFixes(s);
    CollapseFixes(s);
  }

  lemma NoSpaceAtEnds(s: string)
    requires IsSlug(s)
    ensures TrimSpace(s) == s && TrimChar(s, '-') == s
  {
    if s != "" { assert SlugChar(s[0]) && SlugChar(s[|s| - 1]); }
  }

  /** So slugging is idempotent, and the slugs are exactly the fixed points. */
  lemma SlugifyIdempotent(value: string)
    ensures Slugify(Slugify(value)) == Slugify(value)
    ensures Slugify(value) == value <==> IsSlug(value)
  {
    hide Slugify, IsSlug;
    SlugifyMakesSlug(value);
    SlugStays(Slugify(value));
    if IsSlug(value) { SlugStays(value); }
  }
}
