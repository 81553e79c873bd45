/**
  The guidance packet: guidance/internal/service.go `Resolve`.

  Two passes over the entries, required ones first, append sections to a byte buffer while they fit.  The document
  service is a function of the document reference; the text of a section is a function of the entry and its document.
*/
module GuidancePacket {
  import opened Core
  import opened Utf8
  import GB = GuidanceBindings

  datatype Visibility = Normal | Hidden | Archived

  datatype Document = Document(visibility: Visibility, content: seq<Byte>)

  datatype Entry = Entry(id: int, document: string, required: bool, audience: seq<string>)

  datatype Reason = Missing | ArchivedDocument | HiddenDocument | BudgetExceeded

  datatype Packet = Packet(content: seq<Byte>, sources: seq<Entry>, skipped: seq<(Entry, Reason)>,
                           truncated: bool, incomplete: bool)

  datatype Query = Query(audience: seq<string>, includeHidden: bool, limit: nat,
                         documents: string -> Option<Document>, section: (Entry, Document) -> seq<Byte>)

  // ---- One entry --------------------------------------------------------------------------------------------------

  /** Why the entry cannot be used, whatever room is left. */
  function Unusable(q: Query, e: Entry): (r: Option<Reason>) {
    match q.documents(e.document)
    case None => Some(Missing)
    case Some(d) =>
      if d.visibility.Archived? then Some(ArchivedDocument)
      else if d.visibility.Hidden? && !q.includeHidden then Some(HiddenDocument)
      else None
  }

  function Section(q: Query, e: Entry): (s: seq<Byte>)
    requires Unusable(q, e).None?
  {
    q.section(e, q.documents(e.document).value)
  }

  function Place(q: Query, e: Entry, p: Packet): (r: Packet) {
    match Unusable(q, e)
    case Some(reason) => p.(skipped := p.skipped + [(e, reason)], incomplete := true)
    case None =>
      if |p.content| + |Section(q, e)| > q.limit
      then p.(skipped := p.skipped + [(e, BudgetExceeded)], truncated := true, incomplete := true)
      else p.(content := p.content + Section(q, e), sources := p.sources + [e])
  }

  predicate Wanted(q: Query, e: Entry, required: bool) {
    e.required == required && GB.AudienceMatches(e.audience, q.audience)
  }

  function Pass(q: Query, entries: seq<Entry>, required: bool, p: Packet): (r: Packet)
    decreases |entries|
  {
    if entries == [] then p
    else Pass(q, entries[1..], required, if Wanted(q, entries[0], required) then Place(q, entries[0], p) else p)
  }

  function Start(preamble: seq<Byte>, cut: seq<Byte>, limit: nat): (p: Packet) {
    Packet(cut, [], [], |preamble| > limit, |preamble| > limit)
  }

  function Build(q: Query, entries: seq<Entry>, p: Packet): (r: Packet) {
    Pass(q, entries, false, Pass(q, entries, true, p))
  }

  // ---- What a packet holds ----------------------------------------------------------------------------------------

  function Matching(q: Query, entries: seq<Entry>, required: bool): (r: seq<Entry>)
    decreases |entries|
  {
    if entries == [] then []
    else (if Wanted(q, entries[0], required) then [entries[0]] else []) + Matching(q, entries[1..], required)
  }

  function SkippedEntries(p: seq<(Entry, Reason)>): (r: seq<Entry>)
    ensures |r| == |p| && forall i :: 0 <= i < |p| ==> r[i] == p[i].0
  {
    seq(|p|, i requires 0 <= i < |p| => p[i].0)
  }

  /** The sections of the sources, one after the other. */
  function Sections(q: Query, sources: seq<Entry>): (s: seq<Byte>)
    decreases |sources|
  {
    if sources == [] then [] else
      var last := |sources| - 1;
      Sections(q, sources[..last]) + if Unusable(q, sources[last]).None? then Section(q, sources[last]) else []
  }

  /** Nothing placed or skipped before is touched, and the limit holds if it held. */
  ghost predicate Kept(q: Query, before: Packet, after: Packet) {
    && |before.sources| <= |after.sources| && after.sources[..|before.sources|] == before.sources
    && |before.skipped| <= |after.skipped| && after.skipped[..|before.skipped|] == before.skipped
    && (|before.content| <= q.limit ==> |after.content| <= q.limit)
    && (after.incomplete <==> before.incomplete || |before.skipped| < |after.skipped|)
    && (after.truncated ==> after.incomplete || before.truncated)
  }

  /** The text added is the sections of the sources added. */
  ghost predicate Written(q: Query, before: Packet, after: Packet) {
    |before.sources| <= |after.sources| &&
    after.content == before.content + Sections(q, after.sources[|before.sources|..])
  }

  /** The entries handled were each placed or skipped. */
  ghost predicate Accounted(before: Packet, after: Packet, added: seq<Entry>) {
    |before.sources| <= |after.sources| && |before.skipped| <= |after.skipped| &&
    multiset(after.sources[|before.sources|..]) + multiset(SkippedEntries(after.skipped[|before.skipped|..]))
      == multiset(added)
  }

  /** Relative to the packet a pass started from: what was placed, what was skipped, and why nothing is missing. */
  ghost predicate Grown(q: Query, before: Packet, after: Packet, added: seq<Entry>) {
    Kept(q, before, after) && Written(q, before, after) && Accounted(before, after, added)
  }

  lemma GrownStart(q: Query, p: Packet)
    ensures Grown(q, p, p, [])
  {
    assert p.sources[|p.sources|..] == [] && p.skipped[|p.skipped|..] == [];
    assert p.content + [] == p.content;
  }

  lemma SourceGrows(q: Query, before: Packet, p: Packet, added: seq<Entry>, e: Entry)
    requires Grown(q, before, p, added) && Unusable(q, e).None? && |p.content| + |Section(q, e)| <= q.limit
    ensures Grown(q, before, p.(content := p.content + Section(q, e), sources := p.sources + [e]), added + [e])
  {
    var r := p.(content := p.content + Section(q, e), sources := p.sources + [e]);
    SourceKept(q, before, p, e, r);
    SourceWritten(q, before, p, e, r);
    SourceAccounted(before, p, added, e, r);
    hide Kept, Written, Accounted, Unusable, Section;
  }

  lemma SourceKept(q: Query, before: Packet, p: Packet, e: Entry, r: Packet)
    requires Kept(q, before, p) && |r.content| <= q.limit && r == p.(content := r.content, sources := p.sources + [e])
    ensures Kept(q, before, r)
  {
    OneMore(p.sources, |before.sources|, e);
  }

  lemma SourceWritten(q: Query, before: Packet, p: Packet, e: Entry, r: Packet)
    requires Written(q, before, p) && Unusable(q, e).None?
    requires r.content == p.content + Section(q, e) && r.sources == p.sources + [e]
    ensures Written(q, before, r)
  {
    hide Unusable, Section, Sections;
    var x := p.sources[|before.sources|..];
    OneMore(p.sources, |before.sources|, e);
    SectionsOneMore(q, x, e);
    assert before.content + (Sections(q, x) + Section(q, e)) == (before.content + Sections(q, x)) + Section(q, e);
  }

  lemma SourceAccounted(before: Packet, p: Packet, added: seq<Entry>, e: Entry, r: Packet)
    requires Accounted(before, p, added) && r.sources == p.sources + [e] && r.skipped == p.skipped
    ensures Accounted(before, r, added + [e])
  {
    hide SkippedEntries;
    OneMore(p.sources, |before.sources|, e);
  }

  lemma OneMore<T>(s: seq<T>, n: nat, x: T)
    requires n <= |s|
    ensures (s + [x])[n..] == s[n..] + [x] && (s + [x])[..n] == s[..n]
  {
  }

  lemma SectionsOneMore(q: Query, sources: seq<Entry>, e: Entry)
    requires Unusable(q, e).None?
    ensures Sections(q, sources + [e]) == Sections(q, sources) + Section(q, e)
  {
    assert (sources + [e])[..|sources|] == sources;
    hide Unusable, Section;
  }

  lemma SkipGrows(q: Query, before: Packet, p: Packet, added: seq<Entry>, e: Entry, reason: Reason, truncated: bool)
    requires Grown(q, before, p, added)
    ensures Grown(q, before, p.(skipped := p.skipped + [(e, reason)], truncated := truncated, incomplete := true),
            added + [e])
  {
    var r := p.(skipped := p.skipped + [(e, reason)], truncated := truncated, incomplete := true);
    OneMore(p.skipped, |before.skipped|, (e, reason));
    hide Sections;
    SkipAccounted(before, p, added, e, reason, r);
    hide Accounted;
  }

  lemma SkipAccounted(before: Packet, p: Packet, added: seq<Entry>, e: Entry, reason: Reason, r: Packet)
    requires Accounted(before, p, added) && r.sources == p.sources && r.skipped == p.skipped + [(e, reason)]
    ensures Accounted(before, r, added + [e])
  {
    var m := |before.skipped|;
    OneMore(p.skipped, m, (e, reason));
    assert SkippedEntries(r.skipped[m..]) == SkippedEntries(p.skipped[m..]) + [e];
  }

  lemma PlaceGrows(q: Query, before: Packet, p: Packet, added: seq<Entry>, e: Entry)
    requires Grown(q, before, p, added)
    ensures Grown(q, before, Place(q, e, p), added + [e])
  {
    hide Grown, Unusable;
    match Unusable(q, e)
    case Some(reason) => SkipGrows(q, before, p, added, e, reason, p.truncated);
    case None =>
      if |p.content| + |Section(q, e)| > q.limit {
        SkipGrows(q, before, p, added, e, BudgetExceeded, true);
      } else {
        SourceGrows(q, before, p, added, e);
      }
  }

  lemma {:induction false} PassGrows(q: Query, entries: seq<Entry>, required: bool, before: Packet, p: Packet,
      added: seq<Entry>)
    requires Grown(q, before, p, added)
    ensures Grown(q, before, Pass(q, entries, required, p), added + Matching(q, entries, required))
    decreases |entries|
  {
    hide Grown, Place, Wanted;
    if entries == [] {
      assert added + [] == added;
    } else {
      var e := entries[0];
      var rest := Matching(q, entries[1..], required);
      if Wanted(q, e, required) {
        PlaceGrows(q, before, p, added, e);
        PassGrows(q, entries[1..], required, before, Place(q, e, p), added + [e]);
        assert (added + [e]) + rest == added + ([e] + rest);
      } else {
        PassGrows(q, entries[1..], required, before, p, added);
        assert [] + rest == rest;
      }
    }
  }

  /**
    The packet never exceeds the limit, its text is the preamble and the sections of its sources in order, every
    matching entry is either a source or skipped and never both, and it is incomplete exactly when something was
    skipped or the preamble was cut.
  */
  lemma PacketMeaning(q: Query, entries: seq<Entry>, preamble: seq<Byte>, cut: seq<Byte>)
    requires |cut| <= q.limit
    ensures var p := Build(q, entries, Start(preamble, cut, q.limit));
            && |p.content| <= q.limit
            && p.content == cut + Sections(q, p.sources)
            && multiset(p.sources) + multiset(SkippedEntries(p.skipped))
               == multiset(Matching(q, entries, true)) + multiset(Matching(q, entries, false))
            && (p.incomplete <==> p.skipped != [] || |preamble| > q.limit)
            && (p.truncated ==> p.incomplete)
  {
    var s := Start(preamble, cut, q.limit);
    GrownStart(q, s);
    PassGrows(q, entries, true, s, s, []);
    var m := Matching(q, entries, true);
    assert [] + m == m;
    PassGrows(q, entries, false, s, Pass(q, entries, true, s), m);
    hide Pass, Matching, Sections, Wanted;
    var p := Build(q, entries, s);
    assert p.sources[0..] == p.sources && p.skipped[0..] == p.skipped;
  }

  // ---- Required entries come first --------------------------------------------------------------------------------

  function Only(entries: seq<Entry>, required: bool): (r: seq<Entry>)
    decreases |entries|
  {
    if entries == [] then []
    else (if entries[0].required == required then [entries[0]] else []) + Only(entries[1..], required)
  }

  lemma {:induction false} PassIgnoresOthers(q: Query, entries: seq<Entry>, required: bool, p: Packet)
    ensures Pass(q, Only(entries, required), required, p) == Pass(q, entries, required, p)
    decreases |entries|
  {
    hide Place;
    if entries != [] {
      var next := if Wanted(q, entries[0], required) then Place(q, entries[0], p) else p;
      PassIgnoresOthers(q, entries[1..], required, next);
      var rest := Only(entries[1..], required);
      if entries[0].required == required {
        assert ([entries[0]] + rest)[1..] == rest;
      } else {
        assert [] + rest == rest;
      }
    }
  }

  lemma {:induction false} PassOfOthers(q: Query, entries: seq<Entry>, required: bool, p: Packet)
    ensures Pass(q, Only(entries, !required), required, p) == p
    decreases |entries|
  {
    hide Place;
    if entries != [] {
      PassOfOthers(q, entries[1..], required, p);
      var rest := Only(entries[1..], !required);
      if entries[0].required != required {
        assert ([entries[0]] + rest)[1..] == rest;
      } else {
        assert [] + rest == rest;
      }
    }
  }

  predicate AllOf(s: seq<Entry>, required: bool) {
    forall i :: 0 <= i < |s| ==> s[i].required == required
  }

  /** A pass over the other kind adds only sources of that kind. */
  ghost predicate Adds(p: Packet, r: Packet, required: bool) {
    |p.sources| <= |r.sources| && r.sources[..|p.sources|] == p.sources && AllOf(r.sources[|p.sources|..], required)
  }

  lemma AddsTransitive(p: Packet, q: Packet, r: Packet, required: bool)
    requires Adds(p, q, required) && Adds(q, r, required)
    ensures Adds(p, r, required)
  {
    assert r.sources[..|p.sources|] == r.sources[..|q.sources|][..|p.sources|];
    assert r.sources[|p.sources|..] == q.sources[|p.sources|..] + r.sources[|q.sources|..];
  }

  lemma AddsNothing(p: Packet, required: bool)
    ensures Adds(p, p, required)
  {
  }

  lemma PlaceAdds(q: Query, e: Entry, required: bool, p: Packet)
    ensures Wanted(q, e, required) ==> Adds(p, Place(q, e, p), required)
  {
    hide Unusable, Section;
    var next := Place(q, e, p);
    assert next.sources == p.sources || next.sources == p.sources + [e];
  }

  lemma {:induction false} PassAdds(q: Query, entries: seq<Entry>, required: bool, p: Packet)
    ensures Adds(p, Pass(q, entries, required, p), required)
    decreases |entries|
  {
    hide Adds, Place, Wanted;
    AddsNothing(p, required);
    if entries != [] {
      PlaceAdds(q, entries[0], required, p);
      var next := if Wanted(q, entries[0], required) then Place(q, entries[0], p) else p;
      PassAdds(q, entries[1..], required, next);
      AddsTransitive(p, next, Pass(q, entries[1..], required, next), required);
    }
  }

  /** The required sources are those of a packet built from the required entries alone. */
  lemma RequiredIndependent(q: Query, entries: seq<Entry>, p: Packet)
    requires p.sources == []
    ensures var full := Build(q, entries, p).sources;
            var alone := Build(q, Only(entries, true), p).sources;
            && alone <= full && AllOf(alone, true) && AllOf(full[|alone|..], false)
  {
    PassIgnoresOthers(q, entries, true, p);
    PassOfOthers(q, entries, false, Pass(q, entries, true, p));
    var first := Pass(q, entries, true, p);
    PassAdds(q, entries, true, p);
    PassAdds(q, entries, false, first);
    hide Pass;
    assert first.sources[0..] == first.sources;
  }

  // ---- The loops --------------------------------------------------------------------------------------------------

  /** `Resolve`: the preamble, then both passes; a limit out of range means the configured one. */
  method Resolve(q0: Query, entries: seq<Entry>, preamble: seq<Byte>, asked: int, configured: nat) returns (p: Packet)
    requires configured > 0
    ensures var limit := if asked <= 0 || asked > configured then configured else asked;
            var q := q0.(limit := limit);
            exists cut :: (|preamble| <= limit ==> cut == preamble)
              && (|preamble| > limit ==> IsCut(preamble, limit, cut))
                          && (Valid(preamble) && |preamble| > limit ==> limit < |cut| + 4)
                          && |cut| <= limit && p == Build(q, entries, Start(preamble, cut, limit))
    ensures |p.content| <= configured
    ensures p.incomplete <==>
              p.skipped != [] || |preamble| > (if asked <= 0 || asked > configured then configured else asked)
  {
    var limit := asked;
    if limit <= 0 || limit > configured { limit := configured; }
    var q := q0.(limit := limit);
    var cut := TruncateBytes(preamble, limit);
    PacketMeaning(q, entries, preamble, cut);
    p := Start(preamble, cut, limit);
    hide IsCut, Valid;
    p := RunPass(q, entries, true, p);
    p := RunPass(q, entries, false, p);
  }

  method RunPass(q: Query, entries: seq<Entry>, required: bool, p0: Packet) returns (p: Packet)
    ensures p == Pass(q, entries, required, p0)
  {
    hide GB.AudienceMatches;
    p := p0;
    var i := 0;
    while i < |entries|
      invariant 0 <= i <= |entries|
      invariant Pass(q, entries, required, p0) == Pass(q, entries[i..], required, p)
    {
      assert entries[i..][0] == entries[i] && entries[i..][1..] == entries[i + 1..];
      var e := entries[i];
      i := i + 1;
      var matches := GB.MatchAudience(e.audience, q.audience);
      if e.required != required || !matches { continue; }
      p := PlaceEntry(q, e, p);
    }
  }

  method PlaceEntry(q: Query, e: Entry, p0: Packet) returns (p: Packet)
    ensures p == Place(q, e, p0)
  {
    p := p0;
    var document := q.documents(e.document);
    if document.None? {
      p := p.(skipped := p.skipped + [(e, Missing)], incomplete := true);
    } else if document.value.visibility.Archived? {
      p := p.(skipped := p.skipped + [(e, ArchivedDocument)], incomplete := true);
    } else if document.value.visibility.Hidden? && !q.includeHidden {
      p := p.(skipped := p.skipped + [(e, HiddenDocument)], incomplete := true);
    } else {
      var section := q.section(e, document.value);
      if |p.content| + |section| > q.limit {
        p := p.(skipped := p.skipped + [(e, BudgetExceeded)], truncated := true, incomplete := true);
      } else {
        p := p.(content := p.content + section, sources := p.sources + [e]);
      }
    }
  }
}
