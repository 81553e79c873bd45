/**
  Identity of blog publications: doc-publish/internal/service.go `Publish` over the record directory of
  doc-publish/internal/store.go.

  A publish can fail at any step: reading the source, checking the path, fetching assets, pushing, saving.  New ids are
  assumed fresh, and the formatting of a date is a function of the clock.
*/
module Publish {
  import opened Core
  import opened Text
  import opened Slugs

  /** A wiki page when `wikiPage` is not empty, otherwise a document. */
  datatype Source = Source(wikiPage: string, project: string, slug: string)

  datatype Status = Published | FailedPush

  datatype Record = Record(id: string, source: Source, title: string, slug: string, path: string, url: string,
                           createdAt: int, status: Status)

  datatype Document = Document(title: string, slug: string)

  datatype Request = Request(source: Source, title: string, slug: string, overwrite: bool)

  datatype Config = Config(postDir: string, baseUrl: string, date: int -> string)

  /** What a publish meets: the clock, a new id, the fetched source, the answers of the repository and of the disk. */
  datatype Env = Env(now: int, newId: string, fetched: Option<Document>, pathExists: Option<bool>, assets: bool,
                     pushed: bool, saved: bool)

  type Store = map<string, Record>

  /** The clauses of request validation this model relies on. */
  predicate ValidSource(s: Source) {
    if s.wikiPage != "" then s.project == "" && s.slug == "" else s.project != "" && s.slug != ""
  }

  // ---- Finding the record -----------------------------------------------------------------------------------------

  /** `sameSource`. */
  predicate SameSource(r: Record, s: Source) {
    if s.wikiPage != "" then r.source.wikiPage == s.wikiPage
    else r.source.wikiPage == "" && r.source.project == s.project && r.source.slug == s.slug
  }

  ghost predicate IsPrevious(store: Store, source: Source, id: string) {
    id in store && SameSource(store[id], source)
  }

  ghost function Previous(store: Store, source: Source): (r: Option<Record>)
    ensures r.Some? ==> exists id :: IsPrevious(store, source, id) && store[id] == r.value
    ensures r.None? ==> forall id :: !IsPrevious(store, source, id)
  {
    if id :| IsPrevious(store, source, id) then Some(store[id]) else None
  }

  // ---- Rendering --------------------------------------------------------------------------------------------------

  datatype Rendered = Rendered(title: string, slug: string, path: string, url: string)

  function FirstNonEmpty(values: seq<string>): (r: string)
    decreases |values|
  {
    if values == [] then "" else if TrimSpace(values[0]) != "" then values[0] else FirstNonEmpty(values[1..])
  }

  function PostPath(c: Config, date: string, slug: string): (r: string)
    ensures r != ""
  {
    (if c.postDir == "" then "" else c.postDir + "/") + date + "-" + slug + ".md"
  }

  function RenderPost(c: Config, doc: Document, title0: string, slug0: string, now: int): (r: Option<Rendered>) {
    var title := TrimSpace(FirstNonEmpty([title0, doc.title]));
    if title == "" then None else
      var slug := Slugify(TrimSpace(FirstNonEmpty([slug0, doc.slug, title])));
      if slug == "" then None
      else Some(Rendered(title, slug, PostPath(c, c.date(now), slug), TrimCharRight(c.baseUrl, '/') + "/" + slug + "/"))
  }

  /** A wiki page published before keeps its slug, date, path and URL. */
  function Render(c: Config, req: Request, doc: Document, previous: Option<Record>, now: int): (r: Option<Rendered>) {
    if req.source.wikiPage == "" || previous.None? || previous.value.path == ""
    then RenderPost(c, doc, req.title, req.slug, now)
    else match RenderPost(c, doc, req.title, previous.value.slug, previous.value.createdAt)
         case None => None
         case Some(p) => Some(p.(path := previous.value.path, url := previous.value.url))
  }

  // ---- Publishing -------------------------------------------------------------------------------------------------

  function MakeRecord(req: Request, p: Rendered, previous: Option<Record>, env: Env): (r: Record) {
    Record(if previous.Some? then previous.value.id else env.newId, req.source, p.title, p.slug, p.path, p.url,
           if previous.Some? then previous.value.createdAt else env.now, if env.pushed then Published else FailedPush)
  }

  /** The record a publish tries to save, if it gets that far. */
  ghost function Prepared(store: Store, c: Config, req: Request, env: Env): (r: Option<Record>) {
    if !ValidSource(req.source) || env.fetched.None? then None else
      var previous := Previous(store, req.source);
      match Render(c, req, env.fetched.value, previous, env.now)
      case None => None
      case Some(p) =>
        if previous.None? && (env.pathExists.None? || (env.pathExists.value && !req.overwrite)) then None
        else if !env.assets then None
        else Some(MakeRecord(req, p, previous, env))
  }

  ghost function PublishOne(store: Store, c: Config, req: Request, env: Env): (r: Store) {
    match Prepared(store, c, req, env)
    case None => store
    case Some(record) => if env.saved then store[record.id := record] else store
  }

  // ---- What the record directory keeps ------------------------------------------------------------------------------

  ghost predicate StoreOk(store: Store) {
    && (forall id :: id in store ==>
          store[id].id == id && ValidSource(store[id].source) && IsSlug(store[id].slug) && store[id].slug != ""
          && store[id].path != "")
    && (forall a, b :: a in store && b in store && SameSource(store[a], store[b].source) ==> a == b)
  }

  /** Records stay, with their source and creation time; those of wiki pages also keep slug, path and URL. */
  ghost predicate Stable(s: Store, t: Store) {
    forall id :: id in s ==>
      && id in t && t[id].source == s[id].source && t[id].createdAt == s[id].createdAt
      && (s[id].source.wikiPage != "" ==>
            t[id].slug == s[id].slug && t[id].path == s[id].path && t[id].url == s[id].url)
  }

  lemma SourceMatches(r: Record, s: Source)
    requires ValidSource(r.source) && ValidSource(s)
    ensures SameSource(r, s) <==> r.source == s
  {
  }

  /** The slug option of a later request loses to the saved slug, because slugging a slug changes nothing. */
  lemma SlugKept(c: Config, doc: Document, title: string, slug: string, now: int)
    requires IsSlug(slug) && slug != "" && RenderPost(c, doc, title, slug, now).Some?
    ensures RenderPost(c, doc, title, slug, now).value.slug == slug
  {
    SlugStays(slug);
    assert [slug, doc.slug, TrimSpace(FirstNonEmpty([title, doc.title]))][0] == slug;
  }

  lemma RenderedSlug(c: Config, doc: Document, title: string, slug: string, now: int)
    requires RenderPost(c, doc, title, slug, now).Some?
    ensures var p := RenderPost(c, doc, title, slug, now).value; IsSlug(p.slug) && p.slug != "" && p.path != ""
  {
    hide IsSlug, Slugify, PostPath;
    SlugifyMakesSlug(TrimSpace(FirstNonEmpty([slug, doc.slug, TrimSpace(FirstNonEmpty([title, doc.title]))])));
  }

  lemma RenderedOk(c: Config, req: Request, doc: Document, previous: Option<Record>, now: int)
    requires Render(c, req, doc, previous, now).Some?
    requires previous.Some? ==> IsSlug(previous.value.slug) && previous.value.slug != "" && previous.value.path != ""
    ensures var p := Render(c, req, doc, previous, now).value;
            && IsSlug(p.slug) && p.slug != "" && p.path != ""
            && (previous.Some? && req.source.wikiPage != "" ==>
                  p.slug == previous.value.slug && p.path == previous.value.path && p.url == previous.value.url)
  {
    hide RenderPost, IsSlug;
    if req.source.wikiPage == "" || previous.None? {
      RenderedSlug(c, doc, req.title, req.slug, now);
    } else {
      RenderedSlug(c, doc, req.title, previous.value.slug, previous.value.createdAt);
      SlugKept(c, doc, req.title, previous.value.slug, previous.value.createdAt);
    }
  }

  lemma PublishKeeps(store: Store, c: Config, req: Request, env: Env)
    requires StoreOk(store) && env.newId !in store
    ensures StoreOk(PublishOne(store, c, req, env)) && Stable(store, PublishOne(store, c, req, env))
  {
    hide IsSlug, Render;
    var prepared := Prepared(store, c, req, env);
    if prepared.Some? {
      var previous := Previous(store, req.source);
      RenderedOk(c, req, env.fetched.value, previous, env.now);
      var record := prepared.value;
      SaveKeeps(store, record, previous, env.newId);
    }
  }

  /** Saving the prepared record replaces the source's own record or adds the first one. */
  lemma SaveKeeps(store: Store, record: Record, previous: Option<Record>, newId: string)
    requires StoreOk(store) && newId !in store && ValidSource(record.source)
    requires previous == Previous(store, record.source)
    requires IsSlug(record.slug) && record.slug != "" && record.path != ""
    requires record.id == (if previous.Some? then previous.value.id else newId)
    requires previous.Some? ==> record.createdAt == previous.value.createdAt
    requires previous.Some? && record.source.wikiPage != "" ==>
               record.slug == previous.value.slug && record.path == previous.value.path
                 && record.url == previous.value.url
    ensures StoreOk(store[record.id := record]) && Stable(store, store[record.id := record])
  {
    hide IsSlug;
    forall id | id in store ensures SameSource(store[id], record.source) <==> store[id].source == record.source {
      SourceMatches(store[id], record.source);
    }
    forall a, b | a in store && b in store
      ensures SameSource(store[a], store[b].source) <==> store[a].source == store[b].source {
      SourceMatches(store[a], store[b].source);
    }
    var t := store[record.id := record];
    assert previous.Some? ==> previous.value.source == record.source;
    assert previous.None? ==> forall id :: id in store ==> !IsPrevious(store, record.source, id);
    forall a, b | a in t && b in t && SameSource(t[a], t[b].source) ensures a == b {
      SourceMatches(t[a], t[b].source);
    }
  }

  // ---- Runs -------------------------------------------------------------------------------------------------------

  datatype Step = Step(c: Config, req: Request, env: Env)

  ghost function Run(store: Store, steps: seq<Step>): (r: Store)
    decreases |steps|
  {
    if steps == [] then store else Run(PublishOne(store, steps[0].c, steps[0].req, steps[0].env), steps[1..])
  }

  /** Every new id is fresh when it is drawn. */
  ghost predicate FreshIds(store: Store, steps: seq<Step>)
    decreases |steps|
  {
    steps == [] ||
    (steps[0].env.newId !in store && FreshIds(PublishOne(store, steps[0].c, steps[0].req, steps[0].env), steps[1..]))
  }

  lemma StableTransitive(s: Store, t: Store, u: Store)
    requires Stable(s, t) && Stable(t, u)
    ensures Stable(s, u)
  {
  }

  lemma {:induction false} RunKeeps(store: Store, steps: seq<Step>)
    requires StoreOk(store) && FreshIds(store, steps)
    ensures StoreOk(Run(store, steps)) && Stable(store, Run(store, steps))
    decreases |steps|
  {
    hide StoreOk, PublishOne;
    if steps != [] {
      var next := PublishOne(store, steps[0].c, steps[0].req, steps[0].env);
      PublishKeeps(store, steps[0].c, steps[0].req, steps[0].env);
      RunKeeps(next, steps[1..]);
      StableTransitive(store, next, Run(next, steps[1..]));
    }
  }

  /**
    Over any run of publishes from an empty directory, failed or not, each wiki page has at most one record, and from
    the moment it exists its id, slug, path, URL and creation time never change, whatever later requests ask for.
  */
  lemma WikiPageKeepsItsPost(before: seq<Step>, after: seq<Step>, a: string, b: string)
    requires FreshIds(map[], before) && FreshIds(Run(map[], before), after)
    requires var s, t := Run(map[], before), Run(Run(map[], before), after);
             a in s && s[a].source.wikiPage != "" && b in t && t[b].source.wikiPage == s[a].source.wikiPage
    ensures var s, t := Run(map[], before), Run(Run(map[], before), after);
            && b == a && t[b].id == a && t[b].createdAt == s[a].createdAt
            && t[b].slug == s[a].slug && t[b].path == s[a].path && t[b].url == s[a].url
  {
    RunKeeps(map[], before);
    RunKeeps(Run(map[], before), after);
    hide Run, FreshIds, IsSlug;
    var t := Run(Run(map[], before), after);
    assert SameSource(t[b], t[a].source);
  }

  // ---- The directory as an object ---------------------------------------------------------------------------------

  class PublicationStore {
    var records: Store

    constructor ()
      ensures records == map[]
    {
      records := map[];
    }

    /** Read record after record until one matches. */
    method FindBySource(source: Source) returns (r: Option<Record>)
      requires StoreOk(records) && ValidSource(source)
      ensures r == Previous(records, source)
    {
      var todo := records.Keys;
      while todo != {}
        invariant todo <= records.Keys
        invariant forall id :: IsPrevious(records, source, id) ==> id in todo
        decreases todo
      {
        var id := Pick(todo);
        if SameSource(records[id], source) {
          OnlyPrevious(records, source, id);
          return Some(records[id]);
        }
        todo := todo - {id};
      }
      return None;
    }

    method Save(record: Record, disk: bool)
      modifies this
      ensures records == if disk then old(records)[record.id := record] else old(records)
    {
      if disk { records := records[record.id := record]; }
    }
  }

  lemma OnlyPrevious(store: Store, source: Source, id: string)
    requires StoreOk(store) && ValidSource(source) && IsPrevious(store, source, id)
    ensures Previous(store, source) == Some(store[id])
  {
    hide IsSlug;
    forall other | IsPrevious(store, source, other) ensures other == id {
      SourceMatches(store[other], source);
      SourceMatches(store[id], source);
      assert SameSource(store[other], store[id].source);
    }
  }

  class Service {
    const store: PublicationStore
    const config: Config

    constructor (store: PublicationStore, config: Config)
      ensures this.store == store && this.config == config
    {
      this.store, this.config := store, config;
    }

    /** `Publish`: a failed push is saved too, as failed. */
    method PublishPost(req: Request, env: Env)
      requires StoreOk(store.records) && env.newId !in store.records
      modifies store
      ensures store.records == PublishOne(old(store.records), config, req, env)
      ensures StoreOk(store.records) && Stable(old(store.records), store.records)
    {
      PublishKeeps(store.records, config, req, env);
      hide StoreOk, Render;
      if !ValidSource(req.source) { return; }
      if env.fetched.None? { return; }
      var previous := store.FindBySource(req.source);
      var rendered := Render(config, req, env.fetched.value, previous, env.now);
      if rendered.None? { return; }
      if previous.None? {
        if env.pathExists.None? { return; }
        if env.pathExists.value && !req.overwrite { return; }
      }
      var id, createdAt := env.newId, env.now;
      if previous.Some? { id, createdAt := previous.value.id, previous.value.createdAt; }
      if !env.assets { return; }
      var p := rendered.value;
      var record := Record(id, req.source, p.title, p.slug, p.path, p.url, createdAt, Published);
      if !env.pushed { record := record.(status := FailedPush); }
      store.Save(record, env.saved);
    }
  }
}
