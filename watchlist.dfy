/**
 * The watchlist manager of the browser's background process: a set of
 * watched decentralized sites, each resolved to a content key, pre-fetched
 * and marked resolved in a persistent store.
 *
 * The store, the name resolver and the archive loader are foreign modules:
 * the store is modelled as a map owned by the manager, and the outcome of
 * every foreign call is a parameter of the operation that makes it. Every
 * call the manager makes to a collaborator, and every event it emits, is
 * appended to `trace`, so that the order of effects can be stated.
 */
module Watchlist {

  datatype Option<T> = None | Some(value: T)

  /** The JavaScript values an argument can be, as far as the guards see them. */
  datatype JsValue =
    | Undefined
    | Null
    | Bool(b: bool)
    | Number(n: int)
    | Str(s: string)
    | Object

  /** JavaScript truthiness (`!v` is `!Truthy(v)`). */
  predicate Truthy(v: JsValue) {
    match v
    case Undefined => false
    case Null => false
    case Bool(b) => b
    case Number(n) => n != 0
    case Str(s) => s != ""
    case Object => true
  }

  /** The JavaScript `typeof` operator. */
  function TypeOf(v: JsValue): string {
    match v
    case Undefined => "undefined"
    case Null => "object"
    case Bool(_) => "boolean"
    case Number(_) => "number"
    case Str(_) => "string"
    case Object => "object"
  }

  predicate IsNonEmptyString(v: JsValue) {
    v.Str? && v.s != ""
  }

  /** Errors that leave the manager. `Foreign` is a collaborator's own error, passed on unchanged. */
  datatype Error = Message(text: string) | TypeError | Foreign

  datatype Outcome = Ok | Failed(error: Error)

  datatype Result<T> = Success(value: T) | Failure(error: Error)

  const Scheme: string := "drive://"

  const UrlMustBeString: string := "url must be a string"
  const DescriptionMustBeString: string := "description must be a string"
  const SeedMustBeBoolean: string := "seedWhenResolved must be a boolean"
  const FailedToAdd: string := "Failed to add to watchlist"
  const FailedToUpdate: string := "Failed to update the watchlist"
  const FailedToLoad: string := "Failed to load the watchlist"

  /** The options object given to addSite; `NoOptions` is an undefined or null `opts`. */
  datatype Options = NoOptions | Options(description: JsValue, seedWhenResolved: JsValue)

  /** A watched site as the store hands it out. */
  datatype Site = Site(url: string, description: string, seedWhenResolved: bool, resolved: int)

  /** A row of the store is keyed by its owner (0 is the system-wide scope) and its url. */
  datatype EntryKey = EntryKey(owner: int, url: string)
  datatype Entry = Entry(description: string, seedWhenResolved: bool, resolved: int)

  /** A partial update of a row; absent fields are left as they are. */
  datatype Patch = Patch(description: Option<string>, seedWhenResolved: Option<bool>, resolved: Option<int>)

  const MarkResolved: Patch := Patch(None, None, Some(1))

  /** What a call to addSite asks the store to write, once its arguments are checked. */
  datatype AddRequest = AddRequest(url: string, description: string, seedWhenResolved: bool)

  /** One observable effect: a call to the store, the resolver or the archive loader, or an emitted event. */
  datatype Effect =
    | AddCall(owner: int, url: string, description: string, seedWhenResolved: bool)
    | GetCall(owner: int)
    | UpdateCall(owner: int, site: Site, patch: Patch)
    | RemoveCall(owner: int, url: string)
    | Resolve(url: string)
    | LoadArchive(key: JsValue)
    | Emit(site: Site)
    | Download(key: JsValue)

  /** The argument of one run of `watch`: a site, or nothing at all (what a retry receives). */
  datatype WatchTarget = Target(site: Site) | NoSite

  /** How one run of `watch` ends: a retry scheduled with `next`, done, or a rejected promise. */
  datatype Step = Retry(next: WatchTarget) | Finished | Rejected(error: Error)

  // ---------------------------------------------------------------------------
  // Argument checks and url normalisation
  // ---------------------------------------------------------------------------

  /** The url check shared by addSite and removeSite; the url is passed on unchanged. */
  function CheckUrl(url: JsValue): (r: Result<string>)
    ensures r.Success? <==> IsNonEmptyString(url)
    ensures r.Success? ==> r.value == url.s
    ensures r.Failure? ==> r.error == Message(UrlMustBeString)
  {
    if !Truthy(url) || TypeOf(url) != "string" then Failure(Message(UrlMustBeString))
    else Success(url.s)
  }

  /** Prefixes the drive scheme unless the url already starts with it. */
  function WithScheme(url: string): (r: string)
    ensures Scheme <= r
    ensures r == url || r == Scheme + url
    ensures r == url <==> Scheme <= url
    ensures |url| <= |r| && r[|r| - |url|..] == url
  {
    if Scheme <= url then url else Scheme + url
  }

  lemma WithSchemeIdempotent(url: string)
    ensures WithScheme(WithScheme(url)) == WithScheme(url)
  {
  }

  /**
   * The checks of addSite, in their order: url, then description, then
   * seedWhenResolved; the first that fails gives the error.
   */
  function CheckAddArgs(url: JsValue, opts: Options): (r: Result<AddRequest>)
    ensures r.Success? <==>
      IsNonEmptyString(url) && opts.Options? &&
      IsNonEmptyString(opts.description) && opts.seedWhenResolved.Bool?
    ensures !IsNonEmptyString(url) ==> r == Failure(Message(UrlMustBeString))
    ensures IsNonEmptyString(url) && opts.NoOptions? ==> r == Failure(TypeError)
    ensures IsNonEmptyString(url) && opts.Options? && !IsNonEmptyString(opts.description) ==>
      r == Failure(Message(DescriptionMustBeString))
    ensures (IsNonEmptyString(url) && opts.Options? && IsNonEmptyString(opts.description) &&
             !opts.seedWhenResolved.Bool?) ==> r == Failure(Message(SeedMustBeBoolean))
    ensures r.Success? ==>
      r.value.url == WithScheme(url.s) && Scheme <= r.value.url &&
      r.value.description == opts.description.s && r.value.description != "" &&
      r.value.seedWhenResolved == opts.seedWhenResolved.b
  {
    match CheckUrl(url)
    case Failure(e) => Failure(e)
    case Success(u) =>
      if opts.NoOptions? then Failure(TypeError)
      else if !Truthy(opts.description) || TypeOf(opts.description) != "string" then
        Failure(Message(DescriptionMustBeString))
      else if TypeOf(opts.seedWhenResolved) != "boolean" then
        Failure(Message(SeedMustBeBoolean))
      else
        Success(AddRequest(WithScheme(u), opts.description.s, opts.seedWhenResolved.b))
  }

  /** removeSite keys the store by the url as given: a bare host never names the row addSite wrote for it. */
  lemma RemoveDoesNotNormalise(host: string, opts: Options)
    requires host != "" && !(Scheme <= host)
    requires CheckAddArgs(Str(host), opts).Success?
    ensures CheckUrl(Str(host)).value != CheckAddArgs(Str(host), opts).value.url
  {
  }

  // ---------------------------------------------------------------------------
  // The store and the effect trace
  // ---------------------------------------------------------------------------

  function SiteAt(k: EntryKey, e: Entry): Site {
    Site(k.url, e.description, e.seedWhenResolved, e.resolved)
  }

  function ApplyPatch(e: Entry, p: Patch): (r: Entry)
    ensures p.resolved.Some? ==> r.resolved == p.resolved.value
    ensures p.resolved.None? ==> r.resolved == e.resolved
    ensures p.description.Some? ==> r.description == p.description.value
    ensures p.description.None? ==> r.description == e.description
    ensures p.seedWhenResolved.Some? ==> r.seedWhenResolved == p.seedWhenResolved.value
    ensures p.seedWhenResolved.None? ==> r.seedWhenResolved == e.seedWhenResolved
  {
    Entry(
      if p.description.Some? then p.description.value else e.description,
      if p.seedWhenResolved.Some? then p.seedWhenResolved.value else e.seedWhenResolved,
      if p.resolved.Some? then p.resolved.value else e.resolved)
  }

  /** The store after an update of the row (owner, site.url); a missing row is not created. */
  function Updated(store: map<EntryKey, Entry>, owner: int, site: Site, p: Patch): (r: map<EntryKey, Entry>)
    ensures r.Keys == store.Keys
    ensures forall k :: k in r && k != EntryKey(owner, site.url) ==> r[k] == store[k]
    ensures EntryKey(owner, site.url) in r ==> r[EntryKey(owner, site.url)] == ApplyPatch(store[EntryKey(owner, site.url)], p)
  {
    var k := EntryKey(owner, site.url);
    if k in store then store[k := ApplyPatch(store[k], p)] else store
  }

  /** The sites of one owner. */
  ghost function SitesOf(store: map<EntryKey, Entry>, owner: int): set<Site> {
    set k | k in store && k.owner == owner :: SiteAt(k, store[k])
  }

  /** The events emitted, in order, within a trace. */
  function Emitted(t: seq<Effect>): (r: seq<Site>)
    ensures |r| <= |t|
    ensures forall s :: s in r <==> Emit(s) in t
  {
    if t == [] then []
    else (if t[0].Emit? then [t[0].site] else []) + Emitted(t[1..])
  }

  lemma {:induction false} EmittedAppend(a: seq<Effect>, b: seq<Effect>)
    ensures Emitted(a + b) == Emitted(a) + Emitted(b)
  {
    if a == [] {
      assert a + b == b;
    } else {
      assert (a + b)[1..] == a[1..] + b;
      EmittedAppend(a[1..], b);
    }
  }

  // ---------------------------------------------------------------------------
  // One run of watch
  // ---------------------------------------------------------------------------

  /** The resolver answered with a key: it did not throw, and its answer is truthy. */
  predicate KeyFound(resolution: Option<JsValue>) {
    resolution.Some? && Truthy(resolution.value)
  }

  /** The run of watch gets past resolving and loading the archive. */
  predicate Completes(target: WatchTarget, resolution: Option<JsValue>, archiveLoads: bool) {
    target.Target? && KeyFound(resolution) && archiveLoads
  }

  /** The effects of a run of `watch` that gets a key and loads the archive. */
  function CompletedRun(site: Site, key: JsValue): seq<Effect> {
    [Resolve(site.url), LoadArchive(key)]
    + (if site.resolved == 0 then [Emit(site)] else [])
    + [Download(key), UpdateCall(0, site, MarkResolved)]
  }

  /**
   * The effects of one run of `watch`: resolve the name; on a key, load the
   * archive, emit `resolved` if the site was unresolved, start the download
   * and persist resolved = 1 under owner 0. Without a site nothing is
   * called at all: reading its url throws first.
   */
  function WatchEffects(target: WatchTarget, resolution: Option<JsValue>, archiveLoads: bool): (t: seq<Effect>)
    ensures t == [] <==> target.NoSite?
    ensures t != [] ==> t[0] == Resolve(target.site.url)
    ensures |t| <= 5
  {
    match target
    case NoSite => []
    case Target(site) =>
      if !KeyFound(resolution) then [Resolve(site.url)]
      else if !archiveLoads then [Resolve(site.url), LoadArchive(resolution.value)]
      else CompletedRun(site, resolution.value)
  }

  /** A run emits `resolved` with its site exactly when it completes and the site was unresolved: at most one event. */
  lemma WatchEvents(target: WatchTarget, resolution: Option<JsValue>, archiveLoads: bool)
    ensures var events := Emitted(WatchEffects(target, resolution, archiveLoads));
      |events| <= 1 &&
      events == if Completes(target, resolution, archiveLoads) && target.site.resolved == 0
                then [target.site] else []
  {
    if Completes(target, resolution, archiveLoads) {
      var site, key := target.site, resolution.value;
      var emit := if site.resolved == 0 then [Emit(site)] else [];
      var tail := [Download(key), UpdateCall(0, site, MarkResolved)];
      assert Emitted(tail) == [] by {
        assert tail[1..] == [UpdateCall(0, site, MarkResolved)];
        assert tail[1..][1..] == [];
      }
      assert Emitted([Resolve(site.url), LoadArchive(key)]) == [] by {
        assert [Resolve(site.url), LoadArchive(key)][1..] == [LoadArchive(key)];
      }
      EmittedAppend([Resolve(site.url), LoadArchive(key)] + emit, tail);
      EmittedAppend([Resolve(site.url), LoadArchive(key)], emit);
    } else if target.Target? && KeyFound(resolution) {
      var site, key := target.site, resolution.value;
      assert [Resolve(site.url), LoadArchive(key)][1..] == [LoadArchive(key)];
    }
  }

  /** A failed or falsy resolution calls the resolver and nothing else: no archive, no event, no store call. */
  lemma FailedResolutionTouchesNothing(site: Site, resolution: Option<JsValue>, archiveLoads: bool)
    requires !KeyFound(resolution)
    ensures forall e :: e in WatchEffects(Target(site), resolution, archiveLoads) ==> e == Resolve(site.url)
  {
  }

  /**
   * A completed run ends with the download request and then the update of
   * resolved = 1 under owner 0, after any event; a run that does not
   * complete makes no store call.
   */
  lemma PersistComesLast(target: WatchTarget, resolution: Option<JsValue>, archiveLoads: bool)
    ensures var t := WatchEffects(target, resolution, archiveLoads);
      (Completes(target, resolution, archiveLoads) ==>
        |t| >= 4 &&
        t[|t| - 1] == UpdateCall(0, target.site, MarkResolved) &&
        t[|t| - 2] == Download(resolution.value) &&
        forall i :: 0 <= i < |t| - 1 ==> !t[i].UpdateCall?) &&
      (!Completes(target, resolution, archiveLoads) ==> forall i :: 0 <= i < |t| ==> !t[i].UpdateCall?)
  {
  }

  /** How one run of `watch` ends. */
  function WatchStepResult(target: WatchTarget, resolution: Option<JsValue>, archiveLoads: bool, storeAccepts: bool): (r: Step)
    ensures r.Retry? <==> target.NoSite? || !KeyFound(resolution)
    ensures r.Retry? ==> r.next == NoSite
    ensures r == Finished <==> Completes(target, resolution, archiveLoads) && storeAccepts
    ensures Completes(target, resolution, archiveLoads) && !storeAccepts ==> r == Rejected(Message(FailedToUpdate))
    ensures target.Target? && KeyFound(resolution) && !archiveLoads ==> r == Rejected(Foreign)
  {
    if target.NoSite? || !KeyFound(resolution) then Retry(NoSite)
    else if !archiveLoads then Rejected(Foreign)
    else if !storeAccepts then Rejected(Message(FailedToUpdate))
    else Finished
  }

  /**
   * Runs `watch` and then every retry it schedules, one per resolver answer;
   * gives the argument of the run still pending (`Some(NoSite)` for a retry
   * without a site, `None` when the chain has ended) and the effects of all
   * the runs.
   */
  function RetryChain(target: WatchTarget, answers: seq<Option<JsValue>>, archiveLoads: bool, storeAccepts: bool): (r: (Option<WatchTarget>, seq<Effect>))
    ensures answers == [] ==> r == (Some(target), [])
    ensures r.0 == Some(target) || r.0 == Some(NoSite) || r.0 == None
    decreases |answers|
  {
    if answers == [] then (Some(target), [])
    else
      var step := WatchStepResult(target, answers[0], archiveLoads, storeAccepts);
      var t := WatchEffects(target, answers[0], archiveLoads);
      if step.Retry? then
        var rest := RetryChain(step.next, answers[1..], archiveLoads, storeAccepts);
        (rest.0, t + rest.1)
      else (None, t)
  }

  /** A retry never gets back to a site: whatever the resolver says, every retry does nothing and schedules another empty one. */
  lemma {:induction false} RetriesNeverResolve(answers: seq<Option<JsValue>>, archiveLoads: bool, storeAccepts: bool)
    ensures RetryChain(NoSite, answers, archiveLoads, storeAccepts) == (Some(NoSite), [])
  {
    if answers != [] {
      RetriesNeverResolve(answers[1..], archiveLoads, storeAccepts);
      assert WatchEffects(NoSite, answers[0], archiveLoads) + [] == [];
    }
  }

  /** One answer decides the chain: a found key for a site ends it, anything else leaves a retry without a site pending for ever. */
  lemma {:induction false} RetryChainFirstAnswer(target: WatchTarget, answers: seq<Option<JsValue>>, archiveLoads: bool, storeAccepts: bool)
    requires answers != []
    ensures RetryChain(target, answers, archiveLoads, storeAccepts) ==
      (if target.Target? && KeyFound(answers[0]) then None else Some(NoSite),
       WatchEffects(target, answers[0], archiveLoads))
  {
    RetriesNeverResolve(answers[1..], archiveLoads, storeAccepts);
    assert WatchEffects(target, answers[0], archiveLoads) + [] == WatchEffects(target, answers[0], archiveLoads);
  }

  /** After one failed resolution the site is lost: later answers, even keys, bring no event and no store call. */
  lemma {:induction false} FailedResolutionLosesSite(site: Site, answers: seq<Option<JsValue>>, archiveLoads: bool, storeAccepts: bool)
    requires answers != [] && !KeyFound(answers[0])
    ensures RetryChain(Target(site), answers, archiveLoads, storeAccepts) == (Some(NoSite), [Resolve(site.url)])
    ensures Emitted(RetryChain(Target(site), answers, archiveLoads, storeAccepts).1) == []
  {
    RetriesNeverResolve(answers[1..], archiveLoads, storeAccepts);
    assert [Resolve(site.url)] + [] == [Resolve(site.url)];
  }

  /** Once resolved = 1 is persisted for a site under owner 0, a site read back from there emits nothing when watched again. */
  lemma PersistedResolutionSuppressesEvent(store: map<EntryKey, Entry>, site: Site, s: Site,
                                           resolution: Option<JsValue>, archiveLoads: bool)
    requires EntryKey(0, site.url) in store
    requires s in SitesOf(Updated(store, 0, site, MarkResolved), 0) && s.url == site.url
    ensures Emitted(WatchEffects(Target(s), resolution, archiveLoads)) == []
  {
    var after := Updated(store, 0, site, MarkResolved);
    var k :| k in after && k.owner == 0 && SiteAt(k, after[k]) == s;
    assert k == EntryKey(0, site.url);
    WatchEvents(Target(s), resolution, archiveLoads);
  }

  // ---------------------------------------------------------------------------
  // The manager
  // ---------------------------------------------------------------------------

  class Manager {
    /** The persistent watchlist store. */
    var store: map<EntryKey, Entry>
    /** Every call to a collaborator and every emitted event, in order. */
    var trace: seq<Effect>
    /** The runs of `watch` started and not awaited, in the order they were started. */
    var tasks: seq<WatchTarget>

    constructor (initial: map<EntryKey, Entry>)
      ensures store == initial && trace == [] && tasks == []
    {
      store := initial;
      trace := [];
      tasks := [];
    }

    /** The `resolved` events emitted so far. */
    function Events(): (r: seq<Site>)
      reads this
      ensures |r| <= |trace|
      ensures forall s :: s in r <==> Emit(s) in trace
    {
      Emitted(trace)
    }

    /** setup: load every site of owner 0 and start watching each one. */
    method Setup(storeAccepts: bool) returns (r: Outcome)
      modifies this
      ensures store == old(store)
      ensures trace == old(trace) + [GetCall(0)]
      ensures r.Failed? <==> !storeAccepts
      ensures !storeAccepts ==> r == Failed(Message(FailedToLoad)) && tasks == old(tasks)
      ensures storeAccepts ==>
        |old(tasks)| <= |tasks| && tasks[..|old(tasks)|] == old(tasks) &&
        (forall i :: |old(tasks)| <= i < |tasks| ==> tasks[i].Target? && tasks[i].site in SitesOf(store, 0)) &&
        (forall s :: s in SitesOf(store, 0) ==> Target(s) in tasks[|old(tasks)|..]) &&
        (forall i, j :: |old(tasks)| <= i < j < |tasks| ==> tasks[i] != tasks[j])
    {
      var loaded := GetSites(0, storeAccepts);
      if loaded.Failure? {
        return Failed(Message(FailedToLoad));
      }
      var sites := loaded.value;
      ghost var before := tasks;
      for i := 0 to |sites|
        invariant store == old(store) && trace == old(trace) + [GetCall(0)]
        invariant tasks == before + seq(i, j requires 0 <= j < i => Target(sites[j]))
      {
        tasks := tasks + [Target(sites[i])];
      }
      forall s | s in SitesOf(store, 0)
        ensures Target(s) in tasks[|before|..]
      {
        var j :| 0 <= j < |sites| && sites[j] == s;
        assert tasks[|before|..][j] == Target(s);
      }
      forall i, j | |before| <= i < j < |tasks|
        ensures tasks[i] != tasks[j]
      {
        assert tasks[i] == Target(sites[i - |before|]) && tasks[j] == Target(sites[j - |before|]);
      }
      r := Ok;
    }

    /** addSite: check the arguments, write the row with the scheme-prefixed url, then start watching it. */
    method AddSite(owner: int, url: JsValue, opts: Options, storeAccepts: bool) returns (r: Outcome)
      modifies this
      ensures CheckAddArgs(url, opts).Failure? ==>
        r == Failed(CheckAddArgs(url, opts).error) &&
        store == old(store) && trace == old(trace) && tasks == old(tasks)
      ensures CheckAddArgs(url, opts).Success? ==>
        var req := CheckAddArgs(url, opts).value;
        var site := Site(req.url, req.description, req.seedWhenResolved, 0);
        trace == old(trace) + [AddCall(owner, req.url, req.description, req.seedWhenResolved)] &&
        (storeAccepts ==>
          r == Ok &&
          store == old(store)[EntryKey(owner, req.url) := Entry(req.description, req.seedWhenResolved, 0)] &&
          tasks == old(tasks) + [Target(site)]) &&
        (!storeAccepts ==>
          r == Failed(Message(FailedToAdd)) && store == old(store) && tasks == old(tasks))
    {
      var checked := CheckAddArgs(url, opts);
      if checked.Failure? {
        return Failed(checked.error);
      }
      var req := checked.value;
      trace := trace + [AddCall(owner, req.url, req.description, req.seedWhenResolved)];
      if !storeAccepts {
        return Failed(Message(FailedToAdd));
      }
      store := store[EntryKey(owner, req.url) := Entry(req.description, req.seedWhenResolved, 0)];
      tasks := tasks + [Target(Site(req.url, req.description, req.seedWhenResolved, 0))];
      r := Ok;
    }

    /** getSites: the sites of one owner, straight from the store; a store error passes through. */
    method GetSites(owner: int, storeAccepts: bool) returns (r: Result<seq<Site>>)
      modifies this`trace
      ensures trace == old(trace) + [GetCall(owner)]
      ensures r.Success? <==> storeAccepts
      ensures r.Failure? ==> r.error == Foreign
      ensures r.Success? ==>
        (forall s :: s in r.value <==> s in SitesOf(store, owner)) &&
        (forall i, j :: 0 <= i < j < |r.value| ==> r.value[i].url != r.value[j].url)
    {
      trace := trace + [GetCall(owner)];
      if !storeAccepts {
        return Failure(Foreign);
      }
      var sites: seq<Site> := [];
      var remaining := store.Keys;
      ghost var done: set<EntryKey> := {};
      while remaining != {}
        invariant remaining + done == store.Keys && remaining !! done
        invariant forall i :: 0 <= i < |sites| ==> EntryKey(owner, sites[i].url) in done
        invariant forall i :: 0 <= i < |sites| ==> sites[i] in SitesOf(store, owner)
        invariant forall k :: k in done && k.owner == owner ==> SiteAt(k, store[k]) in sites
        invariant forall i, j :: 0 <= i < j < |sites| ==> sites[i].url != sites[j].url
        decreases remaining
      {
        var k :| k in remaining;
        if k.owner == owner {
          sites := sites + [SiteAt(k, store[k])];
        }
        remaining := remaining - {k};
        done := done + {k};
      }
      forall s | s in SitesOf(store, owner)
        ensures s in sites
      {
        var k :| k in store && k.owner == owner && SiteAt(k, store[k]) == s;
        assert k in done;
      }
      r := Success(sites);
    }

    /** updateWatchlist: patch one row; a store error becomes a generic update error. */
    method UpdateWatchlist(owner: int, site: Site, patch: Patch, storeAccepts: bool) returns (r: Outcome)
      modifies this
      ensures trace == old(trace) + [UpdateCall(owner, site, patch)]
      ensures tasks == old(tasks)
      ensures r.Ok? <==> storeAccepts
      ensures r.Failed? ==> r.error == Message(FailedToUpdate)
      ensures store == if storeAccepts then Updated(old(store), owner, site, patch) else old(store)
    {
      trace := trace + [UpdateCall(owner, site, patch)];
      if !storeAccepts {
        return Failed(Message(FailedToUpdate));
      }
      store := Updated(store, owner, site, patch);
      r := Ok;
    }

    /** removeSite: check the url and delete the row keyed by it, as given; a running watch is not stopped. */
    method RemoveSite(owner: int, url: JsValue, storeAccepts: bool) returns (r: Outcome)
      modifies this
      ensures tasks == old(tasks)
      ensures CheckUrl(url).Failure? ==>
        r == Failed(Message(UrlMustBeString)) && store == old(store) && trace == old(trace)
      ensures CheckUrl(url).Success? ==>
        trace == old(trace) + [RemoveCall(owner, url.s)] &&
        (storeAccepts ==> r == Ok && store == old(store) - {EntryKey(owner, url.s)}) &&
        (!storeAccepts ==> r == Failed(Foreign) && store == old(store))
    {
      var checked := CheckUrl(url);
      if checked.Failure? {
        return Failed(checked.error);
      }
      trace := trace + [RemoveCall(owner, checked.value)];
      if !storeAccepts {
        return Failed(Foreign);
      }
      store := store - {EntryKey(owner, checked.value)};
      r := Ok;
    }

    /**
     * One run of `watch`. `resolution` is what the resolver gives (None when
     * it throws), `archiveLoads` whether loading the archive succeeds and
     * `storeAccepts` whether the store takes the final update. The
     * download's outcome is discarded by the source and is no input here.
     */
    method WatchStep(target: WatchTarget, resolution: Option<JsValue>, archiveLoads: bool, storeAccepts: bool)
      returns (step: Step)
      modifies this
      ensures step == WatchStepResult(target, resolution, archiveLoads, storeAccepts)
      ensures trace == old(trace) + WatchEffects(target, resolution, archiveLoads)
      ensures Events() == old(Events()) +
        if Completes(target, resolution, archiveLoads) && target.site.resolved == 0 then [target.site] else []
      ensures store == if step == Finished then Updated(old(store), 0, target.site, MarkResolved) else old(store)
      ensures tasks == old(tasks)
    {
      ghost var effects := WatchEffects(target, resolution, archiveLoads);
      if target.NoSite? {
        // reading `site.url` of an absent site throws inside the try; the error is swallowed
        step := Retry(NoSite);
        assert trace == old(trace) + effects;
      } else {
        var site := target.site;
        trace := trace + [Resolve(site.url)];
        if !KeyFound(resolution) {
          step := Retry(NoSite);
        } else {
          var key := resolution.value;
          trace := trace + [LoadArchive(key)];
          if !archiveLoads {
            step := Rejected(Foreign);
          } else {
            if site.resolved == 0 {
              trace := trace + [Emit(site)];
            }
            trace := trace + [Download(key)];
            assert trace + [UpdateCall(0, site, MarkResolved)] == old(trace) + CompletedRun(site, key);
            var updated := UpdateWatchlist(0, site, MarkResolved, storeAccepts);
            step := if updated.Ok? then Finished else Rejected(updated.error);
          }
        }
      }
      EmittedAppend(old(trace), effects);
      WatchEvents(target, resolution, archiveLoads);
    }
  }

  // ---------------------------------------------------------------------------
  // Scenarios
  // ---------------------------------------------------------------------------

  /** A bare host is stored with the scheme, resolves once, and the stored copy does not notify again. */
  method ScenarioResolvedOnce() {
    var m := new Manager(map[]);
    assert WithScheme("example.com") == "drive://example.com" by {
      assert Scheme[0] != "example.com"[0];
    }
    var added := m.AddSite(0, Str("example.com"), Options(Str("Test"), Bool(true)), true);
    assert added == Ok;
    var site := Site("drive://example.com", "Test", true, 0);
    assert m.tasks == [Target(site)];
    assert m.trace == [AddCall(0, "drive://example.com", "Test", true)];
    assert m.Events() == [] by {
      assert m.trace[1..] == [];
    }
    assert EntryKey(0, "drive://example.com") in m.store;

    var step := m.WatchStep(Target(site), Some(Str("abc123")), true, true);
    assert step == Finished;
    assert m.Events() == [site];
    assert m.store[EntryKey(0, "drive://example.com")].resolved == 1;

    var key := EntryKey(0, "drive://example.com");
    var reloaded := SiteAt(key, m.store[key]);
    assert reloaded.resolved == 1;
    step := m.WatchStep(Target(reloaded), Some(Str("abc123")), true, true);
    assert m.Events() == [site];
  }

  /** A failed resolution schedules an empty retry; the retry never emits, even once the name resolves. */
  method ScenarioRetryLosesSite() {
    var m := new Manager(map[]);
    var site := Site("drive://example.com", "Test", true, 0);
    var step := m.WatchStep(Target(site), None, true, true);
    assert step == Retry(NoSite);
    assert m.trace == [Resolve("drive://example.com")] && m.Events() == [];
    step := m.WatchStep(step.next, Some(Str("abc123")), true, true);
    assert step == Retry(NoSite);
    assert m.Events() == [];
  }

  /** Removing by the bare host leaves the row addSite wrote for it. */
  method ScenarioRemoveBareHost() {
    var m := new Manager(map[]);
    assert WithScheme("example.com") == "drive://example.com" by {
      assert Scheme[0] != "example.com"[0];
    }
    var added := m.AddSite(0, Str("example.com"), Options(Str("Test"), Bool(false)), true);
    var removed := m.RemoveSite(0, Str("example.com"), true);
    assert removed == Ok;
    assert EntryKey(0, "drive://example.com") in m.store;
  }
}
