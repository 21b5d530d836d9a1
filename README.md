# Watchlist manager and explorer context menu, modelled in Dafny

This project models two pieces of a peer-to-peer web browser.

- **The watchlist manager** (`watchlist.dfy`, module `Watchlist`). It runs in the background process. It keeps a set of watched `drive://` sites in a store, resolves each site's name to a content key, pre-fetches the site and marks it resolved. It tells subscribers with a `resolved` event.
  - The store is a field of the class `Manager`: a map from (owner, url) to an entry.
  - Every call to the store, resolver or archive loader, and every event, is appended to the manager's `trace` in order.
  - `watch` is not awaited by its callers. So `addSite` and `setup` only record the run they start, in `tasks`.
  - `WatchStep` performs one run of `watch`. The outcome of every foreign call it makes is a parameter.
  - A retry is a returned `Retry(next)` value, not a timer.
- **The file explorer's context menu** (`context_menu.dfy`, module `ContextMenu`). `ConstructItems` pushes entries onto a list in the source's order, and returns separators and labelled items with their `disabled` flags. The explorer state is abstract: the selection, whether the path is a file, the query view flag, drive writability, and what `canShare` answers for each item.

Two behaviours of the source are kept as written:
- **The retry drops its site.** `setTimeout(watch, 30e3)` reschedules `watch` with no argument, so reading `site.url` throws inside the `try`. The retry is therefore `Retry(NoSite)`. `RetriesNeverResolve` and `FailedResolutionLosesSite` show that a site whose first resolution fails never emits and is never persisted as resolved, whatever the resolver answers later.
- **`removeSite` does not normalise the url.** It deletes the row keyed by the url exactly as given. A bare host therefore misses the `drive://` row that `addSite` wrote (`RemoveDoesNotNormalise`, `ScenarioRemoveBareHost`).

Four more behaviours of the code that the model keeps as they are:
- A failed resolution is retried once per timer firing, but every retry runs without a site, as above. The site itself is never tried again.
- The code has no third state for `resolved`: `watch` only tests it against 0 and only writes 1, and the store is assumed to start a new row at 0. `updateWatchlist` stores whatever patch its caller passes, `resolved` included.
- `watch` persists `resolved = 1` under owner 0, whichever owner added the site. For a site added by another owner, the update therefore targets a row that may not exist. In that case the model leaves the store unchanged.
- With an empty selection and a path that is a file, the context menu's `writable` is the fold over an empty selection, which is `true`. So "Rename", "Delete" and "Edit" are enabled there, whatever the current drive's writability.

Three scenario methods play through these cases end to end: `ScenarioResolvedOnce`, `ScenarioRetryLosesSite` and `ScenarioRemoveBareHost`.

## Model

| member | source | states |
|---|---|---|
| `Watchlist.CheckUrl` | app/bg/dat/watchlist.js:69-71 | the url guard (falsy, or not of type string) fails exactly when the url is not a non-empty string, with "url must be a string"; otherwise the url is passed on unchanged |
| `Watchlist.WithScheme` | app/bg/dat/watchlist.js:43-45 | the result always starts with `drive://` and ends with the input; it equals the input exactly when the input already starts with `drive://`, and otherwise it is `drive://` followed by the input |
| `Watchlist.WithSchemeIdempotent` | app/bg/dat/watchlist.js:43-45 | normalising twice gives the same url as normalising once |
| `Watchlist.CheckAddArgs` | app/bg/dat/watchlist.js:33-45 | checks run in this order: url, then description (a non-empty string; a missing `opts` throws a TypeError), then `seedWhenResolved` (a boolean). The first failing check decides the error. On success the request carries the scheme-prefixed url and the given description and flag |
| `Watchlist.RemoveDoesNotNormalise` | app/bg/dat/watchlist.js:67-73 | for a non-empty bare host (no `drive://`), the url removeSite uses differs from the url addSite stores |
| `Watchlist.ApplyPatch` | app/bg/dat/watchlist.js:61 | a patch sets each of the three fields it carries (description, `seedWhenResolved`, `resolved`) to the carried value and leaves each field it does not carry as it was (assumed store semantics) |
| `Watchlist.Updated` | app/bg/dat/watchlist.js:61 | an update patches only the row (owner, site.url), if that row exists; no row is created, and no other row changes |
| `Watchlist.Emitted` | app/bg/dat/watchlist.js:99 | the events of a trace: a site is among them exactly when the trace holds an emit of it |
| `Watchlist.EmittedAppend` | app/bg/dat/watchlist.js:15 | the events of two consecutive stretches of effects are the events of the first, then those of the second |
| `Watchlist.WatchEffects` | app/bg/dat/watchlist.js:84-103 | a run of watch without a site calls nothing. A run with a site first asks the resolver for its url, and makes at most five effects in all, that call included |
| `Watchlist.WatchEvents` | app/bg/dat/watchlist.js:97-100 | a run emits at most one event. It emits `resolved` with its site exactly when the name resolves to a truthy key, the archive loads and `site.resolved === 0` |
| `Watchlist.FailedResolutionTouchesNothing` | app/bg/dat/watchlist.js:86-94 | when the resolver throws or answers falsy, the run's only effect is the resolution attempt: no archive load, no event, no store call |
| `Watchlist.PersistComesLast` | app/bg/dat/watchlist.js:97-102 | a completed run ends with the download request, then one update of `{resolved: 1}` under owner 0, after any event; a run that does not complete makes no store call |
| `Watchlist.WatchStepResult` | app/bg/dat/watchlist.js:86-103 | a run retries exactly when it has no site or no key, and every retry carries no site. It finishes exactly when it completes and the store accepts the update. A rejected update surfaces as "Failed to update the watchlist", and a failed archive load as the loader's own error |
| `Watchlist.RetryChain` | app/bg/dat/watchlist.js:90-93 | following a run's retries consumes one resolver answer each. With no answers the original run is still pending; afterwards what is pending is the original run, a retry without a site, or nothing once a run finished or was rejected |
| `Watchlist.RetryChainFirstAnswer` | app/bg/dat/watchlist.js:86-103 | with at least one answer, the chain's effects are those of the first run alone; nothing is pending when that run had a site and found a key (it finished or was rejected), and otherwise a retry without a site stays pending |
| `Watchlist.RetriesNeverResolve` | app/bg/dat/watchlist.js:87-93 | a retry without a site, and every retry after it, does nothing and schedules another retry without a site, so one stays pending for ever, for any resolver answers |
| `Watchlist.FailedResolutionLosesSite` | app/bg/dat/watchlist.js:84-94 | after a failed first resolution, however the later answers go, the only effect is that first attempt; nothing is emitted and nothing persisted, and a retry without a site stays pending |
| `Watchlist.PersistedResolutionSuppressesEvent` | app/bg/dat/watchlist.js:98-102 | once `resolved = 1` is stored for a site under owner 0, the copy of it read back from owner 0 emits nothing when it is watched again |
| `Watchlist.Manager.constructor` | app/bg/dat/watchlist.js:15 | a manager starts from a given store, with no effects and no watch runs |
| `Watchlist.Manager.Events` | app/bg/dat/watchlist.js:77-79 | a site is in the manager's event history exactly when the trace holds an emit of it, and the history is no longer than the trace. Its order comes from `EmittedAppend` and the `Events` clause of `WatchStep`: each run appends its events at the end |
| `Watchlist.Manager.Setup` | app/bg/dat/watchlist.js:20-30 | loads owner 0's sites with one store call. On a store failure it fails with "Failed to load the watchlist" and starts nothing. Otherwise it starts one watch run for each owner-0 site, none twice, and none for anything else, and keeps the runs already started. The store never changes |
| `Watchlist.Manager.AddSite` | app/bg/dat/watchlist.js:32-53 | an argument error returns that error with no store call and no other change. Otherwise it makes one store call with the scheme-prefixed url. On success it writes that row (unresolved) and starts watching it; on a store failure it fails with "Failed to add to watchlist" and starts nothing |
| `Watchlist.Manager.GetSites` | app/bg/dat/watchlist.js:55-57 | one store call. On success it returns exactly the owner's sites, each url once; the store's own error passes through unchanged |
| `Watchlist.Manager.UpdateWatchlist` | app/bg/dat/watchlist.js:59-65 | one store call. On success the row is patched; on failure it fails with "Failed to update the watchlist" and the store is unchanged |
| `Watchlist.Manager.RemoveSite` | app/bg/dat/watchlist.js:67-73 | a bad url fails with "url must be a string" and no store call. Otherwise it makes exactly one store call with the url unchanged, which deletes that row, or passes the store's own error through. Watch runs are never cancelled |
| `Watchlist.Manager.WatchStep` | app/bg/dat/watchlist.js:84-103 | a run of watch appends exactly the effects in `WatchEffects` and returns the step in `WatchStepResult`. It adds the `resolved` event only for a completed run of an unresolved site, and changes the store only when it finishes |
| `ContextMenu.FoldWritable` | app/userland/explorer/js/lib/context-menu.js:10 | the `reduce` with `acc && v.drive.writable` is true exactly when the start value is true and every item's drive is writable |
| `ContextMenu.Writable` | app/userland/explorer/js/lib/context-menu.js:88 | a selection is writable exactly when every selected item's drive is writable; an empty selection is writable |
| `ContextMenu.ConstructItems` | app/userland/explorer/js/lib/context-menu.js:6-168 | the single-item branch is taken for one selected item or a file path and opens with its four entries (only those in a query view); several items give exactly Delete then Export; an empty selection gives the full location menu; every menu but the query view ends with an enabled Export; no separator at either end or next to another (details below) |
| `ContextMenu.SingleItemMenu` | app/userland/explorer/js/lib/context-menu.js:8-86 | the single-item branch opens with its four entries; in a query view it stops there, otherwise exactly the six entries of `Actions` follow, which have the properties of `ActionsOf` |
| `ContextMenu.SingleItemActions` | app/userland/explorer/js/lib/context-menu.js:44-86 | pushes exactly, in order: a separator, "Edit" (files only), "Rename", "Delete", a separator, "Diff / merge" (folders only), "Export"; and so has every property `ActionsOf` lists |
| `ContextMenu.ActionsShape` | app/userland/explorer/js/lib/context-menu.js:44-86 | the tail in that order has "Edit" exactly for files and "Diff / merge" exactly for folders; "Rename", "Delete" and "Edit" are disabled exactly when not writable, and nothing else is; two separators, never adjacent; "Export" last |
| `ContextMenu.LocationMenu` | app/userland/explorer/js/lib/context-menu.js:100-166 | an empty selection at a non-file location gives New file, New folder, New link, a separator, Open as website, Copy drive link, Copy path, a separator, then Diff / merge, Import, Export. The "New" entries and Import are disabled exactly when the current drive is read-only; Open as website and Copy drive link exactly when the location cannot be shared |

What `ContextMenu.ConstructItems` states:
- The single-item branch is taken when exactly one item is selected, or whenever the path is a file, even with a multi-item selection. It opens with four entries, in order:
  1. "Open in new tab"
  2. "Open as website"
  3. "Copy drive link", disabled exactly when the subject cannot be shared
  4. "Copy file path" or "Copy folder path"
- In a query view, those four are all the branch gives.
- Otherwise six entries follow, in this order: a separator, "Edit" (files only), "Rename", "Delete", a separator, "Diff / merge" (folders only), "Export".
- Several selected items, with a path that is not a file, give exactly "Delete" (disabled exactly when not every selected drive is writable) then "Export".
- The empty-selection menu is given in full.
- Every menu except the query view ends with an enabled "Export".
- No menu starts or ends with a separator, and no two separators are adjacent.

## Left out

- The name resolver, archive loading, `pda.download` and the watchlist database are foreign modules. Each call's outcome is a parameter: `resolution`, `archiveLoads`, `storeAccepts`.
- The download's outcome is not an input at all, because the source discards it.
- The database's semantics are assumed, since its code is not part of this model:
  - adding writes the row with `resolved` 0 and returns that row, which is the site `addSite` then watches;
  - an update patches an existing row and ignores a missing one;
  - removing deletes the row keyed by (owner, url);
  - listing returns the owner's rows in no particular order.
- Watchlist.Manager.GetSites: the order of the returned sites is not stated, because the store's ordering is unknown.
- Only the description, the flag and `resolved` of `opts` and of an update patch are modelled. Other fields the store may accept are not.
- Timing: the 30-second delay of `setTimeout` is not modelled. A retry is the returned `Retry` value, which the caller may run again.
- Concurrency: `watch` runs are fire-and-forget. They are recorded in `tasks` and run later with `WatchStep`. Interleavings of several runs are not modelled.
- The first synchronous part of `watch` (the resolver call made before `setup` or `addSite` returns) is moved into `WatchStep`.
- `emit-stream` and the EventEmitter are left out. `createEventsStream` is modelled as the `Events` view of the trace. Broadcasting to several subscribers is not modelled.
- Watchlist.Manager.Events: this is the emitter's whole history. A stream from `createEventsStream` delivers only the events emitted after it was created, which is a suffix of `Events()`. The model has no subscription point, so that suffix is not stated.
- The logger is left out.
- JavaScript numbers are modelled as integers, so NaN and fractions are not covered. They only matter for the truthiness of a resolver answer.
- In the context menu, the icons, the click handlers (clipboard, toasts, navigation, `app.on*` callbacks) and the internals of `canShare` and `getShareUrl` are left out. What `canShare` answers is a field of each item.
- app/builtin-pages/views/search.js is not part of this model. It only renders two fetched lists.
