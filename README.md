# puml-viewer: verified model of the local stores and deep links

This project models the logic at the core of the puml-viewer mobile client, in Dafny:

- **The render-history store.** It keeps a most-recent-first list of render records capped at 50 entries. It mirrors that list into two persistent entries: the list, and the ids of the favourite records. Add deduplicates by render id, prepends and truncates. Remove, clear, toggle-favourite and partial update are filters and maps over the list. Each operation hands its new list to a save step. The save step writes the history entry, then the favourite ids, and only then replaces the list in memory. Loading sets every record's favourite flag from the stored ids.
- **The deep-link helpers.** One builds `exp://<host>/--/<id>` links (development, with a known host) or `pv://<id>` links. The other extracts the id from a parsed URL's protocol and pathname.
- **The settings store.** It holds the service address and the automatic-render flag, each under its own key. The flag is stored as text. A stored address takes effect only when it is non-empty.
- **The update state.** Three flags (`isUpdateAvailable`, `isUpdatePending`, `isChecking`) are moved by guarded check, download and reload operations.

Files:

- `wrappers.dfy`: `Option`.
- `storage.dfy`: one persistent key as an `Entry` object. Reads and writes may fail, and nothing in the model decides when.
- `lists.dfy`: `Filter`, with the facts that it distributes over concatenation (keeps order), keeps everything when nothing is rejected, and keeps pairwise properties.
- `history.dfy`: the history list functions, their lemmas and the `HistoryStore` class.
- `deeplink.dfy`, `settings.dfy`, `updates.dfy`: the other three cores.

Modelling choices:

- **Storage values.** Storage holds the values that would be serialised, not JSON text. Each key is one `Storage.Entry`. A store is constructed over existing entries, so a process restart is a new store over the same entries.
- **Generated inputs.** The generated id and the timestamp of a new record are parameters of `AddToHistory`. The source does not guarantee unique ids, so freshness is a premise of `AddPreservesWellFormed`, not a precondition.
- **Update library results.** The results of the update library are the `CheckOutcome` and `FetchOutcome` parameters.
- **Build flags.** `__DEV__` and the two `hostUri` lookups are parameters of `GenerateDeeplink`.
- **URL parsing.** The URL parser's result is the `ParsedUrl` parameter of `ParseDeeplink`: a parse error, or a protocol and a pathname.

Three behaviours of the code that the model keeps as written:

- **Memory update.** Memory is replaced only after both writes have succeeded (`lib/history-context.tsx:61-71`).
- **Load failure.** A failed load leaves the list as it was (`lib/history-context.tsx:56-58`).
- **Missing favourites key.** A missing favourites key sets every flag to false (`lib/history-context.tsx:49-52`).

## Model

| member | source | states |
|---|---|---|
| `History.NewRecord` | lib/history-context.tsx:73-79 | the new record carries the caller's fields, the given id and timestamp, and `isFavorite = false` whatever the caller passed |
| `Lists.Filter` | lib/history-context.tsx:89 | `Array.prototype.filter`: the result is no longer than the input, holds only input elements that satisfy the predicate, and holds every such element |
| `History.WithoutRender` | lib/history-context.tsx:81 | the old entries kept by add: only entries of other renders, each drawn from the list, and all of them |
| `History.AddKeepsOrder` | lib/history-context.tsx:81 | dropping one render's entries distributes over concatenation, so the other entries keep their relative order |
| `History.Added` | lib/history-context.tsx:81-84 | the new list is non-empty, at most 50 long and at most one longer than before; index 0 is the new record; no later entry has its render id; entries 1.. are a prefix of the old entries of other renders in their order, as long as the cap allows |
| `History.AddMovesRenderToFront` | lib/history-context.tsx:74-84 | a render id already at any position is afterwards held only by index 0, the new record |
| `History.AddEvictsOldestOnly` | lib/history-context.tsx:81-84 | below the cap, add is exactly "new record, then all old entries of other renders"; at or above it, the list is full and only the oldest are cut |
| `History.AddPreservesWellFormed` | lib/history-context.tsx:73-84 | adding a record whose id is not yet present keeps ids unique, render ids unique and the length within 50 |
| `History.Removed` | lib/history-context.tsx:89 | the list after remove is no longer than before, holds no entry with the id, holds only old entries, and holds every old entry with another id |
| `History.RemoveKeepsOrder` | lib/history-context.tsx:89 | remove distributes over concatenation, so the remaining entries keep their relative order |
| `History.RemoveUnknownIsNoop` | lib/history-context.tsx:88-89 | removing an id that no entry has leaves the list unchanged |
| `History.RemoveKeepsOthers` | lib/history-context.tsx:88-89 | after remove no entry has the id, every entry with another id is kept, nothing new appears, and the list shrinks when the id was present |
| `History.RemovePreservesWellFormed` | lib/history-context.tsx:89 | remove keeps a well-formed list well formed |
| `History.Flipped` | lib/history-context.tsx:99 | the flipped entry has a defined flag of the opposite truthiness (`undefined` becomes `true`) and differs in nothing else |
| `History.Toggled` | lib/history-context.tsx:97-100 | toggle keeps the length; entries with another id are unchanged; a matching entry differs only in its flag, which becomes the defined negation of its truthiness (`undefined` becomes `true`) |
| `History.ToggleFlipsFavoriteId` | lib/history-context.tsx:97-101 | with unique ids, a present id is in the saved favourite ids after toggling exactly when it was not before |
| `History.ToggleTwice` | lib/history-context.tsx:98-100 | toggling twice restores a list whose flags are all defined |
| `History.TogglePreservesWellFormed` | lib/history-context.tsx:98-100 | toggle keeps a well-formed list well formed |
| `History.Merge` | lib/history-context.tsx:105 | every property present in the partial record overwrites the old one, including `id` and `renderId`, and every absent one is kept; an empty partial record changes nothing |
| `History.Updated` | lib/history-context.tsx:104-105 | update keeps the length and order, leaves entries with another id unchanged and merges the partial record into matching entries |
| `History.UpdateUnknownIsNoop` | lib/history-context.tsx:105 | updating an id that no entry has leaves the list unchanged |
| `History.UpdatePreservesWellFormed` | lib/history-context.tsx:105 | an update that sets neither `id` nor `renderId` keeps a well-formed list well formed |
| `History.FavoritesOf` | lib/history-context.tsx:109 | the favourites are no more than the list, each is a favourite drawn from the list, and every favourite of the list is among them |
| `History.FavoriteIds` | lib/history-context.tsx:64 | the written favourite ids are no more than the entries, include the id of every favourite entry, are each the id of some favourite entry, and are empty for an empty list |
| `History.FavoriteIdsAppend` | lib/history-context.tsx:64 | the favourite ids of a concatenation are the two lists' favourite ids one after the other, so they follow list order |
| `History.OfType` | lib/history-context.tsx:115-117 | the entries of one render type: each drawn from the list with that type, and all of them |
| `History.Reconciled` | lib/history-context.tsx:48-53 | the loaded list has the saved list's length; each entry is the saved one with its flag set to whether its id is among the favourite ids |
| `History.FavoriteIdIff` | lib/history-context.tsx:64 | with unique ids, an entry's id is among the saved favourite ids exactly when the entry is a favourite |
| `History.SaveLoadRoundTrip` | lib/history-context.tsx:45-66 | with unique ids, loading what a save wrote gives back the list with each flag normalised to a boolean, and the very same list when every flag is defined |
| `History.LoadPreservesWellFormed` | lib/history-context.tsx:50-53 | loading a well-formed saved list gives a well-formed list |
| `History.TypeCountsSum` | lib/history-context.tsx:114-118 | the PNG, SVG and text counts add up to the list's length |
| `History.ScenarioAddToggleReplaceRemove` | lib/history-context.tsx:81-109 | a PNG render is added as the only entry, counted once as PNG, made a favourite, replaced by a new record of the same render, then removed, which leaves the list empty |
| `History.HistoryStore.constructor` | lib/history-context.tsx:37 | a new store starts with an empty list over the two history keys |
| `History.HistoryStore.Favorites` | lib/history-context.tsx:109 | the favourites view holds exactly the entries that are favourites, drawn from the list |
| `History.HistoryStore.GetStatistics` | lib/history-context.tsx:111-121 | `total` is the length, the per-type counts are the sizes of the per-type filters and add up to `total`, and `favorites` is the size of the favourites view, at most `total` |
| `History.HistoryStore.LoadHistory` | lib/history-context.tsx:43-59 | memory is replaced only when the history key is present and both reads succeed, by the saved list with flags set from the stored ids (all false when that key is absent); otherwise memory is unchanged; storage is never written |
| `History.HistoryStore.Persisted` | lib/history-context.tsx:61-71 | the three outcomes of a save (both writes done, first write failed, second write failed) and, as a consequence, that memory only changes once both keys already hold the new list |
| `History.HistoryStore.SaveHistory` | lib/history-context.tsx:61-71 | on success memory, the history key and the favourite-ids key all reflect the new list; if the first write fails nothing changes; if the second fails the history key is new while memory and the favourites key are old |
| `History.HistoryStore.AddToHistory` | lib/history-context.tsx:73-86 | the save outcome above, for the list `Added` computes from the current list and the new record |
| `History.HistoryStore.RemoveFromHistory` | lib/history-context.tsx:88-91 | the save outcome above, for the list without the entries with that id |
| `History.HistoryStore.ClearHistory` | lib/history-context.tsx:93-95 | the save outcome above, for the empty list |
| `History.HistoryStore.ToggleFavorite` | lib/history-context.tsx:97-102 | the save outcome above, for the toggled list |
| `History.HistoryStore.UpdateHistoryItem` | lib/history-context.tsx:104-107 | the save outcome above, for the updated list |
| `Storage.Entry.Read` | lib/history-context.tsx:45 | a successful read returns exactly what the key holds, `None` when absent |
| `Storage.Entry.Write` | lib/history-context.tsx:63 | a key changes only when its write succeeds, and then holds the written value |
| `Deeplink.HostUri` | lib/deeplink-utils.ts:8-10 | the host is the first non-empty one of the two configured values, and there is none when both are empty or absent |
| `Deeplink.GenerateDeeplink` | lib/deeplink-utils.ts:3-17 | the link starts with `exp://` exactly in development with a host, and with `pv://` otherwise; in the first case it is the scheme, the host, `/--/` and the id, with exactly that length; in the second it is `pv://` followed by the id and nothing else |
| `Deeplink.GeneratedExpLinkParses` | lib/deeplink-utils.ts:3-29 | in a development link for a non-empty id, what follows the scheme and the host is a pathname that the parser turns back into the id |
| `Deeplink.ExpPathMatch` | lib/deeplink-utils.ts:25-28 | the pattern matches exactly a pathname of `/--/` and a non-empty rest without line terminators, and the capture is that rest |
| `Deeplink.StripLeadingSlash` | lib/deeplink-utils.ts:33 | exactly one leading `/` is removed when present, and nothing otherwise |
| `Deeplink.ParseDeeplink` | lib/deeplink-utils.ts:19-41 | an id is returned only for a parsed URL and is non-empty; for `exp:` the pathname is `/--/` + id; for `pv:` it is the id with at most one `/` in front; any other protocol, or a parse error, yields none |
| `Deeplink.ExpPathRoundTrip` | lib/deeplink-utils.ts:12-27 | the `exp:` pathname built for a non-empty id is parsed back to that id |
| `Deeplink.ExpPathIff` | lib/deeplink-utils.ts:24-29 | an `exp:` pathname yields an id exactly when it is `/--/` followed by a non-empty string without line terminators |
| `Deeplink.PvPathRoundTrip` | lib/deeplink-utils.ts:32-35 | a `pv:` pathname of `/` + id, or of the bare id when it does not start with `/`, yields the id |
| `Deeplink.PvEmptyPath` | lib/deeplink-utils.ts:33-34 | a `pv:` pathname that is empty or a single `/` yields none |
| `Settings.BoolToString` | lib/settings-context.tsx:54 | the stored text is `"true"` exactly for `true` |
| `Settings.LoadedApiUrl` | lib/settings-context.tsx:31-33 | a present non-empty stored address replaces the current one; an absent or empty one keeps it |
| `Settings.LoadedAutoRender` | lib/settings-context.tsx:34-36 | a present stored flag becomes whether it is the text `"true"`; an absent one keeps the current flag |
| `Settings.AutoRenderRoundTrip` | lib/settings-context.tsx:35-54 | the text stored for a flag is loaded back as exactly that flag |
| `Settings.ApiUrlRoundTrip` | lib/settings-context.tsx:31-45 | a stored non-empty address is loaded back; a stored empty address leaves the current address in place |
| `Settings.SettingsStore.constructor` | lib/settings-context.tsx:18-19 | settings start as the default address with automatic rendering on |
| `Settings.SettingsStore.LoadSettings` | lib/settings-context.tsx:25-40 | when both reads succeed the two settings become the loaded values; when either fails neither changes |
| `Settings.SettingsStore.SetApiUrl` | lib/settings-context.tsx:42-50 | the address changes in memory exactly when its write succeeds, and the other setting and its key are untouched |
| `Settings.SettingsStore.SetAutoRender` | lib/settings-context.tsx:52-60 | the flag is stored as text and changes in memory exactly when the write succeeds, and the other setting and its key are untouched |
| `Updates.UpdatesState.constructor` | lib/updates-context.tsx:17-19 | all three flags start false |
| `Updates.UpdatesState.CheckForUpdates` | lib/updates-context.tsx:21-44 | disabled: returns false and changes nothing; enabled: returns whether the library reported an update (false on an error), stores that in `isUpdateAvailable` and ends with `isChecking` false; `isUpdatePending` never changes |
| `Updates.UpdatesState.DownloadUpdate` | lib/updates-context.tsx:52-73 | changes nothing and returns false unless enabled with an update available; returns true exactly for a new download, which makes the update pending and no longer available; otherwise both flags stay; `isChecking` ends false; the pending flag is only raised from a state where an update was available |
| `Updates.UpdatesState.ReloadApp` | lib/updates-context.tsx:75-85 | a restart is requested exactly when enabled with an update pending; no flag changes |

## Left out

- JSON serialisation: the entries hold the serialised values themselves. Text that fails to parse is not modelled, and neither is a stored value of the wrong shape.
- Shared storage: the two stores use separate `Storage.Entry` objects. In the app they share one key-value store, but their keys differ, so no write of one store can reach the other.
- Reading both settings keys at once: `LoadSettings` reads them one after the other. Either read failing skips both updates, as when one of the concurrent reads rejects.
- Concurrent mutations: the race between rapid mutations that read a stale list is left out, because it is a concurrency effect. Each operation runs to completion before the next one starts.
- Gaps in `Changes`: it cannot express a required property (`id`, `renderId`, ...) being present and `undefined` in a partial update. It also cannot express properties outside the record type. Both are type-level JavaScript corner cases.
- Record id generation from the clock and a random number: the id and the timestamp are inputs.
- The URL parser itself: `ParseDeeplink` starts from its result. Under the WHATWG URL Standard (basic URL parser), the text after `pv://` becomes the host, not the pathname. So no round trip is claimed for whole `pv://` links, only for pathnames.
- The update library calls (`checkForUpdateAsync`, `fetchUpdateAsync`, `reloadAsync`) and the automatic check at start-up: they are a foreign library and lifecycle plumbing. Their results are inputs, and a successful reload (which restarts the process) is reported as "requested".
- UI components, React hooks and context providers, console logging, screens, the HTTP client and the static configuration files: they are not part of this model.
