# Reactive store framework: a verified Dafny model

This project models the framework layer of a small reactive-store toolkit and the two
services built on it. It covers the following parts:

- the tagged unions `Async<T>` (EMPTY, LOADING, ERROR, DATA) and `Maybe<T>` (NONE, SOME),
  with their constructors, status predicates and extractors (`asyncValue`, `maybeValue`);
- the exhaustive dispatchers `renderAsyncValue` and `renderMaybeValue`;
- the sync store (`createSyncStore`), whose only mutators are `update(fn)` and `reset()`;
- the async store (`createAsyncStore`). Its RxJS pipeline becomes a sequential state
  machine driven by four events: a `run` call, the debounce timer firing, and the
  awaited task resolving or rejecting;
- the favourites service (a set-like `Record<string, true>` with `toggle`), the init-once
  getter `createLazyService`, and the Pokémon list service (paging arithmetic,
  `loadInitial`, `next`, `prev`).

Each store has two parts. The first is a pure state value with one step function per
operation (`CreateSyncStore.AfterUpdate`, `CreateAsyncStore.RunStep`, ...), and the
lemmas are proved about these functions. The second is a class with the source's
mutable fields, whose methods ensure `Model() == Step(old(Model()), ...)`.

The async store's state is the published `Async` value, `lastSuccessTime`, the
in-flight flag, a pending slot (`Idle`, `Debouncing(ticket, task, due)` or
`Awaiting(ticket, task)`), an `alive` flag and the log of published values. Each
`run` call on a live store gets a ticket, which is its call number (a dead store leaves
the counter unchanged). A settlement event names a ticket,
so the model can state that the result of an abandoned cycle is never written.
`Date.now()` becomes the `now` argument. The timer of a debouncing cycle is due at
`now + max(debounceTime, 0)`.

The store model follows the code. Four of its behaviours differ from what a reader of the API might expect:

- `switchMap` drops the pending cycle on every `run` call, and the dedup check then sees
  the in-flight flag still set. So with `deduplicate` on (the default), `run(A)` followed by
  `run(B)` inside the debounce window runs neither task. The store stays on LOADING with
  nothing pending (`ScenarioSecondRunWithDedup`, `DuplicateRunAbandonsCycle`). Only with
  `deduplicate` off does the last call win. LOADING is then published once per accepted call.
- A skipped `run` (stale or duplicate) emits `null` on the inner stream, and that clears the
  in-flight flag.
- A task that resolves to `null` publishes nothing, so the store stays on LOADING.
- A rejection reaches the subscriber's `error` callback, which ends the subscription. After
  the first error every later `run` is ignored (`DeadStoreIsFrozen`).

The proved invariant (`CreateAsyncStore.Inv`) has four parts:

- the snapshot is the last published value;
- the in-flight flag is set exactly while a cycle is pending;
- a pending cycle implies LOADING;
- a dead pipeline rests on ERROR.

## Model

| member | source | states |
|---|---|---|
| `AsyncModel.Async.Status` | framework/models/async.model.ts:3-27 | each of the four states has its own status, and the status tells which variant the value is |
| `AsyncModel.StatusAndPayloadDetermineValue` | framework/models/async.model.ts:9-27 | in the model, a value is determined by its status and its payload (only ERROR carries an error, only DATA carries data) |
| `AsyncValue.Empty` | framework/helpers/async-value.ts:10-12 | `empty()` has status EMPTY |
| `AsyncValue.Loading` | framework/helpers/async-value.ts:14-16 | `loading()` has status LOADING |
| `AsyncValue.Error` | framework/helpers/async-value.ts:18-20 | `error(e)` has status ERROR and carries `e` |
| `AsyncValue.Data` | framework/helpers/async-value.ts:22-24 | `data(x)` has status DATA and carries `x` |
| `AsyncValue.GetError` | framework/helpers/async-value.ts:42-45 | succeeds exactly on ERROR, with the stored error; otherwise throws "Expected Error" naming the status found |
| `AsyncValue.GetMaybe` | framework/helpers/async-value.ts:47-49 | defined exactly on DATA, with the stored data; `undefined` otherwise; never throws (absence is a separate marker, see Left out) |
| `AsyncValue.Get` | framework/helpers/async-value.ts:51-54 | succeeds exactly on DATA, with the stored data; otherwise throws "Expected SUCCESS" naming the status found |
| `AsyncValue.GetOr` | framework/helpers/async-value.ts:56-58 | the stored data on DATA, the fallback's result on every other state |
| `AsyncValue.ExactlyOneStatus` | framework/helpers/async-value.ts:26-40 | every value satisfies exactly one of `hasData`, `isError`, `isLoading`, `isEmpty` |
| `AsyncValue.ConstructorsMatchPredicates` | framework/helpers/async-value.ts:10-40 | each constructor's result satisfies its own predicate, and no constructor except `data` satisfies `hasData` |
| `AsyncValue.ExtractorsInvertConstructors` | framework/helpers/async-value.ts:18-54 | `get(data(x)) == x`, `getError(error(e)) == e`, `getMaybe(data(x)) == x` |
| `AsyncValue.UnsafeExtractorsThrowOffState` | framework/helpers/async-value.ts:42-54 | `get` throws on each of EMPTY, LOADING and ERROR; `getError` throws on each of EMPTY, LOADING and DATA |
| `AsyncValue.SafeExtractorsAgreeWithGet` | framework/helpers/async-value.ts:47-58 | on DATA the fallback does not affect `getOr`; `getOr` and `getMaybe` agree with `get` where it returns; `getMaybe` is undefined exactly where `get` throws |
| `MaybeModel.Maybe.Status` | framework/helpers/maybe-value.ts:3-17 | NONE and SOME each have their own status, and the status tells which variant the value is |
| `MaybeValue.None` | framework/helpers/maybe-value.ts:3-5 | `none()` has status NONE |
| `MaybeValue.Some` | framework/helpers/maybe-value.ts:7-9 | `some(v)` has status SOME and carries `v` |
| `MaybeValue.GetMaybe` | framework/helpers/maybe-value.ts:19-21 | defined exactly on SOME, with the stored value; never throws (absence is a separate marker, see Left out) |
| `MaybeValue.Get` | framework/helpers/maybe-value.ts:23-26 | succeeds exactly on SOME, with the stored value; throws "Expected SOME" on NONE |
| `MaybeValue.GetOr` | framework/helpers/maybe-value.ts:28-30 | the stored value on SOME, the fallback's result on NONE |
| `MaybeValue.ExactlyOneStatus` | framework/helpers/maybe-value.ts:11-17 | every value satisfies exactly one of `isSome`, `isNone` |
| `MaybeValue.ExtractorsOnConstructors` | framework/helpers/maybe-value.ts:3-30 | `get(some(v)) == v` and `get(none())` throws; `getMaybe` and `getOr` give `v` on `some(v)` and undefined or `f()` on `none()` |
| `MaybeValue.SafeExtractorsAgreeWithGet` | framework/helpers/maybe-value.ts:19-30 | on SOME the fallback does not affect `getOr`; the safe extractors agree with `get` where it returns; `getMaybe` is undefined exactly where `get` throws |
| `RenderAsyncValue.RenderAsync` | framework/helpers/render-async-value.ts:11-26 | EMPTY gives `empty()`, LOADING gives `loading()`, ERROR gives `error` of exactly the stored error, DATA gives `success` of exactly the stored data; the `getError`/`get` calls cannot throw and no fallback branch is reachable |
| `RenderMaybeValue.RenderMaybe` | framework/helpers/render-maybe-value.ts:9-20 | NONE gives `none()`, SOME gives `some` of exactly the stored value; the `get` call cannot throw |
| `CreateSyncStore.Created` | framework/services/create-sync-store.service.ts:4-6 | right after creation the snapshot is `initialState` and the stream has emitted exactly it |
| `CreateSyncStore.ApplyStep` | framework/services/create-sync-store.service.ts:10-13 | `update(fn)` makes the snapshot `fn(previous)` and `reset()` makes it the initial value; each emits exactly one value, even an unchanged one; the snapshot stays the last emission |
| `CreateSyncStore.ApplyAllInvariant` | framework/services/create-sync-store.service.ts:6-13 | over any history, the snapshot equals the last emitted value, one value is emitted per call, the stream only grows, and the initial value is never changed |
| `CreateSyncStore.ResetAfterAnyHistory` | framework/services/create-sync-store.service.ts:13 | `reset()` restores exactly the construction-time value after any history of updates and resets |
| `CreateSyncStore.ResetIdempotent` | framework/services/create-sync-store.service.ts:13 | `reset(); reset()` leaves the same value as one `reset()`; the second call still emits |
| `CreateSyncStore.SyncStore.constructor` | framework/services/create-sync-store.service.ts:4-6 | the store starts at `initialState` with the given `serviceId` |
| `CreateSyncStore.SyncStore.GetSnapshot` | framework/services/create-sync-store.service.ts:11 | the snapshot is the value most recently emitted |
| `CreateSyncStore.SyncStore.Update` | framework/services/create-sync-store.service.ts:12 | the new state is `AfterUpdate` of the old one; `serviceId` and the initial value are constant |
| `CreateSyncStore.SyncStore.Reset` | framework/services/create-sync-store.service.ts:13 | the new state is `AfterReset` of the old one |
| `CreateAsyncStore.AsyncStore.constructor` | framework/services/create-async-store.service.ts:25-43 | base config is the defaults overridden by the options; state is `initialState ?? EMPTY`; not in flight; `lastSuccessTime` 0; invariant holds |
| `CreateAsyncStore.AsyncStore.GetSnapshot` | framework/services/create-async-store.service.ts:96 | the snapshot is the value most recently published |
| `CreateAsyncStore.AsyncStore.Run` | framework/services/create-async-store.service.ts:50-76 | the new state is `RunStep` of the old one; the call returns its ticket and never fails |
| `CreateAsyncStore.AsyncStore.TimerFires` | framework/services/create-async-store.service.ts:73-74 | a due debounce timer moves its cycle to awaiting, and the call returns the invoked task; otherwise nothing is invoked |
| `CreateAsyncStore.AsyncStore.Resolve` | framework/services/create-async-store.service.ts:74-86 | the new state is `ResolveStep` of the old one |
| `CreateAsyncStore.AsyncStore.Reject` | framework/services/create-async-store.service.ts:87-90 | the new state is `RejectStep` of the old one |
| `AsyncStoreProperties.ConfigPrecedence` | framework/services/create-async-store.service.ts:29-34 | each effective config field comes from the run's overrides if given, else the store's options if given, else the default (0, 300, true) |
| `AsyncStoreProperties.InitialSatisfiesInv` | framework/services/create-async-store.service.ts:37-43 | the fresh store shows `initialState` or EMPTY, is not in flight, has `lastSuccessTime` 0 and satisfies the invariant |
| `AsyncStoreProperties.StepPreservesInv` | framework/services/create-async-store.service.ts:50-91 | every event preserves the invariant and never decreases the ticket counter |
| `AsyncStoreProperties.StepsPreserveInv` | framework/services/create-async-store.service.ts:50-91 | every sequence of events preserves the invariant and only appends published values |
| `AsyncStoreProperties.StaleRunSkips` | framework/services/create-async-store.service.ts:56-63 | fresh DATA makes a run start nothing and publish nothing; the run clears the flag and keeps state and `lastSuccessTime` |
| `AsyncStoreProperties.DuplicateRunAbandonsCycle` | framework/services/create-async-store.service.ts:52-85 | with `deduplicate` on, a run during a pending cycle abandons that cycle, publishes nothing and clears the flag, which leaves the store on LOADING with nothing pending |
| `AsyncStoreProperties.AcceptedRunWaitsForTimer` | framework/services/create-async-store.service.ts:70-76 | an accepted run sets the flag and publishes LOADING; its task is invoked only when the timer is due, and nothing settles before then |
| `AsyncStoreProperties.OnlyTimerInvokesTasks` | framework/services/create-async-store.service.ts:73-74 | only the timer event moves a cycle into the awaited state |
| `AsyncStoreProperties.ResolveOutcome` | framework/services/create-async-store.service.ts:80-86 | a non-null result publishes DATA and sets `lastSuccessTime := now`; `null` leaves state and time; both clear the flag |
| `AsyncStoreProperties.RejectOutcome` | framework/services/create-async-store.service.ts:87-90 | a rejection publishes ERROR with the cause, clears the flag and ends the pipeline |
| `AsyncStoreProperties.DeadStoreIsFrozen` | framework/services/create-async-store.service.ts:87-90 | after an error every later event, `run` included, changes nothing |
| `AsyncStoreProperties.SupersededCycleNeverWrites` | framework/services/create-async-store.service.ts:52-75 | once a later run is processed, a cycle started before it never writes its result or error, whatever follows |
| `AsyncStoreProperties.ScenarioLoadingThenData` | framework/services/create-async-store.service.ts:70-86 | with debounce 0, `run(() => 5)` publishes EMPTY, LOADING, DATA(5) |
| `AsyncStoreProperties.ScenarioRejected` | framework/services/create-async-store.service.ts:70-90 | a rejecting task publishes EMPTY, LOADING, ERROR("boom"), and a later run changes nothing |
| `AsyncStoreProperties.ScenarioSecondRunWithDedup` | framework/services/create-async-store.service.ts:52-76 | with default config, `run(A); run(B)` runs neither task and stays on LOADING; a third run starts a new cycle |
| `AsyncStoreProperties.ScenarioSecondRunWithoutDedup` | framework/services/create-async-store.service.ts:52-76 | with `deduplicate` off, `run(A); run(B)` invokes only B and publishes LOADING twice |
| `CreateFavoritesService.InheritedKeyNeverAdded` | src/services/create-favorites-service.service.ts:12-17 | as written, toggling an inherited name such as "constructor" never stores it, yet `isFavorite` reports it |
| `CreateFavoritesService.Toggled` | src/services/create-favorites-service.service.ts:11-14 | removes `id` when present, adds it when absent, leaves every other key unchanged |
| `CreateFavoritesService.ToggleTwiceRestores` | src/services/create-favorites-service.service.ts:9-15 | toggling the same id twice restores the original set |
| `CreateFavoritesService.AgreesOffPrototype` | src/services/create-favorites-service.service.ts:11-17 | for non-inherited ids on sets without inherited keys, the code as written equals the corrected toggle and lookup, and toggling never adds an inherited key |
| `CreateFavoritesService.FavoritesService.constructor` | src/services/create-favorites-service.service.ts:4-5 | the favourites start as the empty set |
| `CreateFavoritesService.FavoritesService.Toggle` | src/services/create-favorites-service.service.ts:9-16 | one `update`, whose new snapshot is the old one with membership of `id` flipped |
| `CreateFavoritesService.FavoritesService.IsFavorite` | src/services/create-favorites-service.service.ts:17 | true exactly when `id` is a key of the current snapshot |
| `CreateLazyService.LazyService.constructor` | framework/helpers/create-lazy-service.ts:1-2 | creating the getter leaves the slot empty and does not invoke the factory |
| `CreateLazyService.LazyService.Get` | framework/helpers/create-lazy-service.ts:3-6 | a cached truthy instance is returned and the factory is not invoked; otherwise the factory is invoked once, and its result is cached and returned, a falsy cached instance included |
| `CreateLazyService.TwoIndependentGetters` | framework/helpers/create-lazy-service.ts:1-6 | two getters keep separate caches; each caches its first truthy instance and re-invokes its factory after a falsy one |
| `CreatePokemonService.TotalPages` | src/services/create-pokemon-service.service.ts:35 | the least `p` with `20 * p >= count` |
| `CreatePokemonService.CurrentPage` | src/services/create-pokemon-service.service.ts:36 | the page `p` with `20 * (p - 1) <= offset < 20 * p`; at least 1 for `offset >= 0` |
| `CreatePokemonService.GetOffsetFromUrl` | src/services/create-pokemon-service.service.ts:76-80 | 0 for a null or empty URL, 0 for an absent or empty `offset` parameter, otherwise the parsed parameter |
| `CreatePokemonService.Rows` | src/services/create-pokemon-service.service.ts:39-42 | one row per API entry, in order, with its name and detail URL |
| `CreatePokemonService.BuildPage` | src/services/create-pokemon-service.service.ts:31-54 | rows from the results; `totalPages` and `currentPage` by the paging arithmetic; `hasNext`/`hasPrev` exactly when the links are non-empty; links passed through unchanged |
| `CreatePokemonService.NextTarget` | src/services/create-pokemon-service.service.ts:88-91 | defined exactly when the snapshot is DATA with a non-empty `paging.next`, and then that URL |
| `CreatePokemonService.PrevTarget` | src/services/create-pokemon-service.service.ts:94-97 | defined exactly when the snapshot is DATA with a non-empty `paging.previous`, and then that URL |
| `CreatePokemonService.NavigationFollowsLoadedPage` | src/services/create-pokemon-service.service.ts:49-98 | on a loaded page, `next()`/`prev()` target exactly the API's `next`/`previous` links, and act exactly when `hasNext`/`hasPrev` holds |
| `CreatePokemonService.NavigationIdleWhileLoading` | src/services/create-pokemon-service.service.ts:88-98 | right after an accepted page load the snapshot is LOADING, so `next()` and `prev()` do nothing |
| `CreatePokemonService.SettleOutcome` | src/services/create-pokemon-service.service.ts:30-55 | a response publishes the page built from the awaited task's URL; a failed request publishes ERROR and ends the pipeline; the invariant holds |
| `CreatePokemonService.FailedRequestStopsService` | src/services/create-pokemon-service.service.ts:30-31 | after one failed page request the list stays on ERROR and every later event changes nothing |
| `CreatePokemonService.PokemonService.constructor` | src/services/create-pokemon-service.service.ts:26-27 | the store starts EMPTY with the default config |
| `CreatePokemonService.PokemonService.LoadPage` | src/services/create-pokemon-service.service.ts:29-30 | exactly one `run` of the page task for `url`, with no overrides |
| `CreatePokemonService.PokemonService.LoadInitial` | src/services/create-pokemon-service.service.ts:82-86 | loads the first page, with limit 20 and offset 0 |
| `CreatePokemonService.PokemonService.Next` | src/services/create-pokemon-service.service.ts:88-92 | loads exactly the `next` link of the DATA snapshot when it is non-empty; otherwise the store is unchanged |
| `CreatePokemonService.PokemonService.Prev` | src/services/create-pokemon-service.service.ts:94-98 | loads exactly the `previous` link of the DATA snapshot when it is non-empty; otherwise the store is unchanged |
| `CreatePokemonService.PokemonService.Settle` | src/services/create-pokemon-service.service.ts:30-55 | the awaited page task settles: the new store state is `SettleStep` of the old one |

## Findings

| source | as written | input that shows it | evidently intended | confidence | as-written member | corrected member |
|---|---|---|---|---|---|---|
| src/services/create-favorites-service.service.ts:12-17 | `next[id]` and `!!snapshot[id]` also read properties that every plain object inherits from `Object.prototype` | `toggle("constructor")` on `{}` leaves `{}`, and `isFavorite("constructor")` is true | `toggle` flips membership of any id, and `isFavorite` tests only the ids that were stored | not executed; follows from JavaScript property lookup | `CreateFavoritesService.InheritedKeyNeverAdded` | `CreateFavoritesService.ToggleTwiceRestores` |

`FavoritesService` uses the corrected `Toggled` and `IsFavoriteIn`. `AgreesOffPrototype`
shows that this changes nothing for ids outside the inherited names; for those names the
class departs from the code, as recorded under "Left out".

## Left out

- The RxJS machinery is replaced by explicit events: subscription, replay to late
  subscribers, real timer scheduling and Promise settlement. The environment delivers the
  timer and settlement events.
- The in-flight flag's own stream is not logged; only the published `Async` values are.
- `Date.now()` becomes an explicit `now` argument; `crypto.randomUUID()` becomes a `serviceId`
  constructor argument.
- Times, counts and offsets are unbounded integers. JavaScript's fractional numbers and
  `NaN` (for example a non-numeric `offset`) are not modelled.
- `CreateAsyncStore.Merge` treats an override key that is present but set to `undefined` as
  absent. In the code, the spread copies `undefined` over the default.
- `CreatePokemonService.GetOffsetFromUrl` leaves the WHATWG URL parsing and `parseInt` abstract
  as two function parameters. It does not model `new URL` throwing on a malformed URL. In the
  code that throw happens inside the page task and rejects it.
- `createPokemonDetailStream` and the `client.get` calls are HTTP. A row keeps the detail URL
  that its stream would fetch, and a page task's response arrives through `Settle`.
- framework/models/maybe.model.ts and framework/models/async-status.model.ts are not part of
  this model. `Maybe` and the two status enums are rebuilt from how the helpers use them. The
  thrown failures carry the status value, not the message text.
- The fallback of `getOr` is a pure function here, so "invoked only when needed" is stated as
  the result not depending on the fallback on DATA/SOME.
- `CreateLazyService.LazyService.Get` takes the factory's would-be result as an argument. A
  factory that throws is not modelled.
- `CreateFavoritesService.FavoritesService.Toggle` applies the corrected `Toggled`. For the 12
  names in `InheritedKeys` (`constructor`, `toString`, `hasOwnProperty`, `__proto__`, ...) the
  code leaves the record unchanged while the class adds the key; `ToggledAsWritten` models the
  code, and `AgreesOffPrototype` proves the two equal for every other id.
- `CreateFavoritesService.FavoritesService.IsFavorite` tests own keys only (`IsFavoriteIn`). In the
  code `!!snapshot[id]` is true for the 12 inherited names whatever is stored; `IsFavoriteAsWritten`
  models that.
- `AsyncModel.StatusAndPayloadDetermineValue` holds of the model only. In the source every
  variant may carry optional `data` and `error` fields (for example LOADING with the previous
  data), so status and payload do not determine the value there. These fields are not modelled:
  no helper reads them, and an `initialState` that carries them is only replayed unchanged.
- `AsyncValue.GetMaybe` models absence as a separate `Undefined` marker. In the code
  `T | undefined` is one flat union, so `getMaybe(data(undefined))` returns `undefined`, which the
  model reports as `Defined(undefined)`. The store can publish such a value, since a task result
  of `undefined` passes the `!== null` test.
- `MaybeValue.GetMaybe` has the same gap: `getMaybe(some(undefined))` returns `undefined` in the
  code, `Defined(undefined)` in the model.
- `AsyncValue.SafeExtractorsAgreeWithGet` states that `getMaybe` is undefined exactly where `get`
  throws. That holds only with absence kept separate: in the code it fails for DATA(undefined).
- `MaybeValue.SafeExtractorsAgreeWithGet` likewise fails in the code for SOME(undefined).
- `CreateSyncStore.SyncStore.Update` takes `fn` as a total function. In the code a throwing `fn`
  propagates out of `update` before anything is emitted. Likewise the render handlers
  (`RenderAsyncValue.RenderAsync`, `RenderMaybeValue.RenderMaybe`) are total; a throwing handler
  is not modelled.
- The React views and hooks, the axios client and its interceptors, and the module-level
  service cache in the app wiring are not part of this model.
