/** `createPokemonService`: an async store of one page of the Pokémon list, loaded by URL,
    with `loadInitial`, `next` and `prev`. The HTTP client is abstracted: a page task's
    response arrives as an event (`Settle`). */
module CreatePokemonService {
  import opened JsValues
  import opened AsyncModel
  import AsyncValue
  import opened CreateAsyncStore
  import AsyncStoreProperties

  const DefaultLimit: int := 20

  const InitialUrl := "https://pokeapi.co/api/v2/pokemon?limit=20&offset=0"

  /** One entry of the API's `results`. */
  datatype ApiEntry = ApiEntry(name: string, url: string)

  /** `PokemonApiResponse`. */
  datatype PokemonApiResponse = PokemonApiResponse(
    count: int,
    next: Nullable<string>,
    previous: Nullable<string>,
    results: seq<ApiEntry>)

  /** A row of the view model; `detailUrl` is the URL its detail stream would fetch. */
  datatype Pokemon = Pokemon(name: string, detailUrl: string)

  datatype Paging = Paging(
    currentPage: int,
    totalPages: int,
    hasNext: bool,
    hasPrev: bool,
    next: Nullable<string>,
    previous: Nullable<string>)

  datatype PokemonListViewModel = PokemonListViewModel(data: seq<Pokemon>, paging: Paging)

  /** The task handed to the store: fetch one page by URL. */
  datatype PageTask = FetchPage(url: string)

  /** The rejection cause of a failed request, opaque to the service. */
  datatype RequestFailure = RequestFailure(reason: string)

  /** How the awaited `client.get(url)` settled. */
  datatype HttpOutcome = Fetched(response: PokemonApiResponse) | Failed(cause: RequestFailure)

  type PageState = StoreState<PokemonListViewModel, RequestFailure, PageTask>

  /** `Math.ceil(count / 20)`: the least number of pages of 20 that hold `count` entries. */
  function TotalPages(count: int): (pages: int)
    ensures DefaultLimit * pages >= count
    ensures DefaultLimit * (pages - 1) < count
  {
    -((-count) / DefaultLimit)
  }

  /** `Math.floor(offset / 20) + 1`: the 1-based page whose entries include `offset`. */
  function CurrentPage(offset: int): (page: int)
    ensures DefaultLimit * (page - 1) <= offset < DefaultLimit * page
    ensures offset >= 0 ==> page >= 1
  {
    offset / DefaultLimit + 1
  }

  /** The steps of `getOffsetFromUrl` left abstract: reading the URL's `offset` query
      parameter (`Null` when absent) and `parseInt(_, 10)`. */
  datatype UrlParsing = UrlParsing(offsetParam: string -> Nullable<string>, parseInt: string -> int)

  /** `getOffsetFromUrl(url)`: 0 for a null or empty URL, 0 when the `offset` parameter is
      absent or empty (the code parses "0" then), else the parsed parameter. */
  function GetOffsetFromUrl(url: Nullable<string>, parsing: UrlParsing): (offset: int)
    ensures !Truthy(url) ==> offset == 0
    ensures Truthy(url) && !Truthy(parsing.offsetParam(url.value)) ==> offset == 0
    ensures Truthy(url) && Truthy(parsing.offsetParam(url.value)) ==>
              offset == parsing.parseInt(parsing.offsetParam(url.value).value)
  {
    if !Truthy(url) then 0
    else
      var param := parsing.offsetParam(url.value);
      if Truthy(param) then parsing.parseInt(param.value) else 0
  }

  /** `results.map(...)`: one row per entry, in order. */
  function Rows(results: seq<ApiEntry>): (rows: seq<Pokemon>)
    ensures |rows| == |results|
    ensures forall i :: 0 <= i < |results| ==> rows[i] == Pokemon(results[i].name, results[i].url)
  {
    seq(|results|, i requires 0 <= i < |results| => Pokemon(results[i].name, results[i].url))
  }

  /** The value the page task for `url` resolves with, given the API's response. */
  function BuildPage(url: string, response: PokemonApiResponse, parsing: UrlParsing): (vm: PokemonListViewModel)
    ensures vm.data == Rows(response.results)
    ensures vm.paging.totalPages == TotalPages(response.count)
    ensures vm.paging.currentPage == CurrentPage(GetOffsetFromUrl(NonNull(url), parsing))
    ensures vm.paging.hasNext <==> Truthy(response.next)
    ensures vm.paging.hasPrev <==> Truthy(response.previous)
    ensures vm.paging.next == response.next && vm.paging.previous == response.previous
  {
    var offset := GetOffsetFromUrl(NonNull(url), parsing);
    PokemonListViewModel(
      Rows(response.results),
      Paging(CurrentPage(offset), TotalPages(response.count),
             Truthy(response.next), Truthy(response.previous),
             response.next, response.previous))
  }

  /** The URL `next()` loads from this snapshot: `getMaybe(snapshot)?.paging.next`, when truthy. */
  function NextTarget(snapshot: Async<PokemonListViewModel, RequestFailure>): (target: Undefinable<string>)
    ensures target.Defined? <==> snapshot.AsyncData? && Truthy(snapshot.data.paging.next)
    ensures target.Defined? ==> NonNull(target.value) == snapshot.data.paging.next
  {
    match AsyncValue.GetMaybe(snapshot)
    case Undefined => Undefined
    case Defined(vm) => if Truthy(vm.paging.next) then Defined(vm.paging.next.value) else Undefined
  }

  /** The URL `prev()` loads from this snapshot: `getMaybe(snapshot)?.paging.previous`, when truthy. */
  function PrevTarget(snapshot: Async<PokemonListViewModel, RequestFailure>): (target: Undefinable<string>)
    ensures target.Defined? <==> snapshot.AsyncData? && Truthy(snapshot.data.paging.previous)
    ensures target.Defined? ==> NonNull(target.value) == snapshot.data.paging.previous
  {
    match AsyncValue.GetMaybe(snapshot)
    case Undefined => Undefined
    case Defined(vm) => if Truthy(vm.paging.previous) then Defined(vm.paging.previous.value) else Undefined
  }

  /** The store after the page task of cycle `ticket` settles with `outcome`: a response
      resolves the cycle with the page built from it, a failed request rejects it. */
  function SettleStep(s: PageState, ticket: nat, outcome: HttpOutcome, parsing: UrlParsing, now: int): PageState
  {
    if !Awaits(s, ticket) then s
    else match outcome
      case Fetched(response) => ResolveStep(s, ticket, NonNull(BuildPage(s.pending.task.url, response, parsing)), now)
      case Failed(cause) => RejectStep(s, ticket, cause)
  }

  /** Once a page is shown, `next()`/`prev()` go exactly where the API's `next`/`previous`
      links point, and they act exactly when `hasNext`/`hasPrev` is set. */
  lemma NavigationFollowsLoadedPage(url: string, response: PokemonApiResponse, parsing: UrlParsing)
    ensures var shown := AsyncData(BuildPage(url, response, parsing));
      && NextTarget(shown) == (if Truthy(response.next) then Defined(response.next.value) else Undefined)
      && PrevTarget(shown) == (if Truthy(response.previous) then Defined(response.previous.value) else Undefined)
      && (NextTarget(shown).Defined? <==> shown.data.paging.hasNext)
      && (PrevTarget(shown).Defined? <==> shown.data.paging.hasPrev)
  {
  }

  /** While a page load is under way the snapshot is LOADING, so `next()` and `prev()`
      do nothing: navigation cannot pile up behind an accepted load. */
  lemma NavigationIdleWhileLoading(s: PageState, url: string, now: int)
    requires Inv(s) && s.alive
    requires Decide(s, DefaultConfig, now) == Accepted
    ensures var t := RunStep(s, DefaultConfig, FetchPage(url), NoOverrides, now);
      NextTarget(t.state).Undefined? && PrevTarget(t.state).Undefined?
  {
  }

  /** Settling a page task keeps the store invariant; a successful response publishes
      the page built from the awaited task's URL. */
  lemma SettleOutcome(s: PageState, ticket: nat, outcome: HttpOutcome, parsing: UrlParsing, now: int)
    requires Inv(s) && Awaits(s, ticket)
    ensures var t := SettleStep(s, ticket, outcome, parsing, now);
      && Inv(t)
      && (outcome.Fetched? ==> t.state == AsyncData(BuildPage(s.pending.task.url, outcome.response, parsing)))
      && (outcome.Failed? ==> t.state == AsyncError(outcome.cause) && !t.alive)
  {
    if outcome.Fetched? {
      AsyncStoreProperties.ResolveOutcome(s, ticket, NonNull(BuildPage(s.pending.task.url, outcome.response, parsing)), now);
    } else {
      AsyncStoreProperties.RejectOutcome(s, ticket, outcome.cause);
    }
  }

  /** A failed request ends the store's pipeline: the list stays on ERROR and every
      later `loadInitial`, `next`, `prev`, timer or settlement changes nothing. */
  lemma FailedRequestStopsService(
    s: PageState, ticket: nat, cause: RequestFailure, parsing: UrlParsing, now: int,
    later: seq<Event<PokemonListViewModel, RequestFailure, PageTask>>)
    requires Inv(s) && Awaits(s, ticket)
    ensures var t := SettleStep(s, ticket, Failed(cause), parsing, now);
      t.state == AsyncError(cause) && Steps(t, DefaultConfig, later) == t
  {
    var t := SettleStep(s, ticket, Failed(cause), parsing, now);
    AsyncStoreProperties.RejectOutcome(s, ticket, cause);
    AsyncStoreProperties.DeadStoreIsFrozen(t, DefaultConfig, later);
  }

  /** The service object: the store's members plus `loadInitial`, `next` and `prev`. */
  class PokemonService {
    const store: AsyncStore<PokemonListViewModel, RequestFailure, PageTask>
    const parsing: UrlParsing

    /** `createPokemonService(client)`: a store with no initial state and no options. */
    constructor (serviceId: string, parsing: UrlParsing)
      ensures fresh(store) && store.Valid() && store.Model() == Initial(Undefined)
      ensures store.baseConfig == DefaultConfig && store.serviceId == serviceId
      ensures this.parsing == parsing
    {
      store := new AsyncStore(serviceId, Undefined, NoOverrides);
      this.parsing := parsing;
    }

    /** `loadPage(url)`: one `store.run` of the page task for `url`, with no overrides. */
    method LoadPage(url: string, now: int) returns (ticket: nat)
      requires store.Valid()
      modifies store
      ensures store.Valid()
      ensures store.Model() == RunStep(old(store.Model()), store.baseConfig, FetchPage(url), NoOverrides, now)
      ensures ticket == old(store.nextTicket)
    {
      ticket := store.Run(FetchPage(url), NoOverrides, now);
    }

    /** `loadInitial()`: the first page, limit 20 and offset 0. */
    method LoadInitial(now: int) returns (ticket: nat)
      requires store.Valid()
      modifies store
      ensures store.Valid()
      ensures store.Model() == RunStep(old(store.Model()), store.baseConfig, FetchPage(InitialUrl), NoOverrides, now)
      ensures ticket == old(store.nextTicket)
    {
      ticket := LoadPage(InitialUrl, now);
    }

    /** `next()`: loads the shown page's `next` link, if any; otherwise does nothing. */
    method Next(now: int) returns (target: Undefinable<string>)
      requires store.Valid()
      modifies store
      ensures store.Valid() && target == NextTarget(old(store.state))
      ensures target.Defined? ==>
        store.Model() == RunStep(old(store.Model()), store.baseConfig, FetchPage(target.value), NoOverrides, now)
      ensures target.Undefined? ==> store.Model() == old(store.Model())
    {
      target := NextTarget(store.GetSnapshot());
      if target.Defined? {
        var _ := LoadPage(target.value, now);
      }
    }

    /** `prev()`: loads the shown page's `previous` link, if any; otherwise does nothing. */
    method Prev(now: int) returns (target: Undefinable<string>)
      requires store.Valid()
      modifies store
      ensures store.Valid() && target == PrevTarget(old(store.state))
      ensures target.Defined? ==>
        store.Model() == RunStep(old(store.Model()), store.baseConfig, FetchPage(target.value), NoOverrides, now)
      ensures target.Undefined? ==> store.Model() == old(store.Model())
    {
      target := PrevTarget(store.GetSnapshot());
      if target.Defined? {
        var _ := LoadPage(target.value, now);
      }
    }

    /** The page task of cycle `ticket` settles: its request returned `outcome` at `now`. */
    method Settle(ticket: nat, outcome: HttpOutcome, now: int)
      requires store.Valid()
      modifies store
      ensures store.Valid() && store.Model() == SettleStep(old(store.Model()), ticket, outcome, parsing, now)
    {
      if store.pending.Awaiting? && store.pending.ticket == ticket {
        match outcome
        case Fetched(response) =>
          store.Resolve(ticket, NonNull(BuildPage(store.pending.task.url, response, parsing)), now);
        case Failed(cause) =>
          store.Reject(ticket, cause);
      }
    }
  }
}
