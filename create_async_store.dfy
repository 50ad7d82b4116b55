/** `createAsyncStore`: a store of an `Async` value driven by `run(task, overrides)`.
    The RxJS pipeline (a trigger subject, `switchMap`, a debounce `timer`, `takeUntil`)
    is modelled as a sequential state machine over four events: a `run` call, the
    debounce timer firing, and the awaited task resolving or rejecting. `Date.now()` is
    the explicit `now` argument of the events that read the clock. */
module CreateAsyncStore {
  import opened JsValues
  import opened AsyncModel

  /** `AsyncStoreConfig` (times in milliseconds). */
  datatype Config = Config(staleTime: int, debounceTime: int, deduplicate: bool)

  /** `Partial<AsyncStoreConfig>`: an `Undefined` field is an absent key. */
  datatype ConfigOverrides = ConfigOverrides(
    staleTime: Undefinable<int>,
    debounceTime: Undefinable<int>,
    deduplicate: Undefinable<bool>)

  const NoOverrides := ConfigOverrides(Undefined, Undefined, Undefined)

  const DefaultConfig := Config(0, 300, true)

  function Pick<V>(base: V, given: Undefinable<V>): V
  {
    match given
    case Defined(v) => v
    case Undefined => base
  }

  /** `{ ...base, ...overrides }`: a key present in `overrides` wins. */
  function Merge(base: Config, overrides: ConfigOverrides): Config
  {
    Config(
      Pick(base.staleTime, overrides.staleTime),
      Pick(base.debounceTime, overrides.debounceTime),
      Pick(base.deduplicate, overrides.deduplicate))
  }

  /** The config a run uses: the defaults, overridden by the store's options, overridden
      by the run's own overrides. */
  function EffectiveConfig(options: ConfigOverrides, overrides: ConfigOverrides): Config
  {
    Merge(Merge(DefaultConfig, options), overrides)
  }

  /** The slot for the one cycle the pipeline follows: none, a debounce timer due at
      `due` for `task`, or `task` invoked and awaited. `ticket` numbers the `run` call
      that started the cycle. */
  datatype Pending<+F> =
    | Idle
    | Debouncing(ticket: nat, task: F, due: int)
    | Awaiting(ticket: nat, task: F)

  /** Everything the store holds: the published value, `lastSuccessTime`, the in-flight
      flag, the pending slot, whether the pipeline's subscription is still open, the
      number of `run` calls seen, and the values published so far. */
  datatype StoreState<+T, +E, +F> = StoreState(
    state: Async<T, E>,
    lastSuccessTime: int,
    inflight: bool,
    pending: Pending<F>,
    alive: bool,
    nextTicket: nat,
    emitted: seq<Async<T, E>>)

  /** The state right after creation: `initialState ?? EMPTY`, not in flight,
      `lastSuccessTime` 0, nothing pending, the initial value replayed on the stream. */
  function Initial<T, E, F>(initialState: Undefinable<Async<T, E>>): StoreState<T, E, F>
  {
    var first := Pick(AsyncEmpty, initialState);
    StoreState(first, 0, false, Idle, true, 0, [first])
  }

  /** The stale-time test of the pipeline: DATA younger than `staleTime`. */
  predicate IsFresh<T, E, F>(s: StoreState<T, E, F>, config: Config, now: int)
  {
    s.state.AsyncData? && config.staleTime > 0 && now - s.lastSuccessTime < config.staleTime
  }

  /** `timer(d)` waits at least zero milliseconds. */
  function DelayOf(config: Config): nat
  {
    if config.debounceTime > 0 then config.debounceTime else 0
  }

  /** Outcome of the pipeline's decision for one `run` call. */
  datatype RunDecision = StaleSkip | DuplicateSkip | Accepted

  function Decide<T, E, F>(s: StoreState<T, E, F>, config: Config, now: int): RunDecision
  {
    if IsFresh(s, config, now) then StaleSkip
    else if config.deduplicate && s.inflight then DuplicateSkip
    else Accepted
  }

  /** `run(task, overrides)` at time `now`. Once the pipeline has errored nobody listens
      to the trigger and nothing changes. Otherwise `switchMap` first drops whatever
      cycle was pending; a skip emits `null` on the inner stream, which clears the
      in-flight flag; an accepted call sets the flag, publishes LOADING and starts the
      debounce timer. */
  function RunStep<T, E, F>(s: StoreState<T, E, F>, base: Config, task: F, overrides: ConfigOverrides, now: int)
    : StoreState<T, E, F>
  {
    if !s.alive then s
    else
      var config := Merge(base, overrides);
      var dropped := s.(pending := Idle, nextTicket := s.nextTicket + 1);
      match Decide(s, config, now)
      case StaleSkip => dropped.(inflight := false)
      case DuplicateSkip => dropped.(inflight := false)
      case Accepted =>
        dropped.(
          inflight := true,
          state := AsyncLoading,
          emitted := s.emitted + [AsyncLoading],
          pending := Debouncing(s.nextTicket, task, now + DelayOf(config)))
  }

  /** The debounce timer of the pending cycle has elapsed by `now`. */
  predicate TimerDue<T, E, F>(s: StoreState<T, E, F>, now: int)
  {
    s.pending.Debouncing? && now >= s.pending.due
  }

  /** The debounce timer fires: the cycle's task is invoked and awaited. */
  function TimerStep<T, E, F>(s: StoreState<T, E, F>, now: int): StoreState<T, E, F>
  {
    if TimerDue(s, now) then s.(pending := Awaiting(s.pending.ticket, s.pending.task)) else s
  }

  /** The awaited task of cycle `ticket` is the one the pipeline follows. */
  predicate Awaits<T, E, F>(s: StoreState<T, E, F>, ticket: nat)
  {
    s.pending.Awaiting? && s.pending.ticket == ticket
  }

  /** The task of cycle `ticket` resolves with `result` (`Null` for `null`) at `now`.
      A result of an abandoned cycle never reaches the subscriber. A non-null result
      records the time and publishes DATA; a null one publishes nothing. Either way the
      in-flight flag is cleared. */
  function ResolveStep<T, E, F>(s: StoreState<T, E, F>, ticket: nat, result: Nullable<T>, now: int)
    : StoreState<T, E, F>
  {
    if !Awaits(s, ticket) then s
    else
      var done := s.(pending := Idle, inflight := false);
      match result
      case Null => done
      case NonNull(v) =>
        done.(lastSuccessTime := now, state := AsyncData(v), emitted := s.emitted + [AsyncData(v)])
  }

  /** The task of cycle `ticket` rejects with `cause`: ERROR is published, the flag is
      cleared, and the error ends the pipeline's subscription for good. */
  function RejectStep<T, E, F>(s: StoreState<T, E, F>, ticket: nat, cause: E): StoreState<T, E, F>
  {
    if !Awaits(s, ticket) then s
    else
      s.(state := AsyncError(cause), emitted := s.emitted + [AsyncError(cause)],
         inflight := false, pending := Idle, alive := false)
  }

  datatype Event<+T, +E, +F> =
    | RunEvent(task: F, overrides: ConfigOverrides, now: int)
    | TimerEvent(now: int)
    | ResolveEvent(ticket: nat, result: Nullable<T>, now: int)
    | RejectEvent(ticket: nat, cause: E)

  function Step<T, E, F>(s: StoreState<T, E, F>, base: Config, e: Event<T, E, F>): StoreState<T, E, F>
  {
    match e
    case RunEvent(task, overrides, now) => RunStep(s, base, task, overrides, now)
    case TimerEvent(now) => TimerStep(s, now)
    case ResolveEvent(ticket, result, now) => ResolveStep(s, ticket, result, now)
    case RejectEvent(ticket, cause) => RejectStep(s, ticket, cause)
  }

  /** The state after processing `events` in order. */
  function Steps<T, E, F>(s: StoreState<T, E, F>, base: Config, events: seq<Event<T, E, F>>): StoreState<T, E, F>
    decreases |events|
  {
    if events == [] then s else Steps(Step(s, base, events[0]), base, events[1..])
  }

  /** The store invariant: the snapshot is the latest published value; the in-flight
      flag is set exactly while a cycle is pending, and then the published value is
      LOADING and the cycle's ticket has been issued; a dead pipeline rests on ERROR. */
  ghost predicate Inv<T, E, F>(s: StoreState<T, E, F>)
  {
    && |s.emitted| > 0
    && s.emitted[|s.emitted| - 1] == s.state
    && (s.inflight <==> !s.pending.Idle?)
    && (!s.pending.Idle? ==> s.state.AsyncLoading? && s.alive && s.pending.ticket < s.nextTicket)
    && (!s.alive ==> s.state.AsyncError?)
  }

  /** The store object. `serviceId` stands for the `crypto.randomUUID()` minted at creation;
      `baseConfig` is fixed at creation. */
  class AsyncStore<T, E, F> {
    const serviceId: string
    const baseConfig: Config
    var state: Async<T, E>
    var lastSuccessTime: int
    var inflight: bool
    var pending: Pending<F>
    var alive: bool
    var nextTicket: nat
    ghost var emitted: seq<Async<T, E>>

    ghost function Model(): StoreState<T, E, F>
      reads this
    {
      StoreState(state, lastSuccessTime, inflight, pending, alive, nextTicket, emitted)
    }

    ghost predicate Valid()
      reads this
    {
      Inv(Model())
    }

    /** `createAsyncStore({ initialState, options })`. */
    constructor (serviceId: string, initialState: Undefinable<Async<T, E>>, options: ConfigOverrides)
      ensures Valid() && Model() == Initial(initialState)
      ensures this.serviceId == serviceId && baseConfig == Merge(DefaultConfig, options)
    {
      this.serviceId := serviceId;
      baseConfig := Merge(DefaultConfig, options);
      var first := Pick(AsyncEmpty, initialState);
      state := first;
      lastSuccessTime := 0;
      inflight := false;
      pending := Idle;
      alive := true;
      nextTicket := 0;
      emitted := [first];
    }

    /** `getSnapshot()`: the value most recently published. */
    function GetSnapshot(): (r: Async<T, E>)
      reads this
      requires Valid()
      ensures r == emitted[|emitted| - 1]
    {
      state
    }

    /** `run(task, overrides)` at time `now`; returns the number of this call, by which
        the task's settlement is reported. Never fails. */
    method Run(task: F, overrides: ConfigOverrides, now: int) returns (ticket: nat)
      requires Valid()
      modifies this
      ensures Valid() && Model() == RunStep(old(Model()), baseConfig, task, overrides, now)
      ensures ticket == old(nextTicket)
    {
      ticket := nextTicket;
      if !alive {
        return;
      }
      var config := Merge(baseConfig, overrides);
      pending := Idle;
      nextTicket := nextTicket + 1;
      if state.AsyncData? && config.staleTime > 0 && now - lastSuccessTime < config.staleTime {
        inflight := false;
      } else if config.deduplicate && inflight {
        inflight := false;
      } else {
        inflight := true;
        state := AsyncLoading;
        emitted := emitted + [AsyncLoading];
        pending := Debouncing(ticket, task, now + DelayOf(config));
      }
    }

    /** The debounce timer fires at `now`; returns the task invoked, if any. */
    method TimerFires(now: int) returns (invoked: Undefinable<F>)
      requires Valid()
      modifies this
      ensures Valid() && Model() == TimerStep(old(Model()), now)
      ensures invoked == if TimerDue(old(Model()), now) then Defined(old(pending).task) else Undefined
    {
      invoked := Undefined;
      if pending.Debouncing? && now >= pending.due {
        invoked := Defined(pending.task);
        pending := Awaiting(pending.ticket, pending.task);
      }
    }

    /** The task of cycle `ticket` resolves with `result` at `now`. */
    method Resolve(ticket: nat, result: Nullable<T>, now: int)
      requires Valid()
      modifies this
      ensures Valid() && Model() == ResolveStep(old(Model()), ticket, result, now)
    {
      if pending.Awaiting? && pending.ticket == ticket {
        if result.NonNull? {
          lastSuccessTime := now;
          state := AsyncData(result.value);
          emitted := emitted + [state];
        }
        inflight := false;
        pending := Idle;
      }
    }

    /** The task of cycle `ticket` rejects with `cause`. */
    method Reject(ticket: nat, cause: E)
      requires Valid()
      modifies this
      ensures Valid() && Model() == RejectStep(old(Model()), ticket, cause)
    {
      if pending.Awaiting? && pending.ticket == ticket {
        state := AsyncError(cause);
        emitted := emitted + [state];
        inflight := false;
        pending := Idle;
        alive := false;
      }
    }
  }
}
