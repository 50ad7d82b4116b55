/** Properties of the async store's state machine: the invariant, the three ways a `run`
    call can go, settlement, superseding, and the terminal effect of an error. */
module AsyncStoreProperties {
  import opened JsValues
  import opened AsyncModel
  import opened CreateAsyncStore

  /** The effective config takes each field from the run's overrides if given, else from
      the store's options if given, else from the defaults 0 / 300 / true. */
  lemma ConfigPrecedence(options: ConfigOverrides, overrides: ConfigOverrides)
    ensures var c := EffectiveConfig(options, overrides);
      && c.staleTime == (if overrides.staleTime.Defined? then overrides.staleTime.value
                         else if options.staleTime.Defined? then options.staleTime.value else 0)
      && c.debounceTime == (if overrides.debounceTime.Defined? then overrides.debounceTime.value
                            else if options.debounceTime.Defined? then options.debounceTime.value else 300)
      && c.deduplicate == (if overrides.deduplicate.Defined? then overrides.deduplicate.value
                           else if options.deduplicate.Defined? then options.deduplicate.value else true)
  {
  }

  /** A fresh store publishes `initialState`, or EMPTY when none is given; it is not in
      flight, its `lastSuccessTime` is 0 and the invariant holds. */
  lemma InitialSatisfiesInv<T, E, F>(initialState: Undefinable<Async<T, E>>)
    ensures var s := Initial<T, E, F>(initialState);
      && Inv(s)
      && s.state == (if initialState.Defined? then initialState.value else AsyncEmpty)
      && !s.inflight && s.lastSuccessTime == 0 && s.pending.Idle? && s.alive
  {
  }

  lemma StepPreservesInv<T, E, F>(s: StoreState<T, E, F>, base: Config, e: Event<T, E, F>)
    requires Inv(s)
    ensures Inv(Step(s, base, e))
    ensures Step(s, base, e).nextTicket >= s.nextTicket
  {
  }

  /** Every sequence of events keeps the invariant; published values are only appended. */
  lemma {:induction false} StepsPreserveInv<T, E, F>(s: StoreState<T, E, F>, base: Config, events: seq<Event<T, E, F>>)
    requires Inv(s)
    ensures var t := Steps(s, base, events);
      Inv(t) && |t.emitted| >= |s.emitted| && t.emitted[..|s.emitted|] == s.emitted
    decreases |events|
  {
    if events != [] {
      var s1 := Step(s, base, events[0]);
      StepPreservesInv(s, base, events[0]);
      assert |s1.emitted| >= |s.emitted| && s1.emitted[..|s.emitted|] == s.emitted;
      StepsPreserveInv(s1, base, events[1..]);
      var t := Steps(s1, base, events[1..]);
      assert t.emitted[..|s.emitted|] == t.emitted[..|s1.emitted|][..|s.emitted|];
    }
  }

  /** Stale skip: fresh DATA makes a run start nothing and publish nothing; it clears the
      in-flight flag. No cycle was pending, so none is lost. */
  lemma StaleRunSkips<T, E, F>(s: StoreState<T, E, F>, base: Config, task: F, overrides: ConfigOverrides, now: int)
    requires Inv(s) && s.alive
    requires IsFresh(s, Merge(base, overrides), now)
    ensures var t := RunStep(s, base, task, overrides, now);
      && s.pending.Idle? && t.pending.Idle? && !t.inflight
      && t.state == s.state && t.emitted == s.emitted && t.lastSuccessTime == s.lastSuccessTime
  {
  }

  /** Dedup skip: with `deduplicate` on, a run while a cycle is pending starts nothing and
      publishes nothing, but `switchMap` has already abandoned the pending cycle and the
      emitted `null` clears the flag: the store is left on LOADING with nothing pending. */
  lemma DuplicateRunAbandonsCycle<T, E, F>(s: StoreState<T, E, F>, base: Config, task: F, overrides: ConfigOverrides, now: int)
    requires Inv(s) && s.alive && s.inflight
    requires Merge(base, overrides).deduplicate
    ensures var t := RunStep(s, base, task, overrides, now);
      && t.state == s.state == AsyncLoading && t.emitted == s.emitted
      && !t.inflight && t.pending.Idle? && Inv(t)
  {
  }

  /** An accepted run sets the flag and publishes LOADING at once; its task is not invoked
      before the debounce delay has elapsed, and nothing can settle meanwhile. */
  lemma AcceptedRunWaitsForTimer<T, E, F>(
    s: StoreState<T, E, F>, base: Config, task: F, overrides: ConfigOverrides, now: int,
    later: int, ticket: nat, result: Nullable<T>, cause: E)
    requires Inv(s) && s.alive
    requires Decide(s, Merge(base, overrides), now) == Accepted
    ensures var t := RunStep(s, base, task, overrides, now);
      && t.inflight && t.state == AsyncLoading && t.emitted == s.emitted + [AsyncLoading]
      && t.pending == Debouncing(s.nextTicket, task, now + DelayOf(Merge(base, overrides)))
      && t.lastSuccessTime == s.lastSuccessTime
      && (later < now + DelayOf(Merge(base, overrides)) ==> TimerStep(t, later) == t)
      && (later >= now + DelayOf(Merge(base, overrides)) ==> TimerStep(t, later).pending == Awaiting(s.nextTicket, task))
      && ResolveStep(t, ticket, result, later) == t
      && RejectStep(t, ticket, cause) == t
  {
  }

  /** Only the timer starts a task: no other event moves a cycle into the awaited state. */
  lemma OnlyTimerInvokesTasks<T, E, F>(s: StoreState<T, E, F>, base: Config, e: Event<T, E, F>)
    requires Inv(s)
    ensures var t := Step(s, base, e);
      t.pending.Awaiting? && !e.TimerEvent? ==> t.pending == s.pending
  {
  }

  /** Settling the awaited cycle: a value publishes DATA and records the time; `null`
      publishes nothing and leaves the time; both clear the flag and the slot. */
  lemma ResolveOutcome<T, E, F>(s: StoreState<T, E, F>, ticket: nat, result: Nullable<T>, now: int)
    requires Inv(s) && Awaits(s, ticket)
    ensures var t := ResolveStep(s, ticket, result, now);
      && !t.inflight && t.pending.Idle? && t.alive
      && (result.NonNull? ==>
            t.state == AsyncData(result.value) && t.lastSuccessTime == now
            && t.emitted == s.emitted + [AsyncData(result.value)])
      && (result.Null? ==>
            t.state == s.state == AsyncLoading && t.lastSuccessTime == s.lastSuccessTime
            && t.emitted == s.emitted)
  {
  }

  /** A rejection of the awaited cycle publishes ERROR with the cause and ends the pipeline. */
  lemma RejectOutcome<T, E, F>(s: StoreState<T, E, F>, ticket: nat, cause: E)
    requires Inv(s) && Awaits(s, ticket)
    ensures var t := RejectStep(s, ticket, cause);
      && t.state == AsyncError(cause) && t.emitted == s.emitted + [AsyncError(cause)]
      && !t.inflight && t.pending.Idle? && !t.alive && Inv(t)
  {
  }

  /** After an error nothing changes any more: every later event, `run` included, is ignored. */
  lemma {:induction false} DeadStoreIsFrozen<T, E, F>(s: StoreState<T, E, F>, base: Config, events: seq<Event<T, E, F>>)
    requires Inv(s) && !s.alive
    ensures Steps(s, base, events) == s
    decreases |events|
  {
    if events != [] {
      assert Step(s, base, events[0]) == s;
      DeadStoreIsFrozen(s, base, events[1..]);
    }
  }

  /** Every cycle the store may still settle has a ticket of at least `k`. */
  ghost predicate TicketsFrom<T, E, F>(s: StoreState<T, E, F>, k: nat)
  {
    s.nextTicket >= k && (!s.pending.Idle? ==> s.pending.ticket >= k)
  }

  lemma {:induction false} TicketsFromPreserved<T, E, F>(s: StoreState<T, E, F>, base: Config, events: seq<Event<T, E, F>>, k: nat)
    requires TicketsFrom(s, k)
    ensures TicketsFrom(Steps(s, base, events), k)
    decreases |events|
  {
    if events != [] {
      var s1 := Step(s, base, events[0]);
      assert TicketsFrom(s1, k);
      TicketsFromPreserved(s1, base, events[1..], k);
    }
  }

  /** Superseding: once a later `run` has been processed, a cycle started before it can
      never write its result or its error, whatever happens afterwards. */
  lemma SupersededCycleNeverWrites<T, E, F>(
    s: StoreState<T, E, F>, base: Config, task: F, overrides: ConfigOverrides, now: int,
    events: seq<Event<T, E, F>>, earlier: nat, result: Nullable<T>, cause: E, later: int)
    requires Inv(s) && earlier < s.nextTicket
    ensures var u := Steps(RunStep(s, base, task, overrides, now), base, events);
      ResolveStep(u, earlier, result, later) == u && RejectStep(u, earlier, cause) == u
  {
    var s1 := RunStep(s, base, task, overrides, now);
    if s.alive {
      assert TicketsFrom(s1, s.nextTicket);
      TicketsFromPreserved(s1, base, events, s.nextTicket);
    } else {
      DeadStoreIsFrozen(s, base, events);
    }
  }

  /** Configured with debounce 0 and `run(() => 5)`, the store publishes LOADING, then DATA(5). */
  lemma ScenarioLoadingThenData(now: int)
    ensures
      var base := Merge(DefaultConfig, ConfigOverrides(Defined(0), Defined(0), Defined(true)));
      var s0 := Initial<int, string, string>(Undefined);
      var s1 := RunStep(s0, base, "five", NoOverrides, now);
      var s2 := TimerStep(s1, now);
      var s3 := ResolveStep(s2, 0, NonNull(5), now);
      && s2.pending == Awaiting(0, "five")
      && s3.emitted == [AsyncEmpty, AsyncLoading, AsyncData(5)]
      && s3.state == AsyncData(5) && !s3.inflight
  {
  }

  /** `run(() => Promise.reject("boom"))` publishes LOADING, then ERROR("boom"), and a
      later run is ignored. */
  lemma ScenarioRejected(now: int)
    ensures
      var s0 := Initial<int, string, string>(Undefined);
      var s1 := RunStep(s0, DefaultConfig, "boom-task", NoOverrides, now);
      var s2 := TimerStep(s1, now + 300);
      var s3 := RejectStep(s2, 0, "boom");
      && s3.emitted == [AsyncEmpty, AsyncLoading, AsyncError("boom")]
      && RunStep(s3, DefaultConfig, "retry", NoOverrides, now + 1000) == s3
  {
  }

  /** With the default config, `run(A)` then `run(B)` inside the debounce window runs
      neither task: the second call abandons A and is itself dropped as a duplicate, and
      the store stays on LOADING with nothing pending. A third call starts a new cycle. */
  lemma ScenarioSecondRunWithDedup(now: int)
    ensures
      var s0 := Initial<int, string, string>(Undefined);
      var s1 := RunStep(s0, DefaultConfig, "A", NoOverrides, now);
      var s2 := RunStep(s1, DefaultConfig, "B", NoOverrides, now + 100);
      var s3 := TimerStep(s2, now + 1000);
      var s4 := RunStep(s3, DefaultConfig, "C", NoOverrides, now + 2000);
      && s3 == s2 && s2.state == AsyncLoading && s2.pending.Idle? && !s2.inflight
      && s2.emitted == [AsyncEmpty, AsyncLoading]
      && s4.pending == Debouncing(2, "C", now + 2300)
  {
  }

  /** With `deduplicate` off, the second call wins: only B is invoked, and LOADING is
      published once per call. */
  lemma ScenarioSecondRunWithoutDedup(now: int)
    ensures
      var s0 := Initial<int, string, string>(Undefined);
      var s1 := RunStep(s0, DefaultConfig, "A", ConfigOverrides(Undefined, Undefined, Defined(false)), now);
      var s2 := RunStep(s1, DefaultConfig, "B", ConfigOverrides(Undefined, Undefined, Defined(false)), now + 100);
      var s3 := TimerStep(s2, now + 400);
      && s3.pending == Awaiting(1, "B")
      && s3.emitted == [AsyncEmpty, AsyncLoading, AsyncLoading]
  {
  }
}
