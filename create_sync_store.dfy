/** `createSyncStore`: a store holding one current value, with `update` and `reset` as its
    only mutators. Every mutation emits the new value on the store's stream. */
module CreateSyncStore {

  /** What the store has done so far: the construction-time value, the current value and
      every value emitted on the stream (the first being the replayed initial value). */
  datatype SyncState<T> = SyncState(initial: T, current: T, emitted: seq<T>)

  /** One call of a mutator. */
  datatype SyncOp<!T> = UpdateOp(fn: T -> T) | ResetOp

  /** The snapshot and the stream agree: the current value is the latest emission. */
  ghost predicate Consistent<T>(s: SyncState<T>)
  {
    |s.emitted| > 0 && s.emitted[|s.emitted| - 1] == s.current
  }

  /** The state right after `createSyncStore(initial)`. */
  function Created<T>(initial: T): (s: SyncState<T>)
    ensures Consistent(s) && s.current == initial && s.emitted == [initial]
  {
    SyncState(initial, initial, [initial])
  }

  /** `update(fn)`: the new value is `fn` of the old one, emitted whether or not it differs. */
  function AfterUpdate<T>(s: SyncState<T>, fn: T -> T): SyncState<T>
  {
    var next := fn(s.current);
    s.(current := next, emitted := s.emitted + [next])
  }

  /** `reset()`: the construction-time value is restored and emitted. */
  function AfterReset<T>(s: SyncState<T>): SyncState<T>
  {
    s.(current := s.initial, emitted := s.emitted + [s.initial])
  }

  function Apply<T>(s: SyncState<T>, op: SyncOp<T>): SyncState<T>
  {
    match op
    case UpdateOp(fn) => AfterUpdate(s, fn)
    case ResetOp => AfterReset(s)
  }

  /** The state after a history of mutator calls, in order. */
  function ApplyAll<T>(s: SyncState<T>, ops: seq<SyncOp<T>>): SyncState<T>
    decreases |ops|
  {
    if ops == [] then s else ApplyAll(Apply(s, ops[0]), ops[1..])
  }

  /** One mutator call: the snapshot stays the latest emission, exactly one value is
      emitted, earlier emissions stay as they were, and the initial value is kept. */
  lemma ApplyStep<T>(s: SyncState<T>, op: SyncOp<T>)
    requires Consistent(s)
    ensures var t := Apply(s, op);
      && Consistent(t)
      && t.initial == s.initial
      && t.emitted[..|s.emitted|] == s.emitted
      && |t.emitted| == |s.emitted| + 1
      && (op.UpdateOp? ==> t.current == op.fn(s.current))
      && (op.ResetOp? ==> t.current == s.initial)
  {
  }

  /** Any history of mutator calls keeps the snapshot equal to the latest emission, emits
      exactly one value per call, only appends to the stream, and never changes the
      remembered initial value. */
  lemma {:induction false} ApplyAllInvariant<T>(s: SyncState<T>, ops: seq<SyncOp<T>>)
    requires Consistent(s)
    ensures var t := ApplyAll(s, ops);
      && Consistent(t)
      && t.initial == s.initial
      && |t.emitted| == |s.emitted| + |ops|
      && t.emitted[..|s.emitted|] == s.emitted
    decreases |ops|
  {
    if ops != [] {
      var s1 := Apply(s, ops[0]);
      ApplyStep(s, ops[0]);
      ApplyAllInvariant(s1, ops[1..]);
      var t := ApplyAll(s1, ops[1..]);
      assert t.emitted[..|s.emitted|] == t.emitted[..|s1.emitted|][..|s.emitted|];
    }
  }

  /** `reset()` restores exactly the construction-time value whatever came before. */
  lemma ResetAfterAnyHistory<T>(initial: T, ops: seq<SyncOp<T>>)
    ensures AfterReset(ApplyAll(Created(initial), ops)).current == initial
  {
    ApplyAllInvariant(Created(initial), ops);
  }

  /** `reset(); reset()` leaves the same value as one `reset()`; the second call still
      emits (there is no distinct-value filter). */
  lemma ResetIdempotent<T>(s: SyncState<T>)
    ensures AfterReset(AfterReset(s)).current == AfterReset(s).current
    ensures AfterReset(AfterReset(s)).emitted == AfterReset(s).emitted + [s.initial]
  {
  }

  /** The store object. `serviceId` stands for the `crypto.randomUUID()` minted at creation. */
  class SyncStore<T> {
    const serviceId: string
    const initialState: T
    var current: T
    ghost var emitted: seq<T>

    ghost function Model(): SyncState<T>
      reads this
    {
      SyncState(initialState, current, emitted)
    }

    ghost predicate Valid()
      reads this
    {
      Consistent(Model())
    }

    constructor (serviceId: string, initialState: T)
      ensures Valid() && Model() == Created(initialState)
      ensures this.serviceId == serviceId
    {
      this.serviceId := serviceId;
      this.initialState := initialState;
      current := initialState;
      emitted := [initialState];
    }

    /** `getSnapshot()`: the value most recently emitted on the stream. */
    function GetSnapshot(): (r: T)
      reads this
      requires Valid()
      ensures r == emitted[|emitted| - 1]
    {
      current
    }

    method Update(fn: T -> T)
      requires Valid()
      modifies this
      ensures Valid() && Model() == AfterUpdate(old(Model()), fn)
    {
      current := fn(current);
      emitted := emitted + [current];
    }

    method Reset()
      requires Valid()
      modifies this
      ensures Valid() && Model() == AfterReset(old(Model()))
    {
      current := initialState;
      emitted := emitted + [current];
    }
  }
}
