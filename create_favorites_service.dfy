/** `createFavoritesService`: a sync store of a string-keyed set, `Record<string, true>`,
    with `toggle` and `isFavorite`. */
module CreateFavoritesService {
  import opened CreateSyncStore

  /** The value type `true` of `Record<string, true>`: every stored entry maps to `true`. */
  type True = b: bool | b witness true

  type Favorites = map<string, True>

  /** The property names every plain object inherits from `Object.prototype`. Reading any
      of them from a record that lacks it as an own key yields a truthy value (a function,
      or the prototype itself for `__proto__`). */
  const InheritedKeys: set<string> := {
    "constructor", "hasOwnProperty", "isPrototypeOf", "propertyIsEnumerable",
    "toLocaleString", "toString", "valueOf", "__proto__",
    "__defineGetter__", "__defineSetter__", "__lookupGetter__", "__lookupSetter__"}

  /** `!!record[id]` as JavaScript evaluates it: an own key, or an inherited one. */
  predicate IndexTruthy(m: Favorites, id: string)
  {
    id in m || id in InheritedKeys
  }

  /** The toggle callback as written: copy, then `delete` when `next[id]` is truthy, else
      store `true`. `delete` of a key that is not an own key changes nothing. */
  function ToggledAsWritten(m: Favorites, id: string): Favorites
  {
    if IndexTruthy(m, id) then m - {id} else m[id := true]
  }

  /** `isFavorite` as written: `!!snapshot[id]`. */
  predicate IsFavoriteAsWritten(m: Favorites, id: string)
  {
    IndexTruthy(m, id)
  }

  /** As written, an inherited name such as "constructor" can never be added, yet always
      reads as a favourite. */
  lemma InheritedKeyNeverAdded(m: Favorites, id: string)
    requires id in InheritedKeys
    ensures id !in ToggledAsWritten(m, id)
    ensures IsFavoriteAsWritten(ToggledAsWritten(m, id), id)
    ensures ToggledAsWritten(map[], "constructor") == map[]
  {
  }

  /** The toggle callback as intended, testing own keys only: removes `id` when present,
      adds it when absent, and leaves every other key as it was. */
  function Toggled(m: Favorites, id: string): (r: Favorites)
    ensures id in m ==> id !in r
    ensures id !in m ==> id in r
    ensures forall k :: k != id ==> (k in r <==> k in m)
  {
    if id in m then m - {id} else m[id := true]
  }

  /** `isFavorite` as intended: an own key of the snapshot. */
  predicate IsFavoriteIn(m: Favorites, id: string)
  {
    id in m
  }

  /** `toggle(id)` twice restores the original set. */
  lemma ToggleTwiceRestores(m: Favorites, id: string)
    ensures Toggled(Toggled(m, id), id) == m
  {
    var r := Toggled(Toggled(m, id), id);
    assert forall k :: k in r <==> k in m;
  }

  /** On every key that is not inherited, and every set reached from the empty one, the
      code as written and the corrected toggle agree. */
  lemma AgreesOffPrototype(m: Favorites, id: string)
    requires m.Keys !! InheritedKeys && id !in InheritedKeys
    ensures ToggledAsWritten(m, id) == Toggled(m, id)
    ensures IsFavoriteAsWritten(m, id) == IsFavoriteIn(m, id)
    ensures Toggled(m, id).Keys !! InheritedKeys
  {
  }

  function ToggleFn(id: string): Favorites -> Favorites
  {
    m => Toggled(m, id)
  }

  /** The service: the sync store's members plus `toggle` and `isFavorite`. */
  class FavoritesService {
    const store: SyncStore<Favorites>

    constructor (serviceId: string)
      ensures fresh(store) && store.Valid() && store.Model() == Created(map[])
      ensures store.serviceId == serviceId
    {
      store := new SyncStore(serviceId, map[]);
    }

    /** `toggle(id)`: one `update` whose callback flips membership of `id`. */
    method Toggle(id: string)
      requires store.Valid()
      modifies store
      ensures store.Valid() && store.Model() == AfterUpdate(old(store.Model()), ToggleFn(id))
      ensures store.current == Toggled(old(store.current), id)
    {
      store.Update(ToggleFn(id));
    }

    /** `isFavorite(id)`: membership in the current snapshot. */
    function IsFavorite(id: string): (b: bool)
      reads this, store
      requires store.Valid()
      ensures b <==> id in store.emitted[|store.emitted| - 1]
    {
      IsFavoriteIn(store.GetSnapshot(), id)
    }
  }
}
