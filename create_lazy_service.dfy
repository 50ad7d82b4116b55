/** `createLazyService(factory)`: a getter that calls `factory` on first use and then
    returns the cached instance while that instance is truthy. */
module CreateLazyService {
  import opened JsValues

  /** One getter with its own cache slot. The factory is a callback whose result may
      differ from call to call, so each `Get` receives `produced`, the value the factory
      returns if this call invokes it. `isTruthy` is JavaScript truthiness on `T`. */
  class LazyService<T> {
    const isTruthy: T -> bool
    var instance: Undefinable<T>
    ghost var factoryCalls: nat

    /** `!instance` is false: a truthy instance is cached. */
    predicate Cached()
      reads this
    {
      instance.Defined? && isTruthy(instance.value)
    }

    /** Creating the getter does not invoke the factory. */
    constructor (isTruthy: T -> bool)
      ensures this.isTruthy == isTruthy
      ensures instance == Undefined && factoryCalls == 0
    {
      this.isTruthy := isTruthy;
      instance := Undefined;
      factoryCalls := 0;
    }

    /** A cached instance is returned without invoking the factory; otherwise the factory
        is invoked once and its result is stored and returned. */
    method Get(produced: T) returns (r: T)
      modifies this
      ensures old(Cached()) ==> r == old(instance).value && instance == old(instance) && factoryCalls == old(factoryCalls)
      ensures !old(Cached()) ==> r == produced && instance == Defined(produced) && factoryCalls == old(factoryCalls) + 1
    {
      if !(instance.Defined? && isTruthy(instance.value)) {
        instance := Defined(produced);
        factoryCalls := factoryCalls + 1;
      }
      r := instance.value;
    }
  }

  /** Two getters, each called twice: the first call of each invokes its own factory,
      the second returns that getter's own instance when it is truthy and calls the
      factory again when it is falsy. Neither getter's cache affects the other. */
  method TwoIndependentGetters<T>(isTruthy: T -> bool, a1: T, a2: T, b1: T, b2: T)
    returns (ra1: T, ra2: T, rb1: T, rb2: T)
    ensures ra1 == a1 && rb1 == b1
    ensures ra2 == (if isTruthy(a1) then a1 else a2)
    ensures rb2 == (if isTruthy(b1) then b1 else b2)
  {
    var a := new LazyService(isTruthy);
    var b := new LazyService(isTruthy);
    ra1 := a.Get(a1);
    rb1 := b.Get(b1);
    ra2 := a.Get(a2);
    rb2 := b.Get(b2);
  }
}
