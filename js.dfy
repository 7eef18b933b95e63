/**
 * The few JavaScript values the tracker works with, and the truthiness rules
 * its guards and fallbacks (`!x`, `x || d`) rely on.
 */
module Js {

  /** A nullable value: `null` (or a missing storage key) is `None`. */
  datatype Option<+T> = None | Some(value: T)

  /**
   * A number as `parseFloat` hands it to the program: NaN (unparseable or
   * missing input) or a finite value, taken here as an exact real.
   */
  datatype Number = NaN | Finite(value: real)

  /** `!!n` on a number: NaN and zero are the only falsy numbers. */
  predicate Truthy(n: Number)
  {
    n.Finite? && n.value != 0.0
  }

  /** `n || fallback` on a number. */
  function OrElse(n: Number, fallback: real): real
  {
    if Truthy(n) then n.value else fallback
  }

  /**
   * Property names that every plain object (`{}`, or what `JSON.parse` builds)
   * inherits from Object.prototype; looking one of them up on an object that
   * has no own property of that name yields a truthy function (or, for
   * `__proto__`, the prototype object itself).
   */
  const ObjectPrototypeMembers: set<string> :=
    {"constructor", "hasOwnProperty", "isPrototypeOf", "propertyIsEnumerable",
     "toLocaleString", "toString", "valueOf", "__proto__",
     "__defineGetter__", "__defineSetter__", "__lookupGetter__", "__lookupSetter__"}
}
