/**
 * Property reads on plain JavaScript object literals. A key the object does
 * not own still finds the members every object inherits from
 * `Object.prototype`, and each of those reads as a truthy value (a function,
 * or the prototype itself for `__proto__`).
 */
module JsObject {
  /** The names every plain object inherits from `Object.prototype`. */
  const InheritedNames: set<string> := {
    "constructor", "hasOwnProperty", "isPrototypeOf", "propertyIsEnumerable",
    "toLocaleString", "toString", "valueOf", "__proto__",
    "__defineGetter__", "__defineSetter__", "__lookupGetter__", "__lookupSetter__"}

  /** Whether `obj[key]` is truthy for an object whose own properties are the booleans `own`. */
  predicate FlagIsSet(own: map<string, bool>, key: string) {
    if key in own then own[key] else key in InheritedNames
  }
}
