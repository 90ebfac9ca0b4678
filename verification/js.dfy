/** The parts of JavaScript truthiness the screens rely on: `""`, `null` and
    `undefined` are falsy, while any object is truthy. */
module Js {
  import opened Wrappers

  /** `!!s` for a string. */
  predicate Truthy(s: string) {
    s != ""
  }

  /** `!!o` for an optional string field such as `paidDate?: string`. */
  predicate TruthyText(o: Option<string>) {
    o.Some? && Truthy(o.value)
  }

  /** `!!o` for an optional object field (objects and arrays are always truthy). */
  predicate TruthyObject<T>(o: Option<T>) {
    o.Some?
  }
}
