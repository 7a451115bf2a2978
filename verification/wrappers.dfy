/** Option and JavaScript property-presence wrappers shared by the model. */
module Wrappers {

  /** A result that may be absent: `None` models a `null` the source returns or an argument left out. */
  datatype Option<+T> = None | Some(value: T)

  /**
   * A property of a JavaScript options object as the source inspects it: the key is
   * absent, present with `undefined`, present with `null`, or present with a value.
   * `'key' in obj`, `obj.key != null` and truthiness each draw a different line here.
   */
  datatype Field<+T> = Missing | Undefined | Null | Given(value: T) {

    /** `'key' in obj` */
    predicate IsPresent() {
      !Missing?
    }

    /**
     * `obj.key != null`: neither undefined (absent or explicit) nor null. For a property
     * whose values are objects or functions, this is also its truthiness.
     */
    predicate IsSet() {
      Given?
    }
  }
}
