/** Optional values: JavaScript's `undefined` for a property that may be absent. */
module Optional {

  datatype Option<+T> = None | Some(value: T)

  /** A string property is truthy when it is present and non-empty. */
  predicate TruthyText(o: Option<string>)
  {
    o.Some? && o.value != ""
  }

  /** A numeric property is truthy when it is present and non-zero. */
  predicate TruthyNumber(o: Option<int>)
  {
    o.Some? && o.value != 0
  }
}
