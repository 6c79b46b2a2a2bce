/** Optional values, and the truthiness test the scripts apply to optional arguments. */
module Options {

  datatype Option<+T> = None | Some(value: T)

  /** Python truthiness of an optional command-line argument or environment
      variable: it must be present and non-empty (`if search_pattern:`). */
  predicate Given(arg: Option<string>) {
    arg.Some? && arg.value != ""
  }
}
