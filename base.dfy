/** Shared value wrappers: Python's `None` and the truthiness tests the store code relies on. */
module Base {

  /** A nullable value (`None` in Python, `null=True` in a Django field). */
  datatype Option<+T> = None | Some(value: T)

  /** `bool(s)` for an optional string: `None` and `""` are both falsy. */
  predicate TruthyString(s: Option<string>)
  {
    s.Some? && s.value != ""
  }

  /** `bool(x)` for an optional decimal: `None` and zero are both falsy. */
  predicate TruthyDecimal(x: Option<real>)
  {
    x.Some? && x.value != 0.0
  }

  /** `if self.pk:` for an optional primary key: `None` and 0 are both falsy. */
  predicate HasPk(pk: Option<nat>)
  {
    pk.Some? && pk.value != 0
  }

  function Max(a: int, b: int): int
  {
    if a < b then b else a
  }
}
