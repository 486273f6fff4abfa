/** An optional value: PHP's `null` / `false` results and absent array keys. */
module Options {
  datatype Option<+T> = None | Some(value: T)
}
