/** An optional value: the `null` / `NaN` results of planet-logic.ts. */
module Options {
  datatype Option<T> = None | Some(value: T)
}
