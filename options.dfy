/** Python's `None`-or-value, as used by the pipeline for absent dates and rates. */
module Options {

  datatype Option<+T> = None | Some(value: T)

}
