/** An optional value: used for absent storage entries, absent DOM attributes
    and a media element without a source. */
module Options {

  datatype Option<+T> = None | Some(value: T)
}
