/** An optional value: SQL NULL, a JavaScript null, a lookup that found nothing. */
module Options {

  datatype Option<+T> = None | Some(value: T)
}
