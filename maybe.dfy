/** An optional value: the model's stand-in for Python's None and for
    "key absent" in the dictionaries the billing engine builds. */
module Maybe {

  datatype Option<T> = None | Some(value: T)
}
