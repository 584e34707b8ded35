/** Small shared wrapper: an optional value, used for "no such entry" and
    for arithmetic that has no finite result. */
module Common {

  datatype Option<+T> = None | Some(value: T)

}
