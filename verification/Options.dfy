/** A value that may be missing: a NULL pointer in the source, as for the next request of a queue or the
    result of a lookup, or the address of the list head, where the backlog pointer of a crypto queue
    rests when nothing waits.  One type serves every module. */
module Options {
  datatype Option<T> = None | Some(value: T)
}
