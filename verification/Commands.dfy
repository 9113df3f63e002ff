/** What a command to Redis, to the database or to a queue reports. */
module Commands {

  /** A failed command may have had its effect all the same. */
  datatype Answer = Done | Error(landed: bool)

  predicate HasEffect(a: Answer) {
    a.Done? || a.landed
  }
}
