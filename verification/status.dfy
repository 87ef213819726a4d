/**
 * The result of one contract check: a comment saying what was checked and a
 * boolean that is true when the check passed. Both status headers declare this
 * same two-field record; there is no default value, and `operator bool` reads
 * the `status` field.
 */
module Status {

  datatype ReturnStatus = ReturnStatus(comment: string, status: bool)
}
