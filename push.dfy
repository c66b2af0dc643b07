/**
 * The LINE broadcast call of push.py, reduced to its outcome. The HTTP request itself is not
 * part of this model.
 */
module Push {

  /** Outcome of one `send_line_broadcast` call: status 200, any other status, or an exception. */
  datatype Delivery = Accepted | Rejected | Raised
}
