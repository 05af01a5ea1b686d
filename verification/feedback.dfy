/** The severity shown by a snackbar alert. */
module Feedback {

  datatype Severity = Info | Success | Error
}
