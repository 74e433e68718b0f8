/** The colour variants of the status badge that the list pages choose per status. */
module Badge {

  datatype Variant = Info | Success | Warning | Error | Default
}
