/** What the screens share: the number parsers of the JavaScript runtime,
    taken as parameters, and the outcome of a form validation. */
module Forms {
  import opened Wrappers

  /** `parseFloat` and `parseInt` on a text field; `None` stands for `NaN`. */
  datatype Parsers = Parsers(parseFloat: string -> Option<real>, parseInt: string -> Option<int>)

  /** A validation outcome: accepted, or rejected with the alert's reason. */
  datatype Verdict<E> = Accepted | Rejected(reason: E)

  /** `parseFloat(x) || 0`: a parsed number, with `NaN` read as zero. */
  function OrZero(x: Option<real>): (r: real)
    ensures x.Some? ==> r == x.value
    ensures x.None? ==> r == 0.0
  {
    x.GetOr(0.0)
  }
}
