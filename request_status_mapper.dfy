/** The dashboard's mapping from an HTTP status code to the CSS class that colours it. */
module RequestStatusMapper {
  import opened Wrappers

  /** `mapStatusToClass(status)`; `None` is the `undefined` the source returns for other codes. */
  function MapStatusToClass(status: int): (c: Option<string>)
    ensures status == 429 ==> c == Some("is-dark")
    ensures 200 <= status < 300 ==> c == Some("is-success")
    ensures 300 <= status < 400 ==> c == Some("is-info")
    ensures 400 <= status < 500 && status != 429 ==> c == Some("is-warning")
    ensures 500 <= status < 600 ==> c == Some("is-danger")
    ensures c.None? <==> status < 200 || status >= 600
  {
    if status == 429 then Some("is-dark")
    else if 200 <= status < 300 then Some("is-success")
    else if 300 <= status < 400 then Some("is-info")
    else if 400 <= status < 500 then Some("is-warning")
    else if 500 <= status < 600 then Some("is-danger")
    else None
  }

  /** Every class the mapper produces is one of the five, and each range gets exactly one. */
  lemma ClassesAreDistinctPerRange(a: int, b: int)
    requires MapStatusToClass(a).Some? && MapStatusToClass(a) == MapStatusToClass(b)
    ensures a == 429 <==> b == 429
    ensures a != 429 ==> a / 100 == b / 100
  {
  }
}
