/** Small value helpers shared by every module: optional values, results of
    server-side code that raises on a missing record, and the numeric
    coercions the application relies on. */
module Base {

  datatype Option<+T> = None | Some(value: T)

  /** A record that `frappe.get_doc` could not find: the server-side code
      raises, and the whole hook aborts. */
  datatype MissingRecord = MissingRecord(doctype: string, name: string)

  datatype Result<+T> = Ok(value: T) | Err(missing: MissingRecord)

  /** Lookup of a fetched record: `None` when the fetch yields nothing. */
  function Lookup<K, V>(m: map<K, V>, k: K): (r: Option<V>)
    ensures r.Some? <==> k in m
    ensures r.Some? ==> r.value == m[k]
  {
    if k in m then Some(m[k]) else None
  }

  /** `rate * 0.01 * amount`: a percentage rate's share of an amount. */
  function Percent(rate: real, amount: real): real
  {
    rate * 0.01 * amount
  }

  function Abs(x: real): (r: real)
    ensures r >= 0.0
    ensures r == x || r == -x
  {
    if x < 0.0 then -x else x
  }

  /** Python's `int()` applied to a float: truncation toward zero. */
  function Trunc(x: real): (n: int)
    ensures x >= 0.0 ==> 0.0 <= n as real <= x < n as real + 1.0
    ensures x < 0.0 ==> n as real - 1.0 < x <= n as real <= 0.0
  {
    if x >= 0.0 then x.Floor else -((-x).Floor)
  }
}
