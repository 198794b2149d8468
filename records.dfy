/** The structured bill record that extraction builds and detection reads. */
module Records {
  import opened PyNumbers

  /** Python's `data` dict: field name to an `int` or `float`; an absent key is an unset field. */
  type Record = map<string, Value>

  /** `data.get(key, 0)`: the stored number, or the integer 0 for an unset field. */
  function Get(d: Record, key: string): Value
  {
    if key in d then d[key] else Int(0)
  }
}
