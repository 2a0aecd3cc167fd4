/** Small building blocks shared by both generations of the carousel component. */
module Common {

  /** A value that may be absent: a PHP null, or an optional related record. */
  datatype Option<T> = None | Some(value: T)

  /** PHP's implode: the parts joined by the separator, in order. */
  function Join(sep: string, parts: seq<string>): string
  {
    if parts == [] then ""
    else if |parts| == 1 then parts[0]
    else Join(sep, parts[..|parts| - 1]) + sep + parts[|parts| - 1]
  }

  /** PHP's truthiness of a string: the empty string and "0" are false, every other string is true. */
  predicate Truthy(s: string)
  {
    s != "" && s != "0"
  }
}
