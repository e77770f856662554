/** The part of Go's `strings` package the client relies on. */
module Strings {

  /**
   * strings.Join: the elements in order, with `sep` written between each adjacent pair;
   * two elements get exactly one separator between them, whatever the elements are.
   */
  function Join(elems: seq<string>, sep: string): (s: string)
    ensures |elems| == 2 ==> s == elems[0] + sep + elems[1]
  {
    if |elems| == 0 then ""
    else if |elems| == 1 then elems[0]
    else elems[0] + sep + Join(elems[1..], sep)
  }
}
