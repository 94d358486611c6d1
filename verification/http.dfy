/** The parts of `net/http` and `net/url` that the service uses. */
module Http {
  const StatusOK: int := 200
  const StatusBadRequest: int := 400
  const StatusUnauthorized: int := 401

  /** `http.Header` and `url.Values`: each name maps to its values, in order. */
  type Values = map<string, seq<string>>

  /** `Header.Get` and `Values.Get`: the first value of a name, or "" when
      it is absent. */
  function FirstValue(vs: Values, name: string): (r: string)
    ensures name !in vs ==> r == ""
    ensures name in vs && |vs[name]| == 0 ==> r == ""
    ensures name in vs && |vs[name]| > 0 ==> r == vs[name][0]
  {
    if name in vs && |vs[name]| > 0 then vs[name][0] else ""
  }
}
