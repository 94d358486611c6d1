/**
 * What the two configuration loaders share: reading a variable from the
 * environment, the foreign parsers they call, list splitting, the method
 * whitelist, and the success-ratio check.
 */
module EnvVars {
  import opened Wrappers
  import opened Json

  /** The process environment; an absent variable reads as "". */
  type Env = map<string, string>

  function Getenv(env: Env, name: string): (r: string)
    ensures name !in env ==> r == ""
    ensures name in env ==> r == env[name]
  {
    if name in env then env[name] else ""
  }

  /** The IEEE-754 doubles that `strconv.ParseFloat` can return, as far as the
      ratio check can tell them apart. */
  datatype Float64 = Finite(r: real) | PosInf | NegInf | NaN

  /** `x <= b` on a double; every comparison with NaN is false. */
  predicate LessEq(x: Float64, b: real) {
    match x
    case Finite(r) => r <= b
    case NegInf => true
    case PosInf => false
    case NaN => false
  }

  /** `x > b` on a double; every comparison with NaN is false. */
  predicate Greater(x: Float64, b: real) {
    match x
    case Finite(r) => r > b
    case PosInf => true
    case NegInf => false
    case NaN => false
  }

  const TwoTo63: int := 0x8000_0000_0000_0000

  /** Go's `int` on a 64-bit platform. */
  type Int64 = x: int | -TwoTo63 <= x < TwoTo63

  /** The foreign parsers: `strconv.Atoi` (whose results fit in an `int`),
      `strconv.ParseFloat` and `json.Unmarshal` into a string-keyed map.
      `None` is a parse error. */
  datatype Parsers = Parsers(
    atoi: string -> Option<Int64>,
    parseFloat: string -> Option<Float64>,
    decodeObject: string -> Option<Json>)

  /** Why a configuration was refused. */
  datatype ConfigError =
    | BothCredentials
    | InvalidInt(name: string)
    | InvalidJson(name: string)
    | DelayTooLongError
    | InvalidRatio
    | MethodNotAllowed(verb: string)

  /** `strings.Split(s, string(sep))`: the pieces between separators, in order. */
  function Split(s: string, sep: char): (r: seq<string>)
    ensures |r| >= 1
    ensures forall i :: 0 <= i < |r| ==> sep !in r[i]
  {
    if |s| == 0 then [""]
    else if s[0] == sep then [""] + Split(s[1..], sep)
    else
      var rest := Split(s[1..], sep);
      [[s[0]] + rest[0]] + rest[1..]
  }

  /** `strings.Join`: the inverse of Split. */
  function Join(parts: seq<string>, sep: char): string
    requires |parts| >= 1
  {
    if |parts| == 1 then parts[0] else parts[0] + [sep] + Join(parts[1..], sep)
  }

  lemma {:induction false} JoinSplit(s: string, sep: char)
    ensures Join(Split(s, sep), sep) == s
  {
    if |s| > 0 {
      JoinSplit(s[1..], sep);
      var rest := Split(s[1..], sep);
      if s[0] == sep {
        assert Split(s, sep)[1..] == rest;
      } else {
        var r := Split(s, sep);
        if |rest| == 1 {
          assert r == [[s[0]] + rest[0]];
        } else {
          assert r[1..] == rest[1..];
          assert Join(r, sep) == [s[0]] + rest[0] + [sep] + Join(rest[1..], sep);
        }
        assert s == [s[0]] + s[1..];
      }
    }
  }

  lemma {:induction false} SplitJoin(parts: seq<string>, sep: char)
    requires |parts| >= 1
    requires forall i :: 0 <= i < |parts| ==> sep !in parts[i]
    ensures Split(Join(parts, sep), sep) == parts
  {
    if |parts| == 1 {
      SplitPiece(parts[0], sep);
    } else {
      SplitJoin(parts[1..], sep);
      SplitPrefix(parts[0], Join(parts[1..], sep), sep);
      assert parts == [parts[0]] + parts[1..];
    }
  }

  /** A piece with no separator splits to itself. */
  lemma {:induction false} SplitPiece(w: string, sep: char)
    requires sep !in w
    ensures Split(w, sep) == [w]
  {
    if |w| > 0 {
      SplitPiece(w[1..], sep);
      assert [w[0]] + w[1..] == w;
    }
  }

  /** Splitting `w + [sep] + t` puts `w` in front of the pieces of `t`. */
  lemma {:induction false} SplitPrefix(w: string, t: string, sep: char)
    requires sep !in w
    ensures Split(w + [sep] + t, sep) == [w] + Split(t, sep)
  {
    var s := w + [sep] + t;
    if |w| == 0 {
      assert s[0] == sep && s[1..] == t;
    } else {
      SplitPrefix(w[1..], t, sep);
      assert s[0] == w[0] && s[1..] == w[1..] + [sep] + t;
      assert [w[0]] + w[1..] == w;
    }
  }

  /** "/foo,/bar" splits into ["/foo", "/bar"]. */
  lemma SplitExample()
    ensures Split("/foo,/bar", ',') == ["/foo", "/bar"]
  {
    assert Join(["/foo", "/bar"], ',') == "/foo,/bar";
    SplitJoin(["/foo", "/bar"], ',');
  }

  /** A comma-separated variable, or the empty list when it is unset. */
  function ListVar(env: Env, name: string): (r: seq<string>)
    ensures Getenv(env, name) == "" ==> r == []
    ensures Getenv(env, name) != "" ==> |r| >= 1 && Join(r, ',') == Getenv(env, name)
    ensures forall i :: 0 <= i < |r| ==> ',' !in r[i]
  {
    var v := Getenv(env, name);
    if v == "" then [] else JoinSplit(v, ','); Split(v, ',')
  }

  /** `stringSliceContains`: a linear scan with an early exit. */
  method StringSliceContains(s: seq<string>, e: string) returns (found: bool)
    ensures found <==> e in s
  {
    for i := 0 to |s|
      invariant e !in s[..i]
    {
      if s[i] == e {
        return true;
      }
    }
    return false;
  }

  method StringSliceContainsExamples() returns (two: bool, four: bool)
    ensures two && !four
  {
    two := StringSliceContains(["one", "two", "three"], "two");
    four := StringSliceContains(["one", "two", "three"], "four");
  }

  const AllowedMethods: seq<string> := ["GET", "POST", "PUT", "DELETE", "PATCH"]

  /** The first element of `ms` that is not an allowed verb. */
  function FirstDisallowed(ms: seq<string>): (r: Option<string>)
    ensures r.None? <==> forall i :: 0 <= i < |ms| ==> ms[i] in AllowedMethods
    ensures r.Some? ==> r.value in ms && r.value !in AllowedMethods
  {
    if |ms| == 0 then None
    else if ms[0] !in AllowedMethods then Some(ms[0])
    else
      var r := FirstDisallowed(ms[1..]);
      assert forall i :: 0 < i < |ms| ==> ms[i] == ms[1..][i - 1];
      r
  }

  lemma {:induction false} FirstDisallowedAt(ms: seq<string>, i: nat)
    requires i < |ms| && ms[i] !in AllowedMethods
    requires forall j :: 0 <= j < i ==> ms[j] in AllowedMethods
    ensures FirstDisallowed(ms) == Some(ms[i])
  {
    if i > 0 {
      FirstDisallowedAt(ms[1..], i - 1);
    }
  }

  /** The validation loop over the configured methods: the first one that
      `StringSliceContains` does not find among the allowed verbs. */
  method FindDisallowed(ms: seq<string>) returns (bad: Option<string>)
    ensures bad == FirstDisallowed(ms)
  {
    for i := 0 to |ms|
      invariant forall j :: 0 <= j < i ==> ms[j] in AllowedMethods
    {
      var ok := StringSliceContains(AllowedMethods, ms[i]);
      if !ok {
        FirstDisallowedAt(ms, i);
        return Some(ms[i]);
      }
    }
    return None;
  }

  /** `{"success": true}`, the default success body of both loaders. */
  const SuccessTrue: Json := JObject([("success", JBool(true))])

  /** `METHODS`: split on commas, every piece an allowed verb; otherwise the
      error names a listed verb that is not allowed. */
  function MethodsVar(env: Env): (r: Result<seq<string>, ConfigError>)
    ensures r.Success? ==> r.value == ListVar(env, "METHODS")
    ensures r.Success? <==> forall i :: 0 <= i < |ListVar(env, "METHODS")| ==> ListVar(env, "METHODS")[i] in AllowedMethods
    ensures r.Failure? ==>
      r.error.MethodNotAllowed? && r.error.verb in ListVar(env, "METHODS") && r.error.verb !in AllowedMethods
    ensures r.Failure? ==> r == Failure(MethodNotAllowed(FirstDisallowed(ListVar(env, "METHODS")).value))
  {
    var ms := ListVar(env, "METHODS");
    match FirstDisallowed(ms)
    case Some(m) => Failure(MethodNotAllowed(m))
    case None => Success(ms)
  }

  /** The loaders return at the first listed verb that is not allowed: the
      error names the method at position `i` when every earlier one is
      allowed. */
  lemma MethodErrorIsFirst(env: Env, i: nat)
    requires i < |ListVar(env, "METHODS")| && ListVar(env, "METHODS")[i] !in AllowedMethods
    requires forall j :: 0 <= j < i ==> ListVar(env, "METHODS")[j] in AllowedMethods
    ensures MethodsVar(env) == Failure(MethodNotAllowed(ListVar(env, "METHODS")[i]))
  {
    FirstDisallowedAt(ListVar(env, "METHODS"), i);
  }

  /** An integer variable, or `default` when it is unset; a set value that
      Atoi refuses is an error naming the variable. */
  function IntVar(env: Env, p: Parsers, name: string, default: int): (r: Result<int, ConfigError>)
    ensures Getenv(env, name) == "" ==> r == Success(default)
    ensures Getenv(env, name) != "" ==>
      (r.Failure? <==> p.atoi(Getenv(env, name)).None?) &&
      (r.Failure? ==> r.error == InvalidInt(name)) &&
      (r.Success? ==> p.atoi(Getenv(env, name)) == Some(r.value))
  {
    var v := Getenv(env, name);
    if v == "" then Success(default)
    else
      match p.atoi(v)
      case None => Failure(InvalidInt(name))
      case Some(n) => Success(n)
  }

  /** A JSON-object variable, or `default` when it is unset; a set value that
      does not decode is an error naming the variable. */
  function BodyVar(env: Env, p: Parsers, name: string, default: Json): (r: Result<Json, ConfigError>)
    ensures Getenv(env, name) == "" ==> r == Success(default)
    ensures Getenv(env, name) != "" ==>
      (r.Failure? <==> p.decodeObject(Getenv(env, name)).None?) &&
      (r.Failure? ==> r.error == InvalidJson(name)) &&
      (r.Success? ==> p.decodeObject(Getenv(env, name)) == Some(r.value))
  {
    var v := Getenv(env, name);
    if v == "" then Success(default)
    else
      match p.decodeObject(v)
      case None => Failure(InvalidJson(name))
      case Some(j) => Success(j)
  }

  // The success-ratio check (config.go:112-114, service.go:134-136): a parse
  // error, `r <= 0` and `r > 1` are refused. A NaN, which ParseFloat returns
  // for "NaN" without an error, fails both comparisons and is accepted.

  /** The check as written: what it accepts is NaN or a finite ratio in (0, 1]. */
  predicate RatioRejectedAsWritten(parsed: Option<Float64>): (r: bool)
    ensures !r <==>
      (parsed == Some(NaN) || (parsed.Some? && parsed.value.Finite? && 0.0 < parsed.value.r <= 1.0))
  {
    parsed.None? || LessEq(parsed.value, 0.0) || Greater(parsed.value, 1.0)
  }

  lemma NaNRatioAcceptedAsWritten()
    ensures !RatioRejectedAsWritten(Some(NaN))
  {
  }

  /** The corrected check: only a finite ratio in (0, 1] is accepted. */
  function RatioValue(parsed: Option<Float64>): (r: Option<real>)
    ensures r.Some? <==> parsed.Some? && parsed.value.Finite? && 0.0 < parsed.value.r <= 1.0
    ensures r.Some? ==> parsed == Some(Finite(r.value))
  {
    match parsed
    case Some(Finite(x)) => if 0.0 < x <= 1.0 then Some(x) else None
    case _ => None
  }

  /** The corrected check differs from the written one on NaN alone. */
  lemma RatioCheckAgreesExceptNaN(parsed: Option<Float64>)
    requires parsed != Some(NaN)
    ensures RatioValue(parsed).None? <==> RatioRejectedAsWritten(parsed)
  {
  }

  /** `SUCCESS_RATIO` as the loaders read it: 1.0 when unset, the parsed
      double when the written check lets it through. */
  function RatioVar(env: Env, p: Parsers): (r: Result<Float64, ConfigError>)
    ensures Getenv(env, "SUCCESS_RATIO") == "" ==> r == Success(Finite(1.0))
    ensures r.Failure? ==> r.error == InvalidRatio
    ensures r.Success? ==> r.value == NaN || (r.value.Finite? && 0.0 < r.value.r <= 1.0)
    ensures Getenv(env, "SUCCESS_RATIO") != "" ==>
      (r.Success? <==> !RatioRejectedAsWritten(p.parseFloat(Getenv(env, "SUCCESS_RATIO"))))
    ensures r.Success? && Getenv(env, "SUCCESS_RATIO") != "" ==>
      p.parseFloat(Getenv(env, "SUCCESS_RATIO")) == Some(r.value)
  {
    var v := Getenv(env, "SUCCESS_RATIO");
    if v == "" then Success(Finite(1.0))
    else
      var parsed := p.parseFloat(v);
      if RatioRejectedAsWritten(parsed) then Failure(InvalidRatio) else Success(parsed.value)
  }

  /** `SUCCESS_RATIO` under the corrected check: always a finite ratio in (0, 1]. */
  function RatioVarCorrected(env: Env, p: Parsers): (r: Result<Float64, ConfigError>)
    ensures Getenv(env, "SUCCESS_RATIO") == "" ==> r == Success(Finite(1.0))
    ensures r.Failure? ==> r.error == InvalidRatio
    ensures r.Success? ==> r.value.Finite? && 0.0 < r.value.r <= 1.0
    ensures Getenv(env, "SUCCESS_RATIO") != "" ==>
      (r.Success? <==> RatioValue(p.parseFloat(Getenv(env, "SUCCESS_RATIO"))).Some?)
    ensures r.Success? && Getenv(env, "SUCCESS_RATIO") != "" ==>
      p.parseFloat(Getenv(env, "SUCCESS_RATIO")) == Some(r.value)
  {
    var v := Getenv(env, "SUCCESS_RATIO");
    if v == "" then Success(Finite(1.0))
    else
      match RatioValue(p.parseFloat(v))
      case None => Failure(InvalidRatio)
      case Some(x) => Success(Finite(x))
  }

  /** Unless the variable parses to NaN, both readings of the ratio agree. */
  predicate RatioNotNaN(env: Env, p: Parsers) {
    Getenv(env, "SUCCESS_RATIO") == "" || p.parseFloat(Getenv(env, "SUCCESS_RATIO")) != Some(NaN)
  }

  lemma RatioVarsAgree(env: Env, p: Parsers)
    requires RatioNotNaN(env, p)
    ensures RatioVar(env, p) == RatioVarCorrected(env, p)
  {
    var v := Getenv(env, "SUCCESS_RATIO");
    if v != "" {
      RatioCheckAgreesExceptNaN(p.parseFloat(v));
    }
  }

  /** A ratio that parses to NaN is kept as written and refused when corrected. */
  lemma NaNRatioRead(env: Env, p: Parsers)
    requires Getenv(env, "SUCCESS_RATIO") != "" && p.parseFloat(Getenv(env, "SUCCESS_RATIO")) == Some(NaN)
    ensures RatioVar(env, p) == Success(NaN)
    ensures RatioVarCorrected(env, p) == Failure(InvalidRatio)
  {
  }
}
