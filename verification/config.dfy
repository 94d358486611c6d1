/**
 * The configuration loader with authentication and a response delay
 * (`loadConfigFromEnv`, internal/service/config.go). `LoadConfig` is the
 * specification, read as one chain of checks; the method
 * `LoadConfigFromEnv` fills the fields one after another, as the source does.
 * Both apply the ratio and delay checks as written; `LoadConfigCorrected`
 * is the loader with the corrected checks.
 */
module ConfigLoader {
  import opened Wrappers
  import opened Json
  import opened EnvVars
  import opened Http

  const DefaultPort: int := 8080
  const DefaultRateLimit: int := 1000
  const DefaultRatio: real := 1.0

  /** `config`. A body that is not set stays nil (`JNull`); `respDelay` is a
      `time.Duration` in nanoseconds, 0 when unset. */
  datatype Config = Config(
    port: int,
    apiKey: string,
    apiToken: string,
    methods: seq<string>,
    subRoutes: seq<string>,
    respDelay: int,
    failureCode: int,
    failureRespBody: Json,
    successCode: int,
    successRespBody: Json,
    successRatio: Float64,
    rateLimit: int,
    rateExceededRespBody: Json)

  // The delay check (config.go:68-69): the milliseconds are multiplied into a
  // signed 64-bit nanosecond `time.Duration`, which wraps, and only then
  // compared with 30 s.

  const TwoTo64: int := 0x1_0000_0000_0000_0000
  const NanosPerMilli: int := 1_000_000
  const MaxDelayNanos: int := 30 * 1_000_000_000

  /** Two's-complement wrap-around of a 64-bit signed integer. */
  function Wrap64(x: int): (r: int)
    ensures -TwoTo63 <= r < TwoTo63
    ensures (r - x) % TwoTo64 == 0
  {
    (x + TwoTo63) % TwoTo64 - TwoTo63
  }

  lemma Wrap64InRange(x: int)
    requires -TwoTo63 <= x < TwoTo63
    ensures Wrap64(x) == x
  {
  }

  /** The check as written; where the product does not overflow it is the
      plain "more than 30 000 ms" test. */
  predicate DelayTooLongAsWritten(ms: Int64): (r: bool)
    ensures -TwoTo63 <= ms * NanosPerMilli < TwoTo63 ==> (r <==> ms > 30_000)
  {
    Wrap64(ms * NanosPerMilli) > MaxDelayNanos
  }

  /** 18446744073710 ms (about 584 years), a valid Atoi result, wraps to
      448384 ns and passes the 30 s check. */
  lemma WrappedDelayAcceptedAsWritten()
    ensures !DelayTooLongAsWritten(18446744073710)
    ensures Wrap64(18446744073710 * NanosPerMilli) == 448384
  {
  }

  /** 9223372036855 ms overflows just past 2^63 - 1 ns and wraps to a negative
      Duration, which also passes the 30 s check. */
  lemma NegativeWrapAcceptedAsWritten()
    ensures !DelayTooLongAsWritten(9223372036855)
    ensures Wrap64(9223372036855 * NanosPerMilli) == -TwoTo63 + 224192
  {
  }

  /** The corrected check: more than 30 000 ms is too long. */
  predicate DelayTooLong(ms: int) {
    ms > 30_000
  }

  /** The corrected check is the exact 30 s comparison, overflow or not. */
  lemma DelayCheckSpec(ms: int)
    ensures DelayTooLong(ms) <==> ms * NanosPerMilli > MaxDelayNanos
  {
  }

  /** `RESP_DELAY` as the loader reads it: 0 when unset, otherwise the wrapped
      nanosecond product, refused when that exceeds 30 s. */
  function DelayVar(env: Env, p: Parsers): (r: Result<int, ConfigError>)
    ensures Getenv(env, "RESP_DELAY") == "" ==> r == Success(0)
    ensures r.Success? ==> -TwoTo63 <= r.value <= MaxDelayNanos
    ensures r.Success? && Getenv(env, "RESP_DELAY") != "" ==>
      p.atoi(Getenv(env, "RESP_DELAY")).Some? &&
      r.value == Wrap64(p.atoi(Getenv(env, "RESP_DELAY")).value * NanosPerMilli)
    ensures r.Failure? ==> r.error == InvalidInt("RESP_DELAY") || r.error == DelayTooLongError
    ensures Getenv(env, "RESP_DELAY") != "" && p.atoi(Getenv(env, "RESP_DELAY")).None? ==>
      r == Failure(InvalidInt("RESP_DELAY"))
    ensures Getenv(env, "RESP_DELAY") != "" && p.atoi(Getenv(env, "RESP_DELAY")).Some? ==>
      (r.Success? <==> !DelayTooLongAsWritten(p.atoi(Getenv(env, "RESP_DELAY")).value))
    ensures Getenv(env, "RESP_DELAY") != "" && p.atoi(Getenv(env, "RESP_DELAY")).Some? &&
            DelayTooLongAsWritten(p.atoi(Getenv(env, "RESP_DELAY")).value) ==>
      r == Failure(DelayTooLongError)
  {
    var v := Getenv(env, "RESP_DELAY");
    if v == "" then Success(0)
    else
      match p.atoi(v)
      case None => Failure(InvalidInt("RESP_DELAY"))
      case Some(ms) => if DelayTooLongAsWritten(ms) then Failure(DelayTooLongError) else Success(Wrap64(ms * NanosPerMilli))
  }

  /** `RESP_DELAY` under the corrected check: the exact product, at most 30 s. */
  function DelayVarCorrected(env: Env, p: Parsers): (r: Result<int, ConfigError>)
    ensures Getenv(env, "RESP_DELAY") == "" ==> r == Success(0)
    ensures r.Success? ==> r.value <= MaxDelayNanos
    ensures r.Success? && Getenv(env, "RESP_DELAY") != "" ==>
      p.atoi(Getenv(env, "RESP_DELAY")).Some? &&
      r.value == p.atoi(Getenv(env, "RESP_DELAY")).value * NanosPerMilli
    ensures r.Failure? ==> r.error == InvalidInt("RESP_DELAY") || r.error == DelayTooLongError
    ensures Getenv(env, "RESP_DELAY") != "" && p.atoi(Getenv(env, "RESP_DELAY")).None? ==>
      r == Failure(InvalidInt("RESP_DELAY"))
    ensures Getenv(env, "RESP_DELAY") != "" && p.atoi(Getenv(env, "RESP_DELAY")).Some? ==>
      (r.Success? <==> p.atoi(Getenv(env, "RESP_DELAY")).value <= 30_000)
    ensures Getenv(env, "RESP_DELAY") != "" && p.atoi(Getenv(env, "RESP_DELAY")).Some? &&
            p.atoi(Getenv(env, "RESP_DELAY")).value > 30_000 ==>
      r == Failure(DelayTooLongError)
  {
    var v := Getenv(env, "RESP_DELAY");
    if v == "" then Success(0)
    else
      match p.atoi(v)
      case None => Failure(InvalidInt("RESP_DELAY"))
      case Some(ms) => if DelayTooLong(ms) then Failure(DelayTooLongError) else Success(ms * NanosPerMilli)
  }

  /** The delay product does not overflow (or there is no delay to multiply). */
  predicate DelayFits(env: Env, p: Parsers) {
    var v := Getenv(env, "RESP_DELAY");
    v == "" || p.atoi(v).None? || -TwoTo63 <= p.atoi(v).value * NanosPerMilli < TwoTo63
  }

  lemma DelayVarsAgree(env: Env, p: Parsers)
    requires DelayFits(env, p)
    ensures DelayVar(env, p) == DelayVarCorrected(env, p)
  {
    var v := Getenv(env, "RESP_DELAY");
    if v != "" && p.atoi(v).Some? {
      Wrap64InRange(p.atoi(v).value * NanosPerMilli);
    }
  }

  /** The loader, as one chain: the first failing check decides the error. An
      accepted config holds each parsed variable, or its default when the
      variable is unset, and every check held as written. */
  function LoadConfig(env: Env, p: Parsers): (r: Result<Config, ConfigError>)
    ensures Getenv(env, "API_KEY") != "" && Getenv(env, "API_TOKEN") != "" ==> r == Failure(BothCredentials)
    ensures r.Success? ==> var c := r.value;
      && c.apiKey == Getenv(env, "API_KEY") && c.apiToken == Getenv(env, "API_TOKEN")
      && (c.apiKey == "" || c.apiToken == "")
      && IntVar(env, p, "PORT", DefaultPort) == Success(c.port)
      && IntVar(env, p, "FAILURE_RESP_CODE", StatusBadRequest) == Success(c.failureCode)
      && IntVar(env, p, "SUCCESS_RESP_CODE", StatusOK) == Success(c.successCode)
      && IntVar(env, p, "RATE_LIMIT", DefaultRateLimit) == Success(c.rateLimit)
      && BodyVar(env, p, "FAILURE_RESP_BODY", JNull) == Success(c.failureRespBody)
      && BodyVar(env, p, "SUCCESS_RESP_BODY", SuccessTrue) == Success(c.successRespBody)
      && BodyVar(env, p, "RATE_EXCEEDED_RESP_BODY", JNull) == Success(c.rateExceededRespBody)
      && DelayVar(env, p) == Success(c.respDelay) && -TwoTo63 <= c.respDelay <= MaxDelayNanos
      && RatioVar(env, p) == Success(c.successRatio)
      && (c.successRatio == NaN || (c.successRatio.Finite? && 0.0 < c.successRatio.r <= 1.0))
      && c.methods == ListVar(env, "METHODS")
      && (forall i :: 0 <= i < |c.methods| ==> c.methods[i] in AllowedMethods)
      && c.subRoutes == ListVar(env, "SUB_ROUTES")
  {
    var apiKey := Getenv(env, "API_KEY");
    var apiToken := Getenv(env, "API_TOKEN");
    if apiKey != "" && apiToken != "" then Failure(BothCredentials)
    else
      var port :- IntVar(env, p, "PORT", DefaultPort);
      var delay :- DelayVar(env, p);
      var failureCode :- IntVar(env, p, "FAILURE_RESP_CODE", StatusBadRequest);
      var failureBody :- BodyVar(env, p, "FAILURE_RESP_BODY", JNull);
      var successCode :- IntVar(env, p, "SUCCESS_RESP_CODE", StatusOK);
      var successBody :- BodyVar(env, p, "SUCCESS_RESP_BODY", SuccessTrue);
      var ratio :- RatioVar(env, p);
      var rateLimit :- IntVar(env, p, "RATE_LIMIT", DefaultRateLimit);
      var rateBody :- BodyVar(env, p, "RATE_EXCEEDED_RESP_BODY", JNull);
      var methods :- MethodsVar(env);
      Success(Config(port, apiKey, apiToken, methods, ListVar(env, "SUB_ROUTES"), delay,
        failureCode, failureBody, successCode, successBody, ratio, rateLimit, rateBody))
  }

  lemma LoadConfigOk(env: Env, p: Parsers, port: int, delay: int, failureCode: int, failureBody: Json,
                     successCode: int, successBody: Json, ratio: Float64, rateLimit: int, rateBody: Json,
                     methods: seq<string>)
    requires !(Getenv(env, "API_KEY") != "" && Getenv(env, "API_TOKEN") != "")
    requires IntVar(env, p, "PORT", DefaultPort) == Success(port)
    requires DelayVar(env, p) == Success(delay)
    requires IntVar(env, p, "FAILURE_RESP_CODE", StatusBadRequest) == Success(failureCode)
    requires BodyVar(env, p, "FAILURE_RESP_BODY", JNull) == Success(failureBody)
    requires IntVar(env, p, "SUCCESS_RESP_CODE", StatusOK) == Success(successCode)
    requires BodyVar(env, p, "SUCCESS_RESP_BODY", SuccessTrue) == Success(successBody)
    requires RatioVar(env, p) == Success(ratio)
    requires IntVar(env, p, "RATE_LIMIT", DefaultRateLimit) == Success(rateLimit)
    requires BodyVar(env, p, "RATE_EXCEEDED_RESP_BODY", JNull) == Success(rateBody)
    requires MethodsVar(env) == Success(methods)
    ensures LoadConfig(env, p) == Success(Config(port, Getenv(env, "API_KEY"), Getenv(env, "API_TOKEN"),
      methods, ListVar(env, "SUB_ROUTES"), delay, failureCode, failureBody, successCode, successBody,
      ratio, rateLimit, rateBody))
  {
  }

  /** `loadConfigFromEnv`: fills the fields in order, returning at the first error. */
  method LoadConfigFromEnv(env: Env, p: Parsers) returns (r: Result<Config, ConfigError>)
    ensures r == LoadConfig(env, p)
  {
    var apiKey := Getenv(env, "API_KEY");
    var apiToken := Getenv(env, "API_TOKEN");
    if apiKey != "" && apiToken != "" {
      return Failure(BothCredentials);
    }
    var port :- IntVar(env, p, "PORT", DefaultPort);

    var respDelay := 0;
    var respDelayEnv := Getenv(env, "RESP_DELAY");
    if respDelayEnv != "" {
      var n := p.atoi(respDelayEnv);
      if n.None? {
        return Failure(InvalidInt("RESP_DELAY"));
      }
      respDelay := Wrap64(n.value * NanosPerMilli);
      if respDelay > MaxDelayNanos {
        return Failure(DelayTooLongError);
      }
    }
    assert DelayVar(env, p) == Success(respDelay);

    var failureCode :- IntVar(env, p, "FAILURE_RESP_CODE", StatusBadRequest);
    var failureBody :- BodyVar(env, p, "FAILURE_RESP_BODY", JNull);
    var successCode :- IntVar(env, p, "SUCCESS_RESP_CODE", StatusOK);
    var successBody :- BodyVar(env, p, "SUCCESS_RESP_BODY", SuccessTrue);

    var ratio := Finite(DefaultRatio);
    var ratioEnv := Getenv(env, "SUCCESS_RATIO");
    if ratioEnv != "" {
      var x := p.parseFloat(ratioEnv);
      if x.None? || LessEq(x.value, 0.0) || Greater(x.value, 1.0) {
        return Failure(InvalidRatio);
      }
      ratio := x.value;
    }
    assert RatioVar(env, p) == Success(ratio);

    var rateLimit :- IntVar(env, p, "RATE_LIMIT", DefaultRateLimit);
    var rateBody :- BodyVar(env, p, "RATE_EXCEEDED_RESP_BODY", JNull);

    var methods: seq<string> := [];
    var methodsEnv := Getenv(env, "METHODS");
    if methodsEnv != "" {
      methods := Split(methodsEnv, ',');
      var bad := FindDisallowed(methods);
      if bad.Some? {
        return Failure(MethodNotAllowed(bad.value));
      }
    }
    assert MethodsVar(env) == Success(methods);

    var subRoutes: seq<string> := [];
    var subRoutesEnv := Getenv(env, "SUB_ROUTES");
    if subRoutesEnv != "" {
      subRoutes := Split(subRoutesEnv, ',');
    }

    LoadConfigOk(env, p, port, respDelay, failureCode, failureBody, successCode, successBody,
      ratio, rateLimit, rateBody, methods);
    return Success(Config(port, apiKey, apiToken, methods, subRoutes, respDelay,
      failureCode, failureBody, successCode, successBody, ratio, rateLimit, rateBody));
  }

  /** The loader with the corrected delay and ratio checks: an accepted config
      has a delay of at most 30 s, the exact product of the milliseconds, and
      a finite ratio in (0, 1]. */
  function LoadConfigCorrected(env: Env, p: Parsers): (r: Result<Config, ConfigError>)
    ensures r.Success? ==> var c := r.value;
      && c.respDelay <= MaxDelayNanos
      && (Getenv(env, "RESP_DELAY") != "" ==>
            p.atoi(Getenv(env, "RESP_DELAY")).Some? &&
            c.respDelay == p.atoi(Getenv(env, "RESP_DELAY")).value * NanosPerMilli)
      && c.successRatio.Finite? && 0.0 < c.successRatio.r <= 1.0
  {
    var apiKey := Getenv(env, "API_KEY");
    var apiToken := Getenv(env, "API_TOKEN");
    if apiKey != "" && apiToken != "" then Failure(BothCredentials)
    else
      var port :- IntVar(env, p, "PORT", DefaultPort);
      var delay :- DelayVarCorrected(env, p);
      var failureCode :- IntVar(env, p, "FAILURE_RESP_CODE", StatusBadRequest);
      var failureBody :- BodyVar(env, p, "FAILURE_RESP_BODY", JNull);
      var successCode :- IntVar(env, p, "SUCCESS_RESP_CODE", StatusOK);
      var successBody :- BodyVar(env, p, "SUCCESS_RESP_BODY", SuccessTrue);
      var ratio :- RatioVarCorrected(env, p);
      var rateLimit :- IntVar(env, p, "RATE_LIMIT", DefaultRateLimit);
      var rateBody :- BodyVar(env, p, "RATE_EXCEEDED_RESP_BODY", JNull);
      var methods :- MethodsVar(env);
      Success(Config(port, apiKey, apiToken, methods, ListVar(env, "SUB_ROUTES"), delay,
        failureCode, failureBody, successCode, successBody, ratio, rateLimit, rateBody))
  }

  /** Away from a NaN ratio and an overflowing delay the two loaders agree. */
  lemma CorrectedLoaderAgrees(env: Env, p: Parsers)
    requires RatioNotNaN(env, p) && DelayFits(env, p)
    ensures LoadConfigCorrected(env, p) == LoadConfig(env, p)
  {
    RatioVarsAgree(env, p);
    DelayVarsAgree(env, p);
  }

  /** As written, SUCCESS_RATIO=NaN loads and is kept; corrected, it is refused. */
  lemma NaNRatioLoadedAsWritten(p: Parsers)
    requires p.parseFloat("NaN") == Some(NaN)
    ensures LoadConfig(map["SUCCESS_RATIO" := "NaN"], p).Success?
    ensures LoadConfig(map["SUCCESS_RATIO" := "NaN"], p).value.successRatio == NaN
    ensures LoadConfigCorrected(map["SUCCESS_RATIO" := "NaN"], p) == Failure(InvalidRatio)
  {
    var env := map["SUCCESS_RATIO" := "NaN"];
    NaNRatioRead(env, p);
    assert ListVar(env, "METHODS") == [];
    LoadConfigOk(env, p, 8080, 0, 400, JNull, 200, SuccessTrue, NaN, 1000, JNull, []);
  }

  /** As written, RESP_DELAY=18446744073710 loads with a delay of 448384 ns;
      corrected, it is refused as longer than 30 s. */
  lemma WrappedDelayLoadedAsWritten(p: Parsers)
    requires p.atoi("18446744073710") == Some(18446744073710)
    ensures LoadConfig(map["RESP_DELAY" := "18446744073710"], p).Success?
    ensures LoadConfig(map["RESP_DELAY" := "18446744073710"], p).value.respDelay == 448384
    ensures LoadConfigCorrected(map["RESP_DELAY" := "18446744073710"], p) == Failure(DelayTooLongError)
  {
    var env := map["RESP_DELAY" := "18446744073710"];
    WrappedDelayAcceptedAsWritten();
    assert DelayVar(env, p) == Success(448384);
    assert ListVar(env, "METHODS") == [];
    LoadConfigOk(env, p, 8080, 448384, 400, JNull, 200, SuccessTrue, Finite(1.0), 1000, JNull, []);
  }

  /** Setting both credentials is refused, whatever else is set: this check comes first. */
  lemma BothCredentialsRejectedFirst(env: Env, p: Parsers)
    requires Getenv(env, "API_KEY") != "" && Getenv(env, "API_TOKEN") != ""
    ensures LoadConfig(env, p) == Failure(BothCredentials)
  {
  }

  /** With nothing set, every default applies; the failure and rate-exceeded
      bodies stay nil. */
  lemma DefaultConfig(p: Parsers)
    ensures LoadConfig(map[], p) ==
      Success(Config(8080, "", "", [], [], 0, 400, JNull, 200, SuccessTrue, Finite(1.0), 1000, JNull))
  {
  }

  const IntVarNames: set<string> :=
    {"PORT", "RESP_DELAY", "FAILURE_RESP_CODE", "SUCCESS_RESP_CODE", "RATE_LIMIT"}
  const BodyVarNames: set<string> :=
    {"FAILURE_RESP_BODY", "SUCCESS_RESP_BODY", "RATE_EXCEEDED_RESP_BODY"}

  /** A set numeric variable that Atoi refuses gives an error and no config. */
  lemma MalformedIntRejected(env: Env, p: Parsers, name: string)
    requires name in IntVarNames
    requires Getenv(env, name) != "" && p.atoi(Getenv(env, name)).None?
    ensures LoadConfig(env, p).Failure?
  {
  }

  /** A set body variable that is not a JSON object gives an error and no config. */
  lemma MalformedBodyRejected(env: Env, p: Parsers, name: string)
    requires name in BodyVarNames
    requires Getenv(env, name) != "" && p.decodeObject(Getenv(env, name)).None?
    ensures LoadConfig(env, p).Failure?
  {
  }

  /** A set ratio outside (0, 1] gives an error. */
  lemma RatioOutOfRangeRejected(env: Env, p: Parsers, x: real)
    requires Getenv(env, "SUCCESS_RATIO") != ""
    requires p.parseFloat(Getenv(env, "SUCCESS_RATIO")) == Some(Finite(x))
    requires x <= 0.0 || x > 1.0
    ensures LoadConfig(env, p).Failure?
  {
  }

  /** "2.0" alone is refused as a ratio. */
  lemma RatioTwoRejected(p: Parsers)
    requires p.parseFloat("2.0") == Some(Finite(2.0))
    ensures LoadConfig(map["SUCCESS_RATIO" := "2.0"], p) == Failure(InvalidRatio)
  {
  }

  /** Any listed method outside the whitelist is refused (the match is exact
      and case-sensitive), and the error names a listed, disallowed method. */
  lemma DisallowedMethodRejected(env: Env, p: Parsers, i: nat)
    requires i < |ListVar(env, "METHODS")| && ListVar(env, "METHODS")[i] !in AllowedMethods
    ensures LoadConfig(env, p).Failure?
  {
  }

  lemma MethodErrorNamesOffender(env: Env, p: Parsers, m: string)
    requires LoadConfig(env, p) == Failure(MethodNotAllowed(m))
    ensures m in ListVar(env, "METHODS") && m !in AllowedMethods
  {
    assert MethodsVar(env) == Failure(MethodNotAllowed(m));
  }

  /** Exactly 30 000 ms is accepted, as 30 s, 30 001 ms is not, and a negative
      delay passes. */
  lemma DelayBoundary(p: Parsers)
    requires p.atoi("30000") == Some(30_000) && p.atoi("30001") == Some(30_001)
    requires p.atoi("-5") == Some(-5)
    ensures LoadConfig(map["RESP_DELAY" := "30000"], p).Success?
    ensures LoadConfig(map["RESP_DELAY" := "30000"], p).value.respDelay == 30_000_000_000
    ensures LoadConfig(map["RESP_DELAY" := "30001"], p) == Failure(DelayTooLongError)
    ensures LoadConfig(map["RESP_DELAY" := "-5"], p).Success?
  {
  }

  /** An in-range ratio and delay are kept: 0.5 as 0.5, and 500 ms as 0.5 s
      in nanoseconds. */
  lemma InRangeValuesLoad(p: Parsers)
    requires p.parseFloat("0.5") == Some(Finite(0.5)) && p.atoi("500") == Some(500)
    ensures LoadConfig(map["SUCCESS_RATIO" := "0.5"], p).Success?
    ensures LoadConfig(map["SUCCESS_RATIO" := "0.5"], p).value.successRatio == Finite(0.5)
    ensures LoadConfig(map["RESP_DELAY" := "500"], p).Success?
    ensures LoadConfig(map["RESP_DELAY" := "500"], p).value.respDelay == 500_000_000
  {
  }

  /** METHODS and SUB_ROUTES are split on commas, in order. */
  lemma ListsSplitInOrder(p: Parsers)
    ensures LoadConfig(map["SUB_ROUTES" := "/foo,/bar"], p).Success?
    ensures LoadConfig(map["SUB_ROUTES" := "/foo,/bar"], p).value.subRoutes == ["/foo", "/bar"]
  {
    var env := map["SUB_ROUTES" := "/foo,/bar"];
    SplitExample();
    assert ListVar(env, "SUB_ROUTES") == ["/foo", "/bar"];
    assert ListVar(env, "METHODS") == [];
    LoadConfigOk(env, p, 8080, 0, 400, JNull, 200, SuccessTrue, Finite(1.0), 1000, JNull, []);
  }
}
