/**
 * The older configuration loader (`LoadConfigFromEnv` and `SvcConfig`,
 * internal/service/service.go): no credentials and no delay, and every
 * body has a default. `LoadSvcConfig` is the specification; the method
 * `LoadConfigFromEnv` fills the fields one after another. Both apply the
 * ratio check as written; `LoadSvcConfigCorrected` applies the corrected one.
 */
module SvcConfigLoader {
  import opened Wrappers
  import opened Json
  import opened EnvVars
  import opened Http

  const DefaultPort: int := 8080

  /** `{"success": false}` */
  const SuccessFalse: Json := JObject([("success", JBool(false))])
  /** `{"success": false, "error": "rate limit exceeded"}` */
  const RateExceeded: Json := JObject([("success", JBool(false)), ("error", JString("rate limit exceeded"))])

  /** `SvcConfig`, the configuration the mock handlers read. */
  datatype SvcConfig = SvcConfig(
    port: int,
    methods: seq<string>,
    subRoutes: seq<string>,
    failureCode: int,
    failureRespBody: Json,
    successCode: int,
    successRespBody: Json,
    successRatio: Float64,
    rateLimit: int,
    rateExceededRespBody: Json)

  /** The loader, as one chain: the first failing check decides the error. An
      accepted config holds each parsed variable, or its default when the
      variable is unset, and every check held as written. */
  function LoadSvcConfig(env: Env, p: Parsers): (r: Result<SvcConfig, ConfigError>)
    ensures r.Success? ==> var c := r.value;
      && IntVar(env, p, "PORT", DefaultPort) == Success(c.port)
      && IntVar(env, p, "FAILURE_RESP_CODE", StatusBadRequest) == Success(c.failureCode)
      && IntVar(env, p, "SUCCESS_RESP_CODE", StatusOK) == Success(c.successCode)
      && IntVar(env, p, "RATE_LIMIT", 1000) == Success(c.rateLimit)
      && BodyVar(env, p, "FAILURE_RESP_BODY", SuccessFalse) == Success(c.failureRespBody)
      && BodyVar(env, p, "SUCCESS_RESP_BODY", SuccessTrue) == Success(c.successRespBody)
      && BodyVar(env, p, "RATE_EXCEEDED_RESP_BODY", RateExceeded) == Success(c.rateExceededRespBody)
      && RatioVar(env, p) == Success(c.successRatio)
      && (c.successRatio == NaN || (c.successRatio.Finite? && 0.0 < c.successRatio.r <= 1.0))
      && c.methods == ListVar(env, "METHODS")
      && (forall i :: 0 <= i < |c.methods| ==> c.methods[i] in AllowedMethods)
      && c.subRoutes == ListVar(env, "SUB_ROUTES")
  {
    var port :- IntVar(env, p, "PORT", DefaultPort);
    var failureCode :- IntVar(env, p, "FAILURE_RESP_CODE", StatusBadRequest);
    var failureBody :- BodyVar(env, p, "FAILURE_RESP_BODY", SuccessFalse);
    var successCode :- IntVar(env, p, "SUCCESS_RESP_CODE", StatusOK);
    var successBody :- BodyVar(env, p, "SUCCESS_RESP_BODY", SuccessTrue);
    var ratio :- RatioVar(env, p);
    var rateLimit :- IntVar(env, p, "RATE_LIMIT", 1000);
    var rateBody :- BodyVar(env, p, "RATE_EXCEEDED_RESP_BODY", RateExceeded);
    var methods :- MethodsVar(env);
    Success(SvcConfig(port, methods, ListVar(env, "SUB_ROUTES"), failureCode, failureBody,
      successCode, successBody, ratio, rateLimit, rateBody))
  }

  lemma LoadSvcConfigOk(env: Env, p: Parsers, port: int, failureCode: int, failureBody: Json,
                        successCode: int, successBody: Json, ratio: Float64, rateLimit: int, rateBody: Json,
                        methods: seq<string>)
    requires IntVar(env, p, "PORT", DefaultPort) == Success(port)
    requires IntVar(env, p, "FAILURE_RESP_CODE", StatusBadRequest) == Success(failureCode)
    requires BodyVar(env, p, "FAILURE_RESP_BODY", SuccessFalse) == Success(failureBody)
    requires IntVar(env, p, "SUCCESS_RESP_CODE", StatusOK) == Success(successCode)
    requires BodyVar(env, p, "SUCCESS_RESP_BODY", SuccessTrue) == Success(successBody)
    requires RatioVar(env, p) == Success(ratio)
    requires IntVar(env, p, "RATE_LIMIT", 1000) == Success(rateLimit)
    requires BodyVar(env, p, "RATE_EXCEEDED_RESP_BODY", RateExceeded) == Success(rateBody)
    requires MethodsVar(env) == Success(methods)
    ensures LoadSvcConfig(env, p) == Success(SvcConfig(port, methods, ListVar(env, "SUB_ROUTES"),
      failureCode, failureBody, successCode, successBody, ratio, rateLimit, rateBody))
  {
  }

  /** `LoadConfigFromEnv`: fills the fields in order, returning at the first error. */
  method LoadConfigFromEnv(env: Env, p: Parsers) returns (r: Result<SvcConfig, ConfigError>)
    ensures r == LoadSvcConfig(env, p)
  {
    var port :- IntVar(env, p, "PORT", DefaultPort);
    var failureCode :- IntVar(env, p, "FAILURE_RESP_CODE", StatusBadRequest);
    var failureBody :- BodyVar(env, p, "FAILURE_RESP_BODY", SuccessFalse);
    var successCode :- IntVar(env, p, "SUCCESS_RESP_CODE", StatusOK);
    var successBody :- BodyVar(env, p, "SUCCESS_RESP_BODY", SuccessTrue);

    var ratio := Finite(1.0);
    var ratioEnv := Getenv(env, "SUCCESS_RATIO");
    if ratioEnv != "" {
      var x := p.parseFloat(ratioEnv);
      if x.None? || LessEq(x.value, 0.0) || Greater(x.value, 1.0) {
        return Failure(InvalidRatio);
      }
      ratio := x.value;
    }
    assert RatioVar(env, p) == Success(ratio);

    var rateLimit :- IntVar(env, p, "RATE_LIMIT", 1000);
    var rateBody :- BodyVar(env, p, "RATE_EXCEEDED_RESP_BODY", RateExceeded);

    var methods: seq<string> := [];
    var methodsEnv := Getenv(env, "METHODS");
    if methodsEnv != "" {
      methods := Split(methodsEnv, ',');
      var bad := FindDisallowed(methods);
      if bad.Some? {
        return Failure(MethodNotAllowed(bad.value));
      }
    }
    assert MethodsVar(env) == Success(methods);

    var subRoutes: seq<string> := [];
    var subRoutesEnv := Getenv(env, "SUB_ROUTES");
    if subRoutesEnv != "" {
      subRoutes := Split(subRoutesEnv, ',');
    }

    LoadSvcConfigOk(env, p, port, failureCode, failureBody, successCode, successBody,
      ratio, rateLimit, rateBody, methods);
    return Success(SvcConfig(port, methods, subRoutes, failureCode, failureBody,
      successCode, successBody, ratio, rateLimit, rateBody));
  }

  /** The loader with the corrected ratio check: an accepted ratio is finite
      and in (0, 1]. */
  function LoadSvcConfigCorrected(env: Env, p: Parsers): (r: Result<SvcConfig, ConfigError>)
    ensures r.Success? ==> r.value.successRatio.Finite? && 0.0 < r.value.successRatio.r <= 1.0
  {
    var port :- IntVar(env, p, "PORT", DefaultPort);
    var failureCode :- IntVar(env, p, "FAILURE_RESP_CODE", StatusBadRequest);
    var failureBody :- BodyVar(env, p, "FAILURE_RESP_BODY", SuccessFalse);
    var successCode :- IntVar(env, p, "SUCCESS_RESP_CODE", StatusOK);
    var successBody :- BodyVar(env, p, "SUCCESS_RESP_BODY", SuccessTrue);
    var ratio :- RatioVarCorrected(env, p);
    var rateLimit :- IntVar(env, p, "RATE_LIMIT", 1000);
    var rateBody :- BodyVar(env, p, "RATE_EXCEEDED_RESP_BODY", RateExceeded);
    var methods :- MethodsVar(env);
    Success(SvcConfig(port, methods, ListVar(env, "SUB_ROUTES"), failureCode, failureBody,
      successCode, successBody, ratio, rateLimit, rateBody))
  }

  /** Unless SUCCESS_RATIO parses to NaN the two loaders agree. */
  lemma CorrectedSvcLoaderAgrees(env: Env, p: Parsers)
    requires RatioNotNaN(env, p)
    ensures LoadSvcConfigCorrected(env, p) == LoadSvcConfig(env, p)
  {
    RatioVarsAgree(env, p);
  }

  /** As written, SUCCESS_RATIO=NaN loads and is kept; corrected, it is refused. */
  lemma NaNRatioLoadedAsWritten(p: Parsers)
    requires p.parseFloat("NaN") == Some(NaN)
    ensures LoadSvcConfig(map["SUCCESS_RATIO" := "NaN"], p).Success?
    ensures LoadSvcConfig(map["SUCCESS_RATIO" := "NaN"], p).value.successRatio == NaN
    ensures LoadSvcConfigCorrected(map["SUCCESS_RATIO" := "NaN"], p) == Failure(InvalidRatio)
  {
    var env := map["SUCCESS_RATIO" := "NaN"];
    NaNRatioRead(env, p);
    assert ListVar(env, "METHODS") == [];
    LoadSvcConfigOk(env, p, 8080, 400, SuccessFalse, 200, SuccessTrue, NaN, 1000, RateExceeded, []);
  }

  /** With nothing set, every default applies, bodies included. */
  lemma DefaultSvcConfig(p: Parsers)
    ensures LoadSvcConfig(map[], p) ==
      Success(SvcConfig(8080, [], [], 400, SuccessFalse, 200, SuccessTrue, Finite(1.0), 1000, RateExceeded))
  {
  }

  const IntVarNames: set<string> := {"PORT", "FAILURE_RESP_CODE", "SUCCESS_RESP_CODE", "RATE_LIMIT"}
  const BodyVarNames: set<string> :=
    {"FAILURE_RESP_BODY", "SUCCESS_RESP_BODY", "RATE_EXCEEDED_RESP_BODY"}

  /** A set numeric variable that Atoi refuses, or a set body that is not a
      JSON object, gives an error and no config. */
  lemma MalformedSvcVarRejected(env: Env, p: Parsers, name: string)
    requires name in IntVarNames || name in BodyVarNames
    requires Getenv(env, name) != ""
    requires name in IntVarNames ==> p.atoi(Getenv(env, name)).None?
    requires name in BodyVarNames ==> p.decodeObject(Getenv(env, name)).None?
    ensures LoadSvcConfig(env, p).Failure?
  {
  }

  /** "2.0" alone is refused as a ratio. */
  lemma SvcRatioTwoRejected(p: Parsers)
    requires p.parseFloat("2.0") == Some(Finite(2.0))
    ensures LoadSvcConfig(map["SUCCESS_RATIO" := "2.0"], p) == Failure(InvalidRatio)
  {
  }

  /** Any listed method outside the whitelist is refused. */
  lemma SvcDisallowedMethodRejected(env: Env, p: Parsers, i: nat)
    requires i < |ListVar(env, "METHODS")| && ListVar(env, "METHODS")[i] !in AllowedMethods
    ensures LoadSvcConfig(env, p).Failure?
  {
  }

  /** "/foo,/bar" becomes ["/foo", "/bar"]; unset lists stay empty. */
  lemma SvcListsSplitInOrder(p: Parsers)
    ensures LoadSvcConfig(map["SUB_ROUTES" := "/foo,/bar"], p).Success?
    ensures LoadSvcConfig(map["SUB_ROUTES" := "/foo,/bar"], p).value.subRoutes == ["/foo", "/bar"]
    ensures LoadSvcConfig(map["SUB_ROUTES" := "/foo,/bar"], p).value.methods == []
  {
    var env := map["SUB_ROUTES" := "/foo,/bar"];
    SplitExample();
    assert ListVar(env, "SUB_ROUTES") == ["/foo", "/bar"];
    assert ListVar(env, "METHODS") == [];
    LoadSvcConfigOk(env, p, 8080, 400, SuccessFalse, 200, SuccessTrue, Finite(1.0), 1000, RateExceeded, []);
  }
}
