/**
 * The deterministic failure-injection engine (internal/service/r_mock.go)
 * and the service object that owns the request counter
 * (internal/service/service.go).
 *
 * A request fails exactly when the counter is a multiple of the failure
 * period k, the integer `int(1/(1 - successRatio))` that the source computes
 * in floating point; the model takes k as a parameter (see `Period`).
 */
module Mock {
  import opened Wrappers
  import opened Json
  import opened Api
  import opened SvcConfigLoader
  import opened EnvVars
  import opened Http

  /** The failure period `int(1/(1 - successRatio))`, at least 1. */
  type Period = k: nat | k >= 1 witness 1

  /** `shouldFail`: the counter is a multiple of the period. */
  predicate ShouldFail(k: Period, counter: nat): (r: bool)
    ensures r <==> counter == (counter / k) * k
  {
    counter % k == 0
  }

  /** Counter 0 fails whatever the ratio. */
  lemma ZeroAlwaysFails(k: Period)
    ensures ShouldFail(k, 0)
  {
  }

  lemma {:induction false} DivModUnique(n: int, k: int, q: int, r: int)
    requires k > 0 && 0 <= r < k && n == q * k + r
    ensures n / k == q && n % k == r
  {
    var q', r' := n / k, n % k;
    assert q * k + r == q' * k + r';
    if q > q' {
      assert (q - q') * k == q * k - q' * k;
      MulAtLeast(q - q', k);
    } else if q < q' {
      assert (q' - q) * k == q' * k - q * k;
      MulAtLeast(q' - q, k);
    }
  }

  lemma MulAtLeast(a: int, k: int)
    requires a >= 1 && k >= 1
    ensures a * k >= k
  {
    assert a * k == k + (a - 1) * k;
  }

  /** The outcome repeats with period k. */
  lemma ShouldFailPeriodic(k: Period, c: nat)
    ensures ShouldFail(k, c + k) == ShouldFail(k, c)
  {
    DivModUnique(c + k, k, c / k + 1, c % k);
  }

  /** With ratio 0.8 (k = 5), counters 1 to 10 fail at 5 and 10 only. */
  lemma PeriodFiveExample()
    ensures forall c: nat :: 1 <= c <= 10 ==> (ShouldFail(5, c) <==> c == 5 || c == 10)
  {
  }

  /** The number of failing counters among 1..n. */
  function FailuresUpTo(k: Period, n: nat): nat {
    if n == 0 then 0 else FailuresUpTo(k, n - 1) + (if ShouldFail(k, n) then 1 else 0)
  }

  /** Among counters 1..n exactly n / k fail. */
  lemma {:induction false} FailuresUpToIsQuotient(k: Period, n: nat)
    ensures FailuresUpTo(k, n) == n / k
  {
    if n > 0 {
      FailuresUpToIsQuotient(k, n - 1);
      DivStep(k, n);
    }
  }

  /** Going from n - 1 to n the quotient grows by one exactly at multiples of k. */
  lemma DivStep(k: Period, n: nat)
    requires n > 0
    ensures n / k == (n - 1) / k + (if n % k == 0 then 1 else 0)
  {
    var q, r := (n - 1) / k, (n - 1) % k;
    assert n - 1 == q * k + r;
    if r == k - 1 {
      assert n == (q + 1) * k + 0;
      DivModUnique(n, k, q + 1, 0);
    } else {
      DivModUnique(n, k, q, r + 1);
    }
  }

  /** A response profile: the status code and the body configured for it. */
  datatype Profile = Profile(code: int, body: Json)

  /** The configured profile the decider picks at counter `c`. */
  function ChosenProfile(cfg: SvcConfig, k: Period, c: nat): (p: Profile)
    ensures c % k == 0 ==> p.code == cfg.failureCode && p.body == cfg.failureRespBody
    ensures c % k != 0 ==> p.code == cfg.successCode && p.body == cfg.successRespBody
  {
    if ShouldFail(k, c) then Profile(cfg.failureCode, cfg.failureRespBody)
    else Profile(cfg.successCode, cfg.successRespBody)
  }

  /** What a handler writes: the status and the value rendered as JSON. */
  datatype Payload = JsonBody(json: Json) | ErrorBody(err: HTTPErrorResponse) | BatchBody(items: seq<BatchResponse>)
  datatype HttpResponse = HttpResponse(status: int, payload: Payload)

  /** The 400 answer to a batch body that cannot be read or decoded; its
      literal code 1001 is CodeInvalidBody. */
  function BadBodyResponse(logID: string): (r: HttpResponse)
    ensures r.status == 400 && r.payload.ErrorBody?
    ensures r.payload.err.error == HTTPErrorContent("body parsing error", CodeInvalidBody, logID)
  {
    HttpResponse(StatusBadRequest, ErrorBody(MakeHTTPErrorResponse("body parsing error", 1001, logID)))
  }

  /** The foreign codecs of the batch handler: `url.ParseQuery`,
      `json.Unmarshal` into `[]SingleRequest`, and `json.Marshal`. */
  datatype Codecs = Codecs(
    parseQuery: string -> Option<Values>,
    decodeBatch: string -> Option<seq<SingleRequest>>,
    marshal: Json -> Option<string>)

  /** The batch envelope: read the body (`None` is a read error), parse it as a
      form, and decode its `batch` field as a JSON array of requests. */
  function DecodeBatchBody(body: Option<string>, codecs: Codecs): (r: Option<seq<SingleRequest>>)
    ensures body.None? ==> r.None?
    ensures body.Some? && codecs.parseQuery(body.value).None? ==> r.None?
    ensures body.Some? && codecs.parseQuery(body.value).Some? ==>
      r == codecs.decodeBatch(FirstValue(codecs.parseQuery(body.value).value, "batch"))
  {
    var raw :- body;
    var form :- codecs.parseQuery(raw);
    codecs.decodeBatch(FirstValue(form, "batch"))
  }

  /** The result one batch item gets at counter `c`: the chosen profile's code
      and serialised body, or nothing when serialising fails. */
  function ItemResult(cfg: SvcConfig, k: Period, c: nat, marshal: Json -> Option<string>): (r: Option<BatchResponse>)
    ensures r.Some? <==> marshal(ChosenProfile(cfg, k, c).body).Some?
    ensures r.Some? ==>
      r.value.code == ChosenProfile(cfg, k, c).code && marshal(ChosenProfile(cfg, k, c).body) == Some(r.value.body)
  {
    var p := ChosenProfile(cfg, k, c);
    match marshal(p.body)
    case None => None
    case Some(s) => Some(BatchResponse(p.code, s))
  }

  /** The results of a batch whose first item is decided at counter `c`: each
      item is decided at the counter before its own increment, and an item
      whose body cannot be serialised is skipped without an increment. */
  function BatchResults(cfg: SvcConfig, k: Period, c: nat, items: seq<SingleRequest>,
                        marshal: Json -> Option<string>): (r: seq<BatchResponse>)
    ensures |r| <= |items|
    decreases |items|
  {
    if |items| == 0 then []
    else
      match ItemResult(cfg, k, c, marshal)
      case None => BatchResults(cfg, k, c, items[1..], marshal)
      case Some(b) => [b] + BatchResults(cfg, k, c + 1, items[1..], marshal)
  }

  /** One unfolding of BatchResults at position i of the items. */
  lemma BatchResultsStep(cfg: SvcConfig, k: Period, c: nat, items: seq<SingleRequest>, i: nat,
                         marshal: Json -> Option<string>)
    requires i < |items|
    ensures BatchResults(cfg, k, c, items[i..], marshal) ==
      match ItemResult(cfg, k, c, marshal)
      case None => BatchResults(cfg, k, c, items[i + 1..], marshal)
      case Some(b) => [b] + BatchResults(cfg, k, c + 1, items[i + 1..], marshal)
  {
    assert items[i..][1..] == items[i + 1..];
  }

  /** What the batch loop relies on at item i: with `done` answered so far,
      a skip leaves the rest decided at `c`, and a result joins `done` with
      the rest decided at `c + 1`. */
  lemma BatchResultsAdvance(cfg: SvcConfig, k: Period, c: nat, items: seq<SingleRequest>, i: nat,
                            marshal: Json -> Option<string>, done: seq<BatchResponse>, total: seq<BatchResponse>)
    requires i < |items|
    requires done + BatchResults(cfg, k, c, items[i..], marshal) == total
    ensures ItemResult(cfg, k, c, marshal).None? ==>
      done + BatchResults(cfg, k, c, items[i + 1..], marshal) == total
    ensures ItemResult(cfg, k, c, marshal).Some? ==>
      (done + [ItemResult(cfg, k, c, marshal).value]) + BatchResults(cfg, k, c + 1, items[i + 1..], marshal) == total
  {
    BatchResultsStep(cfg, k, c, items, i, marshal);
    if ItemResult(cfg, k, c, marshal).Some? {
      var b := ItemResult(cfg, k, c, marshal).value;
      var rest := BatchResults(cfg, k, c + 1, items[i + 1..], marshal);
      assert (done + [b]) + rest == done + ([b] + rest);
    }
  }

  /** When both bodies serialise, the batch has one result per item, in
      order, the j-th decided at counter c + j. */
  lemma {:induction false} BatchResultsInOrder(cfg: SvcConfig, k: Period, c: nat, items: seq<SingleRequest>,
                                               marshal: Json -> Option<string>)
    requires marshal(cfg.failureRespBody).Some? && marshal(cfg.successRespBody).Some?
    ensures |BatchResults(cfg, k, c, items, marshal)| == |items|
    ensures forall j :: 0 <= j < |items| ==>
      BatchResults(cfg, k, c, items, marshal)[j] ==
        BatchResponse(ChosenProfile(cfg, k, c + j).code, marshal(ChosenProfile(cfg, k, c + j).body).value)
    decreases |items|
  {
    if |items| > 0 {
      BatchResultsInOrder(cfg, k, c + 1, items[1..], marshal);
    }
  }

  /** A skip leaves the counter where it was, so every later item is decided
      the same way and skipped too: the rest of the batch is empty. */
  lemma {:induction false} SkipIsSticky(cfg: SvcConfig, k: Period, c: nat, items: seq<SingleRequest>,
                                        marshal: Json -> Option<string>)
    requires ItemResult(cfg, k, c, marshal).None?
    ensures BatchResults(cfg, k, c, items, marshal) == []
    decreases |items|
  {
    if |items| > 0 {
      SkipIsSticky(cfg, k, c, items[1..], marshal);
    }
  }

  /** The items' contents are never read: only how many there are matters. */
  lemma {:induction false} BatchIgnoresItemContents(cfg: SvcConfig, k: Period, c: nat,
                                                    items: seq<SingleRequest>, others: seq<SingleRequest>,
                                                    marshal: Json -> Option<string>)
    requires |items| == |others|
    ensures BatchResults(cfg, k, c, items, marshal) == BatchResults(cfg, k, c, others, marshal)
    decreases |items|
  {
    if |items| > 0 {
      BatchIgnoresItemContents(cfg, k, c, items[1..], others[1..], marshal);
      BatchIgnoresItemContents(cfg, k, c + 1, items[1..], others[1..], marshal);
    }
  }

  /** The service: its configuration and the request counter it owns. */
  class Service {
    const cfg: SvcConfig
    const failurePeriod: Period
    var reqCounter: nat

    /** `Make`: a fresh service over `cfg`, its counter at 0. */
    constructor Make(cfg: SvcConfig, failurePeriod: Period)
      ensures this.cfg == cfg && this.failurePeriod == failurePeriod
      ensures reqCounter == 0
    {
      this.cfg := cfg;
      this.failurePeriod := failurePeriod;
      reqCounter := 0;
    }

    /** `incReqCounter`, the step it takes before calling the next handler. */
    method IncReqCounter()
      modifies this
      ensures reqCounter == old(reqCounter) + 1
    {
      reqCounter := reqCounter + 1;
    }

    /** `handleMock`: the configured failure or success code and body,
        unchanged, decided at the current counter, which it only reads. */
    method HandleMock() returns (resp: HttpResponse)
      ensures ShouldFail(failurePeriod, reqCounter) ==>
        resp == HttpResponse(cfg.failureCode, JsonBody(cfg.failureRespBody))
      ensures !ShouldFail(failurePeriod, reqCounter) ==>
        resp == HttpResponse(cfg.successCode, JsonBody(cfg.successRespBody))
    {
      if ShouldFail(failurePeriod, reqCounter) {
        return HttpResponse(cfg.failureCode, JsonBody(cfg.failureRespBody));
      }
      return HttpResponse(cfg.successCode, JsonBody(cfg.successRespBody));
    }

    /** `handleBatchMock`. A body that cannot be read or decoded gets 400 with
        CodeInvalidBody and leaves the counter alone; otherwise the items are
        answered in order and the counter rises by the number of results. */
    method HandleBatchMock(body: Option<string>, codecs: Codecs, logID: string) returns (resp: HttpResponse)
      modifies this
      ensures DecodeBatchBody(body, codecs).None? ==>
        resp == BadBodyResponse(logID) && reqCounter == old(reqCounter)
      ensures DecodeBatchBody(body, codecs).Some? ==>
        var out := BatchResults(cfg, failurePeriod, old(reqCounter), DecodeBatchBody(body, codecs).value, codecs.marshal);
        resp == HttpResponse(StatusOK, BatchBody(out)) && reqCounter == old(reqCounter) + |out|
    {
      if body.None? {
        return BadBodyResponse(logID);
      }
      var decoded := codecs.parseQuery(body.value);
      if decoded.None? {
        return BadBodyResponse(logID);
      }
      var requests := codecs.decodeBatch(FirstValue(decoded.value, "batch"));
      if requests.None? {
        return BadBodyResponse(logID);
      }
      var items := requests.value;
      assert DecodeBatchBody(body, codecs) == Some(items);

      var responses := AnswerItems(items, codecs.marshal);
      return HttpResponse(StatusOK, BatchBody(responses));
    }

    /** The per-item loop of `handleBatchMock`: each item is decided at the
        current counter, its serialised body appended, and only then the
        counter incremented; a serialisation failure skips both. */
    method AnswerItems(items: seq<SingleRequest>, marshal: Json -> Option<string>)
      returns (responses: seq<BatchResponse>)
      modifies this
      ensures responses == BatchResults(cfg, failurePeriod, old(reqCounter), items, marshal)
      ensures reqCounter == old(reqCounter) + |responses|
    {
      responses := [];
      ghost var c0 := reqCounter;
      for i := 0 to |items|
        invariant reqCounter == c0 + |responses|
        invariant |responses| <= i
        invariant responses + BatchResults(cfg, failurePeriod, reqCounter, items[i..], marshal)
          == BatchResults(cfg, failurePeriod, c0, items, marshal)
      {
        ghost var total := BatchResults(cfg, failurePeriod, c0, items, marshal);
        BatchResultsAdvance(cfg, failurePeriod, reqCounter, items, i, marshal, responses, total);
        if ShouldFail(failurePeriod, reqCounter) {
          var body := marshal(cfg.failureRespBody);
          if body.None? {
            continue;
          }
          responses := responses + [BatchResponse(cfg.failureCode, body.value)];
        } else {
          var body := marshal(cfg.successRespBody);
          if body.None? {
            continue;
          }
          responses := responses + [BatchResponse(cfg.successCode, body.value)];
        }
        reqCounter := reqCounter + 1;
      }
      assert items[|items|..] == [];
      assert responses + [] == responses;
    }

    /** A single mock request through the counter middleware: one increment,
        then `handleMock` at the new counter. */
    method ServeMock() returns (resp: HttpResponse)
      modifies this
      ensures reqCounter == old(reqCounter) + 1
      ensures resp == HttpResponse(ChosenProfile(cfg, failurePeriod, reqCounter).code,
                                   JsonBody(ChosenProfile(cfg, failurePeriod, reqCounter).body))
    {
      IncReqCounter();
      resp := HandleMock();
    }

    /** A batch request through the counter middleware: one increment for the
        HTTP request, then `handleBatchMock`, whose first item is decided at
        the incremented counter. */
    method ServeBatchMock(body: Option<string>, codecs: Codecs, logID: string) returns (resp: HttpResponse)
      modifies this
      ensures DecodeBatchBody(body, codecs).None? ==>
        resp == BadBodyResponse(logID) && reqCounter == old(reqCounter) + 1
      ensures DecodeBatchBody(body, codecs).Some? ==>
        var out := BatchResults(cfg, failurePeriod, old(reqCounter) + 1, DecodeBatchBody(body, codecs).value, codecs.marshal);
        resp == HttpResponse(StatusOK, BatchBody(out)) && reqCounter == old(reqCounter) + 1 + |out|
    {
      IncReqCounter();
      resp := HandleBatchMock(body, codecs, logID);
    }
  }

  /** Ratio 0.5 (k = 2), failure 400 `{"success":false}`, success 200
      `{"success":true}`. */
  const HalfRatioConfig: SvcConfig :=
    SvcConfig(8080, ["GET"], ["/foo"], 400, SuccessFalse, 200, SuccessTrue, Finite(0.5), 1000, RateExceeded)

  /** Three requests on a fresh service answer 200, 400, 200. */
  method ThreeRequestsScenario() returns (r1: HttpResponse, r2: HttpResponse, r3: HttpResponse)
    ensures r1 == HttpResponse(200, JsonBody(SuccessTrue))
    ensures r2 == HttpResponse(400, JsonBody(SuccessFalse))
    ensures r3 == HttpResponse(200, JsonBody(SuccessTrue))
  {
    var svc := new Service.Make(HalfRatioConfig, 2);
    r1 := svc.ServeMock();
    r2 := svc.ServeMock();
    r3 := svc.ServeMock();
  }

  /** A two-item batch on a fresh service is decided at counters 1 and 2:
      success, then failure, and the counter ends at 3. */
  method BatchScenario(body: string, codecs: Codecs, logID: string) returns (resp: HttpResponse, counter: nat)
    requires DecodeBatchBody(Some(body), codecs).Some? && |DecodeBatchBody(Some(body), codecs).value| == 2
    requires codecs.marshal(SuccessTrue) == Some("{\"success\":true}")
    requires codecs.marshal(SuccessFalse) == Some("{\"success\":false}")
    ensures resp == HttpResponse(200, BatchBody([BatchResponse(200, "{\"success\":true}"),
                                                 BatchResponse(400, "{\"success\":false}")]))
    ensures counter == 3
  {
    var svc := new Service.Make(HalfRatioConfig, 2);
    resp := svc.ServeBatchMock(Some(body), codecs, logID);
    var items := DecodeBatchBody(Some(body), codecs).value;
    BatchResultsInOrder(HalfRatioConfig, 2, 1, items, codecs.marshal);
    var out := BatchResults(HalfRatioConfig, 2, 1, items, codecs.marshal);
    assert ChosenProfile(HalfRatioConfig, 2, 1) == Profile(200, SuccessTrue);
    assert ChosenProfile(HalfRatioConfig, 2, 2) == Profile(400, SuccessFalse);
    assert out[0] == BatchResponse(200, "{\"success\":true}");
    assert out[1] == BatchResponse(400, "{\"success\":false}");
    assert out == [out[0], out[1]];
    counter := svc.reqCounter;
  }
}
