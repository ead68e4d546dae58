/**
 * The Worker's `fetch` handler (src/index.js, lines 13-93) and the guard of
 * `forwardRequest` (lines 102-105): every request ends forwarded to the
 * upstream backend, answered 429, or answered 200 with a synthetic
 * chat completion.
 */
module Gateway {
  import opened Wrappers
  import opened Classifier
  import opened RateLimit
  import opened Synthesizer
  import opened Text

  /** What the handler reads from a request. */
  datatype Request = Request(
    path: string,               // url.pathname
    httpMethod: string,
    clientIp: Option<string>,   // the CF-Connecting-IP header
    userAgent: Option<string>,  // the User-Agent header
    asn: int,                   // request.cf.asn
    body: RequestBody)

  /** The Worker's environment bindings other than the KV namespace. */
  datatype Env = Env(upstreamUrl: Option<string>, honeypotConfig: ConfigSource)

  /**
   * Everything the handler gets from outside the request: whether the KV
   * store works, what the cat-fact service answers, the `Math.random()`
   * draws of the response pick, the prompt-token count and the id, and
   * `Date.now()`.
   */
  datatype Oracle = Oracle(
    store: StoreHealth,
    fact: FactFetch,
    pickDraw: real,
    promptDraw: real,
    idDraws: seq<real>,
    nowMs: nat)

  predicate OracleOk(o: Oracle)
  {
    Unit(o.pickDraw) && Unit(o.promptDraw) && IdDraws(o.idDraws)
  }

  datatype Response =
    | Proxied(upstream: string)                                 // the backend's own response, relayed
    | PlainText(status: nat, text: string)
    | ErrorJson(status: nat, message: string, errorType: string)
    | CompletionJson(status: nat, completion: ChatCompletion)

  const ProtectedPath := "/api/chat/completions"
  const UnconfiguredMessage := "Upstream URL is not configured. Please set the UPSTREAM_URL environment variable."
  const RateLimitMessage := "You are sending requests too frequently. Please slow down."
  const TooManyRequests := ErrorJson(429, RateLimitMessage, "rate_limit_exceeded")

  /**
   * `forwardRequest`: a missing or empty UPSTREAM_URL is answered 502;
   * otherwise the request is relayed to that backend.
   */
  function ForwardRequest(upstreamUrl: Option<string>): (r: Response)
    ensures r.PlainText? <==> upstreamUrl.None? || upstreamUrl.value == ""
    ensures r.PlainText? ==> r.status == 502
    ensures !r.PlainText? ==> r == Proxied(upstreamUrl.value)
  {
    if upstreamUrl.None? || upstreamUrl.value == "" then PlainText(502, UnconfiguredMessage)
    else Proxied(upstreamUrl.value)
  }

  /** Only `POST /api/chat/completions` is examined; everything else takes the fast path. */
  predicate IsProtected(req: Request)
    ensures IsProtected(req) ==> req.httpMethod == "POST"
    ensures req.path != ProtectedPath ==> !IsProtected(req)
  {
    req.path == ProtectedPath && req.httpMethod == "POST"
  }

  /** The verdict the handler reaches for a protected request. */
  predicate Condemned(req: Request, env: Env)
    ensures req.asn in ResolveConfig(env.honeypotConfig).asns ==> Condemned(req, env)
    ensures UserAgentOf(req.userAgent) in ResolveConfig(env.honeypotConfig).uas ==> Condemned(req, env)
    ensures ResolveConfig(env.honeypotConfig).uas == [] ==> (Condemned(req, env) <==> req.asn in ResolveConfig(env.honeypotConfig).asns)
  {
    IsMalicious(UserAgentOf(req.userAgent), req.asn, ResolveConfig(env.honeypotConfig))
  }

  /** The response to `req` and the KV store afterwards. */
  function Handle(req: Request, env: Env, store: map<string, Entry>, o: Oracle): (r: (Response, map<string, Entry>))
    requires OracleOk(o)
    ensures !IsProtected(req) ==> r.0 == ForwardRequest(env.upstreamUrl)
    ensures r.0.Proxied? || r.0.PlainText? ==> r.0 == ForwardRequest(env.upstreamUrl) && r.1 == store
    ensures r.0.PlainText? ==> r.0.status == 502
    ensures r.0.ErrorJson? ==> r.0 == TooManyRequests && r.1 == store
    ensures r.0.CompletionJson? ==> r.0.status == 200 && WellFormed(r.0.completion)
  {
    if !IsProtected(req) || !Condemned(req, env) then (ForwardRequest(env.upstreamUrl), store)
    else
      var (decision, after) := GateStep(store, KeyFor(req.clientIp), o.store);
      if decision == Throttle then (TooManyRequests, after)
      else (CompletionJson(200, Synthesize(req.body, o.fact, o.pickDraw, o.promptDraw, o.idDraws, o.nowMs)), after)
  }

  /**
   * Lines 26-38: fill `config` from HONEYPOT_CONFIG, then apply the
   * defaults. It follows `ResolveConfig`, so it differs from the source only
   * on a `null` configuration, where the source throws.
   */
  method LoadConfig(src: ConfigSource) returns (cfg: Config)
    ensures cfg == ResolveConfig(src)
    ensures src.Unset? ==> cfg.uas == ["Go-http-client"] && cfg.asns == []
  {
    var config: ConfigValue := Record(NoFields);
    match src {
      case JsonText(text, parsed) =>
        if text != "" {
          match parsed {
            case Parsed(v) => config := v;
            case ParseError =>  // swallowed: config stays {}
          }
        }
      case Object(fields) =>
        config := Record(fields);
      case Unset =>
    }
    // The source throws here on a null config (line 37 reads a field of it);
    // the model applies the defaults instead, as `ResolveConfig` does.
    var fields := if config.Record? then config.fields else NoFields;
    var maliciousUas := fields.maliciousUas.GetOr(DefaultUas);
    var maliciousAsns := fields.maliciousAsns.GetOr([]);
    cfg := Config(maliciousUas, maliciousAsns);
  }

  /**
   * Lines 72-84: fill `responseData` from the body; an exception while
   * reading it falls back to the fact responder.
   */
  method ChooseResponse(body: RequestBody, o: Oracle) returns (responseData: ChatCompletion)
    requires OracleOk(o)
    ensures responseData == Synthesize(body, o.fact, o.pickDraw, o.promptDraw, o.idDraws, o.nowMs)
    ensures WellFormed(responseData)
  {
    match body {
      case Unparsable =>
        responseData := DynamicCatFactResponse(o.fact, o.promptDraw, o.idDraws, o.nowMs);
      case Json(content) =>
        var probe := ProbeIdentity(content);
        if probe == Asks {
          responseData := WhoAreYouResponse(o.idDraws, o.nowMs);
        } else if probe == Throws {
          responseData := DynamicCatFactResponse(o.fact, o.promptDraw, o.idDraws, o.nowMs);
        } else {
          var chosen := RandomIndex(o.pickDraw, 2);
          if chosen == 0 {
            responseData := DynamicCatFactResponse(o.fact, o.promptDraw, o.idDraws, o.nowMs);
          } else {
            responseData := DefaultHoneypotResponse(o.idDraws, o.nowMs);
          }
        }
    }
  }

  /** The handler, step by step, on the KV namespace `kv`. */
  method Fetch(req: Request, env: Env, kv: RateLimiter, o: Oracle) returns (resp: Response)
    requires OracleOk(o)
    modifies kv
    ensures (resp, kv.entries) == Handle(req, env, old(kv.entries), o)
    ensures old(kv.Valid()) ==> kv.Valid()
  {
    if req.path != ProtectedPath || req.httpMethod != "POST" {
      return ForwardRequest(env.upstreamUrl);
    }
    var clientIp := req.clientIp;
    var config := LoadConfig(env.honeypotConfig);
    var userAgent := UserAgentOf(req.userAgent);
    var isMaliciousUa := AnyContained(config.uas, userAgent);
    var isMaliciousAsn := req.asn in config.asns;
    assert isMaliciousUa || isMaliciousAsn <==> Condemned(req, env);
    if isMaliciousUa || isMaliciousAsn {
      var decision := kv.Gate(clientIp, o.store);
      if decision == Throttle {
        return TooManyRequests;
      }
      var responseData := ChooseResponse(req.body, o);
      return CompletionJson(200, responseData);
    }
    resp := ForwardRequest(env.upstreamUrl);
  }

  /** Anything but POST /api/chat/completions is forwarded without touching the store. */
  lemma UnprotectedForwarded(req: Request, env: Env, store: map<string, Entry>, o: Oracle)
    requires OracleOk(o) && !IsProtected(req)
    ensures Handle(req, env, store, o) == (ForwardRequest(env.upstreamUrl), store)
  {
  }

  /**
   * A protected request whose user agent contains no configured substring
   * and whose ASN is not configured is forwarded without touching the store.
   */
  lemma LegitimateForwarded(req: Request, env: Env, store: map<string, Entry>, o: Oracle)
    requires OracleOk(o) && IsProtected(req)
    requires var cfg := ResolveConfig(env.honeypotConfig);
             && (forall k, i :: 0 <= k < |cfg.uas| ==> !OccursAt(UserAgentOf(req.userAgent), cfg.uas[k], i))
             && req.asn !in cfg.asns
    ensures Handle(req, env, store, o) == (ForwardRequest(env.upstreamUrl), store)
  {
    VerdictIff(UserAgentOf(req.userAgent), req.asn, ResolveConfig(env.honeypotConfig));
  }

  /**
   * A condemned request never reaches the backend and never gets a server
   * error: it is answered 429, or 200 with a well-formed completion.
   */
  lemma CondemnedNeverForwarded(req: Request, env: Env, store: map<string, Entry>, o: Oracle)
    requires OracleOk(o) && IsProtected(req) && Condemned(req, env)
    ensures var r := Handle(req, env, store, o).0;
            r == TooManyRequests || (r.CompletionJson? && r.status == 200 && WellFormed(r.completion))
  {
  }

  /**
   * The answer is 429 exactly for a condemned protected request whose
   * counter read succeeds and whose incremented count exceeds 20.
   */
  lemma ThrottledIff(req: Request, env: Env, store: map<string, Entry>, o: Oracle)
    requires OracleOk(o)
    ensures Handle(req, env, store, o).0 == TooManyRequests <==>
              && IsProtected(req) && Condemned(req, env)
              && !o.store.readFails && Stored(store, KeyFor(req.clientIp)) + 1 > Limit
  {
  }

  /** When the counter cannot be read, a condemned request is still answered 200 and nothing is written. */
  lemma StoreFailureFailsOpen(req: Request, env: Env, store: map<string, Entry>, o: Oracle)
    requires OracleOk(o) && IsProtected(req) && Condemned(req, env) && o.store.readFails
    ensures Handle(req, env, store, o).0.CompletionJson?
    ensures Handle(req, env, store, o).0.status == 200
    ensures Handle(req, env, store, o).1 == store
  {
  }

  /**
   * The store changes only when a condemned request is admitted with a
   * working store, and then only its own counter, set to the incremented
   * count with a 60-second TTL.
   */
  lemma StoreWrites(req: Request, env: Env, store: map<string, Entry>, o: Oracle)
    requires OracleOk(o)
    requires Handle(req, env, store, o).1 != store
    ensures IsProtected(req) && Condemned(req, env)
    ensures Handle(req, env, store, o).0.CompletionJson?
    ensures Stored(store, KeyFor(req.clientIp)) + 1 <= Limit
    ensures Handle(req, env, store, o).1 ==
              store[KeyFor(req.clientIp) := Entry(Stored(store, KeyFor(req.clientIp)) + 1, TtlSeconds)]
  {
    var key := KeyFor(req.clientIp);
    var (d, after) := GateStep(store, key, o.store);
    assert after != store;
    assert d == Admit && !o.store.readFails && !o.store.writeFails;
  }

  /** No request can push a counter above 20. */
  lemma HandlePreservesBound(req: Request, env: Env, store: map<string, Entry>, o: Oracle)
    requires OracleOk(o) && Bounded(store)
    ensures Bounded(Handle(req, env, store, o).1)
  {
    GatePreservesBound(store, KeyFor(req.clientIp), o.store);
  }

  /**
   * A caller from a configured ASN posting an ordinary question to a fresh
   * store gets 200, a completion that finished with "stop", and a counter of 1.
   */
  lemma ConfiguredAsnScenario(ip: string, o: Oracle)
    requires OracleOk(o) && o.store == Healthy
    ensures var req := Request(ProtectedPath, "POST", Some(ip), Some("curl/8.0"), 12345, Json(TextContent("hello")));
            var env := Env(Some("https://backend.example"), Object(ConfigFields(None, Some([12345]))));
            var (r, after) := Handle(req, env, map[], o);
            && r.CompletionJson? && r.status == 200
            && r.completion.choices[0].finishReason == "stop"
            && after == map[KeyFor(Some(ip)) := Entry(1, TtlSeconds)]
  {
  }
}
