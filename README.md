# OpenWebUI honeypot gateway — a verified model

This project models, in Dafny, the decision pipeline of a Cloudflare Worker
that guards an OpenWebUI chat-completion endpoint (`src/index.js`).

- **Routing.** Only `POST /api/chat/completions` is examined. Every other
  request is forwarded to the upstream backend. A missing or empty
  `UPSTREAM_URL` gives a 502.
- **Configuration.** `HONEYPOT_CONFIG` is a JSON string or an object with
  optional `malicious_uas` and `malicious_asns` fields. The defaults are
  `["Go-http-client"]` and `[]`. A missing User-Agent header reads as `""`.
- **Classification.** A request is malicious when a configured substring
  occurs in its User-Agent, or its ASN is configured.
- **Rate limit.** For a malicious request, the counter `ip:<client ip>` is
  read from the KV namespace (missing counts as 0) and incremented. Above 20
  the request gets a 429 and nothing is written. Otherwise the count is
  written back with a 60-second TTL. A failed read is caught and the request
  goes on (fail-open). The write is not awaited, so a failed write does not
  change the answer either.
- **Synthetic answer.** An admitted malicious request gets a 200 with a fake
  chat completion. A first message containing "你是谁" gets the identity
  deflection. Otherwise a random draw picks the cat-fact responder or the
  static long answer. A body that cannot be read falls back to the cat-fact
  responder.

Modules, one per component:

- `Wrappers` (`wrappers.dfy`): `Option`.
- `Text` (`text.dfy`): `String.prototype.includes` as `Contains`, proved
  equal to a positional definition; JavaScript's UTF-16 `.length` as
  `Utf16Length`.
- `Classifier` (`classifier.dfy`): configuration loading and defaulting, and
  the verdict (`Array.prototype.some` as `AnyContained`).
- `RateLimit` (`ratelimit.dfy`):
  - the class `RateLimiter` holds the KV namespace as a `map<string, Entry>`;
  - its method `Gate` does the read-increment-check-write;
  - `GateStep` is the pure function that specifies it;
  - `Valid()` is the invariant that no counter exceeds 20.
- `Synthesizer` (`synthesizer.dfy`):
  - `GenerateRandomString` is a loop, proved against the function
    `RandomString`;
  - the three response builders are functions;
  - `Synthesize` is the selection rule.
- `Gateway` (`gateway.dfy`):
  - `Handle` is the whole handler as a function of the request, the
    environment, the store and the outside inputs;
  - `Fetch` is the handler written step by step, proved equal to `Handle`.
    It uses `LoadConfig` and `ChooseResponse`, the two steps that fill a
    mutable variable.
  - `Handle`, `Fetch` and `LoadConfig` use the corrected configuration
    `ResolveConfig` (see "## Findings"). They differ from the source only when
    HONEYPOT_CONFIG parses to `null`. There the source throws at line 37 on
    every protected request, while the model applies the default
    configuration.

Outside inputs are explicit parameters, collected in `Gateway.Oracle`:
- store health: whether the KV read or the KV write fails;
- the cat-fact service outcome: `Fetched`, `NotOk` or `Unreachable`;
- one `real` in [0, 1) for each `Math.random()` call that shapes the response;
- `Date.now()` in milliseconds.

`Math.floor(Math.random() * n)` is modelled by `RandomIndex`, the floor of the
exact product of the draw and `n` (see "## Left out" for binary64 rounding).
The id alphabet is written
as the character ranges A–Z, a–z and 0–9. That is the same 62 characters, in
the same order, as the source's `characters` string.

## Model

| member | source | states |
|---|---|---|
| `Text.Contains` | src/index.js:43 | `includes` holds for the empty needle, and only holds when the needle is no longer than the string. |
| `Text.ContainsIffOccurs` | src/index.js:43 | `includes` is true exactly when the needle occurs at some position of the string (both directions). |
| `Text.Utf16Length` | src/index.js:149 | JavaScript's `.length` lies between the character count and twice it. It equals the character count exactly when no character lies outside the Basic Multilingual Plane. |
| `Classifier.Loaded` | src/index.js:26-35 | `config` is `{}` unless a non-empty string parsed or an object was given. A parse error leaves `{}`. Only the text `null` yields a null config. |
| `Classifier.WithDefaults` | src/index.js:37-38 | An absent `malicious_uas` becomes `["Go-http-client"]` and an absent `malicious_asns` becomes `[]`. A present field is kept as given. |
| `Classifier.ConfigAsWritten` | src/index.js:26-38 | The code as written yields no configuration (it throws) exactly when the configuration text parses to `null`. |
| `Classifier.NullConfigThrows` | src/index.js:29-37 | Counterexample: the configuration text `"null"` makes line 37 throw. |
| `Classifier.ResolveConfig` | src/index.js:26-38 | Wherever the code as written yields a configuration, it is the same one. Where it throws, the defaults apply instead. |
| `Classifier.UnusableConfigGivesDefaults` | src/index.js:26-38 | Absent, empty, malformed, null or non-object configuration yields exactly the default configuration. |
| `Classifier.SuppliedFieldsWin` | src/index.js:28-38 | A configuration object, given directly or as parsed text, keeps its fields and defaults only the missing ones. |
| `Classifier.AnyContained` | src/index.js:43 | `some` is false on an empty list. It is true when the list holds `""` or the User-Agent itself. |
| `Classifier.AnyContainedIff` | src/index.js:43 | `some(ua => userAgent.includes(ua))` is true exactly when some configured entry is contained in the User-Agent. |
| `Classifier.UserAgentOf` | src/index.js:41 | A missing User-Agent header reads as `""`. A present one is used unchanged. |
| `Classifier.IsMalicious` | src/index.js:43-45 | A configured ASN condemns the request whatever its User-Agent. With no configured User-Agent entries, the verdict is ASN membership alone. A User-Agent listed verbatim is condemned. |
| `Classifier.VerdictIff` | src/index.js:43-45 | Malicious exactly when some configured substring occurs at some position of the User-Agent, or the ASN equals a configured one. |
| `Classifier.EmptyEntryMatchesAll` | src/index.js:43-45 | An empty string in the User-Agent list makes every request malicious. |
| `Classifier.MissingUserAgent` | src/index.js:41-45 | Without a User-Agent header, a request is malicious exactly when `""` is configured or its ASN is. |
| `Classifier.DefaultVerdict` | src/index.js:37-45 | Under the default configuration, a request is malicious exactly when its User-Agent contains "Go-http-client". |
| `RateLimit.KeyFor` | src/index.js:51 | Every counter key is `ip:` followed by the client IP. A missing IP header gives the key `ip:null`. |
| `RateLimit.Stored` | src/index.js:53-54 | A missing key counts as 0. A present key gives its stored count. |
| `RateLimit.GateStep` | src/index.js:50-66 | A throttle leaves the store unchanged. The store is either unchanged or has the request's own key set to the incremented count with TTL 60. Any change is an admit from a count below 20. |
| `RateLimit.KeyForInjective` | src/index.js:51 | Two present IPs share a counter key only if they are equal. |
| `RateLimit.GateThreshold` | src/index.js:50-62 | Throttled exactly when the read succeeds and the stored count (missing = 0) plus one exceeds 20. |
| `RateLimit.NoWriteOnThrottle` | src/index.js:56-62 | A throttled request leaves the store unchanged. |
| `RateLimit.AdmitWritesCount` | src/index.js:54-63 | With a working store, an admitted request stores the incremented count with TTL 60 under its own key. No other key changes. |
| `RateLimit.FailOpen` | src/index.js:52-66 | A failed read admits and writes nothing. A failed write leaves the store unchanged. |
| `RateLimit.GatePreservesBound` | src/index.js:54-63 | If no counter exceeds 20 before the gate, none does after it. |
| `RateLimit.BurstDecisions` | src/index.js:50-63 | Starting from a counter s ≤ 20, request i of a burst is admitted exactly when s + i < 20. The counter ends at min(s + n, 20). |
| `RateLimit.FirstTwentyAdmitted` | src/index.js:50-63 | With no stored counter, the first 20 requests are admitted and the 21st and every later one are throttled. |
| `RateLimit.ExpiryResets` | src/index.js:53-63 | Once the store reaps a counter, the next request counts as 1, is admitted and stores 1 with TTL 60. |
| `RateLimit.Burst` | src/index.js:50-63 | `n` consecutive requests for one key through a working store give one gate decision per request, each applied to the store the previous one left. |
| `RateLimit.RateLimiter.Empty` | src/index.js:52-63 | The `RATE_LIMITER_KV` namespace before any counter is stored: empty, and within the bound invariant. |
| `RateLimit.RateLimiter.constructor` | src/index.js:52-63 | The `RATE_LIMITER_KV` namespace holding given counters, none above 20; it starts within the bound invariant. |
| `RateLimit.RateLimiter.Gate` | src/index.js:50-66 | The decision and the new store are those of `GateStep` on the old store. It keeps the bound invariant. |
| `RateLimit.RateLimiter.Expire` | src/index.js:63 | The store loses exactly the expired key. It keeps the bound invariant. |
| `Synthesizer.RandomIndex` | src/index.js:128 | `Math.floor(Math.random() * n)` is an index below n. |
| `Synthesizer.RandomIndexOfTwo` | src/index.js:78-79 | A draw below one half picks the first responder. Any other draw picks the second. |
| `Synthesizer.AlphabetIsAlphanumeric` | src/index.js:125-126 | The alphabet has 62 characters, and a character is in it exactly when it is an ASCII letter or digit. |
| `Synthesizer.RandomString` | src/index.js:123-131 | The random string has one character per draw, each from the alphabet. |
| `Synthesizer.GenerateRandomString` | src/index.js:123-131 | The loop returns a string of the requested length drawn from the alphabet, equal to `RandomString` of its draws. |
| `Synthesizer.Envelope` | src/index.js:151-158 | The shared record is well formed: a `chatcmpl-` id with 29 alphanumeric characters, one assistant choice with `finish_reason` "stop", and total = prompt + completion. `created` is `Date.now()` in whole seconds. |
| `Synthesizer.WhoAreYouResponse` | src/index.js:161-170 | Well formed, the fixed identity answer, usage (8, 63, 71). |
| `Synthesizer.DefaultHoneypotResponse` | src/index.js:172-185 | Well formed, the fixed long answer, usage (125, 2541, 2666). |
| `Synthesizer.FactContent` | src/index.js:134-146 | A fetched fact is kept as the prefix and the disclaimer is appended. A missing `fact` field gives `"undefined"` followed by the disclaimer. A non-OK status gives the cheetah sentence. A thrown error gives the five-toes sentence. |
| `Synthesizer.DynamicCatFactResponse` | src/index.js:133-159 | Well formed. Prompt tokens lie in [10, 29]. Completion tokens are twice the UTF-16 length of the content. |
| `Synthesizer.ProbeIdentity` | src/index.js:75 | The check throws exactly for content that is not missing, not a string and not an array. On a string, it asks exactly when "你是谁" occurs in it. On an array, it asks exactly when "你是谁" is an element. Missing content does not ask. |
| `Synthesizer.Synthesize` | src/index.js:72-84 | Every synthetic response is well formed (the id, "stop", total = prompt + completion). |
| `Synthesizer.IdentityQuestionDeflected` | src/index.js:75-76 | A first message that asks "你是谁" (a string containing it, or an array holding it as an element) gets the identity answer with usage (8, 63, 71), whatever the draws. |
| `Synthesizer.ExceptionFallsBackToFact` | src/index.js:73-84 | An unparsable body, or content without `includes`, gets the fact responder. |
| `Synthesizer.RandomPick` | src/index.js:77-80 | Otherwise a draw below one half gives the fact responder and any other draw the static one. |
| `Synthesizer.FactServiceDownStillAnswers` | src/index.js:135-146 | When the fact service fails, the fact responder still returns a well-formed response with one of the two fixed sentences. |
| `Gateway.ForwardRequest` | src/index.js:102-105 | A missing or empty `UPSTREAM_URL` gives exactly a 502. Otherwise the request is relayed to that URL. |
| `Gateway.IsProtected` | src/index.js:17 | Only a `POST` to `/api/chat/completions` is examined; any other path or method takes the fast path. |
| `Gateway.Condemned` | src/index.js:37-45 | `isMaliciousBot` under the resolved configuration: a configured ASN or a verbatim-listed User-Agent condemns, and with no User-Agent entries the verdict is ASN membership alone. |
| `Gateway.Handle` | src/index.js:13-93 | A request that is not protected is forwarded. A forward or a 502 leaves the store unchanged. A 429 is the `rate_limit_exceeded` error and leaves the store unchanged. A 200 carries a well-formed completion. It uses the corrected configuration (see Findings). |
| `Gateway.LoadConfig` | src/index.js:26-38 | The step-by-step loading of `config` yields `ResolveConfig` of the source. With no configuration, that is the defaults. On a `null` configuration it applies the defaults where the source throws (see Findings). |
| `Gateway.ChooseResponse` | src/index.js:72-84 | The step-by-step filling of `responseData` yields `Synthesize` of the body and the draws. The result is well formed. |
| `Gateway.Fetch` | src/index.js:13-93 | The handler's response and the store it leaves are those of `Handle`. It keeps the bound invariant. Like `Handle`, it differs from the source only on a `null` configuration. |
| `Gateway.UnprotectedForwarded` | src/index.js:17-19 | Anything but `POST /api/chat/completions` is forwarded and the store is untouched. |
| `Gateway.LegitimateForwarded` | src/index.js:43-48 | A protected request is forwarded with the store untouched when no configured substring occurs in its User-Agent and its ASN is not configured. |
| `Gateway.CondemnedNeverForwarded` | src/index.js:48-89 | A malicious request never reaches the backend or gets a 5xx. It is answered 429, or 200 with a well-formed completion. |
| `Gateway.ThrottledIff` | src/index.js:48-62 | The answer is the 429 `rate_limit_exceeded` error exactly for a malicious protected request whose read succeeds and whose count exceeds 20. |
| `Gateway.StoreFailureFailsOpen` | src/index.js:52-66 | When the counter read fails, a malicious request is answered 200 and the store is unchanged. |
| `Gateway.StoreWrites` | src/index.js:56-63 | The store changes only for an admitted malicious request whose count is at most 20, and then only its own key, to that count with TTL 60. |
| `Gateway.HandlePreservesBound` | src/index.js:54-63 | No request can push a counter above 20. |
| `Gateway.ConfiguredAsnScenario` | src/index.js:13-89 | A caller from configured ASN 12345 asking "hello" of a fresh store gets 200, a completion with `finish_reason` "stop", and a counter of 1. |

## Left out

- Transport in `forwardRequest`: URL rebuilding, `new Request` and `fetch`. A relayed request is `Proxied(upstream)`, naming only the base URL.
- The request to the cat-fact service and its JSON decoding. Their outcome is an input: a fetched `fact` (or none, which reads as `undefined`), a non-OK status, or a thrown error.
- The artificial delay (`sleep`, `setTimeout`) and the `Math.random()` draw it consumes. Only timing depends on them.
- `Math.random()` and `Date.now()`. They are inputs, one named draw per call that shapes the response. `Date.now()` is taken to be non-negative.
- `ctx.waitUntil` and concurrent requests. The counter write happens atomically when a request is admitted, so lost updates between racing requests are not modelled.
- TTL timing. There is no clock; `RateLimiter.Expire` reaps a key when the store decides to.
- `JSON.parse` of the configuration and of the body. Their results are inputs. Configuration fields of a non-array type are not modelled: the fields are either absent or typed lists.
- `parseInt` on stored strings. Stored counters are naturals.
- Logging (`console.log`, `console.error`).
- Floating point: `Math.random() * n` is an exact product of reals. The rounding of the binary64 product, which moves a few draws to the next index (for `n` = 62 the draw 0.12903225806451613 gives 8 in JavaScript and 7 here), is not modelled. Every index stays below `n` either way, and for `n` = 2 the product is exact.
- Lone surrogates: Dafny strings are sequences of Unicode scalar values, while JavaScript strings may hold unpaired UTF-16 surrogates (`JSON.parse` accepts `"\ud800"`). Bodies, fact texts and configurations holding them are not representable; on well-formed strings `Contains` and `Utf16Length` agree with `includes` and `.length`.
- Headers: `Headers.get` case-insensitivity and the parsing of `request.url`. The request carries its path, method, IP, User-Agent, ASN and body directly.
- JavaScript's `||` on configuration fields. A present field is kept even when it is an empty list, as in JavaScript, since arrays are truthy. Other falsy values (`false`, `0`, `""`) in those fields are not modelled.

## Findings

| source | as written | input that shows it | evidently intended | confidence | as-written member | corrected member |
|---|---|---|---|---|---|---|
| src/index.js:29-37 | `JSON.parse` of `HONEYPOT_CONFIG` can return `null`. Line 37 then reads `config.malicious_uas` outside the `try` block and throws, so every protected request fails. | `HONEYPOT_CONFIG = "null"` | A null configuration falls back to the defaults like every other unusable one. | medium, not executed | `Classifier.ConfigAsWritten` (shown by `Classifier.NullConfigThrows`) | `Classifier.ResolveConfig` |
