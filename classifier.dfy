/**
 * The honeypot configuration and the request classifier: which user-agent
 * substrings and which autonomous-system numbers mark a caller as a
 * malicious bot (src/index.js, lines 25-45).
 */
module Classifier {
  import opened Wrappers
  import opened Text

  /** The two optional fields of the configuration object. */
  datatype ConfigFields = ConfigFields(maliciousUas: Option<seq<string>>, maliciousAsns: Option<seq<int>>)

  /** What `JSON.parse` made of the configuration text. */
  datatype ConfigValue =
    | NullValue                    // the text was `null`
    | Record(fields: ConfigFields) // an object
    | OtherValue                   // a number, string, boolean or array: it has neither field

  datatype ParseResult = ParseError | Parsed(value: ConfigValue)

  /**
   * The environment variable HONEYPOT_CONFIG. `JsonText` carries the string and
   * what `JSON.parse` returns for it; `Unset` is every value that is neither
   * a string nor a non-null object (so, undefined).
   */
  datatype ConfigSource =
    | Unset
    | JsonText(text: string, parsed: ParseResult)
    | Object(fields: ConfigFields)

  /** The configuration the classifier uses once defaults are applied. */
  datatype Config = Config(uas: seq<string>, asns: seq<int>)

  const DefaultUas: seq<string> := ["Go-http-client"]
  const NoFields := ConfigFields(None, None)
  const DefaultConfig := Config(DefaultUas, [])

  /**
   * The value of `config` once the try block is done: `{}` unless a
   * non-empty string parsed or an object was supplied; a parse error
   * is swallowed and leaves `{}`.
   */
  function Loaded(src: ConfigSource): (v: ConfigValue)
    ensures v == NullValue <==> src.JsonText? && src.text != "" && src.parsed == Parsed(NullValue)
    ensures src.Unset? || (src.JsonText? && (src.text == "" || src.parsed.ParseError?)) ==> v == Record(NoFields)
  {
    match src
    case Unset => Record(NoFields)
    case JsonText(t, p) =>
      if t == "" then Record(NoFields)
      else if p.ParseError? then Record(NoFields)
      else p.value
    case Object(f) => Record(f)
  }

  /** `config.malicious_uas || [...]` and `config.malicious_asns || []` on an object. */
  function WithDefaults(f: ConfigFields): (c: Config)
    ensures f.maliciousUas.None? ==> c.uas == DefaultUas
    ensures f.maliciousUas.Some? ==> c.uas == f.maliciousUas.value
    ensures f.maliciousAsns.None? ==> c.asns == []
    ensures f.maliciousAsns.Some? ==> c.asns == f.maliciousAsns.value
  {
    Config(f.maliciousUas.GetOr(DefaultUas), f.maliciousAsns.GetOr([]))
  }

  /**
   * Lines 26-38 as written: reading a field of a `null` config throws
   * outside the try block, so there is no configuration (None) and the
   * request fails with a runtime error.
   */
  function ConfigAsWritten(src: ConfigSource): (r: Option<Config>)
    ensures r.None? <==> src.JsonText? && src.text != "" && src.parsed == Parsed(NullValue)
  {
    match Loaded(src)
    case NullValue => None
    case Record(f) => Some(WithDefaults(f))
    case OtherValue => Some(DefaultConfig)
  }

  /** The configuration text `null` makes the as-written code throw. */
  lemma NullConfigThrows()
    ensures ConfigAsWritten(JsonText("null", Parsed(NullValue))).None?
  {
  }

  /**
   * The configuration the rest of the model uses: as written, except that a
   * `null` configuration falls back to the defaults like every other
   * unusable one.
   */
  function ResolveConfig(src: ConfigSource): (c: Config)
    ensures ConfigAsWritten(src).Some? ==> c == ConfigAsWritten(src).value
    ensures ConfigAsWritten(src).None? ==> c == DefaultConfig
  {
    match Loaded(src)
    case Record(f) => WithDefaults(f)
    case _ => DefaultConfig
  }

  /**
   * Absent, empty, malformed, null or non-object configuration all give the
   * defaults: the single user-agent "Go-http-client" and no ASN.
   */
  lemma UnusableConfigGivesDefaults(src: ConfigSource)
    requires !Loaded(src).Record?
             || src.Unset?
             || (src.JsonText? && (src.text == "" || src.parsed.ParseError?))
    ensures ResolveConfig(src) == DefaultConfig
  {
  }

  /** A supplied object keeps each field it has and defaults each it lacks. */
  lemma SuppliedFieldsWin(src: ConfigSource, f: ConfigFields)
    requires src == Object(f) || (src.JsonText? && src.text != "" && src.parsed == Parsed(Record(f)))
    ensures ResolveConfig(src) == WithDefaults(f)
  {
  }

  /** `uas.some(ua => userAgent.includes(ua))`, scanning from the first entry. */
  function AnyContained(uas: seq<string>, userAgent: string): (r: bool)
    ensures r ==> uas != []
    ensures "" in uas ==> r
    ensures userAgent in uas ==> r
  {
    if uas == [] then false
    else Contains(userAgent, uas[0]) || AnyContained(uas[1..], userAgent)
  }

  /** `some` holds exactly when one entry is contained in the user agent. */
  lemma {:induction false} AnyContainedIff(uas: seq<string>, userAgent: string)
    ensures AnyContained(uas, userAgent) <==> exists k :: 0 <= k < |uas| && Contains(userAgent, uas[k])
  {
    if uas != [] {
      AnyContainedIff(uas[1..], userAgent);
      assert forall k :: 1 <= k < |uas| ==> uas[k] == uas[1..][k - 1];
      if exists k :: 0 <= k < |uas| && Contains(userAgent, uas[k]) {
        var k :| 0 <= k < |uas| && Contains(userAgent, uas[k]);
        if k > 0 {
          assert Contains(userAgent, uas[1..][k - 1]);
        }
      }
    }
  }

  /** `request.headers.get('User-Agent') || ''`. */
  function UserAgentOf(header: Option<string>): (ua: string)
    ensures header.None? ==> ua == ""
    ensures header.Some? ==> ua == header.value
  {
    header.GetOr("")
  }

  /** The verdict of lines 43-45: a malicious user agent or a malicious ASN. */
  predicate IsMalicious(userAgent: string, asn: int, cfg: Config)
    ensures asn in cfg.asns ==> IsMalicious(userAgent, asn, cfg)
    ensures cfg.uas == [] ==> (IsMalicious(userAgent, asn, cfg) <==> asn in cfg.asns)
    ensures userAgent in cfg.uas ==> IsMalicious(userAgent, asn, cfg)
  {
    AnyContained(cfg.uas, userAgent) || asn in cfg.asns
  }

  /**
   * The verdict is malicious exactly when some configured substring occurs
   * somewhere in the user agent, or the ASN is one of the configured ones.
   */
  lemma VerdictIff(userAgent: string, asn: int, cfg: Config)
    ensures IsMalicious(userAgent, asn, cfg) <==>
              (exists k, i :: 0 <= k < |cfg.uas| && OccursAt(userAgent, cfg.uas[k], i))
              || (exists j :: 0 <= j < |cfg.asns| && cfg.asns[j] == asn)
  {
    AnyContainedIff(cfg.uas, userAgent);
    forall k | 0 <= k < |cfg.uas| {
      ContainsIffOccurs(userAgent, cfg.uas[k]);
    }
  }

  /** An empty entry in the user-agent list condemns every request. */
  lemma EmptyEntryMatchesAll(userAgent: string, asn: int, cfg: Config)
    requires "" in cfg.uas
    ensures IsMalicious(userAgent, asn, cfg)
  {
    var k :| 0 <= k < |cfg.uas| && cfg.uas[k] == "";
    ContainsSelfAndEmpty(userAgent);
    AnyContainedIff(cfg.uas, userAgent);
  }

  /**
   * A request without a User-Agent header is classified on its ASN alone,
   * unless the list holds the empty string.
   */
  lemma MissingUserAgent(asn: int, cfg: Config)
    ensures IsMalicious(UserAgentOf(None), asn, cfg) <==> "" in cfg.uas || asn in cfg.asns
  {
    AnyContainedIff(cfg.uas, "");
    if exists k :: 0 <= k < |cfg.uas| && Contains("", cfg.uas[k]) {
      var k :| 0 <= k < |cfg.uas| && Contains("", cfg.uas[k]);
      assert cfg.uas[k] == "";
    }
    if "" in cfg.uas {
      var k :| 0 <= k < |cfg.uas| && cfg.uas[k] == "";
      assert Contains("", cfg.uas[k]);
    }
  }

  /** Under the defaults, exactly the user agents containing "Go-http-client" are condemned. */
  lemma DefaultVerdict(userAgent: string, asn: int)
    ensures IsMalicious(userAgent, asn, DefaultConfig) <==> Contains(userAgent, "Go-http-client")
  {
    assert DefaultUas[1..] == [] && DefaultUas[0] == "Go-http-client";
    assert !AnyContained(DefaultUas[1..], userAgent);
  }
}
