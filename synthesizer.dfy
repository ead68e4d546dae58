/**
 * The synthetic chat completions the honeypot answers with
 * (src/index.js, lines 72-84 and 123-185): a random `chatcmpl-` id,
 * three response builders and the rule that picks one of them.
 *
 * Every `Math.random()` call is a draw in [0, 1) supplied by the caller, and
 * `Date.now()` is the number of milliseconds `nowMs`.
 */
module Synthesizer {
  import opened Wrappers
  import opened Text

  /** A value `Math.random()` can return. */
  predicate Unit(d: real)
  {
    0.0 <= d < 1.0
  }

  predicate UnitDraws(draws: seq<real>)
  {
    forall i :: 0 <= i < |draws| ==> Unit(draws[i])
  }

  /** `Math.floor(Math.random() * n)`: an index below `n`. */
  function RandomIndex(d: real, n: nat): (k: nat)
    requires Unit(d) && n > 0
    ensures k < n
  {
    ScaledDrawBelow(d, n);
    (d * (n as real)).Floor
  }

  /** A draw scaled by `n` stays in [0, n). */
  lemma {:induction false} ScaledDrawBelow(d: real, n: nat)
    requires Unit(d) && n > 0
    ensures 0.0 <= d * (n as real) < n as real
  {
    if n > 1 {
      ScaledDrawBelow(d, n - 1);
      assert d * (n as real) == d * ((n - 1) as real) + d;
    }
  }

  /** With two alternatives, the lower half of [0, 1) picks the first and the upper half the second. */
  lemma RandomIndexOfTwo(d: real)
    requires Unit(d)
    ensures RandomIndex(d, 2) == 0 <==> d < 0.5
  {
  }

  predicate IsAsciiAlphanumeric(c: char)
  {
    'A' <= c <= 'Z' || 'a' <= c <= 'z' || '0' <= c <= '9'
  }

  /** The `count` consecutive ASCII characters starting at `first`. */
  function CharRange(first: char, count: nat): (r: string)
    requires first as int + count <= 128
    ensures |r| == count
    ensures forall i :: 0 <= i < count ==> r[i] as int == first as int + i
  {
    seq(count, i requires 0 <= i < count => (first as int + i) as char)
  }

  /** The characters a random id is drawn from: A-Z, then a-z, then 0-9. */
  const Alphabet: string := CharRange('A', 26) + CharRange('a', 26) + CharRange('0', 10)

  /** The alphabet has 62 characters: exactly the ASCII letters and digits. */
  lemma AlphabetIsAlphanumeric()
    ensures |Alphabet| == 62
    ensures forall c :: c in Alphabet <==> IsAsciiAlphanumeric(c)
  {
    var upper, lower, digits := CharRange('A', 26), CharRange('a', 26), CharRange('0', 10);
    forall c | IsAsciiAlphanumeric(c)
      ensures c in Alphabet
    {
      if 'A' <= c <= 'Z' {
        assert upper[c as int - 'A' as int] == c;
      } else if 'a' <= c <= 'z' {
        assert lower[c as int - 'a' as int] == c;
      } else {
        assert digits[c as int - '0' as int] == c;
      }
    }
  }

  /** The string `generateRandomString` builds from its draws, one character per draw. */
  function RandomString(draws: seq<real>): (s: string)
    requires UnitDraws(draws)
    ensures |s| == |draws|
    ensures forall i :: 0 <= i < |s| ==> s[i] in Alphabet
  {
    seq(|draws|, i requires 0 <= i < |draws| => Alphabet[RandomIndex(draws[i], |Alphabet|)])
  }

  /** `generateRandomString(length)`: appends one alphabet character per draw. */
  method GenerateRandomString(length: nat, draws: seq<real>) returns (result: string)
    requires |draws| == length && UnitDraws(draws)
    ensures result == RandomString(draws)
    ensures |result| == length && forall i :: 0 <= i < length ==> result[i] in Alphabet
  {
    result := "";
    var characters := Alphabet;
    var charactersLength := |characters|;
    for i := 0 to length
      invariant |result| == i
      invariant forall k :: 0 <= k < i ==> result[k] == characters[RandomIndex(draws[k], charactersLength)]
    {
      result := result + [characters[RandomIndex(draws[i], charactersLength)]];
    }
  }

  datatype Message = Message(role: string, content: string)
  datatype Choice = Choice(index: nat, message: Message, finishReason: string)
  datatype Usage = Usage(promptTokens: nat, completionTokens: nat, totalTokens: nat)

  /** The JSON body of a chat completion. */
  datatype ChatCompletion = ChatCompletion(
    id: string,
    kind: string,      // the JSON field `object`
    created: nat,
    model: string,
    choices: seq<Choice>,
    usage: Usage)

  const IdPrefix := "chatcmpl-"
  const IdLength: nat := 29
  const ModelName := "o3-pro-2025-06-10"

  /** Draws enough for one id. */
  predicate IdDraws(draws: seq<real>)
  {
    |draws| == IdLength && UnitDraws(draws)
  }

  /**
   * The envelope every synthetic response shares: a `chatcmpl-` id of 29
   * alphanumeric characters, one assistant choice that finished with
   * "stop", and a total that is the sum of the two token counts.
   */
  predicate WellFormed(r: ChatCompletion)
  {
    && |r.id| == |IdPrefix| + IdLength
    && r.id[..|IdPrefix|] == IdPrefix
    && (forall i :: |IdPrefix| <= i < |r.id| ==> r.id[i] in Alphabet)
    && r.kind == "chat.completion"
    && r.model == ModelName
    && |r.choices| == 1
    && r.choices[0].index == 0
    && r.choices[0].message.role == "assistant"
    && r.choices[0].finishReason == "stop"
    && r.usage.totalTokens == r.usage.promptTokens + r.usage.completionTokens
  }

  function ContentOf(r: ChatCompletion): string
    requires |r.choices| > 0
  {
    r.choices[0].message.content
  }

  /** The record literal the three builders share. */
  function Envelope(idDraws: seq<real>, nowMs: nat, content: string, usage: Usage): (r: ChatCompletion)
    requires IdDraws(idDraws)
    requires usage.totalTokens == usage.promptTokens + usage.completionTokens
    ensures WellFormed(r)
    ensures ContentOf(r) == content && r.usage == usage
    ensures r.created * 1000 <= nowMs < (r.created + 1) * 1000
  {
    var suffix := RandomString(idDraws);
    var id := IdPrefix + suffix;
    assert forall i :: |IdPrefix| <= i < |id| ==> id[i] == suffix[i - |IdPrefix|];
    ChatCompletion(
      id, "chat.completion", nowMs / 1000, ModelName,
      [Choice(0, Message("assistant", content), "stop")],
      usage)
  }

  const IdentityAnswer := "我是 ChatGPT，一个由 OpenAI 训练的大型语言模型。可以用中文或其他语言回答问题、提供信息、交流想法，帮助你解决问题或完成任务。有什么我可以帮你的吗？"
  const StaticAnswer := "1. How the two systems work in Alaska’s reality\n\nGas boiler \n• Fuel: delivered propane or (in the few places that have it) piped natural gas. \n• Combustion efficiency: 75 – 80 % for an older unit, 88 – 95 % for a modern condensing boiler. \n\nElectric resistance heaters \n• Site efficiency: 100 % (every kWh arriving at the meter becomes heat). \n• Whole-cycle efficiency: falls to 25–35 % once the diesel generation and 6-10 % line losses typical of rural micro-grids are included... [Content truncated for brevity]"

  /** `createWhoAreYouResponse`: the identity deflection with usage 8 + 63 = 71. */
  function WhoAreYouResponse(idDraws: seq<real>, nowMs: nat): (r: ChatCompletion)
    requires IdDraws(idDraws)
    ensures WellFormed(r)
    ensures ContentOf(r) == IdentityAnswer && r.usage == Usage(8, 63, 71)
  {
    Envelope(idDraws, nowMs, IdentityAnswer, Usage(8, 63, 71))
  }

  /** `createDefaultHoneypotResponse`: the static long answer with usage 125 + 2541. */
  function DefaultHoneypotResponse(idDraws: seq<real>, nowMs: nat): (r: ChatCompletion)
    requires IdDraws(idDraws)
    ensures WellFormed(r)
    ensures ContentOf(r) == StaticAnswer && r.usage == Usage(125, 2541, 2666)
  {
    var promptTokens := 125;
    var completionTokens := 2541;
    Envelope(idDraws, nowMs, StaticAnswer, Usage(promptTokens, completionTokens, promptTokens + completionTokens))
  }

  /**
   * The outcome of the request to the cat-fact service: a successful JSON
   * body with its `fact` field (absent reads as `undefined`), a non-OK
   * status, or a thrown error (network failure or a body that is not JSON).
   */
  datatype FactFetch = Fetched(fact: Option<string>) | NotOk | Unreachable

  const FactSuffix := "\n\n(This information is provided for entertainment purposes.)"
  const CheetahFallback := "The cheetah is the only cat that can't retract its claws."
  const ToesFallback := "Cats have five toes on their front paws, but only four toes on their back paws."

  /** The content of the fact responder: the fetched fact with a disclaimer, or one of two fixed sentences. */
  function FactContent(f: FactFetch): (content: string)
    ensures f.Fetched? ==> |content| >= |FactSuffix| && content[|content| - |FactSuffix|..] == FactSuffix
    ensures f.Fetched? && f.fact.Some? ==>
              |content| == |f.fact.value| + |FactSuffix| && content[..|f.fact.value|] == f.fact.value
    ensures !f.Fetched? ==> content == CheetahFallback || content == ToesFallback
    ensures f.NotOk? ==> content == CheetahFallback
    ensures f.Unreachable? ==> content == ToesFallback
    ensures f == Fetched(None) ==> content == "undefined" + FactSuffix
  {
    match f
    case Fetched(fact) =>
      var text := fact.GetOr("undefined");
      assert (text + FactSuffix)[..|text|] == text;
      text + FactSuffix
    case NotOk => CheetahFallback
    case Unreachable => ToesFallback
  }

  /**
   * `createDynamicCatFactResponse`: prompt tokens drawn from [10, 29] and
   * completion tokens twice the UTF-16 length of the content.
   */
  function DynamicCatFactResponse(fact: FactFetch, promptDraw: real, idDraws: seq<real>, nowMs: nat): (r: ChatCompletion)
    requires Unit(promptDraw) && IdDraws(idDraws)
    ensures WellFormed(r)
    ensures ContentOf(r) == FactContent(fact)
    ensures 10 <= r.usage.promptTokens <= 29
    ensures r.usage.completionTokens == 2 * Utf16Length(ContentOf(r))
  {
    var content := FactContent(fact);
    var promptTokens := RandomIndex(promptDraw, 20) + 10;
    var completionTokens := Utf16Length(content) * 2;
    Envelope(idDraws, nowMs, content, Usage(promptTokens, completionTokens, promptTokens + completionTokens))
  }

  /** The question that triggers the identity deflection ("who are you"). */
  const WhoAreYou := "你是谁"

  /**
   * `body?.messages?.[0]?.content`: missing somewhere along the chain, a
   * string, an array (each element a string or some other value), or any
   * other value.
   */
  datatype FirstContent =
    | NoContent
    | TextContent(text: string)
    | ListContent(items: seq<Option<string>>)
    | OtherContent

  /** The request body: `request.json()` throws, or it yields the first message's content. */
  datatype RequestBody = Unparsable | Json(first: FirstContent)

  datatype Probe = Asks | DoesNotAsk | Throws

  /**
   * `content?.includes("你是谁")`: substring search on a string, element
   * search on an array, `undefined` when the content is missing, and a
   * TypeError on any other value, which has no `includes` method.
   */
  function ProbeIdentity(c: FirstContent): (p: Probe)
    ensures p == Throws <==> c.OtherContent?
    ensures c.TextContent? ==> (p == Asks <==> exists i :: OccursAt(c.text, WhoAreYou, i))
    ensures c.ListContent? ==> (p == Asks <==> Some(WhoAreYou) in c.items)
    ensures c.NoContent? ==> p == DoesNotAsk
  {
    match c
    case NoContent => DoesNotAsk
    case TextContent(t) =>
      ContainsIffOccurs(t, WhoAreYou);
      if Contains(t, WhoAreYou) then Asks else DoesNotAsk
    case ListContent(items) => if Some(WhoAreYou) in items then Asks else DoesNotAsk
    case OtherContent => Throws
  }

  /**
   * The choice of lines 72-84: the identity answer when asked, otherwise the
   * pick of the fact or the static responder; any exception (an unparsable
   * body, or content without `includes`) falls back to the fact responder.
   */
  function Synthesize(body: RequestBody, fact: FactFetch, pickDraw: real, promptDraw: real, idDraws: seq<real>, nowMs: nat): (r: ChatCompletion)
    requires Unit(pickDraw) && Unit(promptDraw) && IdDraws(idDraws)
    ensures WellFormed(r)
  {
    match body
    case Unparsable => DynamicCatFactResponse(fact, promptDraw, idDraws, nowMs)
    case Json(c) =>
      match ProbeIdentity(c)
      case Asks => WhoAreYouResponse(idDraws, nowMs)
      case Throws => DynamicCatFactResponse(fact, promptDraw, idDraws, nowMs)
      case DoesNotAsk =>
        var chosen := RandomIndex(pickDraw, 2);
        if chosen == 0 then DynamicCatFactResponse(fact, promptDraw, idDraws, nowMs)
        else DefaultHoneypotResponse(idDraws, nowMs)
  }

  /**
   * A first message that asks "你是谁" (as a substring of a string, or as an
   * element of an array) always gets the identity answer with usage
   * (8, 63, 71), whatever the draws.
   */
  lemma IdentityQuestionDeflected(c: FirstContent, fact: FactFetch, pickDraw: real, promptDraw: real, idDraws: seq<real>, nowMs: nat)
    requires Unit(pickDraw) && Unit(promptDraw) && IdDraws(idDraws)
    requires ProbeIdentity(c) == Asks
    ensures var r := Synthesize(Json(c), fact, pickDraw, promptDraw, idDraws, nowMs);
            ContentOf(r) == IdentityAnswer && r.usage == Usage(8, 63, 71)
  {
  }

  /** An unparsable body, or content that is neither missing, a string nor an array, gets the fact responder. */
  lemma ExceptionFallsBackToFact(body: RequestBody, fact: FactFetch, pickDraw: real, promptDraw: real, idDraws: seq<real>, nowMs: nat)
    requires Unit(pickDraw) && Unit(promptDraw) && IdDraws(idDraws)
    requires body.Unparsable? || body.first.OtherContent?
    ensures Synthesize(body, fact, pickDraw, promptDraw, idDraws, nowMs) == DynamicCatFactResponse(fact, promptDraw, idDraws, nowMs)
  {
    if body.Json? {
      assert ProbeIdentity(body.first) == Throws;
    }
  }

  /** Otherwise a draw below one half picks the fact responder and the rest the static one. */
  lemma RandomPick(c: FirstContent, fact: FactFetch, pickDraw: real, promptDraw: real, idDraws: seq<real>, nowMs: nat)
    requires Unit(pickDraw) && Unit(promptDraw) && IdDraws(idDraws)
    requires ProbeIdentity(c) == DoesNotAsk
    ensures Synthesize(Json(c), fact, pickDraw, promptDraw, idDraws, nowMs) ==
            if pickDraw < 0.5 then DynamicCatFactResponse(fact, promptDraw, idDraws, nowMs)
            else DefaultHoneypotResponse(idDraws, nowMs)
  {
    RandomIndexOfTwo(pickDraw);
  }

  /** Whatever the fact service does, the fact responder answers; without a fetched fact it uses a fixed sentence. */
  lemma FactServiceDownStillAnswers(fact: FactFetch, promptDraw: real, idDraws: seq<real>, nowMs: nat)
    requires Unit(promptDraw) && IdDraws(idDraws)
    requires !fact.Fetched?
    ensures var r := DynamicCatFactResponse(fact, promptDraw, idDraws, nowMs);
            WellFormed(r) && (ContentOf(r) == CheetahFallback || ContentOf(r) == ToesFallback)
  {
  }
}
