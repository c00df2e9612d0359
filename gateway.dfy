/**
 * The partner response gateway (services/geminiService.ts): what
 * `getPartnerResponse` makes of the remote model's outcome. The remote call
 * itself is an input (`RemoteOutcome`), `JSON.parse` is an abstract partial
 * function passed in, and `Math.random` is an index into the stock pool.
 */
module Gateway {
  import opened Types

  /**
   * What `getPartnerResponse` resolves to. `irritationIncrement` is None when
   * the parsed object carries no usable number for it.
   */
  datatype PartnerReply = PartnerReply(reply: string, irritationIncrement: Option<int>)

  /**
   * How the remote generation call ended: it produced a response whose
   * `text` may be absent, or it threw an error whose `message` may be absent.
   */
  datatype RemoteOutcome = Generated(text: Option<string>) | Failed(message: Option<string>)

  /** How the promise returned by `getPartnerResponse` settles. */
  datatype Response = Resolved(result: PartnerReply) | Rejected(message: string)

  /** The stock lines used when the remote call fails. */
  const TripPool: seq<string> := [
    "Şu an konuşasım yok gerçekten.",
    "Peki, öyle olsun bakalım.",
    "Her zamanki halin, şaşırmadım.",
    "Yazmasan da olurdu sanki.",
    "Anladım, işin benden daha önemli tabii.",
    "Tamam, sen haklısın (değilsin).",
    "Hıhı, kesin öyledir.",
    "Neyse, ben kaçtım.",
    "Görüldü mü atsam acaba?",
    "Sana söyleyecek söz bulamıyorum artık.",
    "İyi, güzel, harika. Başka?",
    "Bana masal anlatma artık.",
    "Gerçekten inanmamı mı bekliyorsun?",
    "Tamam.",
    "Peki.",
    "Öyle mi?",
    "Vay be, demek böyle olduk..."
  ]

  const ApiKeyMissing := "API_KEY_MISSING"
  const ApiKeyNotFound := "API_KEY_NOT_FOUND"
  /** The remote error text that is turned into `API_KEY_NOT_FOUND`. */
  const NotFoundMarker := "Requested entity was not found"
  /** Longest raw text kept as a reply when parsing fails. */
  const MaxRawReply := 100
  const RawTextIncrement := 5
  const PoolIncrement := 3

  // ---------------------------------------------------------------------------
  // String.prototype.trim

  /** The characters JavaScript's `trim` removes: WhiteSpace and LineTerminator. */
  predicate IsWhitespace(c: char) {
    c in {'\t', '\n', '\U{000B}', '\U{000C}', '\r', ' ', '\U{00A0}', '\U{1680}',
          '\U{2000}', '\U{2001}', '\U{2002}', '\U{2003}', '\U{2004}', '\U{2005}', '\U{2006}',
          '\U{2007}', '\U{2008}', '\U{2009}', '\U{200A}', '\U{2028}', '\U{2029}', '\U{202F}',
          '\U{205F}', '\U{3000}', '\U{FEFF}'}
  }

  predicate AllWhitespace(s: string) {
    forall k :: 0 <= k < |s| ==> IsWhitespace(s[k])
  }

  /** Drops the leading whitespace. */
  function TrimStart(s: string): string {
    if |s| > 0 && IsWhitespace(s[0]) then TrimStart(s[1..]) else s
  }

  /** Drops the trailing whitespace. */
  function TrimEnd(s: string): string {
    if |s| > 0 && IsWhitespace(s[|s| - 1]) then TrimEnd(s[..|s| - 1]) else s
  }

  /** `s.trim()`. */
  function Trim(s: string): string {
    TrimEnd(TrimStart(s))
  }

  /** `TrimStart` keeps the suffix that starts at the first non-whitespace character. */
  lemma {:induction false} TrimStartSpec(s: string)
    ensures |TrimStart(s)| <= |s| && TrimStart(s) == s[|s| - |TrimStart(s)|..]
    ensures AllWhitespace(s[..|s| - |TrimStart(s)|])
    ensures TrimStart(s) == [] || !IsWhitespace(TrimStart(s)[0])
  {
    if |s| > 0 && IsWhitespace(s[0]) {
      TrimStartSpec(s[1..]);
      var n := |s| - |TrimStart(s)|;
      assert s[..n] == [s[0]] + s[1..][..n - 1];
    }
  }

  /** `TrimEnd` keeps the prefix that ends at the last non-whitespace character. */
  lemma {:induction false} TrimEndSpec(s: string)
    ensures |TrimEnd(s)| <= |s| && TrimEnd(s) == s[..|TrimEnd(s)|]
    ensures AllWhitespace(s[|TrimEnd(s)|..])
    ensures TrimEnd(s) == [] || !IsWhitespace(TrimEnd(s)[|TrimEnd(s)| - 1])
  {
    if |s| > 0 && IsWhitespace(s[|s| - 1]) {
      TrimEndSpec(s[..|s| - 1]);
      var n := |TrimEnd(s)|;
      assert s[n..] == s[..|s| - 1][n..] + [s[|s| - 1]];
    }
  }

  /**
   * `s.trim()` is the slice of `s` left after removing whitespace at both
   * ends: what was removed is all whitespace, and the slice neither starts
   * nor ends with any.
   */
  lemma TrimSpec(s: string)
    ensures exists i, j :: 0 <= i <= j <= |s| && Trim(s) == s[i..j]
                           && AllWhitespace(s[..i]) && AllWhitespace(s[j..])
    ensures Trim(s) == [] || (!IsWhitespace(Trim(s)[0]) && !IsWhitespace(Trim(s)[|Trim(s)| - 1]))
  {
    var t := TrimStart(s);
    TrimStartSpec(s);
    TrimEndSpec(t);
    var r := TrimEnd(t);
    var i := |s| - |t|;
    assert r == s[i..i + |r|] && s[i + |r|..] == t[|r|..];
  }

  /** A text that neither starts nor ends with whitespace is left as it is. */
  lemma TrimKeepsBareText(s: string)
    requires s == [] || (!IsWhitespace(s[0]) && !IsWhitespace(s[|s| - 1]))
    ensures Trim(s) == s
  {
    assert TrimStart(s) == s;
  }

  // ---------------------------------------------------------------------------
  // The greedy match of /\{[\s\S]*\}/

  /** Index of the first `c` in `s`, or |s| when there is none. */
  function FirstIndexOf(s: string, c: char): (r: nat)
    ensures r <= |s|
    ensures r < |s| ==> s[r] == c
    ensures forall k :: 0 <= k < r ==> s[k] != c
  {
    if |s| == 0 then 0
    else if s[0] == c then 0
    else 1 + FirstIndexOf(s[1..], c)
  }

  /** Index of the last `c` in `s`, or -1 when there is none. */
  function LastIndexOf(s: string, c: char): (r: int)
    ensures -1 <= r < |s|
    ensures 0 <= r ==> s[r] == c
    ensures forall k :: r < k < |s| ==> s[k] != c
  {
    if |s| == 0 then -1
    else if s[|s| - 1] == c then |s| - 1
    else LastIndexOf(s[..|s| - 1], c)
  }

  /**
   * `text.match(/\{[\s\S]*\}/)`. The leftmost match starts at the first `{`
   * that has a `}` after it, which is the first `{` of all, and the greedy
   * `[\s\S]*` runs it to the last `}`. There is a match exactly when some `{`
   * comes before some `}`.
   */
  function JsonMatch(text: string): (m: Option<string>)
    ensures m.Some? <==> exists i, j :: 0 <= i < j < |text| && text[i] == '{' && text[j] == '}'
    ensures m.Some? ==> exists i, j :: 0 <= i < j < |text| && m.value == text[i..j + 1]
                                       && text[i] == '{' && text[j] == '}'
                                       && (forall k :: 0 <= k < i ==> text[k] != '{')
                                       && (forall k :: j < k < |text| ==> text[k] != '}')
  {
    var i := FirstIndexOf(text, '{');
    var j := LastIndexOf(text, '}');
    if i < j then Some(text[i..j + 1]) else None
  }

  /** `jsonMatch ? jsonMatch[0] : text`: what is handed to `JSON.parse`. */
  function JsonCandidate(text: string): string {
    JsonMatch(text).GetOr(text)
  }

  /**
   * The parse-failure fallback: the first 100 characters of the whole trimmed
   * text (not of the extracted slice) with increment 5.
   */
  function RawTextReply(text: string): (r: PartnerReply)
    ensures r.irritationIncrement == Some(RawTextIncrement)
    ensures |r.reply| <= MaxRawReply && r.reply <= text
    ensures |text| <= MaxRawReply ==> r.reply == text
    ensures |text| > MaxRawReply ==> |r.reply| == MaxRawReply
  {
    PartnerReply(if |text| > MaxRawReply then text[..MaxRawReply] else text, Some(RawTextIncrement))
  }

  /** The inner try: `JSON.parse(jsonStr)`, or the raw-text fallback when it throws. */
  function ParseOrFallback(text: string, parse: string -> Option<PartnerReply>): PartnerReply {
    match parse(JsonCandidate(text))
    case Some(parsed) => parsed
    case None => RawTextReply(text)
  }

  /** `response.text?.trim() || ""`: an absent text counts as empty. */
  function ResponseText(text: Option<string>): string {
    Trim(text.GetOr(""))
  }

  // ---------------------------------------------------------------------------
  // The outer catch

  /** `hay.includes(needle)`. */
  function Contains(hay: string, needle: string): (b: bool)
    ensures b ==> |needle| <= |hay|
    decreases |hay|
  {
    if |needle| <= |hay| && hay[..|needle|] == needle then true
    else if |hay| == 0 then false
    else Contains(hay[1..], needle)
  }

  ghost predicate OccursAt(hay: string, needle: string, i: int) {
    0 <= i && i + |needle| <= |hay| && hay[i..i + |needle|] == needle
  }

  /** `Contains` holds exactly when the needle occurs at some position. */
  lemma {:induction false} ContainsIff(hay: string, needle: string)
    ensures Contains(hay, needle) <==> exists i :: OccursAt(hay, needle, i)
    decreases |hay|
  {
    if |needle| <= |hay| && hay[..|needle|] == needle {
      assert OccursAt(hay, needle, 0);
    } else if |hay| == 0 {
    } else {
      ContainsIff(hay[1..], needle);
      if Contains(hay[1..], needle) {
        var i :| OccursAt(hay[1..], needle, i);
        assert hay[1..][i..i + |needle|] == hay[i + 1..i + 1 + |needle|];
        assert OccursAt(hay, needle, i + 1);
      } else if exists i :: OccursAt(hay, needle, i) {
        var i :| OccursAt(hay, needle, i);
        assert i != 0;
        assert hay[1..][i - 1..i - 1 + |needle|] == hay[i..i + |needle|];
        assert OccursAt(hay[1..], needle, i - 1);
        assert false;
      }
    }
  }

  /** `error?.message?.includes("Requested entity was not found")`. */
  predicate MentionsNotFound(message: Option<string>) {
    message.Some? && Contains(message.value, NotFoundMarker)
  }

  /** `TRIP_POOL[Math.floor(Math.random() * TRIP_POOL.length)]` with increment 3. */
  function PoolReply(pick: nat): (r: PartnerReply)
    requires pick < |TripPool|
    ensures r.reply in TripPool && r.irritationIncrement == Some(PoolIncrement)
  {
    PartnerReply(TripPool[pick], Some(PoolIncrement))
  }

  /** The key check passes for a non-empty key (`!apiKey` is false). */
  predicate KeyConfigured(apiKey: Option<string>) {
    apiKey.Some? && apiKey.value != ""
  }

  /**
   * `getPartnerResponse`. The missing-key error is thrown inside the outer
   * `try`, so it meets the same catch as a remote failure: since its message
   * does not mention the not-found marker, it ends as a pool reply. The only
   * rejection is `API_KEY_NOT_FOUND`, for a remote error that mentions the
   * marker.
   */
  method GetPartnerResponse(apiKey: Option<string>, remote: RemoteOutcome,
                            parse: string -> Option<PartnerReply>, pick: nat)
    returns (r: Response)
    requires pick < |TripPool|
    ensures r.Rejected? <==> KeyConfigured(apiKey) && remote.Failed? && MentionsNotFound(remote.message)
    ensures r.Rejected? ==> r.message == ApiKeyNotFound
    ensures !KeyConfigured(apiKey) ==> r == Resolved(PoolReply(pick))
    ensures KeyConfigured(apiKey) && remote.Failed? && !MentionsNotFound(remote.message)
            ==> r == Resolved(PoolReply(pick))
    ensures KeyConfigured(apiKey) && remote.Generated?
            ==> r == Resolved(ParseOrFallback(ResponseText(remote.text), parse))
  {
    // The error reaching the outer catch, if any, by its message.
    var caught: Option<Option<string>> := None;
    var value := PartnerReply("", None);
    if !KeyConfigured(apiKey) {
      caught := Some(Some(ApiKeyMissing));
    } else {
      match remote
      case Failed(message) =>
        caught := Some(message);
      case Generated(body) =>
        var text := ResponseText(body);
        value := ParseOrFallback(text, parse);
    }
    if caught.Some? {
      if MentionsNotFound(caught.value) {
        return Rejected(ApiKeyNotFound);
      }
      return Resolved(PoolReply(pick));
    }
    return Resolved(value);
  }

  // ---------------------------------------------------------------------------
  // Properties

  /** The pool holds the 17 stock lines. */
  lemma PoolSize()
    ensures |TripPool| == 17
  {
  }

  /**
   * The candidate handed to `JSON.parse` is the slice from the first `{` to
   * the last `}` when some `{` precedes some `}`, and the whole text otherwise.
   */
  lemma CandidateIsOuterBraces(text: string)
    ensures (exists i, j :: 0 <= i < j < |text| && text[i] == '{' && text[j] == '}')
            ==> JsonCandidate(text) == text[FirstIndexOf(text, '{')..LastIndexOf(text, '}') + 1]
    ensures !(exists i, j :: 0 <= i < j < |text| && text[i] == '{' && text[j] == '}')
            ==> JsonCandidate(text) == text
  {
  }

  /**
   * When parsing fails the reply is a prefix of the whole trimmed text, at
   * most 100 characters long, the entire text when it is no longer than that,
   * and the increment is 5.
   */
  lemma ParseFailureFallsBack(text: string, parse: string -> Option<PartnerReply>)
    requires parse(JsonCandidate(text)).None?
    ensures ParseOrFallback(text, parse).reply <= text
    ensures |ParseOrFallback(text, parse).reply| <= MaxRawReply
    ensures |text| <= MaxRawReply ==> ParseOrFallback(text, parse).reply == text
    ensures ParseOrFallback(text, parse).irritationIncrement == Some(RawTextIncrement)
  {
  }

  /**
   * An absent or empty response text gives reply "" with increment 5, since
   * there is no match and `JSON.parse("")` throws.
   */
  lemma EmptyResponse(body: Option<string>, parse: string -> Option<PartnerReply>)
    requires body.None? || body.value == ""
    requires parse("").None?
    ensures ParseOrFallback(ResponseText(body), parse) == PartnerReply("", Some(RawTextIncrement))
  {
    assert ResponseText(body) == "";
  }

  /**
   * Prose around an embedded object is ignored: the text handed to the parser
   * is exactly the object.
   */
  lemma EmbeddedObjectExtracted(prefix: string, obj: string, suffix: string)
    requires |obj| >= 2 && obj[0] == '{' && obj[|obj| - 1] == '}'
    requires forall k :: 0 <= k < |prefix| ==> prefix[k] != '{'
    requires forall k :: 0 <= k < |suffix| ==> suffix[k] != '}'
    ensures JsonCandidate(prefix + obj + suffix) == obj
  {
    var text := prefix + obj + suffix;
    var i, j := |prefix|, |prefix| + |obj| - 1;
    assert text[i] == '{' && text[j] == '}';
    assert forall k :: 0 <= k < i ==> text[k] == prefix[k];
    assert forall k :: j < k < |text| ==> text[k] == suffix[k - j - 1];
    assert FirstIndexOf(text, '{') == i;
    assert LastIndexOf(text, '}') == j;
    assert text[i..j + 1] == obj;
  }

  /**
   * The reply embedded in `prefix-noise {...} trailing-noise` is the one the
   * parser reads from the object alone.
   */
  lemma NoisyObjectExample(parse: string -> Option<PartnerReply>)
    requires parse(ExampleObject) == Some(PartnerReply("Peki", Some(7)))
    ensures ParseOrFallback(NoisyText, parse) == PartnerReply("Peki", Some(7))
  {
    EmbeddedObjectExtracted("prefix-noise ", ExampleObject, " trailing-noise");
  }

  const ExampleObject := "{\"reply\":\"Peki\",\"irritationIncrement\":7}"
  const NoisyText := "prefix-noise " + ExampleObject + " trailing-noise"

  /**
   * The same text as the model's whole response, through the key check, the
   * trim, the extraction and the parse: the call resolves to Peki/7.
   */
  method NoisyResponseResolves(parse: string -> Option<PartnerReply>) returns (r: Response)
    requires parse(ExampleObject) == Some(PartnerReply("Peki", Some(7)))
    ensures r == Resolved(PartnerReply("Peki", Some(7)))
  {
    assert NoisyText[0] == 'p' && NoisyText[|NoisyText| - 1] == 'e';
    TrimKeepsBareText(NoisyText);
    NoisyObjectExample(parse);
    r := GetPartnerResponse(Some("k"), Generated(Some(NoisyText)), parse, 0);
  }

  /**
   * Two objects in one response are not told apart: the greedy match runs
   * from the first object's `{` to the second object's `}`, so `JSON.parse`
   * receives both together rather than the first one.
   */
  lemma TwoObjectsReadAsOne(first: string, second: string)
    requires first != [] && first[0] == '{'
    requires second != [] && second[|second| - 1] == '}'
    ensures JsonCandidate(first + " " + second) == first + " " + second
    ensures JsonCandidate(first + " " + second) != first
  {
    var text := first + " " + second;
    assert text[0] == '{' && text[|text| - 1] == '}';
    assert FirstIndexOf(text, '{') == 0;
    assert LastIndexOf(text, '}') == |text| - 1;
    assert text[0..|text|] == text;
  }

  /** The missing-key error can never be the one the gateway rethrows. */
  lemma MissingKeyIsNotRethrown()
    ensures !MentionsNotFound(Some(ApiKeyMissing))
  {
  }

  /** The message of a generic error that mentions the marker is recognised wherever the marker sits. */
  lemma NotFoundAnywhere(prefix: string, suffix: string)
    ensures MentionsNotFound(Some(prefix + NotFoundMarker + suffix))
  {
    var hay := prefix + NotFoundMarker + suffix;
    assert hay[|prefix|..|prefix| + |NotFoundMarker|] == NotFoundMarker;
    assert OccursAt(hay, NotFoundMarker, |prefix|);
    ContainsIff(hay, NotFoundMarker);
  }
}
