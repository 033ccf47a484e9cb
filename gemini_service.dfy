/** The service layer of services/geminiService.ts: the cache key hash, the
    clean-up of the model's JSON answer, URL normalisation, the CORS-proxy
    fallback, the article extractor's text selection and the cached analysis
    call. The language model, `fetch`, the HTML parser, `JSON.parse` and
    `localStorage` are not modelled; their answers are parameters. */
module GeminiService {
  import opened Wrappers
  import opened JsText
  import opened Types

  // ------------------------------------------------------------------ cache key

  const KEY_PREFIX := "wue_cache_v16_"
  const ARG_SEPARATOR := "|||"
  const ANALYSIS_PREFIX := "full_analysis_v16"

  /** The rolling 31-hash over the characters of `text`, kept in 32 bits
      after every step. */
  function HashOf(text: string): (h: int)
    ensures IsInt32(h)
  {
    if text == [] then 0
    else ToInt32(31 * HashOf(text[..|text| - 1]) + text[|text| - 1] as int)
  }

  function CacheKey(prefix: string, args: seq<string>): string {
    KEY_PREFIX + prefix + "_" + IntToDecimal(HashOf(Join(args, ARG_SEPARATOR)))
  }

  /** The loop of `generateCacheKey`: a shift by five minus the old hash plus
      the unit, cut back to 32 bits by `|= 0`. */
  method GenerateCacheKey(prefix: string, args: seq<string>) returns (key: string)
    ensures key == CacheKey(prefix, args)
  {
    var text := Join(args, ARG_SEPARATOR);
    var hash := 0;
    var i := 0;
    while i < |text|
      invariant 0 <= i <= |text|
      invariant hash == HashOf(text[..i])
    {
      var shifted := ToInt32(hash * 32);
      var next := shifted - hash + text[i] as int;
      ToInt32Congruent(next, 31 * hash + text[i] as int);
      hash := ToInt32(next);
      assert text[..i + 1][..i] == text[..i];
      i := i + 1;
    }
    assert text[..|text|] == text;
    key := KEY_PREFIX + prefix + "_" + IntToDecimal(hash);
  }

  /** The key is the fixed prefix, the caller's prefix and the decimal form of
      a signed 32-bit hash of the joined arguments. */
  lemma CacheKeyShape(prefix: string, args: seq<string>)
    ensures var h := HashOf(Join(args, ARG_SEPARATOR));
      IsInt32(h) && CacheKey(prefix, args) == KEY_PREFIX + prefix + "_" + IntToDecimal(h)
    ensures StartsWith(CacheKey(prefix, args), KEY_PREFIX + prefix + "_")
  {
    var p := KEY_PREFIX + prefix + "_";
    var k := CacheKey(prefix, args);
    assert k[..|p|] == p;
  }

  lemma IntToDecimalInjective(x: int, y: int)
    requires IntToDecimal(x) == IntToDecimal(y)
    ensures x == y
  {
    var dx, dy := IntToDecimal(x), IntToDecimal(y);
    SignChar(x);
    SignChar(y);
    if x < 0 && y < 0 {
      assert dx[1..] == NatToDecimal(-x);
      assert dy[1..] == NatToDecimal(-y);
      DigitsValueOfDecimal(-x);
      DigitsValueOfDecimal(-y);
    } else if x >= 0 && y >= 0 {
      assert dx == NatToDecimal(x) && dy == NatToDecimal(y);
      DigitsValueOfDecimal(x);
      DigitsValueOfDecimal(y);
    }
  }

  /** Only negative numbers print with a leading minus sign. */
  lemma SignChar(x: int)
    ensures |IntToDecimal(x)| > 0 && (IntToDecimal(x)[0] == '-' <==> x < 0)
  {
    if x >= 0 {
      assert IsDigit(NatToDecimal(x)[0]);
    }
  }

  /** Two keys with the same prefix are equal exactly when the hashes of the
      joined arguments are. */
  lemma CacheKeyIffHash(prefix: string, a: seq<string>, b: seq<string>)
    ensures CacheKey(prefix, a) == CacheKey(prefix, b) <==>
      HashOf(Join(a, ARG_SEPARATOR)) == HashOf(Join(b, ARG_SEPARATOR))
  {
    var p := KEY_PREFIX + prefix + "_";
    var da := IntToDecimal(HashOf(Join(a, ARG_SEPARATOR)));
    var db := IntToDecimal(HashOf(Join(b, ARG_SEPARATOR)));
    if CacheKey(prefix, a) == CacheKey(prefix, b) {
      assert (p + da)[|p|..] == da;
      assert (p + db)[|p|..] == db;
      IntToDecimalInjective(HashOf(Join(a, ARG_SEPARATOR)), HashOf(Join(b, ARG_SEPARATOR)));
    }
  }

  /** Arguments are joined before hashing, so a separator inside an argument
      is indistinguishable from an argument boundary: the article "a|||b"
      without a URL and the article "a" from the URL "b|||" share a key. */
  lemma SeparatorCollision(prefix: string)
    ensures CacheKey(prefix, ["a|||b", ""]) == CacheKey(prefix, ["a", "b|||"])
  {
    assert Join(["a|||b", ""], ARG_SEPARATOR) == "a|||b|||";
    assert Join(["a", "b|||"], ARG_SEPARATOR) == "a|||b|||";
  }

  // ------------------------------------------------------------------ cleanJson

  const FENCE_OPEN := "```json"
  const FENCE_CLOSE := "```"

  /** The two fence replacements: an opening fence with the white space after
      it, then a closing fence at the very end with the white space before it. */
  function StripFences(s: string): string {
    var a := if StartsWith(s, FENCE_OPEN) then TrimStart(s[|FENCE_OPEN|..]) else s;
    if EndsWith(a, FENCE_CLOSE) then TrimEnd(a[..|a| - |FENCE_CLOSE|]) else a
  }

  /** `cleanJson`: the text from the first `{` to the last `}` of the stripped
      answer, or the stripped answer when a brace is missing. `substring`
      swaps its bounds, so when the last `}` comes before the first `{` the
      text strictly between them is returned. */
  function CleanJson(text: string): string {
    CutBraces(StripFences(Trim(text)))
  }

  /** The brace step of `cleanJson` on the stripped text. */
  function CutBraces(c: string): string {
    var start, end := IndexOf(c, '{'), LastIndexOf(c, '}');
    if start != -1 && end != -1 then JsSubstring(c, start, end + 1) else c
  }

  /** The three outcomes of the brace step, each pinned down. */
  lemma CutBracesCases(c: string)
    ensures var start, end := IndexOf(c, '{'), LastIndexOf(c, '}');
      var r := CutBraces(c);
      (start == -1 || end == -1 ==> r == c) &&
      (0 <= start < end ==> r == c[start..end + 1] && r[0] == '{' && r[|r| - 1] == '}') &&
      (0 <= end < start ==> (r == c[end + 1..start] &&
        forall i :: 0 <= i < |r| ==> r[i] != '{' && r[i] != '}'))
  {
    var start, end := IndexOf(c, '{'), LastIndexOf(c, '}');
    if 0 <= start < end {
      CutBracesOrdered(c);
    } else if 0 <= end < start {
      CutBracesSwapped(c);
    }
  }

  lemma CutBracesOrdered(c: string)
    requires 0 <= IndexOf(c, '{') < LastIndexOf(c, '}')
    ensures var r, start, end := CutBraces(c), IndexOf(c, '{'), LastIndexOf(c, '}');
      r == c[start..end + 1] && r[0] == '{' && r[|r| - 1] == '}'
  {
  }

  lemma CutBracesSwapped(c: string)
    requires 0 <= LastIndexOf(c, '}') < IndexOf(c, '{')
    ensures var r, start, end := CutBraces(c), IndexOf(c, '{'), LastIndexOf(c, '}');
      r == c[end + 1..start] && forall i :: 0 <= i < |r| ==> r[i] != '{' && r[i] != '}'
  {
  }

  lemma CutBracesOfObject(r: string)
    requires |r| >= 2 && r[0] == '{' && r[|r| - 1] == '}'
    ensures CutBraces(r) == r
  {
    assert IndexOf(r, '{') == 0;
    assert LastIndexOf(r, '}') == |r| - 1;
    assert r[0..|r|] == r;
  }

  /** An object, from its `{` to its `}`, comes back unchanged. */
  lemma CleanJsonOfObject(r: string)
    requires |r| >= 2 && r[0] == '{' && r[|r| - 1] == '}'
    ensures CleanJson(r) == r
  {
    assert Trimmed(r);
    TrimOfTrimmed(r);
    assert !StartsWith(r, FENCE_OPEN) by { assert r[0] != FENCE_OPEN[0]; }
    assert !EndsWith(r, FENCE_CLOSE) by { assert r[|r| - 1] != FENCE_CLOSE[2]; }
    assert StripFences(r) == r;
    CutBracesOfObject(r);
  }

  /** The opening replacement removes the fence and the white space after it. */
  lemma StripOpenFence(w1: string, tail: string)
    requires AllSpace(w1) && |tail| > 0 && tail[0] == '{'
    ensures var s := FENCE_OPEN + (w1 + tail);
      StartsWith(s, FENCE_OPEN) && TrimStart(s[|FENCE_OPEN|..]) == tail
  {
    var s := FENCE_OPEN + (w1 + tail);
    assert s[..|FENCE_OPEN|] == FENCE_OPEN;
    assert s[|FENCE_OPEN|..] == w1 + tail;
    TrimStartSkipsSpace(w1, tail);
  }

  /** The closing replacement removes the fence and the white space before it. */
  lemma StripCloseFence(body: string, w2: string)
    requires AllSpace(w2) && |body| > 0 && body[|body| - 1] == '}'
    ensures var a := body + w2 + FENCE_CLOSE;
      EndsWith(a, FENCE_CLOSE) && TrimEnd(a[..|a| - |FENCE_CLOSE|]) == body
  {
    var a := body + w2 + FENCE_CLOSE;
    assert a[|a| - |FENCE_CLOSE|..] == FENCE_CLOSE;
    assert a[..|a| - |FENCE_CLOSE|] == body + w2;
    TrimEndSkipsSpace(body, w2);
  }

  lemma StripFencesOfFenced(w1: string, body: string, w2: string)
    requires AllSpace(w1) && AllSpace(w2)
    requires |body| >= 2 && body[0] == '{' && body[|body| - 1] == '}'
    ensures StripFences(FENCE_OPEN + w1 + body + w2 + FENCE_CLOSE) == body
  {
    var tail := body + w2 + FENCE_CLOSE;
    assert FENCE_OPEN + w1 + body + w2 + FENCE_CLOSE == FENCE_OPEN + (w1 + tail);
    StripOpenFence(w1, tail);
    StripCloseFence(body, w2);
  }

  lemma FencedTrimmed(w1: string, body: string, w2: string)
    ensures var s := FENCE_OPEN + w1 + body + w2 + FENCE_CLOSE; Trim(s) == s
  {
    var s := FENCE_OPEN + w1 + body + w2 + FENCE_CLOSE;
    assert s[0] == '`' && s[|s| - 1] == '`';
    TrimOfTrimmed(s);
  }

  /** A fenced object comes back unchanged: whatever white space surrounds
      the object and the fences, `cleanJson` returns exactly the object. */
  lemma CleanJsonOfFenced(s: string, w1: string, body: string, w2: string)
    requires s == FENCE_OPEN + w1 + body + w2 + FENCE_CLOSE
    requires AllSpace(w1) && AllSpace(w2)
    requires |body| >= 2 && body[0] == '{' && body[|body| - 1] == '}'
    ensures CleanJson(s) == body
  {
    StripFencesOfFenced(w1, body, w2);
    CutBracesOfObject(body);
    FencedTrimmed(w1, body, w2);
    CleanJsonSteps(s, body);
  }

  lemma CleanJsonSteps(s: string, r: string)
    requires Trim(s) == s && StripFences(s) == r && CutBraces(r) == r
    ensures CleanJson(s) == r
  {
  }

  /** Once `cleanJson` has cut out an object, cleaning again changes nothing. */
  lemma CleanJsonIdempotent(text: string)
    requires var c := StripFences(Trim(text)); 0 <= IndexOf(c, '{') < LastIndexOf(c, '}')
    ensures CleanJson(CleanJson(text)) == CleanJson(text)
  {
    CutBracesCases(StripFences(Trim(text)));
    CleanJsonOfObject(CleanJson(text));
  }

  // ------------------------------------------------------------------ normalizeUrl

  /** The scheme test, case-insensitive: `http://` or `https://` at the start. */
  predicate HasScheme(s: string) {
    StartsWith(ToLower(s), "http://") || StartsWith(ToLower(s), "https://")
  }

  function NormalizeUrl(url: string): string {
    var t := Trim(url);
    if HasScheme(t) then t else "https://" + t
  }

  lemma ToLowerPrefix(s: string, k: nat)
    requires k <= |s|
    ensures ToLower(s)[..k] == ToLower(s[..k])
  {
  }

  lemma PrefixedHasScheme(t: string)
    ensures HasScheme("https://" + t)
  {
    var r := "https://" + t;
    assert r[..8] == "https://";
    ToLowerPrefix(r, 8);
    assert ToLower(r)[..8] == "https://";
  }

  lemma PrefixedTrimmed(t: string)
    requires Trimmed(t)
    ensures Trimmed("https://" + t)
  {
    var r := "https://" + t;
    if t != [] {
      assert r[|r| - 1] == t[|t| - 1];
    }
  }

  lemma NormalizeUrlOfNormal(r: string)
    requires Trimmed(r) && HasScheme(r)
    ensures NormalizeUrl(r) == r
  {
    TrimOfTrimmed(r);
  }

  /** The trimmed URL is kept when it has a scheme and gets `https://` in
      front otherwise; either way the result is trimmed, has a scheme, and
      normalising it again changes nothing. */
  lemma NormalizeUrlProperties(url: string)
    ensures var t, r := Trim(url), NormalizeUrl(url);
      (HasScheme(t) ==> r == t) && (!HasScheme(t) ==> r == "https://" + t)
    ensures Trimmed(NormalizeUrl(url)) && HasScheme(NormalizeUrl(url))
    ensures NormalizeUrl(NormalizeUrl(url)) == NormalizeUrl(url)
  {
    var t := Trim(url);
    TrimProperties(url);
    if !HasScheme(t) {
      PrefixedHasScheme(t);
      PrefixedTrimmed(t);
    }
    NormalizeUrlOfNormal(NormalizeUrl(url));
  }

  // ------------------------------------------------------------------ fetchWithProxy

  /** The fields `contents`, `data` and `content` of a response that parses as JSON. */
  datatype JsonFields = JsonFields(contents: Option<string>, data: Option<string>, content: Option<string>)

  /** What one proxy gives back: an exception (network error), a response
      that is not ok, or a body with the outcome of `JSON.parse` on it. */
  datatype ProxyOutcome = Threw | NotOk | Body(raw: string, json: Option<JsonFields>)

  /** The page text a proxy outcome yields, if it is accepted. */
  function Accepted(o: ProxyOutcome): Option<string> {
    match o
    case Threw => None
    case NotOk => None
    case Body(raw, json) =>
      if raw == "" then None
      else if json.Some? then
        var x := OrElse(json.value.contents, OrElse(json.value.data, OrElse(json.value.content, "")));
        if |x| > 200 then Some(x) else None
      else if |raw| > 200 then Some(raw) else None
  }

  /** The first accepted outcome, proxies taken in order. */
  function FirstAccepted(outs: seq<ProxyOutcome>): Option<string> {
    if outs == [] then None
    else if Accepted(outs[0]).Some? then Accepted(outs[0])
    else FirstAccepted(outs[1..])
  }

  const LOAD_FAILED := "Inhalt der Webseite konnte nicht geladen werden."

  function FetchResult(outs: seq<ProxyOutcome>): Result<string> {
    match FirstAccepted(outs)
    case Some(page) => Ok(page)
    case None => Err(Error(LOAD_FAILED))
  }

  /** The proxy loop: `outcomes[i]` is what the i-th proxy answers for the URL. */
  method FetchWithProxy(outcomes: seq<ProxyOutcome>) returns (r: Result<string>)
    ensures r == FetchResult(outcomes)
  {
    var i := 0;
    while i < |outcomes|
      invariant 0 <= i <= |outcomes|
      invariant FirstAccepted(outcomes) == FirstAccepted(outcomes[i..])
      decreases |outcomes| - i
    {
      assert outcomes[i..][1..] == outcomes[i + 1..];
      match outcomes[i] {
        case Threw =>
        case NotOk =>
        case Body(raw, json) =>
          if raw != "" {
            if json.Some? {
              var extracted := OrElse(json.value.contents, OrElse(json.value.data, OrElse(json.value.content, "")));
              if |extracted| > 200 {
                return Ok(extracted);
              }
            } else if |raw| > 200 {
              return Ok(raw);
            }
          }
      }
      i := i + 1;
    }
    return Err(Error(LOAD_FAILED));
  }

  /** The page comes from the first proxy whose answer is accepted, all
      earlier proxies were rejected, and it is longer than 200 characters; a
      parsed body with a short or missing field is rejected even when the raw
      text is long. */
  lemma {:induction false} FetchResultSpec(outs: seq<ProxyOutcome>)
    ensures FetchResult(outs).Ok? <==> exists i :: 0 <= i < |outs| && Accepted(outs[i]).Some?
    ensures FetchResult(outs).Ok? ==> (|FetchResult(outs).value| > 200 &&
      exists i :: 0 <= i < |outs| && Accepted(outs[i]) == Some(FetchResult(outs).value) &&
        forall j :: 0 <= j < i ==> Accepted(outs[j]).None?)
    decreases |outs|
  {
    if outs != [] {
      FetchResultSpec(outs[1..]);
      if Accepted(outs[0]).None? {
        if FetchResult(outs).Ok? {
          var i :| 1 <= i + 1 <= |outs| && 0 <= i < |outs[1..]| && Accepted(outs[1..][i]) == Some(FetchResult(outs).value) &&
            forall j :: 0 <= j < i ==> Accepted(outs[1..][j]).None?;
          assert Accepted(outs[i + 1]) == Some(FetchResult(outs).value);
          assert forall j :: 0 <= j < i + 1 ==> Accepted(outs[j]).None? by {
            forall j | 0 <= j < i + 1 ensures Accepted(outs[j]).None? {
              if j > 0 { assert outs[j] == outs[1..][j - 1]; }
            }
          }
        }
        if exists i :: 0 <= i < |outs| && Accepted(outs[i]).Some? {
          var i :| 0 <= i < |outs| && Accepted(outs[i]).Some?;
          assert i > 0 && Accepted(outs[1..][i - 1]).Some?;
        }
      }
    }
  }

  // ------------------------------------------------------------------ extractArticleFromUrl

  /** The heading and paragraph texts that count: trimmed, longer than 20 characters. */
  function Meaningful(blocks: seq<string>): (m: seq<string>)
    ensures forall i :: 0 <= i < |m| ==> |m[i]| > 20 && Trimmed(m[i])
    ensures |m| <= |blocks|
  {
    if blocks == [] then []
    else
      var rest := Meaningful(blocks[..|blocks| - 1]);
      var t := Trim(blocks[|blocks| - 1]);
      TrimProperties(blocks[|blocks| - 1]);
      if |t| > 20 then rest + [t] else rest
  }

  /** What the HTML parser gives for a fetched page: the texts of the h1-h3
      and p elements of the article container, and the body text. */
  datatype Page = Page(blocks: seq<string>, bodyText: Option<string>)

  const MAX_CONTENT := 30000

  /** The text handed to the extracting model. */
  function ContentToClean(p: Page): (r: string)
    ensures var m := Join(Meaningful(p.blocks), "\n\n");
      var src := if |m| > 500 then m else OrElse(p.bodyText, "");
      |r| <= MAX_CONTENT && r == src[..if |src| < MAX_CONTENT then |src| else MAX_CONTENT]
  {
    var m := Join(Meaningful(p.blocks), "\n\n");
    JsSubstring(if |m| > 500 then m else OrElse(p.bodyText, ""), 0, MAX_CONTENT)
  }

  const EXTRACT_FAILED := "Inhalt konnte nicht extrahiert werden."

  /** The check on the extracting model's answer. */
  function ExtractedText(reply: Option<string>): (r: Result<string>)
    ensures r.Ok? <==> reply.Some? && |Trim(reply.value)| >= 150
    ensures r.Ok? ==> r.value == Trim(reply.value) && Trimmed(r.value)
    ensures r.Err? ==> r.thrown == Error(EXTRACT_FAILED)
  {
    TrimProperties(if reply.Some? then reply.value else "");
    if reply.None? || Trim(reply.value) == "" || |Trim(reply.value)| < 150 then Err(Error(EXTRACT_FAILED))
    else Ok(Trim(reply.value))
  }

  /** `extractArticleFromUrl`: `proxies` answers each normalised URL,
      `parse` stands for the HTML parser, `extract` for the model call. */
  function ExtractArticle(rawUrl: string, proxies: string -> seq<ProxyOutcome>,
                          parse: string -> Page, extract: string -> Result<Option<string>>): (r: Result<string>)
  {
    match FetchResult(proxies(NormalizeUrl(rawUrl)))
    case Err(e) => Err(e)
    case Ok(html) =>
      match extract(ContentToClean(parse(html)))
      case Err(e) => Err(e)
      case Ok(reply) => ExtractedText(reply)
  }

  /** The extractor fails when no proxy answer is accepted, passes on a
      failing model call, and otherwise returns a trimmed text of at least
      150 characters or the extraction error. */
  lemma ExtractArticleSpec(rawUrl: string, proxies: string -> seq<ProxyOutcome>,
                           parse: string -> Page, extract: string -> Result<Option<string>>)
    ensures var r := ExtractArticle(rawUrl, proxies, parse, extract);
      var outs := proxies(NormalizeUrl(rawUrl));
      (FirstAccepted(outs).None? ==> r == Err(Error(LOAD_FAILED))) &&
      (FirstAccepted(outs).Some? ==>
        var reply := extract(ContentToClean(parse(FirstAccepted(outs).value)));
        (reply.Err? ==> r == Err(reply.thrown)) &&
        (reply.Ok? ==> r == ExtractedText(reply.value))) &&
      (r.Ok? ==> |r.value| >= 150 && Trimmed(r.value))
  {
  }

  // ------------------------------------------------------------------ analyzeArticle

  const NO_ANSWER := "Keine Antwort von der KI erhalten."
  const INVALID_ANSWER := "Die KI-Antwort war ungültig. Bitte versuchen Sie es erneut."

  /** `JSON.parse` as a parameter; empty text never parses. */
  function Decode(s: string, parse: string -> Option<Analysis>): Option<Analysis> {
    if s == "" then None else parse(s)
  }

  /** `localStorage` restricted to the keys this service uses. */
  class Cache {
    var entries: map<string, string>

    constructor ()
      ensures entries == map[]
    {
      entries := map[];
    }

    /** `getFromCache`: a stored, non-empty entry that parses. */
    function Lookup(key: string, parse: string -> Option<Analysis>): Option<Analysis>
      reads this
    {
      if key in entries then Decode(entries[key], parse) else None
    }

    method Save(key: string, json: string)
      modifies this
      ensures entries == old(entries)[key := json]
    {
      entries := entries[key := json];
    }
  }

  /** What `analyzeArticle` returns for a cache miss, given the model's reply. */
  function AnswerOf(reply: Result<Option<string>>, parse: string -> Option<Analysis>): Result<Analysis> {
    match reply
    case Err(e) => Err(e)
    case Ok(text) =>
      if !Truthy(text) then Err(Error(NO_ANSWER))
      else match Decode(CleanJson(text.value), parse)
        case None => Err(Error(INVALID_ANSWER))
        case Some(a) => Ok(a)
  }

  /** `analyzeArticle` with the cache: a hit answers without the model; a parsed
      answer is stored (as the cleaned text) under the key before it is returned. */
  method AnalyzeArticle(cache: Cache, articleText: string, sourceUrl: string,
                        ask: string -> Result<Option<string>>, parse: string -> Option<Analysis>)
    returns (r: Result<Analysis>)
    modifies cache
    ensures var key := CacheKey(ANALYSIS_PREFIX, [articleText, sourceUrl]);
      var hit := old(cache.Lookup(key, parse));
      (hit.Some? ==> r == Ok(hit.value) && cache.entries == old(cache.entries)) &&
      (hit.None? ==> (r == AnswerOf(ask(articleText), parse) &&
        cache.entries == if r.Ok? then old(cache.entries)[key := CleanJson(ask(articleText).value.value)]
                         else old(cache.entries)))
  {
    var key := GenerateCacheKey(ANALYSIS_PREFIX, [articleText, sourceUrl]);
    var cached := cache.Lookup(key, parse);
    if cached.Some? {
      return Ok(cached.value);
    }
    var reply := ask(articleText);
    if reply.Err? {
      return Err(reply.thrown);
    }
    var text := reply.value;
    if !Truthy(text) {
      return Err(Error(NO_ANSWER));
    }
    var cleaned := CleanJson(text.value);
    var result := Decode(cleaned, parse);
    if result.None? {
      return Err(Error(INVALID_ANSWER));
    }
    cache.Save(key, cleaned);
    return Ok(result.value);
  }

  /** After a successful answer the same article and URL hit the cache and
      give the same analysis; a failed answer leaves the cache as it was. */
  lemma StoredAnswerHits(entries: map<string, string>, key: string,
                         reply: Result<Option<string>>, parse: string -> Option<Analysis>)
    requires AnswerOf(reply, parse).Ok?
    ensures var stored := entries[key := CleanJson(reply.value.value)];
      key in stored && Decode(stored[key], parse) == Some(AnswerOf(reply, parse).value)
  {
  }

  /** Every failure of a cache miss is one of the two fixed messages or the
      model call's own exception. */
  lemma AnswerErrors(reply: Result<Option<string>>, parse: string -> Option<Analysis>)
    ensures var r := AnswerOf(reply, parse);
      r.Err? ==> ((reply.Err? && r.thrown == reply.thrown) ||
        (reply.Ok? && !Truthy(reply.value) && r.thrown == Error(NO_ANSWER)) ||
        (reply.Ok? && Truthy(reply.value) && Decode(CleanJson(reply.value.value), parse).None? &&
         r.thrown == Error(INVALID_ANSWER)))
    ensures AnswerOf(reply, parse).Ok? <==> (reply.Ok? && Truthy(reply.value) &&
      Decode(CleanJson(reply.value.value), parse).Some?)
  {
  }
}
