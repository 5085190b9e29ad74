/** The reply normaliser of the OpenRouter edge function: it turns the upstream
    chat-completion body into the fixed analysis record, never failing on a
    malformed reply. The text of the first choice's message is cut out of a
    "```json" fenced block (or stripped of a preamble), handed to `JSON.parse`
    (the parameter `parse`; `None` means it throws), and each field of the parsed
    value is merged over a fixed default with `||`. */
module ReplyNormalizer {
  import opened Wrappers
  import opened JsStrings
  import opened JsValues

  // ---- the result record and its defaults ----

  /** The analysis record. Each field except `confidence` holds whatever truthy
      value the model sent (nothing checks that `direction` is CALL, PUT or
      NEUTRAL); `confidence` is the result of `parseInt`. */
  datatype AnalysisRecord = AnalysisRecord(
    asset: JSValue, direction: JSValue, confidence: int, reasoning: JSValue, pattern: JSValue)

  const DefaultAsset := Str("Ativo Desconhecido")
  const DefaultDirection := Str("NEUTRAL")
  const DefaultConfidence := 50
  const DefaultReasoning := Str("Não foi possível obter uma análise detalhada da imagem via OpenRouter.")
  const DefaultPattern := Str("None")
  const DefaultRecord := AnalysisRecord(
    DefaultAsset, DefaultDirection, DefaultConfidence, DefaultReasoning, DefaultPattern)

  const DiagnosticPrefix := "Erro ao processar análise da IA (OpenRouter). Resposta bruta: "
  const ExcerptLength := 500

  // ---- step 1a: the fenced block, /```json\n([\s\S]*?)\n```/ ----

  const Opener := "```json\n"
  const Closer := "\n```"

  /** Where the regular expression matches: the first opener, and the first closer
      after it. */
  function FencePositions(s: string): Option<(nat, nat)> {
    match IndexOf(s, Opener, 0)
    case None => None
    case Some(p) =>
      match IndexOf(s, Closer, p + |Opener|)
      case None => None
      case Some(j) => Some((p, j))
  }

  /** The lazy match of the expression starting at `p`: an opener at `p`, a closer
      at `j` after it, and no closer in between. */
  ghost predicate LazyMatchAt(s: string, p: nat, j: nat) {
    && OccursAt(s, Opener, p)
    && p + |Opener| <= j
    && OccursAt(s, Closer, j)
    && forall k: nat :: p + |Opener| <= k < j ==> !OccursAt(s, Closer, k)
  }

  /** `FencePositions` is what the regular expression engine finds: the lazy match
      at the leftmost position where any match exists, and nothing when no match
      exists anywhere. */
  lemma FencePositionsAreLeftmostLazyMatch(s: string)
    ensures FencePositions(s).None? ==> forall p: nat, j: nat :: !LazyMatchAt(s, p, j)
    ensures FencePositions(s).Some? ==>
      && LazyMatchAt(s, FencePositions(s).value.0, FencePositions(s).value.1)
      && forall p: nat, j: nat :: LazyMatchAt(s, p, j) ==> FencePositions(s).value.0 <= p
  {
    match IndexOf(s, Opener, 0)
    case None =>
    case Some(p0) =>
      forall p: nat, j: nat | LazyMatchAt(s, p, j) ensures p0 <= p && IndexOf(s, Closer, p0 + |Opener|).Some? {
        assert OccursAt(s, Closer, j);
      }
  }

  /** `jsonMatch[1]`, the captured text between the fences of the leftmost match. */
  function FenceGroup(s: string): (g: Option<string>)
    ensures g.Some? ==>
      exists p: nat, j: nat ::
        && LazyMatchAt(s, p, j) && g.value == s[p + |Opener|..j]
        && forall p': nat, j': nat :: LazyMatchAt(s, p', j') ==> p <= p'
    ensures g.None? ==> forall p: nat, j: nat :: !LazyMatchAt(s, p, j)
  {
    FencePositionsAreLeftmostLazyMatch(s);
    match FencePositions(s)
    case None => None
    case Some((p, j)) => Some(s[p + |Opener|..j])
  }

  // ---- step 1b: the preamble, /^(Here's the analysis in JSON format:|```json|```|\s)+/ ----

  const Preamble := "Here's the analysis in JSON format:"
  const FenceJson := "```json"
  const Fence := "```"

  /** `s` starts with one of the expression's four alternatives. */
  predicate StartsWithToken(s: string) {
    || StartsWith(s, Preamble) || StartsWith(s, FenceJson) || StartsWith(s, Fence)
    || (|s| > 0 && IsWhitespace(s[0]))
  }

  /** `w` is one of the expression's alternatives. */
  predicate IsToken(w: string) {
    w == Preamble || w == FenceJson || w == Fence || (|w| == 1 && IsWhitespace(w[0]))
  }

  /** The length of the alternative the engine matches at the start of `s`, the
      alternatives being tried in the expression's order; 0 when none applies. */
  function TokenLength(s: string): (n: nat)
    ensures n <= |s|
    ensures n == 0 <==> !StartsWithToken(s)
  {
    if StartsWith(s, Preamble) then |Preamble|
    else if StartsWith(s, FenceJson) then |FenceJson|
    else if StartsWith(s, Fence) then |Fence|
    else if |s| > 0 && IsWhitespace(s[0]) then 1
    else 0
  }

  /** What `TokenLength` measures is one of the alternatives. */
  lemma TokenLengthIsToken(s: string)
    requires TokenLength(s) > 0
    ensures IsToken(s[..TokenLength(s)])
  {
  }

  /** The preamble sentence is tried first, so a reply starting with it loses
      the whole sentence in one step. */
  lemma PreambleBeforeFences(s: string)
    requires StartsWith(s, Preamble)
    ensures TokenLength(s) == |Preamble|
    ensures StripPreamble(s) == StripPreamble(s[|Preamble|..])
  {
    assert TokenLength(s) == |Preamble|;
  }

  /** The longer fence is tried first: a reply starting with "```json" loses all
      seven characters at once, not just the backticks. */
  lemma FenceJsonBeforeFence(s: string)
    requires StartsWith(s, FenceJson)
    ensures TokenLength(s) == |FenceJson|
    ensures StripPreamble(s) == StripPreamble(s[|FenceJson|..])
  {
    assert s[0] == s[..|FenceJson|][0];
    assert |s| < |Preamble| || s[..|Preamble|][0] != Preamble[0];
  }

  /** The replacement of the anchored, repeated alternation by the empty string:
      alternatives are matched one after another, and the run ends where none
      applies. What is left is a suffix that starts with none. */
  function StripPreamble(s: string): (r: string)
    ensures |r| <= |s| && r == s[|s| - |r|..]
    ensures !StartsWithToken(r)
    decreases |s|
  {
    var n := TokenLength(s);
    if n == 0 then s else StripPreamble(s[n..])
  }

  /** The concatenation of a sequence of strings. */
  function Concat(ws: seq<string>): string {
    if ws == [] then [] else ws[0] + Concat(ws[1..])
  }

  /** The alternatives the replacement removes, in the order it matches them. */
  function PreambleTokens(s: string): seq<string>
    decreases |s|
  {
    var n := TokenLength(s);
    if n == 0 then [] else [s[..n]] + PreambleTokens(s[n..])
  }

  /** What the replacement removes is a run of alternatives: each piece it
      removes is one of the expression's alternatives, ... */
  lemma {:induction false} PreambleTokensAreTokens(s: string)
    ensures forall i :: 0 <= i < |PreambleTokens(s)| ==> IsToken(PreambleTokens(s)[i])
    decreases |s|
  {
    var n := TokenLength(s);
    if n > 0 {
      PreambleTokensAreTokens(s[n..]);
      TokenLengthIsToken(s);
      assert PreambleTokens(s) == [s[..n]] + PreambleTokens(s[n..]);
    }
  }

  /** ... and those pieces, in the order matched, make up exactly the part of
      the reply before the text that is kept. */
  lemma {:induction false} PreambleTokensDecompose(s: string)
    ensures Concat(PreambleTokens(s)) == s[..|s| - |StripPreamble(s)|]
    decreases |s|
  {
    var n := TokenLength(s);
    if n == 0 {
      assert Concat(PreambleTokens(s)) == [] == s[..|s| - |StripPreamble(s)|];
    } else {
      PreambleTokensDecompose(s[n..]);
      DecomposeStep(s, n, PreambleTokens(s[n..]), PreambleTokens(s), StripPreamble(s));
    }
  }

  /** One step of the decomposition: a first piece of length `n` in front of a
      decomposition of the rest of the reply. */
  lemma DecomposeStep(s: string, n: nat, rest: seq<string>, pieces: seq<string>, kept: string)
    requires 0 < n <= |s| && |kept| <= |s| - n
    requires pieces == [s[..n]] + rest
    requires Concat(rest) == s[n..][..|s[n..]| - |kept|]
    ensures Concat(pieces) == s[..|s| - |kept|]
  {
    assert pieces[1..] == rest;
    PrefixJoin(s, n, |s[n..]| - |kept|);
  }

  lemma PrefixJoin(s: string, n: nat, k: nat)
    requires n + k <= |s|
    ensures s[..n] + s[n..][..k] == s[..n + k]
  {
  }

  /** Text that neither the preamble expression nor trimming touches: it starts
      with no alternative and does not end in whitespace. */
  predicate IsBare(t: string) {
    !StartsWithToken(t) && (t == [] || !IsWhitespace(t[|t| - 1]))
  }

  /** The `else` branch: the preamble is removed and the rest trimmed. */
  function StripAndTrim(s: string): string {
    Trim(StripPreamble(s))
  }

  /** The text handed to `JSON.parse`: the fenced block's contents when there is a
      non-empty one (the captured text must be truthy), else the stripped and
      trimmed reply. */
  function ExtractJsonText(s: string): string {
    match FenceGroup(s)
    case Some(g) => if g != "" then g else StripAndTrim(s)
    case None => StripAndTrim(s)
  }

  /** The text parsed is either what the leftmost lazy match of the fence
      expression captured, when that is not empty, or the stripped and trimmed reply; it is
      always the latter when the expression matches nowhere. */
  lemma ExtractedTextOrigin(s: string)
    ensures || ExtractJsonText(s) == StripAndTrim(s)
            || (&& ExtractJsonText(s) != ""
                && exists p: nat, j: nat ::
                     && LazyMatchAt(s, p, j) && ExtractJsonText(s) == s[p + |Opener|..j]
                     && forall p': nat, j': nat :: LazyMatchAt(s, p', j') ==> p <= p')
    ensures (forall p: nat, j: nat :: !LazyMatchAt(s, p, j)) ==> ExtractJsonText(s) == StripAndTrim(s)
  {
    FencePositionsAreLeftmostLazyMatch(s);
    match FencePositions(s)
    case None =>
    case Some((p, j)) =>
  }

  /** Without a fenced block, the text parsed is an infix of the reply that
      starts where the preamble expression stopped matching; what follows it in
      the reply is the whitespace `TrimOfTokenFree` cuts. */
  lemma StripAndTrimShape(s: string)
    ensures OccursAt(s, StripAndTrim(s), |s| - |StripPreamble(s)|)
  {
    var p := StripPreamble(s);
    TrimOfTokenFree(p);
    PrefixOfSuffix(s, p, StripAndTrim(s));
  }

  /** Without a fenced block, the text parsed neither starts with an
      alternative of the preamble expression nor ends with whitespace. */
  lemma StrippedTextIsBare(s: string)
    ensures IsBare(StripAndTrim(s))
  {
    TrimOfTokenFree(StripPreamble(s));
  }

  /** Trimming a string that starts with no alternative only cuts its end, and
      what is left starts with no alternative either. */
  lemma TrimOfTokenFree(p: string)
    requires !StartsWithToken(p)
    ensures |Trim(p)| <= |p| && Trim(p) == p[..|Trim(p)|]
    ensures forall i :: |Trim(p)| <= i < |p| ==> IsWhitespace(p[i])
    ensures IsBare(Trim(p))
  {
    TrimStartOfNonWhitespace(p);
    var k := TrailingWhitespace(p);
    assert Trim(p) == p[..k];
    PrefixKeepsNoToken(p[..k], p);
  }

  /** A prefix of a suffix is an infix. */
  lemma PrefixOfSuffix(s: string, p: string, r: string)
    requires |p| <= |s| && p == s[|s| - |p|..]
    requires |r| <= |p| && r == p[..|r|]
    ensures OccursAt(s, r, |s| - |p|)
  {
    assert s[|s| - |p|..|s| - |p| + |r|] == p[..|r|];
  }

  /** A prefix of a string that starts with no alternative starts with none
      either. */
  lemma PrefixKeepsNoToken(r: string, p: string)
    requires |r| <= |p| && r == p[..|r|]
    requires !StartsWithToken(p)
    ensures !StartsWithToken(r)
  {
  }

  /** A reply carrying a fenced JSON block yields exactly the block's contents,
      whatever comes before (if it holds no backtick) and after. */
  lemma FencedBlockExtracted(pre: string, body: string, rest: string)
    requires '`' !in pre
    requires body != []
    requires forall k: nat :: !OccursAt(body, Closer, k)
    ensures ExtractJsonText(pre + Opener + body + Closer + rest) == body
  {
    var s := pre + Opener + body + Closer + rest;
    FencedReplySlices(s, pre, body, rest);
    FencedAt(s, pre, body);
  }

  /** The same, for a reply given by where its parts sit. */
  lemma FencedAt(s: string, pre: string, body: string)
    requires '`' !in pre
    requires body != []
    requires forall k: nat :: !OccursAt(body, Closer, k)
    requires |pre| + |Opener| + |body| + |Closer| <= |s|
    requires s[..|pre|] == pre && s[|pre|..|pre| + |Opener|] == Opener
    requires s[|pre| + |Opener|..|pre| + |Opener| + |body|] == body
    requires s[|pre| + |Opener| + |body|..|pre| + |Opener| + |body| + |Closer|] == Closer
    ensures ExtractJsonText(s) == body
  {
    OpenerAfterPrefix(s, pre);
    CloserAfterBody(s, |pre| + |Opener|, body);
    GroupAtPositions(s, |pre|, |pre| + |Opener| + |body|);
    ExtractOfGroup(s);
  }

  /** The group captured when the opener and the closer are found at `p` and `j`. */
  lemma GroupAtPositions(s: string, p: nat, j: nat)
    requires IndexOf(s, Opener, 0) == Some(p) && IndexOf(s, Closer, p + |Opener|) == Some(j)
    ensures p + |Opener| <= j <= |s| && FenceGroup(s) == Some(s[p + |Opener|..j])
  {
  }

  /** A non-empty captured group is the text parsed. */
  lemma ExtractOfGroup(s: string)
    requires FenceGroup(s).Some? && FenceGroup(s).value != ""
    ensures ExtractJsonText(s) == FenceGroup(s).value
  {
  }

  /** Where the parts of a fenced reply sit in it. */
  lemma FencedReplySlices(s: string, pre: string, body: string, rest: string)
    requires s == pre + Opener + body + Closer + rest
    ensures |pre| + |Opener| + |body| + |Closer| <= |s|
    ensures s[..|pre|] == pre && s[|pre|..|pre| + |Opener|] == Opener
    ensures s[|pre| + |Opener|..|pre| + |Opener| + |body|] == body
    ensures s[|pre| + |Opener| + |body|..|pre| + |Opener| + |body| + |Closer|] == Closer
  {
    var q := |pre| + |Opener|;
    var e := q + |body|;
    assert s[..|pre|] == pre;
    assert s[|pre|..q] == Opener;
    assert s[q..e] == body;
    assert s[e..e + |Closer|] == Closer;
  }

  /** The first opener of a string that starts with backtick-free text
      followed by an opener is the one right after that text. */
  lemma OpenerAfterPrefix(s: string, pre: string)
    requires '`' !in pre
    requires |pre| + |Opener| <= |s| && s[..|pre|] == pre && s[|pre|..|pre| + |Opener|] == Opener
    ensures IndexOf(s, Opener, 0) == Some(|pre|)
  {
    forall j: nat | j < |pre| ensures !OccursAt(s, Opener, j) {
      assert s[j] == pre[j];
      assert j + |Opener| > |s| || s[j..j + |Opener|][0] == s[j];
    }
    IndexOfFirstOccurrence(s, Opener, 0, |pre|);
  }

  /** The first closer after `q` is the one right after a closer-free body
      there. */
  lemma CloserAfterBody(s: string, q: nat, body: string)
    requires forall k: nat :: !OccursAt(body, Closer, k)
    requires q + |body| + |Closer| <= |s| && s[q..q + |body|] == body
    requires s[q + |body|..q + |body| + |Closer|] == Closer
    ensures IndexOf(s, Closer, q) == Some(q + |body|)
  {
    var e := q + |body|;
    forall k: nat | q <= k < e ensures !OccursAt(s, Closer, k) {
      if k + |Closer| <= e {
        assert s[q..e][k - q..k - q + |Closer|] == s[k..k + |Closer|];
        assert !OccursAt(body, Closer, k - q);
      } else {
        assert s[e] == '\n';
        assert s[k..k + |Closer|][e - k] == s[e];
      }
    }
    IndexOfFirstOccurrence(s, Closer, q, e);
  }

  /** Fencing is transparent: a body that is already bare JSON text (it starts
      with none of the preamble's alternatives, does not end in whitespace and
      holds no closing fence) is parsed the same with or without the fence. */
  lemma FencingIsTransparent(body: string)
    requires body != []
    requires forall k: nat :: !OccursAt(body, Closer, k)
    requires IsBare(body)
    ensures ExtractJsonText(Opener + body + Closer) == body
    ensures ExtractJsonText(body) == body
  {
    assert Opener + body + Closer == [] + Opener + body + Closer + [];
    FencedBlockExtracted([], body, []);
    BareTextKept(body);
  }

  /** Text holding no closing fence has no fenced block. */
  lemma NoCloserNoFence(s: string)
    requires forall k: nat :: !OccursAt(s, Closer, k)
    ensures FenceGroup(s).None?
  {
    match IndexOf(s, Opener, 0)
    case None =>
    case Some(p) =>
      assert IndexOf(s, Closer, p + |Opener|).None?;
  }

  /** Bare text holding no closing fence is parsed as it is. */
  lemma BareTextKept(body: string)
    requires forall k: nat :: !OccursAt(body, Closer, k)
    requires IsBare(body)
    ensures ExtractJsonText(body) == body
  {
    NoCloserNoFence(body);
    assert StripPreamble(body) == body by {
      assert TokenLength(body) == 0;
    }
    TrimOfTrimmed(body);
  }

  // ---- steps 2 to 4: parse, merge, diagnose ----

  /** The reasoning written when the text cannot be parsed: the fixed prefix, the
      first 500 characters of the text (all of it when shorter), then "...". */
  function Diagnostic(t: string): (r: string)
    ensures StartsWith(r, DiagnosticPrefix)
    ensures |r| <= |DiagnosticPrefix| + ExcerptLength + 3
    ensures r == DiagnosticPrefix + t[..if |t| < ExcerptLength then |t| else ExcerptLength] + "..."
  {
    SubstringFromZero(t, ExcerptLength);
    DiagnosticPrefix + Substring(t, 0, ExcerptLength) + "..."
  }

  /** `parseInt(c) || 50`: the integer `parseInt` reads unless that is NaN or zero,
      in which case the default 50. */
  function CoerceConfidence(c: JSValue): (r: int)
    ensures r != 0
    ensures r == DefaultConfidence || ParseInt(ToString(c)) == Some(r)
    ensures ParseInt(ToString(c)).Some? && ParseInt(ToString(c)).value != 0 ==>
      r == ParseInt(ToString(c)).value
  {
    match ParseInt(ToString(c))
    case Some(n) => if n != 0 then n else DefaultConfidence
    case None => DefaultConfidence
  }

  /** The record after a successful parse: every field over its default. */
  function Merge(v: JSValue): (r: AnalysisRecord)
    requires !IsNullish(v)
    ensures IsFilled(r)
  {
    AnalysisRecord(
      Or(Member(v, "asset"), DefaultAsset),
      Or(Member(v, "direction"), DefaultDirection),
      CoerceConfidence(Member(v, "confidence")),
      Or(Member(v, "reasoning"), DefaultReasoning),
      Or(Member(v, "pattern"), DefaultPattern))
  }

  /** Every field of the record holds a truthy value and the confidence is not
      zero: what `x || default` with truthy defaults guarantees. */
  predicate IsFilled(r: AnalysisRecord) {
    Truthy(r.asset) && Truthy(r.direction) && r.confidence != 0 && Truthy(r.reasoning) && Truthy(r.pattern)
  }

  /** The record after the `catch`: the defaults with the diagnostic reasoning. */
  function Diagnosed(t: string): AnalysisRecord {
    DefaultRecord.(reasoning := Str(Diagnostic(t)))
  }

  /** The record for a message text: its extracted JSON text, normalised. */
  function NormalizeText(text: string, parse: string -> Option<JSValue>): AnalysisRecord {
    NormalizeJsonText(ExtractJsonText(text), parse)
  }

  /** The `try`/`catch` over the extracted text. Reading a member of a parsed
      `null` throws a TypeError inside the `try`, so it is caught like a parse
      error. So does `parseInt` on a confidence whose string conversion throws,
      but by then asset and direction have already been overwritten. */
  function NormalizeJsonText(t: string, parse: string -> Option<JSValue>): (r: AnalysisRecord)
    ensures IsFilled(r)
    ensures r.confidence != DefaultConfidence ==>
      parse(t).Some? && !IsNullish(parse(t).value) && r == Merge(parse(t).value)
  {
    match parse(t)
    case Some(v) =>
      if IsNullish(v) then Diagnosed(t)
      else if ToStringThrows(Member(v, "confidence")) then
        Diagnosed(t).(asset := Or(Member(v, "asset"), DefaultAsset),
                      direction := Or(Member(v, "direction"), DefaultDirection))
      else Merge(v)
    case None => Diagnosed(t)
  }

  /** The guard `data.choices && data.choices.length > 0 && data.choices[0].message
      && data.choices[0].message.content`: the content when the guard holds,
      `None` when it fails, `Throw` when it reads a member of `null` or
      `undefined`. */
  function ReplyContent(data: JSValue): (c: Completion<Option<JSValue>>)
    ensures IsNullish(data) ==> c.Throw?
    ensures c.Normal? && c.value.Some? ==> Truthy(c.value.value)
  {
    if IsNullish(data) then Throw
    else
      var choices := Member(data, "choices");
      if !Truthy(choices) then Normal(None)
      else if !IsPositive(Member(choices, "length")) then Normal(None)
      else
        var first := Element0(choices);
        if IsNullish(first) then Throw
        else
          var message := Member(first, "message");
          if !Truthy(message) then Normal(None)
          else
            var content := Member(message, "content");
            if Truthy(content) then Normal(Some(content)) else Normal(None)
  }

  /** The whole normaliser. A content that is not a string has no `match` method,
      so calling it throws. */
  function NormalizeReply(data: JSValue, parse: string -> Option<JSValue>): (c: Completion<AnalysisRecord>)
    ensures IsNullish(data) ==> c.Throw?
    ensures c.Normal? ==> IsFilled(c.value)
  {
    match ReplyContent(data)
    case Throw => Throw
    case Normal(None) => Normal(DefaultRecord)
    case Normal(Some(content)) =>
      if content.Str? then Normal(NormalizeText(content.s, parse)) else Throw
  }

  /** The normaliser as the handler runs it: a record initialised with the
      defaults, left alone when the guard fails, otherwise overwritten by the
      message text's analysis; the guard and the `match` call may throw. */
  method AnalyzeReply(data: JSValue, parse: string -> Option<JSValue>) returns (c: Completion<AnalysisRecord>)
    ensures c == NormalizeReply(data, parse)
  {
    var content := ReplyContent(data);
    if content.Throw? {
      return Throw;
    }
    var analysisResult := DefaultRecord;
    if content.value.Some? {
      if !content.value.value.Str? {
        return Throw;
      }
      analysisResult := AnalyzeText(content.value.value.s, parse);
    }
    return Normal(analysisResult);
  }

  /** The message text's analysis as the handler runs it: the text variable is
      reassigned by the extraction, then parsed and merged. */
  method AnalyzeText(text: string, parse: string -> Option<JSValue>) returns (analysisResult: AnalysisRecord)
    ensures analysisResult == NormalizeText(text, parse)
  {
    var textResponse := text;
    var jsonMatch := FenceGroup(textResponse);
    if jsonMatch.Some? && jsonMatch.value != "" {
      textResponse := jsonMatch.value;
    } else {
      textResponse := StripAndTrim(textResponse);
    }
    assert textResponse == ExtractJsonText(text);
    analysisResult := ParseAndMerge(textResponse, parse);
  }

  /** The `try`/`catch` as the handler runs it: the default record overwritten
      field by field inside the `try`, and the `catch` overwriting the reasoning
      of whatever record the `try` had reached. */
  method ParseAndMerge(textResponse: string, parse: string -> Option<JSValue>) returns (analysisResult: AnalysisRecord)
    ensures analysisResult == NormalizeJsonText(textResponse, parse)
  {
    analysisResult := DefaultRecord;
    var parsed := parse(textResponse);
    var caught := true;
    if parsed.Some? && !IsNullish(parsed.value) {
      var v := parsed.value;
      analysisResult := analysisResult.(asset := Or(Member(v, "asset"), analysisResult.asset));
      analysisResult := analysisResult.(direction := Or(Member(v, "direction"), analysisResult.direction));
      var confidence := Member(v, "confidence");
      if !ToStringThrows(confidence) {
        var n := match ParseInt(ToString(confidence)) case Some(n) => n case None => 0;
        analysisResult := analysisResult.(confidence := if n != 0 then n else analysisResult.confidence);
        analysisResult := analysisResult.(reasoning := Or(Member(v, "reasoning"), analysisResult.reasoning));
        analysisResult := analysisResult.(pattern := Or(Member(v, "pattern"), analysisResult.pattern));
        caught := false;
        assert analysisResult == Merge(v);
        MergedWhenConvertible(textResponse, parse, v);
      }
    }
    if caught {
      analysisResult := analysisResult.(reasoning := Str(Diagnostic(textResponse)));
    }
  }

  /** A parse to a value whose confidence converts is merged in full. */
  lemma MergedWhenConvertible(t: string, parse: string -> Option<JSValue>, v: JSValue)
    requires parse(t) == Some(v) && !IsNullish(v) && !ToStringThrows(Member(v, "confidence"))
    ensures NormalizeJsonText(t, parse) == Merge(v)
  {
  }

  // ---- properties ----

  /** A reply object without choices, with an empty list of choices, or whose
      first choice has no message or a message without content, yields exactly
      the default record. */
  lemma NoContentGivesDefaultRecord(fields: map<string, JSValue>, parse: string -> Option<JSValue>)
    requires || "choices" !in fields
             || fields["choices"] == Arr([])
             || (exists m: map<string, JSValue>, rest: seq<JSValue> ::
                   fields["choices"] == Arr([Obj(m)] + rest) && ("message" !in m || !Truthy(m["message"])))
             || (exists m: map<string, JSValue>, msg: map<string, JSValue>, rest: seq<JSValue> ::
                   && fields["choices"] == Arr([Obj(m)] + rest) && "message" in m && m["message"] == Obj(msg)
                   && ("content" !in msg || !Truthy(msg["content"])))
    ensures NormalizeReply(Obj(fields), parse) == Normal(DefaultRecord)
  {
    assert ReplyContent(Obj(fields)) == Normal(None);
  }

  /** The usual reply shape: the first choice's message content is what gets
      normalised. */
  lemma FirstChoiceContentIsNormalized(text: string, rest: seq<JSValue>, parse: string -> Option<JSValue>)
    requires text != ""
    ensures var message := Obj(map["content" := Str(text)]);
      var data := Obj(map["choices" := Arr([Obj(map["message" := message])] + rest)]);
      NormalizeReply(data, parse) == Normal(NormalizeText(text, parse))
  {
    var message := Obj(map["content" := Str(text)]);
    var choices := Arr([Obj(map["message" := message])] + rest);
    var data := Obj(map["choices" := choices]);
    assert Member(data, "choices") == choices;
    assert Member(choices, "length") == Num(1 + |rest|);
    assert Element0(choices) == Obj(map["message" := message]);
    assert Member(message, "content") == Str(text);
    assert ReplyContent(data) == Normal(Some(Str(text)));
  }

  /** A `null` body, or a content that is not a string, throws. */
  lemma BadReplyShapesThrow(content: JSValue, parse: string -> Option<JSValue>)
    requires Truthy(content) && !content.Str?
    ensures NormalizeReply(Null, parse) == Throw
    ensures var data := Obj(map["choices" := Arr([Obj(map["message" := Obj(map["content" := content])])])]);
      NormalizeReply(data, parse) == Throw
  {
  }

  /** On a successful parse to an object, each of asset, direction, reasoning and
      pattern is the parsed member when that is truthy (of any type: a direction
      is not checked against CALL, PUT and NEUTRAL) and the default otherwise. */
  lemma ParsedObjectMerged(text: string, fields: map<string, JSValue>, parse: string -> Option<JSValue>)
    requires parse(ExtractJsonText(text)) == Some(Obj(fields))
    requires "confidence" in fields ==> !ToStringThrows(fields["confidence"])
    ensures var r := NormalizeText(text, parse);
      && r.asset == (if "asset" in fields && Truthy(fields["asset"]) then fields["asset"] else DefaultAsset)
      && r.direction == (if "direction" in fields && Truthy(fields["direction"]) then fields["direction"] else DefaultDirection)
      && r.reasoning == (if "reasoning" in fields && Truthy(fields["reasoning"]) then fields["reasoning"] else DefaultReasoning)
      && r.pattern == (if "pattern" in fields && Truthy(fields["pattern"]) then fields["pattern"] else DefaultPattern)
      && r.confidence == CoerceConfidence(if "confidence" in fields then fields["confidence"] else Undefined)
  {
    var v := Obj(fields);
    assert !ToStringThrows(Member(v, "confidence"));
    assert NormalizeText(text, parse) == Merge(v);
  }

  /** A parse to an array, a string, a number or a boolean has none of the five
      members, so every field keeps its default, including the default reasoning
      rather than the diagnostic one. */
  lemma NonObjectParseGivesDefaultRecord(text: string, v: JSValue, parse: string -> Option<JSValue>)
    requires parse(ExtractJsonText(text)) == Some(v)
    requires !IsNullish(v) && !v.Obj?
    ensures NormalizeText(text, parse) == DefaultRecord
  {
    MissingConfidenceDefaults(Undefined);
  }

  /** A confidence that cannot be converted to a string aborts the merge half-way:
      asset and direction are the parsed ones, confidence and pattern the
      defaults, and the reasoning is the diagnostic. */
  lemma UnconvertibleConfidenceAbortsMerge(text: string, fields: map<string, JSValue>, parse: string -> Option<JSValue>)
    requires parse(ExtractJsonText(text)) == Some(Obj(fields))
    requires "confidence" in fields && ToStringThrows(fields["confidence"])
    ensures var r := NormalizeText(text, parse);
      && r.asset == (if "asset" in fields && Truthy(fields["asset"]) then fields["asset"] else DefaultAsset)
      && r.direction == (if "direction" in fields && Truthy(fields["direction"]) then fields["direction"] else DefaultDirection)
      && r.confidence == DefaultConfidence && r.pattern == DefaultPattern
      && r.reasoning == Str(Diagnostic(ExtractJsonText(text)))
  {
    var v := Obj(fields);
    var t := ExtractJsonText(text);
    assert Member(v, "confidence") == fields["confidence"];
    assert NormalizeText(text, parse) == Diagnosed(t).(asset := Or(Member(v, "asset"), DefaultAsset),
                                                       direction := Or(Member(v, "direction"), DefaultDirection));
  }

  /** A missing confidence, or one `parseInt` reads as NaN or zero, becomes 50. */
  lemma MissingConfidenceDefaults(c: JSValue)
    requires || c == Undefined || c == Null || c.Bool? || c == Num(0) || c == Str("")
             || (c.Obj? && "toString" !in c.fields)
    ensures CoerceConfidence(c) == DefaultConfidence
  {
    if c == Num(0) {
      ParseIntOfIntString(0);
    } else if c == Str("") {
      assert TrimStart("") == "";
    } else if c == Undefined {
      ParseIntOfNonDigit("undefined");
    } else if c == Null {
      ParseIntOfNonDigit("null");
    } else if c == Bool(true) {
      ParseIntOfNonDigit("true");
    } else if c == Bool(false) {
      ParseIntOfNonDigit("false");
    } else {
      assert ToString(c) == "[object Object]";
      ParseIntOfNonDigit("[object Object]");
    }
  }

  /** A text whose first character is neither whitespace, a sign nor a decimal
      digit is NaN to `parseInt`. */
  lemma ParseIntOfNonDigit(s: string)
    requires s != [] && !IsWhitespace(s[0]) && s[0] != '-' && s[0] != '+' && DigitValue(s[0]) >= 10
    ensures ParseInt(s) == None
  {
    TrimStartOfNonWhitespace(s);
    DecimalMagnitude(s);
    assert DigitRunLength(s, 10) == 0;
  }

  /** A confidence sent as a non-zero number, or as that number's decimal text,
      is kept as it is. */
  lemma NumericConfidenceKept(n: int)
    requires n != 0
    ensures CoerceConfidence(Num(n)) == n
    ensures CoerceConfidence(Str(IntToString(n))) == n
  {
    ParseIntOfIntString(n);
  }

  /** A confidence text that starts with a non-zero decimal number, such as "85%",
      is read as that number. */
  lemma ConfidenceTextPrefixRead(digits: string, rest: string)
    requires |digits| >= 1 && forall i :: 0 <= i < |digits| ==> IsDecimalDigit(digits[i])
    requires DigitsValue(digits, 10) != 0
    requires rest == [] || !IsDecimalDigit(rest[0])
    ensures CoerceConfidence(Str(digits + rest)) == DigitsValue(digits, 10)
  {
    ParseIntOfDigitsThenRest(digits, rest);
  }

  /** A reply whose JSON has the expected shape, every field truthy and a non-zero
      numeric confidence, is reproduced exactly. */
  lemma WellShapedReplyReproduced(text: string, fields: map<string, JSValue>, n: int, parse: string -> Option<JSValue>)
    requires parse(ExtractJsonText(text)) == Some(Obj(fields))
    requires "asset" in fields && Truthy(fields["asset"])
    requires "direction" in fields && Truthy(fields["direction"])
    requires "reasoning" in fields && Truthy(fields["reasoning"])
    requires "pattern" in fields && Truthy(fields["pattern"])
    requires "confidence" in fields && fields["confidence"] == Num(n) && n != 0
    ensures NormalizeText(text, parse)
      == AnalysisRecord(fields["asset"], fields["direction"], n, fields["reasoning"], fields["pattern"])
  {
    var v := Obj(fields);
    assert NormalizeText(text, parse) == Merge(v);
    NumericConfidenceKept(n);
    assert Member(v, "confidence") == Num(n);
  }

  /** When the text does not parse (or parses to `null`), asset, direction,
      confidence and pattern keep their defaults, and the reasoning is the
      diagnostic over the extracted text, whose excerpt is at most 500
      characters long. */
  lemma ParseFailureDiagnosed(text: string, parse: string -> Option<JSValue>)
    requires parse(ExtractJsonText(text)) == None || parse(ExtractJsonText(text)) == Some(Null)
    ensures var t := ExtractJsonText(text); var r := NormalizeText(text, parse);
      && r.asset == DefaultAsset && r.direction == DefaultDirection
      && r.confidence == DefaultConfidence && r.pattern == DefaultPattern
      && r.reasoning == Str(DiagnosticPrefix + t[..if |t| < ExcerptLength then |t| else ExcerptLength] + "...")
  {
  }

  /** A fenced reply and the same JSON sent bare produce the same record. */
  lemma FencedAndBareRepliesAgree(body: string, parse: string -> Option<JSValue>)
    requires body != []
    requires forall k: nat :: !OccursAt(body, Closer, k)
    requires IsBare(body)
    ensures NormalizeText(Opener + body + Closer, parse) == NormalizeText(body, parse)
  {
    FencingIsTransparent(body);
  }
}
