/** The simulated analysis both front ends show: a randomly chosen canned
    template, the confidence nudged by a random offset and clamped to 85..97, an
    entry time two to four whole minutes ahead, and the asset and AI labels.
    `Math.random()` enters as the integers `Math.floor(Math.random() * n)` it is
    turned into, and the clock as milliseconds. */
module MockAnalysis {
  import opened Catalog

  const MinConfidence := 85
  const MaxConfidence := 97
  const MillisPerMinute := 60000

  /** The four random draws of one analysis: the template index, the asset index
      (used only when no asset is selected), the extra entry delay in minutes and
      the confidence offset before the shift by -3. */
  datatype Randomness = Randomness(template: nat, asset: nat, delay: nat, jitter: nat)

  /** The ranges `Math.floor(Math.random() * n)` stays in. */
  predicate ValidRandomness(r: Randomness) {
    r.template < |MockTemplates| && r.asset < |Assets| && r.delay < 3 && r.jitter < 6
  }

  /** The result shown. Times are instants in milliseconds; their `pt-BR`
      formatting is not modelled. */
  datatype MockResult = MockResult(
    direction: string, confidence: int, asset: string, timeframe: string,
    analysisTime: int, entryTime: int, aiUsed: string, reasoning: string, pattern: string)

  /** `Math.min(97, Math.max(85, base + jitter - 3))`: the point of 85..97 nearest
      to the shifted value. */
  function ClampConfidence(base: int, jitter: int): (c: int)
    ensures MinConfidence <= c <= MaxConfidence
    ensures MinConfidence <= base + jitter - 3 <= MaxConfidence ==> c == base + jitter - 3
  {
    var raw := base + jitter - 3;
    var low := if raw > MinConfidence then raw else MinConfidence;
    if low < MaxConfidence then low else MaxConfidence
  }

  function Dist(a: int, b: int): nat {
    if a >= b then a - b else b - a
  }

  /** No confidence in 85..97 is nearer the shifted value than the clamped one. */
  lemma ClampIsNearest(base: int, jitter: int, x: int)
    requires MinConfidence <= x <= MaxConfidence
    ensures Dist(ClampConfidence(base, jitter), base + jitter - 3) <= Dist(x, base + jitter - 3)
  {
  }

  /** For the canned templates the upper bound never binds: every confidence is
      the shifted value, or 85 when the shift takes 87 down to 84. */
  lemma {:induction false} TemplateConfidenceBelowCeiling(i: nat, jitter: nat)
    requires i < |MockTemplates| && jitter < 6
    ensures var base := MockTemplates[i].confidence;
      ClampConfidence(base, jitter) == if base + jitter - 3 < MinConfidence then MinConfidence else base + jitter - 3
    ensures ClampConfidence(MockTemplates[i].confidence, jitter) <= 96
  {
    assert 87 <= MockTemplates[i].confidence <= 94;
  }

  /** `new Date(now.getTime() + (Math.floor(Math.random() * 3) + 2) * 60000)`. */
  function EntryTime(now: int, delay: nat): (t: int)
    requires delay < 3
    ensures now < t
    ensures (t - now) % MillisPerMinute == 0 && 2 <= (t - now) / MillisPerMinute <= 4
  {
    now + (delay + 2) * MillisPerMinute
  }

  /** The three entry times there can be are two, three and four minutes ahead,
      and each is reached by exactly one draw. */
  lemma EntryTimesAreTwoToFourMinutes(now: int, delay: nat)
    requires delay < 3
    ensures EntryTime(now, delay) in {now + 120000, now + 180000, now + 240000}
    ensures EntryTime(now, delay) == now + 120000 <==> delay == 0
  {
  }

  /** `selectedAsset || getRandomAsset()`: the selected asset when there is one,
      otherwise a catalog asset. */
  function AssetOrRandom(selected: string, index: nat): (a: string)
    requires index < |Assets|
    ensures selected != "" ==> a == selected
    ensures selected == "" ==> a in Assets
    ensures a != ""
  {
    if selected != "" then selected else Assets[index]
  }

  /** The result for a template, a timeframe, an asset, the clock and the label
      of the AI used. */
  function BuildResult(template: MockTemplate, timeframe: string, asset: string, now: int,
                       aiUsed: string, r: Randomness): (m: MockResult)
    requires r.delay < 3
    ensures m.direction == template.direction && m.reasoning == template.reasoning && m.pattern == template.pattern
    ensures MinConfidence <= m.confidence <= MaxConfidence
    ensures m.analysisTime == now && now < m.entryTime
    ensures m.asset == asset && m.timeframe == timeframe && m.aiUsed == aiUsed
  {
    MockResult(template.direction, ClampConfidence(template.confidence, r.jitter), asset, timeframe,
               now, EntryTime(now, r.delay), aiUsed, template.reasoning, template.pattern)
  }

  /** Every direction a simulated analysis can show is CALL or PUT. */
  lemma MockDirectionsAreCallOrPut(i: nat)
    requires i < |MockTemplates|
    ensures MockTemplates[i].direction in {"CALL", "PUT"}
  {
  }
}
