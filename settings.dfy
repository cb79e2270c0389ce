/** Generation parameters with silent clamping (ModelSettings.swift). */
module Settings {

  datatype ModelSettings = ModelSettings(temperature: real, maxTokens: int, topP: real, useSimulatedResponses: bool)

  /** The field initialisers: temperature 0.7, 150 tokens, top-p 0.9, simulated replies. */
  const Default: ModelSettings := ModelSettings(0.7, 150, 0.9, true)

  const MinTokens: int := 10
  const MaxTokens: int := 2048

  function MinInt(a: int, b: int): int { if a <= b then a else b }
  function MaxInt(a: int, b: int): int { if a >= b then a else b }
  function MinReal(a: real, b: real): real { if a <= b then a else b }
  function MaxReal(a: real, b: real): real { if a >= b then a else b }

  /** `min(max(maxTokens, 10), 2048)`: always in [10, 2048], and the value itself when already there. */
  function ValidatedMaxTokens(s: ModelSettings): (r: int)
    ensures MinTokens <= r <= MaxTokens
    ensures MinTokens <= s.maxTokens <= MaxTokens ==> r == s.maxTokens
    ensures s.maxTokens < MinTokens ==> r == MinTokens
    ensures s.maxTokens > MaxTokens ==> r == MaxTokens
  {
    MinInt(MaxInt(s.maxTokens, MinTokens), MaxTokens)
  }

  /** `min(max(temperature, 0), 2)` over the reals: always in [0, 2], the value itself when already there, else the nearer bound. */
  function ValidatedTemperature(s: ModelSettings): (r: real)
    ensures 0.0 <= r <= 2.0
    ensures 0.0 <= s.temperature <= 2.0 ==> r == s.temperature
    ensures s.temperature < 0.0 ==> r == 0.0
    ensures s.temperature > 2.0 ==> r == 2.0
  {
    MinReal(MaxReal(s.temperature, 0.0), 2.0)
  }

  /** `min(max(topP, 0), 1)` over the reals: always in [0, 1], the value itself when already there, else the nearer bound. */
  function ValidatedTopP(s: ModelSettings): (r: real)
    ensures 0.0 <= r <= 1.0
    ensures 0.0 <= s.topP <= 1.0 ==> r == s.topP
    ensures s.topP < 0.0 ==> r == 0.0
    ensures s.topP > 1.0 ==> r == 1.0
  {
    MinReal(MaxReal(s.topP, 0.0), 1.0)
  }

  /** Clamping never reverses the order of two token limits. */
  lemma ValidatedMaxTokensMonotone(s: ModelSettings, t: ModelSettings)
    requires s.maxTokens <= t.maxTokens
    ensures ValidatedMaxTokens(s) <= ValidatedMaxTokens(t)
  {
  }

  /** Clamping an already clamped limit changes nothing. */
  lemma ValidatedMaxTokensIdempotent(s: ModelSettings)
    ensures ValidatedMaxTokens(s.(maxTokens := ValidatedMaxTokens(s))) == ValidatedMaxTokens(s)
  {
  }

  /** The defaults pass validation unchanged. */
  lemma DefaultIsValid()
    ensures ValidatedMaxTokens(Default) == 150
    ensures ValidatedTemperature(Default) == 0.7
    ensures ValidatedTopP(Default) == 0.9
    ensures Default.useSimulatedResponses
  {
  }
}
