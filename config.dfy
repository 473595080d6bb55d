/**
 * The two clamping validators of the settings model (`app/core/config.py`):
 * the minimum Places rating and the number of candidates the rerank
 * sees. The other settings are plain environment values with defaults and
 * appear where they are used.
 */
module Config {
  import opened Wrappers
  import opened PyText

  const DefaultMinRating: real := 4.0
  const DefaultMaxCandidates: int := 5

  /**
   * A raw value as `float()` sees it: missing, or the outcome of the
   * conversion, `None` standing for the `TypeError` or `ValueError`.
   */
  datatype RawReal = MissingReal | ConvertedReal(value: Option<real>)

  /** A raw value as `int()` sees it: missing, a whole number, a float (truncated towards zero) or a text. */
  datatype RawInt = MissingInt | WholeInt(n: int) | FloatInt(x: real) | TextInt(text: string)

  /** `_clamp_google_places_min_rating`: into [0, 5], with 4.0 for a missing or unreadable value. */
  function MinRating(raw: RawReal): (r: real)
    ensures 0.0 <= r <= 5.0
    ensures raw.MissingReal? || (raw.ConvertedReal? && raw.value.None?) ==> r == DefaultMinRating
    ensures raw.ConvertedReal? && raw.value.Some? && 0.0 <= raw.value.value <= 5.0 ==> r == raw.value.value
    ensures raw.ConvertedReal? && raw.value.Some? && raw.value.value > 5.0 ==> r == 5.0
    ensures raw.ConvertedReal? && raw.value.Some? && raw.value.value < 0.0 ==> r == 0.0
  {
    var numeric := if raw.ConvertedReal? && raw.value.Some? then raw.value.value else DefaultMinRating;
    var low := if numeric > 0.0 then numeric else 0.0;
    if low < 5.0 then low else 5.0
  }

  /** `int(value)`, `None` for the `ValueError` of a text that is not an integer. */
  function IntOf(raw: RawInt): (r: Option<int>)
    requires !raw.MissingInt?
    ensures raw.WholeInt? ==> r == Some(raw.n)
    ensures raw.FloatInt? ==> r == Some(Trunc(raw.x))
  {
    match raw
    case WholeInt(n) => Some(n)
    case FloatInt(x) => Some(Trunc(x))
    case TextInt(text) => ParseInt(text)
  }

  /** `_clamp_google_places_llm_rerank_max_candidates`: into [1, 10], with 5 for a missing or unreadable value. */
  function MaxCandidates(raw: RawInt): (r: int)
    ensures 1 <= r <= 10
    ensures raw.MissingInt? || IntOf(raw).None? ==> r == DefaultMaxCandidates
    ensures !raw.MissingInt? && IntOf(raw).Some? ==> r == Min(10, Max(1, IntOf(raw).value))
  {
    var numeric := if raw.MissingInt? then DefaultMaxCandidates
                   else var n := IntOf(raw); if n.Some? then n.value else DefaultMaxCandidates;
    Min(10, Max(1, numeric))
  }

  /** Clamping keeps a value already in range and is idempotent. */
  lemma MaxCandidatesClamp(n: int)
    ensures 1 <= n <= 10 ==> MaxCandidates(WholeInt(n)) == n
    ensures MaxCandidates(WholeInt(MaxCandidates(WholeInt(n)))) == MaxCandidates(WholeInt(n))
  {
  }

  /** A text `int()` reads as an integer in range is taken as that integer. */
  lemma MaxCandidatesText(text: string, n: int)
    requires ParseInt(text) == Some(n) && 1 <= n <= 10
    ensures MaxCandidates(TextInt(text)) == n
  {
  }
}
