/**
 * The calibration endpoints of main.py (the global dictionary `trim_settings`),
 * their compiled defaults, the ordering check applied before they are saved,
 * and the per-key fallback that seeds them from the persisted configuration.
 */
module Settings {

  /** The six endpoints; keys `full_up`, `neutral`, `full_down`,
      `rudder_left`, `rudder_neutral` and `rudder_right`. */
  datatype TrimSettings = TrimSettings(
    fullUp: int, neutral: int, fullDown: int,
    rudderLeft: int, rudderNeutral: int, rudderRight: int)

  /** The persisted configuration as `config.load` returns it: a flat map. */
  type Config = map<string, int>

  /** `trim_default` of main.py. */
  const TRIM_DEFAULT := TrimSettings(-100, 0, 100, -100, 0, 100)

  /** Neutral strictly between the two other endpoints of one axis, in either direction. */
  predicate AxisOrdered(neutral: int, plusEnd: int, minusEnd: int) {
    minusEnd > neutral > plusEnd || minusEnd < neutral < plusEnd
  }

  /** The sanity check of the trim axis: neutral strictly between the extremes. */
  predicate TrimOrdered(s: TrimSettings) {
    s.fullDown > s.neutral > s.fullUp || s.fullDown < s.neutral < s.fullUp
  }

  /** The sanity check of the rudder axis. */
  predicate RudderOrdered(s: TrimSettings) {
    s.rudderLeft > s.rudderNeutral > s.rudderRight || s.rudderLeft < s.rudderNeutral < s.rudderRight
  }

  /** Python's `dict.get(key, default)`. */
  function Get(c: Config, key: string, default: int): int {
    if key in c then c[key] else default
  }

  /** The start of `main`: each endpoint comes from the configuration if its key
      is present there and from `trim_default` otherwise. */
  function LoadSettings(c: Config): (s: TrimSettings)
    ensures "full_up" in c ==> s.fullUp == c["full_up"]
    ensures "full_up" !in c ==> s.fullUp == TRIM_DEFAULT.fullUp
    ensures "neutral" in c ==> s.neutral == c["neutral"]
    ensures "neutral" !in c ==> s.neutral == TRIM_DEFAULT.neutral
    ensures "full_down" in c ==> s.fullDown == c["full_down"]
    ensures "full_down" !in c ==> s.fullDown == TRIM_DEFAULT.fullDown
    ensures "rudder_left" in c ==> s.rudderLeft == c["rudder_left"]
    ensures "rudder_left" !in c ==> s.rudderLeft == TRIM_DEFAULT.rudderLeft
    ensures "rudder_neutral" in c ==> s.rudderNeutral == c["rudder_neutral"]
    ensures "rudder_neutral" !in c ==> s.rudderNeutral == TRIM_DEFAULT.rudderNeutral
    ensures "rudder_right" in c ==> s.rudderRight == c["rudder_right"]
    ensures "rudder_right" !in c ==> s.rudderRight == TRIM_DEFAULT.rudderRight
  {
    TrimSettings(
      Get(c, "full_up", TRIM_DEFAULT.fullUp),
      Get(c, "neutral", TRIM_DEFAULT.neutral),
      Get(c, "full_down", TRIM_DEFAULT.fullDown),
      Get(c, "rudder_left", TRIM_DEFAULT.rudderLeft),
      Get(c, "rudder_neutral", TRIM_DEFAULT.rudderNeutral),
      Get(c, "rudder_right", TRIM_DEFAULT.rudderRight))
  }

  /** The dictionary handed to `config.save`: exactly the six keys. */
  function ToConfig(s: TrimSettings): (c: Config)
    ensures c.Keys == {"full_up", "neutral", "full_down", "rudder_left", "rudder_neutral", "rudder_right"}
    ensures c["full_up"] == s.fullUp && c["neutral"] == s.neutral && c["full_down"] == s.fullDown
    ensures c["rudder_left"] == s.rudderLeft && c["rudder_neutral"] == s.rudderNeutral
    ensures c["rudder_right"] == s.rudderRight
  {
    map["full_up" := s.fullUp, "neutral" := s.neutral, "full_down" := s.fullDown,
        "rudder_left" := s.rudderLeft, "rudder_neutral" := s.rudderNeutral,
        "rudder_right" := s.rudderRight]
  }

  /** Loading what was saved gives back the saved endpoints. */
  lemma LoadAfterSave(s: TrimSettings)
    ensures LoadSettings(ToConfig(s)) == s
  {
  }

  /** A missing or empty configuration file yields the compiled defaults,
      and the defaults pass both sanity checks. */
  lemma LoadEmpty()
    ensures LoadSettings(map[]) == TRIM_DEFAULT
    ensures TrimOrdered(TRIM_DEFAULT) && RudderOrdered(TRIM_DEFAULT)
  {
  }
}
