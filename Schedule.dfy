/**
 * Day/night scheduling of the stream handler: a `mode` query override wins,
 * otherwise the UK wall-clock hour decides, night lasting from 19:00 to 07:00.
 */
module Schedule {
  import opened Wrappers

  /** An hour of the day as a clock shows it (what Date.getHours returns). */
  type Hour = h: int | 0 <= h < 24

  datatype Mode = Day | Night

  /** The first hour of the night and the first hour of the next day. */
  const NIGHT_START: Hour := 19
  const DAY_START: Hour := 7

  /**
   * Reference definition of the night window, independent of how the handler
   * tests it: the hours elapsed since NIGHT_START, counted around the clock,
   * are fewer than the hours from NIGHT_START round to DAY_START.
   */
  predicate InNightWindow(hour: Hour) {
    (hour - NIGHT_START) % 24 < (DAY_START - NIGHT_START) % 24
  }

  /** The handler's choice of mode for a `mode` query value and the current UK hour. */
  function SelectMode(modeParam: Option<string>, hour: Hour): (m: Mode)
    ensures modeParam == Some("night") ==> m == Night
    ensures modeParam == Some("day") ==> m == Day
    ensures modeParam != Some("night") && modeParam != Some("day") ==>
              (m == Night <==> InNightWindow(hour))
  {
    if modeParam == Some("night") then Night
    else if modeParam == Some("day") then Day
    else if hour >= 19 || hour < 7 then Night
    else Day
  }

  /** `?mode=night` forces night mode around the clock: this only names, for callers, an instance of the first ensures of SelectMode. */
  lemma ForcedNight(hour: Hour)
    ensures SelectMode(Some("night"), hour) == Night
  {
  }

  /** `?mode=day` forces day mode around the clock: this only names, for callers, an instance of the second ensures of SelectMode. */
  lemma ForcedDay(hour: Hour)
    ensures SelectMode(Some("day"), hour) == Day
  {
  }

  /** Without an override that names a mode, the hours 07:00 to 18:59 are day and the rest night. */
  lemma ScheduledMode(modeParam: Option<string>, hour: Hour)
    requires modeParam != Some("night") && modeParam != Some("day")
    ensures SelectMode(modeParam, hour) == Day <==> DAY_START <= hour < NIGHT_START
    ensures SelectMode(modeParam, hour) == Night <==> hour >= NIGHT_START || hour < DAY_START
  {
  }

  /** The night window holds twelve of the day's twenty-four hours. */
  lemma NightWindowHours()
    ensures (set h: Hour | InNightWindow(h)) == {19, 20, 21, 22, 23, 0, 1, 2, 3, 4, 5, 6}
  {
  }
}
