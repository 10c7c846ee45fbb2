/** The quarter calculator (utils.ts): the current quarter of the year in
    13-week blocks, and the quarter after it. The clock is not read here:
    the zero-based day of the year, the weekday of January 1st and the year
    are parameters. */
module Utils {

  /** What `Date.prototype.getDay` returns: 0 (Sunday) to 6 (Saturday). */
  type Weekday = w: int | 0 <= w <= 6

  /** What the program reads from the clock: the zero-based day of the
      year, the weekday of January 1st and the year. */
  datatype Clock = Clock(dayOfYear: nat, startWeekday: Weekday, year: int)

  datatype QuarterInfo = QuarterInfo(currentQuarter: int, nextQuarter: int, currentYear: int, nextQuarterYear: int)

  /** Quarters counted from year 0, so that consecutive quarters have
      consecutive indices across a year boundary. */
  function QuarterIndex(year: int, quarter: int): int {
    4 * year + (quarter - 1)
  }

  /** `Math.ceil((dayOfYear + startWeekday + 1) / 7)`: the 1-based week of
      the year, weeks starting on the weekday of January 1st's week. */
  function WeekOfYear(dayOfYear: nat, startWeekday: Weekday): (week: int)
    ensures week >= 1
    ensures 7 * (week - 1) < dayOfYear + startWeekday + 1 <= 7 * week
  {
    (dayOfYear + startWeekday + 1 + 6) / 7
  }

  /** `Math.min(4, Math.ceil(week / 13))`. */
  function QuarterOfWeek(week: int): (q: int)
    requires week >= 1
    ensures 1 <= q <= 4
    ensures q == 1 <==> week <= 13
    ensures q == 2 <==> 14 <= week <= 26
    ensures q == 3 <==> 27 <= week <= 39
    ensures q == 4 <==> week >= 40
  {
    var blocks := (week + 12) / 13;
    if blocks < 4 then blocks else 4
  }

  /** `getCurrentQuarterInfo`, with the clock injected. */
  function CurrentQuarterInfo(dayOfYear: nat, startWeekday: Weekday, year: int): (info: QuarterInfo)
    ensures 1 <= info.currentQuarter <= 4 && 1 <= info.nextQuarter <= 4
    ensures info.currentYear == year
    ensures QuarterIndex(info.nextQuarterYear, info.nextQuarter)
            == QuarterIndex(info.currentYear, info.currentQuarter) + 1
  {
    var currentQuarter := QuarterOfWeek(WeekOfYear(dayOfYear, startWeekday));
    if currentQuarter == 4 then QuarterInfo(currentQuarter, 1, year, year + 1)
    else QuarterInfo(currentQuarter, currentQuarter + 1, year, year)
  }

  /** The next quarter wraps from 4 to 1, and its year moves on exactly then. */
  lemma NextQuarterWraps(dayOfYear: nat, startWeekday: Weekday, year: int)
    ensures var info := CurrentQuarterInfo(dayOfYear, startWeekday, year);
            && info.nextQuarter == (if info.currentQuarter == 4 then 1 else info.currentQuarter + 1)
            && (info.nextQuarterYear == year + 1 <==> info.currentQuarter == 4)
            && (info.nextQuarterYear == year <==> info.currentQuarter != 4)
  {
  }

  /** The quarter read off the day of the year: Q4 begins once the day and
      the start weekday add up to 273, that is in week 40. */
  lemma QuarterByDay(dayOfYear: nat, startWeekday: Weekday, year: int)
    ensures var q := CurrentQuarterInfo(dayOfYear, startWeekday, year).currentQuarter;
            && (q == 1 <==> dayOfYear + startWeekday <= 90)
            && (q == 2 <==> 91 <= dayOfYear + startWeekday <= 181)
            && (q == 3 <==> 182 <= dayOfYear + startWeekday <= 272)
            && (q == 4 <==> dayOfYear + startWeekday >= 273)
  {
  }

  /** January 1st is in Q1 and looks ahead to Q2 of the same year. */
  lemma FirstDayOfYear(startWeekday: Weekday, year: int)
    ensures CurrentQuarterInfo(0, startWeekday, year) == QuarterInfo(1, 2, year, year)
  {
  }

  /** The last day of a year (364 in a common year, 365 in a leap year) is in
      Q4 and looks ahead to Q1 of the following year. */
  lemma LastDayOfYear(dayOfYear: nat, startWeekday: Weekday, year: int)
    requires dayOfYear == 364 || dayOfYear == 365
    ensures CurrentQuarterInfo(dayOfYear, startWeekday, year) == QuarterInfo(4, 1, year, year + 1)
  {
  }

  /** For a fixed year, later days never fall in an earlier quarter. */
  lemma QuarterMonotone(day1: nat, day2: nat, startWeekday: Weekday, year: int)
    requires day1 <= day2
    ensures CurrentQuarterInfo(day1, startWeekday, year).currentQuarter
            <= CurrentQuarterInfo(day2, startWeekday, year).currentQuarter
  {
    QuarterByDay(day1, startWeekday, year);
    QuarterByDay(day2, startWeekday, year);
  }
}
