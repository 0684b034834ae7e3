/**
 * The two text helpers of a post card: the content excerpt and the
 * relative age shown beside the author.
 */
module PostCard {
  import opened Wrappers
  import Decimal

  const ExcerptLength: nat := 200

  /**
   * `post.content ? post.content.substring(0, 200) + (long ? '...' : '') : ''`:
   * absent or empty content gives no excerpt, content of at most 200
   * characters is shown whole, longer content is cut to 200 characters
   * followed by an ellipsis.
   */
  function Excerpt(content: Option<string>): (r: string)
    ensures r == "" <==> content.None? || content.value == ""
    ensures content.Some? && |content.value| <= ExcerptLength ==> r == content.value
    ensures content.Some? && |content.value| > ExcerptLength ==>
              |r| == ExcerptLength + 3 && r[..ExcerptLength] == content.value[..ExcerptLength] && r[ExcerptLength..] == "..."
    ensures |r| <= ExcerptLength + 3
  {
    match content
    case None => ""
    case Some(c) =>
      if c == "" then ""
      else if |c| > ExcerptLength then c[..ExcerptLength] + "..."
      else c
  }

  const MinuteMs := 60000
  const HourMs := 3600000
  const DayMs := 86400000

  /** The bucket `formatDate` picks, with the count it shows. */
  datatype Age = MinutesAgo(minutes: int) | HoursAgo(hours: int) | DaysAgo(days: int) | OnDate

  /**
   * As the source computes it: the three floor quotients, then the first
   * of them below its unit's limit. `Math.floor` of a quotient by a
   * positive divisor is Dafny's `/` on `int`. `diffMs` is `now - date` in
   * milliseconds, None when it is NaN (an unparsable date), for which every
   * comparison in the source is false.
   */
  function RelativeAge(diffMs: Option<int>): (r: Age)
    ensures r.MinutesAgo? ==> r.minutes < 60
    ensures r.HoursAgo? ==> 1 <= r.hours < 24
    ensures r.DaysAgo? ==> 1 <= r.days < 7
    ensures diffMs.None? ==> r.OnDate?
  {
    match diffMs
    case None => OnDate
    case Some(d) =>
      var diffMins := d / MinuteMs;
      var diffHours := d / HourMs;
      var diffDays := d / DayMs;
      if diffMins < 60 then MinutesAgo(diffMins)
      else if diffHours < 24 then HoursAgo(diffHours)
      else if diffDays < 7 then DaysAgo(diffDays)
      else OnDate
  }

  /**
   * The buckets in terms of the difference itself: under an hour gives
   * whole minutes, under a day whole hours (1 to 23), under a week whole
   * days (1 to 6), and anything older, or unparsable, the absolute date.
   */
  lemma {:induction false} RelativeAgeBuckets(diffMs: Option<int>)
    ensures diffMs.Some? && diffMs.value < 3600000 <==> RelativeAge(diffMs).MinutesAgo?
    ensures diffMs.Some? && 3600000 <= diffMs.value < 86400000 <==> RelativeAge(diffMs).HoursAgo?
    ensures diffMs.Some? && 86400000 <= diffMs.value < 604800000 <==> RelativeAge(diffMs).DaysAgo?
    ensures diffMs.None? || diffMs.value >= 604800000 <==> RelativeAge(diffMs).OnDate?
    ensures RelativeAge(diffMs).MinutesAgo? ==>
              RelativeAge(diffMs).minutes == diffMs.value / 60000 && RelativeAge(diffMs).minutes < 60
    ensures RelativeAge(diffMs).HoursAgo? ==>
              RelativeAge(diffMs).hours == diffMs.value / 3600000 && 1 <= RelativeAge(diffMs).hours < 24
    ensures RelativeAge(diffMs).DaysAgo? ==>
              RelativeAge(diffMs).days == diffMs.value / 86400000 && 1 <= RelativeAge(diffMs).days < 7
  {
    if diffMs.Some? {
      var d := diffMs.value;
      FloorBelow(d, MinuteMs, 60);
      FloorBelow(d, HourMs, 24);
      FloorBelow(d, DayMs, 7);
    }
  }

  /** `Math.floor(d / unit) < limit` exactly when `d < unit * limit`. */
  lemma FloorBelow(d: int, unit: int, limit: int)
    requires unit > 0
    ensures d / unit < limit <==> d < unit * limit
  {
    var q, m := d / unit, d % unit;
    assert d == unit * q + m && 0 <= m < unit;
    if q < limit {
      assert unit * q <= unit * (limit - 1) by { MulMonotone(unit, q, limit - 1); }
    } else {
      assert unit * limit <= unit * q by { MulMonotone(unit, limit, q); }
    }
  }

  lemma MulMonotone(unit: int, a: int, b: int)
    requires unit > 0 && a <= b
    ensures unit * a <= unit * b
  {
    assert unit * b - unit * a == unit * (b - a);
  }

  /**
   * The text `formatDate` returns: `${n}m ago`, `${n}h ago`, `${n}d ago`,
   * or the locale date string, which is left abstract as `localeDate`.
   */
  function FormatDate(diffMs: Option<int>, localeDate: string): (r: string)
    ensures RelativeAge(diffMs).OnDate? ==> r == localeDate
    ensures !RelativeAge(diffMs).OnDate? ==> |r| >= 6 && r[|r| - 4..] == " ago"
    ensures RelativeAge(diffMs).MinutesAgo? ==> r == Decimal.IntToString(RelativeAge(diffMs).minutes) + "m ago"
    ensures RelativeAge(diffMs).HoursAgo? ==> r == Decimal.IntToString(RelativeAge(diffMs).hours) + "h ago"
    ensures RelativeAge(diffMs).DaysAgo? ==> r == Decimal.IntToString(RelativeAge(diffMs).days) + "d ago"
  {
    match RelativeAge(diffMs)
    case MinutesAgo(n) => Decimal.IntToString(n) + "m ago"
    case HoursAgo(n) => Decimal.IntToString(n) + "h ago"
    case DaysAgo(n) => Decimal.IntToString(n) + "d ago"
    case OnDate => localeDate
  }

  /** The unit a relative age's letter stands for, in milliseconds. */
  function UnitMs(letter: char): int
  {
    if letter == 'm' then MinuteMs else if letter == 'h' then HourMs else DayMs
  }

  /**
   * A difference under a week reads back from the card: the text is a
   * number, a unit letter and " ago"; the letter is m under an hour, h under
   * a day and d otherwise, and the number is the difference in whole units
   * of that letter; a week or more, or an unparsable date,
   * shows the locale date.
   */
  lemma FormatDateReadsBack(diffMs: Option<int>, localeDate: string)
    ensures diffMs.None? || diffMs.value >= 604800000 ==> FormatDate(diffMs, localeDate) == localeDate
    ensures diffMs.Some? && diffMs.value < 604800000 ==>
              var r := FormatDate(diffMs, localeDate);
              var number := r[..|r| - 5];
              |r| >= 6 && r[|r| - 4..] == " ago" &&
              r[|r| - 5] == (if diffMs.value < 3600000 then 'm' else if diffMs.value < 86400000 then 'h' else 'd') &&
              Decimal.AllDigits(if number[0] == '-' then number[1..] else number) &&
              Decimal.ParseInt(number) == diffMs.value / UnitMs(r[|r| - 5])
  {
    RelativeAgeBuckets(diffMs);
    if diffMs.Some? && diffMs.value < 604800000 {
      var r := FormatDate(diffMs, localeDate);
      var age := RelativeAge(diffMs);
      var n := match age
        case MinutesAgo(m) => m
        case HoursAgo(h) => h
        case DaysAgo(dd) => dd
        case OnDate => 0;
      var letter := if age.MinutesAgo? then 'm' else if age.HoursAgo? then 'h' else 'd';
      Decimal.IntToStringRoundTrip(n);
      assert r == Decimal.IntToString(n) + [letter] + " ago";
      assert r[..|r| - 5] == Decimal.IntToString(n);
    }
  }
}
