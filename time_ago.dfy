/**
 * `formatTimeAgo`, written identically on the achievements page and in the
 * achievements panel: whole hours since a moment, bucketed into hours (below one
 * day), days (below one week) and weeks, rendered as "{n}h ago", "{n}d ago" or
 * "{n}w ago". Times are milliseconds; the current time is a parameter.
 */
module TimeAgo {
  import opened Text

  const HourMs: int := 1000 * 60 * 60

  /** `Math.floor((now - past) / 3600000)`: negative when `past` lies in the future. */
  function HoursSince(now: int, past: int): (h: int)
    ensures h * HourMs <= now - past < (h + 1) * HourMs
  {
    (now - past) / HourMs
  }

  datatype Elapsed = Hours(n: int) | Days(n: int) | Weeks(n: int)

  /** The three buckets are disjoint and cover every hour count, negative ones included. */
  function Bucket(h: int): (e: Elapsed)
    ensures e.Hours? <==> h < 24
    ensures e.Days? <==> 24 <= h < 168
    ensures e.Weeks? <==> 168 <= h
    ensures e.Hours? ==> e.n == h
    ensures e.Days? ==> 1 <= e.n <= 6 && e.n * 24 <= h < (e.n + 1) * 24
    ensures e.Weeks? ==> 1 <= e.n && e.n * 168 <= h < (e.n + 1) * 168
  {
    if h < 24 then Hours(h)
    else if h < 168 then Days(h / 24)
    else Weeks(h / 168)
  }

  function Unit(e: Elapsed): string {
    match e
    case Hours(_) => "h ago"
    case Days(_) => "d ago"
    case Weeks(_) => "w ago"
  }

  /** The unit is read off the elapsed milliseconds: hours below a day, days below a week, then weeks. */
  function FormatTimeAgo(now: int, past: int): (r: string)
    ensures |r| > 5
    ensures r[|r| - 5..] == "h ago" <==> now - past < 24 * HourMs
    ensures r[|r| - 5..] == "d ago" <==> 24 * HourMs <= now - past < 168 * HourMs
    ensures r[|r| - 5..] == "w ago" <==> 168 * HourMs <= now - past
  {
    var e := Bucket(HoursSince(now, past));
    IntToString(e.n) + Unit(e)
  }

  /** Flooring twice is flooring once by the product of the divisors (`b` is 24 or 168). */
  lemma FloorOfFloor(x: int, b: int)
    requires b == 24 || b == 168
    ensures (x / HourMs) / b == x / (b * HourMs)
  {
    var q := x / HourMs;
    var q2 := q / b;
    assert b * q2 <= q < b * q2 + b;
    assert HourMs * q <= x < HourMs * q + HourMs;
    if b == 24 {
      assert 24 * HourMs * q2 <= x < 24 * HourMs * q2 + 24 * HourMs;
    } else {
      assert 168 * HourMs * q2 <= x < 168 * HourMs * q2 + 168 * HourMs;
    }
  }

  /**
   * The rendering read off the elapsed milliseconds `d`: below a day the count is
   * whole hours, below a week whole days, otherwise whole weeks.
   */
  lemma FormatTimeAgoMeaning(now: int, past: int)
    ensures var d, r := now - past, FormatTimeAgo(now, past);
      && |r| > 5
      && (d < 24 * HourMs ==> r == IntToString(d / HourMs) + "h ago")
      && (24 * HourMs <= d < 168 * HourMs ==>
            r == IntToString(d / (24 * HourMs)) + "d ago" && 1 <= d / (24 * HourMs) <= 6)
      && (168 * HourMs <= d ==> r == IntToString(d / (168 * HourMs)) + "w ago" && d / (168 * HourMs) >= 1)
  {
    var d, h := now - past, HoursSince(now, past);
    FloorOfFloor(d, 24);
    FloorOfFloor(d, 168);
    if d < 24 * HourMs {
      assert h < 24;
    } else if d < 168 * HourMs {
      assert 24 <= h < 168;
    } else {
      assert 168 <= h;
    }
  }
}
