/** Hourly rate-limit windows: the Redis key and the deferral arithmetic. */
module Windows {
  import opened Types

  /** `WINDOW_TTL_SECONDS`. */
  const WINDOW_TTL: nat := 2 * HOUR

  /** A counter of the limiter: one recipient in one hour of the clock. */
  datatype Window = Window(recipient: string, hour: int)

  function HourOf(t: int): int { t / HOUR }

  /** `int((next_window - now).total_seconds()) + 1`, with `next_window` the top
      of the next hour. */
  function SecondsUntilNextWindow(now: int): int {
    var nextWindow := HourOf(now) * HOUR + HOUR;
    (nextWindow - now) / SECOND + 1
  }

  /** How far past the top of the next hour the delay computed at `now` ends, when
      counted from `now`. */
  function Overrun(now: int): int {
    now + SecondsUntilNextWindow(now) * SECOND - (HourOf(now) + 1) * HOUR
  }

  /** Waiting the delay computed at an instant, from that instant on, ends just
      after the top of the next hour, and never more than a second into it. */
  lemma DelaysEndInTheNextWindow(now: int)
    ensures 0 < Overrun(now) <= SECOND
    ensures HourOf(now + SecondsUntilNextWindow(now) * SECOND) == HourOf(now) + 1
  {
    var next := HourOf(now) * HOUR + HOUR;
    var gap := next - now;
    assert 0 < gap <= HOUR;
    assert gap == gap / SECOND * SECOND + gap % SECOND;
    var later := now + SecondsUntilNextWindow(now) * SECOND;
    assert next < later <= next + SECOND;
    assert HourOf(later) == HourOf(now) + 1 by {
      assert later == (HourOf(now) + 1) * HOUR + (later - next);
    }
  }

  /** The fields `%Y%m%d%H` prints: four digits, then three pairs. */
  datatype Stamp = Stamp(year: nat, month: nat, day: nat, hour: nat) {
    predicate Printable() {
      year < 10_000 && month < 100 && day < 100 && hour < 100
    }
  }

  function Digit(n: nat): char
    requires n < 10
  {
    (n + '0' as int) as char
  }

  /** `n` in decimal, zero-padded to `width` digits. */
  function Padded(n: nat, width: nat): (s: string)
    ensures |s| == width
  {
    if width == 0 then "" else Padded(n / 10, width - 1) + [Digit(n % 10)]
  }

  function Power10(width: nat): nat {
    if width == 0 then 1 else 10 * Power10(width - 1)
  }

  lemma {:induction false} PaddedIsInjective(m: nat, n: nat, width: nat)
    requires m < Power10(width) && n < Power10(width)
    requires Padded(m, width) == Padded(n, width)
    ensures m == n
  {
    if width > 0 {
      var a, b := Padded(m / 10, width - 1), Padded(n / 10, width - 1);
      assert a == Padded(m, width)[..width - 1] == Padded(n, width)[..width - 1] == b;
      assert Digit(m % 10) == Padded(m, width)[width - 1] == Padded(n, width)[width - 1] == Digit(n % 10);
      PaddedIsInjective(m / 10, n / 10, width - 1);
    }
  }

  function Printed(h: Stamp): (s: string)
    ensures |s| == 10
  {
    Padded(h.year, 4) + Padded(h.month, 2) + Padded(h.day, 2) + Padded(h.hour, 2)
  }

  lemma PrintedIsInjective(g: Stamp, h: Stamp)
    requires g.Printable() && h.Printable()
    requires Printed(g) == Printed(h)
    ensures g == h
  {
    var p, q := Printed(g), Printed(h);
    assert Power10(2) == 10 * Power10(1) == 100;
    assert Power10(4) == 10 * Power10(3) == 10_000;
    assert Padded(g.year, 4) == p[..4] == q[..4] == Padded(h.year, 4);
    assert Padded(g.month, 2) == p[4..6] == q[4..6] == Padded(h.month, 2);
    assert Padded(g.day, 2) == p[6..8] == q[6..8] == Padded(h.day, 2);
    assert Padded(g.hour, 2) == p[8..] == q[8..] == Padded(h.hour, 2);
    PaddedIsInjective(g.year, h.year, 4);
    PaddedIsInjective(g.month, h.month, 2);
    PaddedIsInjective(g.day, h.day, 2);
    PaddedIsInjective(g.hour, h.hour, 2);
  }

  /** `f"ratelimit:{recipient}:{now:%Y%m%d%H}"`. */
  function WindowKey(recipient: string, h: Stamp): string {
    "ratelimit:" + recipient + ":" + Printed(h)
  }

  /** Two windows share a Redis counter only if they are the same window, whatever
      characters, colons included, the recipients contain. */
  lemma WindowsNeverShareAKey(r: string, g: Stamp, q: string, h: Stamp)
    requires g.Printable() && h.Printable()
    ensures WindowKey(r, g) == WindowKey(q, h) <==> r == q && g == h
  {
    if WindowKey(r, g) == WindowKey(q, h) {
      var k, l := WindowKey(r, g), WindowKey(q, h);
      assert r == k[10..|k| - 11] == l[10..|l| - 11] == q;
      assert Printed(g) == k[|k| - 10..] == l[|l| - 10..] == Printed(h);
      PrintedIsInjective(g, h);
    }
  }
}
