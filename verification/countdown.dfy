/** The hero countdown. Every second it takes the distance in milliseconds
    to the conclave's start; a negative distance stops the timer and leaves
    the display as it was, any other is split into days, hours, minutes and
    seconds. */
module Countdown {

  const MsPerSecond: int := 1000
  /** `1000 * 60` */
  const MsPerMinute: int := 60000
  /** `1000 * 60 * 60` */
  const MsPerHour: int := 3600000
  /** `1000 * 60 * 60 * 24` */
  const MsPerDay: int := 86400000

  datatype TimeLeft = TimeLeft(days: int, hours: int, minutes: int, seconds: int)

  /** The display before the first tick. */
  const InitialTimeLeft: TimeLeft := TimeLeft(0, 0, 0, 0)

  /** Every component in its clock range. */
  predicate Bounded(t: TimeLeft) {
    0 <= t.days && 0 <= t.hours < 24 && 0 <= t.minutes < 60 && 0 <= t.seconds < 60
  }

  /** The whole seconds a display stands for. */
  function TotalSeconds(t: TimeLeft): int {
    ((t.days * 24 + t.hours) * 60 + t.minutes) * 60 + t.seconds
  }

  /** The milliseconds a display stands for. */
  function Recompose(t: TimeLeft): int {
    t.days * MsPerDay + t.hours * MsPerHour + t.minutes * MsPerMinute + t.seconds * MsPerSecond
  }

  /** A positive multiple of `m` is at least `m`. */
  lemma MultipleAtLeast(k: int, m: int)
    requires k >= 1 && m > 0
    ensures k * m >= m
  {
    assert k * m == (k - 1) * m + m;
    assert (k - 1) * m >= 0;
  }

  /** `x / m` and `x % m` are the only quotient and remainder. */
  lemma DivModUnique(x: int, m: int, q: int, r: int)
    requires m > 0 && x == q * m + r && 0 <= r < m
    ensures x / m == q && x % m == r
  {
    var q', r' := x / m, x % m;
    assert x == q' * m + r';
    if q' > q {
      assert (q' - q) * m == q' * m - q * m;
      MultipleAtLeast(q' - q, m);
      assert false;
    } else if q' < q {
      assert (q - q') * m == q * m - q' * m;
      MultipleAtLeast(q - q', m);
      assert false;
    }
  }

  /** The split the hero performs, with `Math.floor` of a non-negative
      quotient as integer division. */
  function Decompose(distance: nat): (t: TimeLeft)
    ensures Bounded(t)
    ensures Recompose(t) <= distance < Recompose(t) + MsPerSecond
    ensures TotalSeconds(t) == distance / MsPerSecond
  {
    var days := distance / MsPerDay;
    var hours := (distance % MsPerDay) / MsPerHour;
    var minutes := (distance % MsPerHour) / MsPerMinute;
    var seconds := (distance % MsPerMinute) / MsPerSecond;
    var t := TimeLeft(days, hours, minutes, seconds);
    DecomposeFacts(distance, t);
    t
  }

  lemma DecomposeFacts(d: nat, t: TimeLeft)
    requires t.days == d / MsPerDay
    requires t.hours == (d % MsPerDay) / MsPerHour
    requires t.minutes == (d % MsPerHour) / MsPerMinute
    requires t.seconds == (d % MsPerMinute) / MsPerSecond
    ensures Bounded(t)
    ensures Recompose(t) <= d < Recompose(t) + MsPerSecond
    ensures TotalSeconds(t) == d / MsPerSecond
  {
    var a := d % MsPerDay;
    assert d == t.days * MsPerDay + a;
    var b := a % MsPerHour;
    assert a == t.hours * MsPerHour + b;
    assert 0 <= t.hours < 24;
    DivModUnique(d, MsPerHour, t.days * 24 + t.hours, b);
    var c := b % MsPerMinute;
    assert b == t.minutes * MsPerMinute + c;
    assert 0 <= t.minutes < 60;
    DivModUnique(d, MsPerMinute, (t.days * 24 + t.hours) * 60 + t.minutes, c);
    var e := c % MsPerSecond;
    assert c == t.seconds * MsPerSecond + e;
    assert 0 <= t.seconds < 60;
    assert d == Recompose(t) + e;
    assert Recompose(t) == TotalSeconds(t) * MsPerSecond;
    DivModUnique(d, MsPerSecond, TotalSeconds(t), e);
  }

  /** A bounded display is determined by its whole seconds. */
  lemma TotalSecondsInjective(t: TimeLeft, u: TimeLeft)
    requires Bounded(t) && Bounded(u) && TotalSeconds(t) == TotalSeconds(u)
    ensures t == u
  {
  }

  /** The split is the only bounded display whose value is within a second
      below the distance. */
  lemma DecomposeUnique(distance: nat, t: TimeLeft)
    requires Bounded(t) && Recompose(t) <= distance < Recompose(t) + MsPerSecond
    ensures t == Decompose(distance)
  {
    var n := TotalSeconds(t);
    assert Recompose(t) == n * MsPerSecond;
    DivModUnique(distance, MsPerSecond, n, distance - Recompose(t));
    var u := Decompose(distance);
    assert TotalSeconds(u) == n;
    TotalSecondsInjective(t, u);
  }

  /** The display before the first tick is what a zero distance shows. */
  lemma InitialIsZeroDistance()
    ensures Bounded(InitialTimeLeft) && Recompose(InitialTimeLeft) == 0
    ensures InitialTimeLeft == Decompose(0)
  {
    DecomposeUnique(0, InitialTimeLeft);
  }

  /** Lexicographic order on `(days, hours, minutes, seconds)`. */
  predicate LexLess(t: TimeLeft, u: TimeLeft) {
    || t.days < u.days
    || (t.days == u.days && t.hours < u.hours)
    || (t.days == u.days && t.hours == u.hours && t.minutes < u.minutes)
    || (t.days == u.days && t.hours == u.hours && t.minutes == u.minutes && t.seconds < u.seconds)
  }

  lemma LexLessIffFewerSeconds(t: TimeLeft, u: TimeLeft)
    requires Bounded(t) && Bounded(u)
    ensures LexLess(t, u) <==> TotalSeconds(t) < TotalSeconds(u)
  {
  }

  /** A larger distance never shows a smaller display. */
  lemma DecomposeMonotone(d1: nat, d2: nat)
    requires d1 <= d2
    ensures !LexLess(Decompose(d2), Decompose(d1))
  {
  }

  /** What one tick of the interval does. */
  datatype TickResult = TickResult(timeLeft: TimeLeft, cleared: bool)

  /** The interval callback at clock reading `now` (milliseconds) against
      the start instant `target`; both come from the host's clock. */
  function Tick(target: int, now: int, current: TimeLeft): (r: TickResult)
    ensures r.cleared <==> now > target
    ensures now > target ==> r.timeLeft == current
    ensures now <= target ==>
              Bounded(r.timeLeft) && Recompose(r.timeLeft) <= target - now < Recompose(r.timeLeft) + MsPerSecond
  {
    var distance := target - now;
    if distance < 0 then TickResult(current, true) else TickResult(Decompose(distance), false)
  }
}
