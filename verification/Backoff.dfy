/** The reconnect policy shared by internal/stream/client_connect.go and internal/tunnelagent/client.go. */
module Backoff {
  import opened Common

  datatype Policy = Policy(initial: int, max: int, multiplier: real)

  const DEFAULT: Policy := Policy(SECOND, 300 * SECOND, 2.0)

  /** Without an initial interval the whole default policy applies. */
  function Effective(p: Policy): Policy {
    if p.initial <= 0 then DEFAULT else p
  }

  function Factor(p: Policy): real {
    if p.multiplier <= 1.0 then 2.0 else p.multiplier
  }

  function Ceiling(p: Policy): int {
    if p.max <= 0 then DEFAULT.max else p.max
  }

  function NextDelay(current: int, p: Policy): int {
    var next := (current as real * Factor(p)).Floor;
    if next > Ceiling(p) then Ceiling(p) else next
  }

  /** The delay after k failures in a row. */
  function DelayAfter(p: Policy, k: nat): int {
    if k == 0 then p.initial else NextDelay(DelayAfter(p, k - 1), p)
  }

  function Pow(m: nat, k: nat): nat {
    if k == 0 then 1 else m * Pow(m, k - 1)
  }

  lemma {:induction false} PowPositive(m: nat, k: nat)
    requires m >= 1
    ensures Pow(m, k) >= 1
  {
    if k > 0 {
      PowPositive(m, k - 1);
      AtLeastOnce(m, Pow(m, k - 1));
    }
  }

  lemma AtLeastOnce(x: nat, y: nat)
    requires y >= 1
    ensures x * y >= x
  {
  }

  lemma PowStep(x: nat, m: nat, k: nat)
    ensures x * Pow(m, k) * m == x * Pow(m, k + 1)
  {
    var y := Pow(m, k);
    assert x * y * m == x * (m * y);
  }

  lemma WholeFactor(p: Policy, m: nat, x: nat)
    requires Factor(p) == m as real
    ensures NextDelay(x, p) == Min(Ceiling(p), x * m)
  {
    assert x as real * m as real == (x * m) as real;
  }

  /** One step of the policy on a capped geometric sequence. */
  lemma CappedStep(p: Policy, m: nat, x: nat)
    requires m >= 2 && Factor(p) == m as real
    ensures NextDelay(Min(Ceiling(p), x), p) == Min(Ceiling(p), x * m)
  {
    var c: nat := Ceiling(p);
    WholeFactor(p, m, Min(c, x));
    AtLeastOnce(c, m);
    AtLeastOnce(x, m);
  }

  lemma {:induction false} CappedPower(p: Policy, m: nat, k: nat)
    requires m >= 2 && Factor(p) == m as real && p.initial > 0
    ensures DelayAfter(p, k) == if k == 0 then p.initial else Min(Ceiling(p), p.initial * Pow(m, k))
  {
    if k > 0 {
      CappedPower(p, m, k - 1);
      PowStep(p.initial, m, k - 1);
      if k == 1 {
        WholeFactor(p, m, p.initial);
      } else {
        CappedStep(p, m, p.initial * Pow(m, k - 1));
      }
    }
  }

  /** With a whole-number multiplier, or none, which means two, the delay after k failures is the power capped at the
      maximum, or at five minutes where none is set; only the very first delay may exceed it, when the policy's
      initial interval does. */
  lemma DelayClosedForm(p: Policy, m: nat, k: nat)
    requires p.initial > 0 && m >= 2 && (p.multiplier == m as real || (p.multiplier <= 1.0 && m == 2))
    ensures var cap := if p.max > 0 then p.max else 300 * SECOND;
            DelayAfter(p, k) == if k == 0 then p.initial else Min(cap, p.initial * Pow(m, k))
  {
    CappedPower(p, m, k);
  }

  lemma FloorIsBelow(x: real)
    ensures x.Floor as real <= x < x.Floor as real + 1.0
  {
  }

  /** With any multiplier above one a delay is the previous one scaled, to the nanosecond, or the maximum. */
  lemma DelaysScale(p: Policy, k: nat)
    requires p.multiplier > 1.0 && p.max > 0
    ensures var next, scaled := DelayAfter(p, k + 1), DelayAfter(p, k) as real * p.multiplier;
            next <= p.max && (next == p.max || next as real <= scaled < next as real + 1.0)
  {
    var current := DelayAfter(p, k);
    var scaled := current as real * p.multiplier;
    FloorIsBelow(scaled);
    assert DelayAfter(p, k + 1) == NextDelay(current, p) == if scaled.Floor > p.max then p.max else scaled.Floor;
  }

  /** time.Duration(float64(d) * share). */
  function Scaled(delay: int, share: real): int {
    (delay as real * share).Floor
  }

  /** A wait drawn between half of the delay and all of it; `draw` is the uniform sample in [0, 1). */
  function Jitter(delay: int, draw: real): int {
    Scaled(delay, 0.5 + draw * 0.5)
  }

  lemma ScaledDown(d: real, share: real) returns (x: real)
    requires d > 0.0 && 0.5 <= share < 1.0
    ensures x == d * share && d * 0.5 <= x < d
  {
    x := d * share;
    assert d * (share - 0.5) >= 0.0 && d * (1.0 - share) > 0.0;
  }

  lemma HalfFits(delay: nat)
    ensures (delay / 2) as real <= delay as real * 0.5
  {
    var half := delay / 2;
    assert half + half <= delay;
    assert (half + half) as real == half as real + half as real;
  }

  lemma FloorBetween(x: real, lo: int, hi: int)
    requires lo as real <= x < hi as real
    ensures lo <= x.Floor < hi
  {
  }

  lemma ScaledBounds(delay: nat, share: real)
    requires delay > 0 && 0.5 <= share < 1.0
    ensures delay / 2 <= Scaled(delay, share) < delay
  {
    var x := ScaledDown(delay as real, share);
    HalfFits(delay);
    FloorBetween(x, delay / 2, delay);
  }

  lemma JitterBounds(delay: int, draw: real)
    requires delay > 0 && 0.0 <= draw < 1.0
    ensures delay / 2 <= Jitter(delay, draw) < delay
  {
    ScaledBounds(delay, 0.5 + draw * 0.5);
  }

  /** The share of d that w is. */
  lemma ShareOf(d: real, w: real) returns (x: real)
    requires d > 0.0
    ensures d * x == w
  {
    x := w / d;
  }

  lemma PositiveFactor(d: real, r: real)
    requires d > 0.0 && d * r > 0.0
    ensures r > 0.0
  {
  }

  lemma BelowOne(d: real, x: real, w: real)
    requires d > 0.0 && d * x == w && w < d
    ensures x < 1.0
  {
    assert d * (1.0 - x) == d - d * x;
    PositiveFactor(d, 1.0 - x);
  }

  lemma AtLeastHalf(d: real, x: real, w: real)
    requires d > 0.0 && d * x == w && d <= w + w
    ensures x >= 0.5
  {
    assert d * (x + x - 1.0) == w + w - d;
  }

  /** The jitter spreads over the whole range: every wait from half of the delay up to all of it can be drawn. */
  lemma JitterReaches(delay: nat, wait: nat) returns (draw: real)
    requires delay > 0 && delay <= 2 * wait && wait < delay
    ensures 0.0 <= draw < 1.0 && Jitter(delay, draw) == wait
  {
    var d, w := delay as real, wait as real;
    var x := ShareOf(d, w);
    assert (wait + wait) as real == w + w;
    BelowOne(d, x, w);
    AtLeastHalf(d, x, w);
    draw := x + x - 1.0;
    assert 0.5 + draw * 0.5 == x;
  }

  // ----- sessions

  datatype Cause = Rotation | Failure

  /** One session as seen by the supervising loop: whether it was established, when the link went up and
      down, why it ended, the jitter draw, and whether shutdown was requested by then or
      before the next session. */
  datatype Session = Session(established: bool, upAt: int, downAt: int, cause: Cause, draw: real,
                             shutdown: bool, shutdownInWait: bool)

  /** Session ends that were not rotations, since the start or the last rotation. */
  function Streak(sessions: seq<Session>, j: nat): nat
    requires j <= |sessions|
  {
    if j == 0 || sessions[j - 1].cause.Rotation? then 0 else Streak(sessions, j - 1) + 1
  }

  /** The waits between sessions: none after a rotation, otherwise a jittered delay for the current streak. */
  ghost predicate FollowsPolicy(p: Policy, sessions: seq<Session>, waits: seq<Option<int>>) {
    && |waits| <= |sessions|
    && forall j :: 0 <= j < |waits| ==>
         waits[j] == if sessions[j].cause.Rotation? then None
                     else Some(Jitter(DelayAfter(Effective(p), Streak(sessions, j)), sessions[j].draw))
  }

  /** The last k sessions before j failed, and the one before them, if any, was a rotation. */
  predicate FailedInARow(sessions: seq<Session>, j: nat, k: nat)
    requires k <= j <= |sessions|
  {
    (forall i :: j - k <= i < j ==> sessions[i].cause.Failure?) && (k < j ==> sessions[j - k - 1].cause.Rotation?)
  }

  lemma {:induction false} StreakIs(sessions: seq<Session>, j: nat, k: nat)
    requires k <= j <= |sessions| && FailedInARow(sessions, j, k)
    ensures Streak(sessions, j) == k
    decreases k
  {
    if k > 0 { StreakIs(sessions, j - 1, k - 1); }
  }

  /** Every wait after a failure lies between half and all of min(max, initial times m to the k), where k counts the
      failures since the start or the last rotation; a policy without an initial interval is one second doubling up
      to five minutes. */
  lemma WaitsAreJitteredPowers(p: Policy, m: nat, sessions: seq<Session>, waits: seq<Option<int>>, j: nat, k: nat)
    requires FollowsPolicy(p, sessions, waits) && k <= j < |waits| && FailedInARow(sessions, j, k)
    requires sessions[j].cause.Failure? && 0.0 <= sessions[j].draw < 1.0
    requires p.initial > 0 ==> m >= 2 && (p.multiplier == m as real || (p.multiplier <= 1.0 && m == 2))
    requires p.initial <= 0 ==> m == 2
    requires p.initial > 0 && p.max > 0 ==> p.initial <= p.max
    requires p.initial > 0 && p.max <= 0 ==> p.initial <= 300 * SECOND
    ensures var initial := if p.initial > 0 then p.initial else SECOND;
            var cap := if p.initial > 0 && p.max > 0 then p.max else 300 * SECOND;
            var delay := Min(cap, initial * Pow(m, k));
            waits[j].Some? && delay / 2 <= waits[j].value <= delay
  {
    var e := Effective(p);
    StreakIs(sessions, j, k);
    DelayClosedForm(e, m, k);
    PowPositive(m, k);
    AtLeastOnce(e.initial, Pow(m, k));
    JitterBounds(DelayAfter(e, k), sessions[j].draw);
  }

  /** After a rotation the next session follows at once. */
  lemma RotationsDoNotWait(p: Policy, sessions: seq<Session>, waits: seq<Option<int>>, j: nat)
    requires FollowsPolicy(p, sessions, waits) && j < |waits|
    ensures waits[j] == None <==> sessions[j].cause.Rotation?
  {
  }
}
