// Shared vocabulary: optional values, clock constants and a few facts about finite sets.
module Basics {
  datatype Option<+T> = None | Some(value: T)

  // Instants and durations are whole milliseconds since the epoch, as in a JavaScript Date.
  type Time = int

  const SECOND_MS := 1_000
  const MINUTE_MS := 60_000
  const HOUR_MS := 3_600_000
  const DAY_MS := 86_400_000

  function Max(a: int, b: int): int {
    if a < b then b else a
  }

  function Min(a: int, b: int): int {
    if a < b then a else b
  }

  // JavaScript's Math.round and Math.ceil on the values the scheduler rounds.
  function Round(x: real): int {
    (x + 0.5).Floor
  }

  function Ceil(x: real): int {
    -((-x).Floor)
  }

  lemma SubsetCardinality<T>(a: set<T>, b: set<T>)
    requires a <= b
    ensures |a| <= |b|
    ensures a != b ==> |a| < |b|
  {
    assert b == a + (b - a);
  }

  lemma SomeMember<T>(s: set<T>) returns (x: T)
    requires |s| > 0
    ensures x in s
  {
    x :| x in s;
  }
}

// The post-graduation campaign ramp (apps/worker/src/campaignCap.ts). 1.2 to the power of a number
// of days is exact here, where the code uses floating point.
module CampaignCap {
  import opened Basics

  const RAMP_START := 5.0
  const RAMP_GROWTH := 1.2

  function Pow(base: real, n: nat): (r: real)
    requires base >= 1.0
    ensures r >= 1.0
  {
    if n == 0 then 1.0 else base * Pow(base, n - 1)
  }

  function CampaignCapToday(dailyCap: nat, graduatedAt: Option<Time>, now: Time): nat {
    if graduatedAt.None? then dailyCap
    else
      var days: nat := Max(0, (now - graduatedAt.value) / DAY_MS);
      Min(dailyCap, Ceil(RAMP_START * Pow(RAMP_GROWTH, days)))
  }

  lemma {:induction false} PowGrows(m: nat, n: nat)
    requires m <= n
    ensures Pow(RAMP_GROWTH, m) <= Pow(RAMP_GROWTH, n)
  {
    if m < n {
      PowGrows(m, n - 1);
    }
  }

  // The ramp never turns back, and never passes the mailbox's own limit.
  lemma CapGrows(dailyCap: nat, graduatedAt: Option<Time>, t: Time, u: Time)
    requires t <= u
    ensures CampaignCapToday(dailyCap, graduatedAt, t) <= CampaignCapToday(dailyCap, graduatedAt, u) <= dailyCap
  {
    if graduatedAt.Some? {
      PowGrows(Max(0, (t - graduatedAt.value) / DAY_MS), Max(0, (u - graduatedAt.value) / DAY_MS));
    }
  }

  // A mailbox the engine graduated starts at 5 a day, with 6, 8 and 9 on the days after; one that the
  // customer activated by hand has its own limit from the start.
  lemma CapStart(dailyCap: nat, graduatedAt: Time)
    ensures CampaignCapToday(dailyCap, Some(graduatedAt), graduatedAt) == Min(dailyCap, 5)
    ensures CampaignCapToday(dailyCap, Some(graduatedAt), graduatedAt + DAY_MS) == Min(dailyCap, 6)
    ensures CampaignCapToday(dailyCap, Some(graduatedAt), graduatedAt + 2 * DAY_MS) == Min(dailyCap, 8)
    ensures CampaignCapToday(dailyCap, Some(graduatedAt), graduatedAt + 3 * DAY_MS) == Min(dailyCap, 9)
    ensures CampaignCapToday(dailyCap, None, graduatedAt) == dailyCap
  {
    assert Pow(RAMP_GROWTH, 0) == 1.0;
    assert Pow(RAMP_GROWTH, 1) == 1.2;
    assert Pow(RAMP_GROWTH, 2) == 1.44;
    assert Pow(RAMP_GROWTH, 3) == 1.728;
  }

  lemma RampTo(dailyCap: nat, graduatedAt: Time, now: Time, days: nat)
    requires now == graduatedAt + days * DAY_MS
    ensures CampaignCapToday(dailyCap, Some(graduatedAt), now) == Min(dailyCap, Ceil(RAMP_START * Pow(RAMP_GROWTH, days)))
  {
    WholeDays(now - graduatedAt, days);
    hide Pow, Ceil;
  }

  lemma WholeDays(ms: int, days: nat)
    requires ms == days * DAY_MS
    ensures ms / DAY_MS == days
  {
  }

  lemma FourDaysOn(days: nat)
    ensures Pow(RAMP_GROWTH, days + 1) == 1.2 * Pow(RAMP_GROWTH, days)
    ensures Pow(RAMP_GROWTH, days + 4) == 2.0736 * Pow(RAMP_GROWTH, days)
  {
    assert Pow(RAMP_GROWTH, days + 4) == 1.2 * Pow(RAMP_GROWTH, days + 3);
    assert Pow(RAMP_GROWTH, days + 3) == 1.2 * Pow(RAMP_GROWTH, days + 2);
    assert Pow(RAMP_GROWTH, days + 2) == 1.2 * Pow(RAMP_GROWTH, days + 1);
  }

  // Each day adds a fifth, up to the rounding, and four days double it, until the limit is reached.
  lemma CapGrowsByAFifth(dailyCap: nat, graduatedAt: Time, days: nat)
    ensures var now := graduatedAt + days * DAY_MS;
            var cap := CampaignCapToday(dailyCap, Some(graduatedAt), now);
            var next := CampaignCapToday(dailyCap, Some(graduatedAt), now + DAY_MS);
            var later := CampaignCapToday(dailyCap, Some(graduatedAt), now + 4 * DAY_MS);
            && cap >= Min(dailyCap, 5)
            && (next < dailyCap ==> 6 * (cap - 1) < 5 * next < 6 * cap + 5)
            && (later < dailyCap ==> later >= 2 * cap - 2)
  {
    hide CampaignCapToday, Pow;
    var now := graduatedAt + days * DAY_MS;
    RampTo(dailyCap, graduatedAt, now, days);
    RampTo(dailyCap, graduatedAt, now + DAY_MS, days + 1);
    RampTo(dailyCap, graduatedAt, now + 4 * DAY_MS, days + 4);
    FourDaysOn(days);
  }
}

// When a mailbox's next slot falls (apps/worker/src/computeNextSlotSeconds.ts and the spread gap
// of apps/worker/src/enqueuer.ts). Random draws are parameters in [0, 1).
module SlotTiming {
  import opened Basics

  const CADENCE_FLOOR_MS := 8 * MINUTE_MS
  const JITTER_BASE_SECONDS := 240.0
  const JITTER_RANGE_SECONDS := 240.0
  const NOISE_RANGE_SECONDS := 90.0
  const MIN_DELAY_SECONDS := 30
  const SPREAD_VARIANCE := 0.2
  const RESERVATION_TTL_PADDING_SECONDS := 120

  datatype Draws = Draws(jitter: real, noise: real, spread: real)

  predicate ValidDraws(d: Draws) {
    0.0 <= d.jitter < 1.0 && 0.0 <= d.noise < 1.0 && 0.0 <= d.spread < 1.0
  }

  // The later of the last real send and the slot already booked, when there is either.
  function Anchor(lastSentAt: Option<Time>, pendingAt: Option<Time>): Option<Time> {
    if lastSentAt.None? then pendingAt
    else if pendingAt.None? then lastSentAt
    else Some(Max(lastSentAt.value, pendingAt.value))
  }

  // After the pause, with the jitter and the noise.
  function Jittered(anchor: Option<Time>, now: Time, pace: nat, d: Draws): real {
    var start := if anchor.Some? then Max(now, anchor.value + CADENCE_FLOOR_MS * pace) else now;
    var jitterSeconds := JITTER_BASE_SECONDS + d.jitter * JITTER_RANGE_SECONDS;
    var noiseSeconds := (d.noise * 2.0 - 1.0) * NOISE_RANGE_SECONDS;
    start as real + (jitterSeconds * pace as real + noiseSeconds) * 1000.0
  }

  function Varied(spreadMs: real, d: Draws): real {
    spreadMs * (1.0 - SPREAD_VARIANCE + d.spread * 2.0 * SPREAD_VARIANCE)
  }

  function Candidate(anchor: Option<Time>, now: Time, spreadMs: real, pace: nat, d: Draws): real {
    var jittered := Jittered(anchor, now, pace, d);
    if anchor.Some? && spreadMs > 0.0 then
      var spaced := anchor.value as real + Varied(spreadMs, d);
      if jittered < spaced then spaced else jittered
    else jittered
  }

  function NextSlotSeconds(
    lastSentAt: Option<Time>, now: Time, pendingAt: Option<Time>, spreadMs: real, pace: nat, d: Draws): int
  {
    var candidate := Candidate(Anchor(lastSentAt, pendingAt), now, spreadMs, pace, d);
    Max(MIN_DELAY_SECONDS, Round((candidate - now as real) / 1000.0))
  }

  // The gap a slot keeps after a real send, and after a slot already booked.
  function PaceGap(pace: nat): int {
    CADENCE_FLOOR_MS * pace
  }

  // The least jitter, 150 s, less the half second rounding may take back.
  const LEAST_JITTER_MS := 149_500

  // Whatever is drawn, a slot clears the last send and the booked slot by the floor and the least
  // jitter, so by more than the 120 s a reservation outlives its slot.
  lemma SlotClearsAnchor(
    lastSentAt: Option<Time>, now: Time, pendingAt: Option<Time>, spreadMs: real, pace: nat, d: Draws)
    requires ValidDraws(d) && (pace == 1 || pace == 2)
    ensures var slot := now + NextSlotSeconds(lastSentAt, now, pendingAt, spreadMs, pace, d) * 1000;
            && (lastSentAt.Some? ==> slot >= lastSentAt.value + PaceGap(pace) + LEAST_JITTER_MS)
            && (pendingAt.Some? ==> slot >= pendingAt.value + PaceGap(pace) + LEAST_JITTER_MS)
            && slot >= now + MIN_DELAY_SECONDS * 1000
  {
    var candidate := Candidate(Anchor(lastSentAt, pendingAt), now, spreadMs, pace, d);
    JitterBounds(Anchor(lastSentAt, pendingAt), now, spreadMs, pace, d);
    assert (candidate - now as real) / 1000.0 * 1000.0 == candidate - now as real;
  }

  lemma JitterBounds(anchor: Option<Time>, now: Time, spreadMs: real, pace: nat, d: Draws)
    requires ValidDraws(d) && (pace == 1 || pace == 2)
    ensures Candidate(anchor, now, spreadMs, pace, d) >= now as real + 150_000.0
    ensures anchor.Some? ==>
      Candidate(anchor, now, spreadMs, pace, d) >= (anchor.value + PaceGap(pace)) as real + 150_000.0
  {
    JitterRange(anchor, now, pace, d);
    hide Jittered, Varied;
  }

  lemma JitterRange(anchor: Option<Time>, now: Time, pace: nat, d: Draws)
    requires ValidDraws(d) && (pace == 1 || pace == 2)
    ensures var start := if anchor.Some? then Max(now, anchor.value + PaceGap(pace)) else now;
            start as real + 150_000.0 <= Jittered(anchor, now, pace, d)
              <= start as real + (480_000 * pace) as real + 90_000.0
  {
    assert 240.0 <= JITTER_BASE_SECONDS + d.jitter * JITTER_RANGE_SECONDS <= 480.0;
    assert -90.0 <= (d.noise * 2.0 - 1.0) * NOISE_RANGE_SECONDS <= 90.0;
  }

  // With no window to spread over, a slot is at most about 17 minutes away, 34 at half pace.
  const LONGEST_UNSPREAD_SECONDS := 2_011

  lemma UnspreadSlotIsSoon(lastSentAt: Option<Time>, now: Time, pendingAt: Option<Time>, pace: nat, d: Draws)
    requires ValidDraws(d) && (pace == 1 || pace == 2)
    requires lastSentAt.Some? ==> lastSentAt.value <= now
    requires pendingAt.Some? ==> pendingAt.value <= now
    ensures NextSlotSeconds(lastSentAt, now, pendingAt, 0.0, pace, d) <= LONGEST_UNSPREAD_SECONDS
    ensures NextSlotSeconds(lastSentAt, now, pendingAt, 0.0, pace, d) <= 960 * pace + 91
  {
    JitterRange(Anchor(lastSentAt, pendingAt), now, pace, d);
    hide Jittered;
  }

  // A spread slot is the gap, give or take a fifth, past the last send and past the slot already
  // booked; and no later than the gap or the pause and the jitter make it past both and past `now`.
  lemma SlotIsSpread(
    lastSentAt: Option<Time>, now: Time, pendingAt: Option<Time>, spreadMs: real, pace: nat, d: Draws, latest: Time)
    requires ValidDraws(d) && (pace == 1 || pace == 2) && spreadMs > 0.0
    requires now <= latest && (lastSentAt.Some? ==> lastSentAt.value <= latest)
    requires pendingAt.Some? ==> pendingAt.value <= latest
    ensures var slot := (now + NextSlotSeconds(lastSentAt, now, pendingAt, spreadMs, pace, d) * 1000) as real;
            && (lastSentAt.Some? ==> slot >= lastSentAt.value as real + 0.8 * spreadMs - 500.0)
            && (pendingAt.Some? ==> slot >= pendingAt.value as real + 0.8 * spreadMs - 500.0)
            && (slot <= latest as real + 1.2 * spreadMs + 500.0
                || slot <= latest as real + (960_000 * pace) as real + 90_500.0)
  {
    hide Candidate, ValidDraws;
    var anchor := Anchor(lastSentAt, pendingAt);
    var candidate := Candidate(anchor, now, spreadMs, pace, d);
    CandidateIsSpread(anchor, now, spreadMs, pace, d, latest);
    JitterBounds(anchor, now, spreadMs, pace, d);
    assert (candidate - now as real) / 1000.0 * 1000.0 == candidate - now as real;
  }

  lemma CandidateIsSpread(anchor: Option<Time>, now: Time, spreadMs: real, pace: nat, d: Draws, latest: Time)
    requires ValidDraws(d) && (pace == 1 || pace == 2) && spreadMs > 0.0
    requires now <= latest && (anchor.Some? ==> anchor.value <= latest)
    ensures var candidate := Candidate(anchor, now, spreadMs, pace, d);
            && (anchor.Some? ==> candidate >= anchor.value as real + 0.8 * spreadMs)
            && (candidate <= latest as real + 1.2 * spreadMs
                || candidate <= latest as real + (960_000 * pace) as real + 90_000.0)
  {
    SpreadRange(spreadMs, d);
    JitterRange(anchor, now, pace, d);
    hide Jittered, Varied, ValidDraws;
  }

  lemma SpreadRange(spreadMs: real, d: Draws)
    requires ValidDraws(d) && spreadMs > 0.0
    ensures 0.8 * spreadMs <= Varied(spreadMs, d) <= 1.2 * spreadMs
  {
    Between(spreadMs, 1.0 - SPREAD_VARIANCE + d.spread * 2.0 * SPREAD_VARIANCE);
  }

  lemma Between(x: real, f: real)
    requires x > 0.0 && 0.8 <= f <= 1.2
    ensures 0.8 * x <= x * f <= 1.2 * x
  {
  }

  // The gap that spreads what a mailbox has left over what is left of the window; 0 with no window.
  function SpreadGapMs(msLeft: Option<int>, dailyCap: nat, stillCountedAtClose: nat): real {
    if msLeft.None? || msLeft.value <= 0 then 0.0
    else msLeft.value as real / Max(1, dailyCap - stillCountedAtClose) as real
  }

  // As many gaps as the mailbox has sends left fill what is left of the window exactly.
  lemma GapsFillTheWindow(msLeft: int, dailyCap: nat, stillCountedAtClose: nat)
    ensures msLeft > 0 && stillCountedAtClose < dailyCap ==>
      SpreadGapMs(Some(msLeft), dailyCap, stillCountedAtClose) * (dailyCap - stillCountedAtClose) as real == msLeft as real
    ensures msLeft > 0 && stillCountedAtClose >= dailyCap ==>
      SpreadGapMs(Some(msLeft), dailyCap, stillCountedAtClose) == msLeft as real
    ensures SpreadGapMs(None, dailyCap, stillCountedAtClose) == 0.0
  {
    if stillCountedAtClose < dailyCap {
      Shares(msLeft as real, (dailyCap - stillCountedAtClose) as real);
    }
  }

  lemma Shares(total: real, n: real)
    requires n > 0.0
    ensures total / n * n == total
    ensures total > 0.0 ==> total / n > 0.0
  {
  }

  lemma SpreadIsPositive(msLeft: int, dailyCap: nat, stillCountedAtClose: nat)
    requires msLeft > 0
    ensures SpreadGapMs(Some(msLeft), dailyCap, stillCountedAtClose) > 0.0
  {
    Shares(msLeft as real, Max(1, dailyCap - stillCountedAtClose) as real);
  }
}

// Send windows (packages/db/src/sendSchedule.ts and apps/worker/src/sendWindow.ts).
//
// A time zone is how far its wall clock is ahead of UTC at each instant. Local dates are day
// numbers counted from 1 January 1970, a Thursday.
module SendSchedule {
  import opened Basics

  const MINUTES_PER_DAY := 1440

  datatype Zone = Zone(off: Time -> int)

  // The zones the runtime knows, by IANA name.
  type ZoneTable = map<string, Zone>

  datatype Schedule = Schedule(timezone: string, days: seq<int>, startMinute: int, endMinute: int)

  // `msLeft` is None for "never closes" (no schedule).
  datatype WindowState = WindowState(
    open: bool, msLeft: Option<int>, closesAt: Option<Time>, nextOpenAt: Option<Time>)

  const ALWAYS_OPEN := WindowState(true, None, None, None)
  const CLOSED_FOR_GOOD := WindowState(false, Some(0), None, None)

  // ----- Wall clocks -----

  function Wall(z: Zone, at: Time): int {
    at + z.off(at)
  }

  function LocalDay(z: Zone, at: Time): int {
    Wall(z, at) / DAY_MS
  }

  function LocalMinute(z: Zone, at: Time): int {
    Wall(z, at) % DAY_MS / MINUTE_MS
  }

  function Weekday(day: int): int {
    (day + 4) % 7
  }

  function WallOf(day: int, minute: int): int {
    day * DAY_MS + minute * MINUTE_MS
  }

  // The instant a local wall-clock time happens: a first guess from the offset at the wall time
  // read as UTC, then a second pass with the offset found at the guess.
  function ZonedInstant(z: Zone, wall: int): Time {
    var guess := wall - z.off(wall);
    wall - z.off(guess)
  }

  // ----- What is known of a zone -----

  const MAX_OFFSET := 16 * HOUR_MS
  const REACH := 4 * MAX_OFFSET

  // Around `c` the zone's clock changes once, at `t`, from offset `a` to offset `b` (a == b: not at all).
  ghost predicate ChangesAt(z: Zone, c: Time, t: Time, a: int, b: int) {
    forall x :: c - REACH <= x <= c + REACH ==> z.off(x) == if x < t then a else b
  }

  ghost predicate OneChangeNear(z: Zone, c: Time) {
    exists t, a, b :: ChangesAt(z, c, t, a, b)
  }

  ghost predicate Bounded(z: Zone) {
    forall x :: -MAX_OFFSET <= z.off(x) <= MAX_OFFSET
  }

  ghost predicate Regular(z: Zone) {
    Bounded(z) && forall c :: OneChangeNear(z, c)
  }

  // The wall clock reads `wall` at some instant, or at exactly one.
  ghost predicate Happens(z: Zone, wall: int) {
    exists i :: Wall(z, i) == wall
  }

  ghost predicate HappensOnceAt(z: Zone, wall: int, i: Time) {
    Wall(z, i) == wall && forall j :: Wall(z, j) == wall ==> j == i
  }

  ghost predicate HappensOnce(z: Zone, wall: int) {
    exists i :: HappensOnceAt(z, wall, i)
  }

  // ----- Two-pass inversion -----

  // Every wall time that exists, ambiguous ones included, is read back exactly.
  lemma InversionExact(z: Zone, wall: int)
    requires Bounded(z) && OneChangeNear(z, wall)
    ensures Wall(z, ZonedInstant(z, wall)) == wall <==> Happens(z, wall)
  {
    var t, a, b :| ChangesAt(z, wall, t, a, b);
    if Happens(z, wall) {
      var i :| Wall(z, i) == wall;
      assert z.off(i) == if i < t then a else b;
      assert z.off(wall) == if wall < t then a else b;
      var guess := wall - z.off(wall);
      assert z.off(guess) == if guess < t then a else b;
      var r := wall - z.off(guess);
      assert z.off(r) == if r < t then a else b;
    }
  }

  // A wall time skipped by a change at `t` is missed by exactly the width of the gap: it lands
  // after the change when the zone had already changed at that reading of the UTC clock, and one
  // gap-width before the requested reading, before the change, when it had not.
  lemma GapMissesByItsWidth(z: Zone, wall: int, t: Time, a: int, b: int)
    requires Bounded(z) && ChangesAt(z, wall, t, a, b)
    requires t + a <= wall < t + b
    ensures !Happens(z, wall)
    ensures wall < t ==> ZonedInstant(z, wall) < t && Wall(z, ZonedInstant(z, wall)) == wall - (b - a)
    ensures wall >= t ==> ZonedInstant(z, wall) >= t && Wall(z, ZonedInstant(z, wall)) == wall + (b - a)
  {
    forall i ensures Wall(z, i) != wall {
      if wall - REACH <= i <= wall + REACH {
        assert z.off(i) == if i < t then a else b;
      }
    }
    assert z.off(wall) == if wall < t then a else b;
    var guess := wall - z.off(wall);
    assert z.off(guess) == if guess < t then a else b;
    var r := wall - z.off(guess);
    assert z.off(r) == if r < t then a else b;
  }

  // The documented "lands just after the gap" holds exactly when the UTC clock reading the wall
  // time is at or past the change, which zones west of UTC never meet.
  lemma LandsAfterGapIff(z: Zone, wall: int, t: Time, a: int, b: int)
    requires Bounded(z) && ChangesAt(z, wall, t, a, b)
    requires t + a <= wall < t + b
    ensures ZonedInstant(z, wall) >= t <==> wall >= t
  {
    GapMissesByItsWidth(z, wall, t, a, b);
  }

  // West of UTC it never does, east of it always.
  lemma GapWestAndEast(z: Zone, wall: int, t: Time, a: int, b: int)
    requires Bounded(z) && ChangesAt(z, wall, t, a, b)
    requires t + a <= wall < t + b
    ensures b <= 0 ==> ZonedInstant(z, wall) < t
    ensures a >= 0 ==> ZonedInstant(z, wall) >= t
  {
    LandsAfterGapIff(z, wall, t, a, b);
  }

  // New York's clock around a spring change: offset -5h before the change, -4h from it on.
  const NEW_YORK := Zone((x: Time) => if x < 0 then -5 * HOUR_MS else -4 * HOUR_MS)

  // Asked for half past two on a New York spring night, the code answers half past one.
  lemma NewYorkLandsBeforeGap()
    ensures var wall := -5 * HOUR_MS + 30 * MINUTE_MS;
            && !Happens(NEW_YORK, wall)
            && ZonedInstant(NEW_YORK, wall) < 0
            && Wall(NEW_YORK, ZonedInstant(NEW_YORK, wall)) == wall - HOUR_MS
  {
    var wall := -5 * HOUR_MS + 30 * MINUTE_MS;
    assert ChangesAt(NEW_YORK, wall, 0, -5 * HOUR_MS, -4 * HOUR_MS);
    GapMissesByItsWidth(NEW_YORK, wall, 0, -5 * HOUR_MS, -4 * HOUR_MS);
  }

  // A wall time that happens once splits the whole time line: before it, smaller readings.
  lemma OnceSplits(z: Zone, wall: int, x: Time)
    requires Regular(z) && HappensOnce(z, wall)
    ensures Wall(z, ZonedInstant(z, wall)) == wall
    ensures x >= ZonedInstant(z, wall) <==> Wall(z, x) >= wall
  {
    assert OneChangeNear(z, wall);
    var once :| HappensOnceAt(z, wall, once);
    InversionExact(z, wall);
    var i := ZonedInstant(z, wall);
    assert Wall(z, i) == wall;
    var t, a, b :| ChangesAt(z, wall, t, a, b);
    assert -MAX_OFFSET <= z.off(i) <= MAX_OFFSET;
    assert -MAX_OFFSET <= z.off(x) <= MAX_OFFSET;
    if wall - REACH <= x <= wall + REACH {
      assert z.off(x) == if x < t then a else b;
      assert z.off(i) == if i < t then a else b;
      // Each candidate reading of `wall`, before and after the change, is `i` or does not exist.
      var before, after := wall - a, wall - b;
      assert -MAX_OFFSET <= z.off(wall) <= MAX_OFFSET;
      if wall - REACH <= before <= wall + REACH {
        assert z.off(before) == if before < t then a else b;
        assert before < t ==> Wall(z, before) == wall;
      }
      if wall - REACH <= after <= wall + REACH {
        assert z.off(after) == if after < t then a else b;
        assert after >= t ==> Wall(z, after) == wall;
      }
    }
  }

  // ----- Window state -----

  predicate ValidSchedule(s: Schedule) {
    && |s.days| > 0
    && (forall i :: 0 <= i < |s.days| ==> 0 <= s.days[i] <= 6)
    && 0 <= s.startMinute < s.endMinute <= MINUTES_PER_DAY
  }

  function OpensAt(z: Zone, s: Schedule, day: int): Time {
    ZonedInstant(z, WallOf(day, s.startMinute))
  }

  function ClosesAt(z: Zone, s: Schedule, day: int): Time {
    ZonedInstant(z, WallOf(day, s.endMinute))
  }

  // The walk over local days from `offset` days after today.
  function WalkFrom(z: Zone, s: Schedule, now: Time, offset: nat): (w: WindowState)
    ensures w.open ==> w.closesAt.Some? && now < w.closesAt.value && w.msLeft == Some(w.closesAt.value - now)
    ensures w.open ==> w.nextOpenAt.None?
    ensures !w.open ==> w.closesAt.None? && w.msLeft == Some(0)
    decreases 8 - offset
  {
    if offset > 7 then CLOSED_FOR_GOOD
    else
      var day := LocalDay(z, now) + offset;
      if Weekday(day) !in s.days || now >= ClosesAt(z, s, day) then WalkFrom(z, s, now, offset + 1)
      else if now >= OpensAt(z, s, day) then
        var closes := ClosesAt(z, s, day);
        WindowState(true, Some(closes - now), Some(closes), None)
      else WindowState(false, Some(0), None, Some(OpensAt(z, s, day)))
  }

  // The zone a window is read in: the one asked for when the runtime knows it, else the schedule's.
  function ZoneFor(zones: ZoneTable, s: Schedule, timezone: string): Zone
    requires s.timezone in zones
  {
    if timezone in zones then zones[timezone] else zones[s.timezone]
  }

  function WindowAt(zones: ZoneTable, schedule: Option<Schedule>, now: Time, timezone: string): WindowState
    requires schedule.Some? ==> schedule.value.timezone in zones
  {
    if schedule.None? then ALWAYS_OPEN
    else WalkFrom(ZoneFor(zones, schedule.value, timezone), schedule.value, now, 0)
  }

  method ComputeWindow(zones: ZoneTable, schedule: Option<Schedule>, now: Time, timezone: string)
    returns (w: WindowState)
    requires schedule.Some? ==> schedule.value.timezone in zones
    ensures w == WindowAt(zones, schedule, now, timezone)
    ensures schedule.None? ==> w.open && w.msLeft.None? && w.closesAt.None?
    ensures schedule.Some? && timezone in zones ==> w == WalkFrom(zones[timezone], schedule.value, now, 0)
    ensures schedule.Some? && timezone !in zones ==>
      w == WalkFrom(zones[schedule.value.timezone], schedule.value, now, 0)
  {
    if schedule.None? {
      return ALWAYS_OPEN;
    }
    w := WalkDays(ZoneFor(zones, schedule.value, timezone), schedule.value, now);
  }

  // The days are walked one by one, as the code does, stopping at the first that decides.
  method WalkDays(z: Zone, s: Schedule, now: Time) returns (w: WindowState)
    ensures w == WalkFrom(z, s, now, 0)
  {
    hide LocalDay, OpensAt, ClosesAt, Weekday;
    var days := set d | d in s.days;
    if days == {} {
      forall d ensures d !in s.days { assert d !in days; }
      NoDayTicked(z, s, now, 0);
      return CLOSED_FOR_GOOD;
    }
    var today := LocalDay(z, now);
    var offset := 0;
    while offset <= 7
      invariant 0 <= offset <= 8
      invariant WalkFrom(z, s, now, 0) == WalkFrom(z, s, now, offset)
    {
      var day := today + offset;
      if Weekday(day) in days {
        var opensAt := OpensAt(z, s, day);
        var closesAt := ClosesAt(z, s, day);
        if now < closesAt {
          if now >= opensAt {
            return WindowState(true, Some(closesAt - now), Some(closesAt), None);
          }
          return WindowState(false, Some(0), None, Some(opensAt));
        }
      }
      offset := offset + 1;
    }
    return CLOSED_FOR_GOOD;
  }

  lemma {:induction false} NoDayTicked(z: Zone, s: Schedule, now: Time, offset: nat)
    requires forall d :: d !in s.days
    requires offset <= 8
    ensures WalkFrom(z, s, now, offset) == CLOSED_FOR_GOOD
    decreases 8 - offset
  {
    if offset <= 7 {
      NoDayTicked(z, s, now, offset + 1);
    }
  }

  // No window is open for more than a day and twice the largest offset.
  const LONGEST_OPEN_MS := DAY_MS + 2 * MAX_OFFSET

  lemma {:induction false} OpenSpan(z: Zone, s: Schedule, now: Time, offset: nat)
    requires Bounded(z) && ValidSchedule(s) && WalkFrom(z, s, now, offset).open
    ensures WalkFrom(z, s, now, offset).msLeft.Some?
    ensures 0 < WalkFrom(z, s, now, offset).msLeft.value <= LONGEST_OPEN_MS
    decreases 8 - offset
  {
    hide LocalDay, Weekday, OpensAt, ClosesAt, Bounded, ValidSchedule;
    var day := LocalDay(z, now) + offset;
    if Weekday(day) !in s.days || now >= ClosesAt(z, s, day) {
      OpenSpan(z, s, now, offset + 1);
    } else {
      DaySpan(z, s, day);
    }
  }

  lemma DaySpan(z: Zone, s: Schedule, day: int)
    requires Bounded(z) && ValidSchedule(s)
    ensures ClosesAt(z, s, day) - OpensAt(z, s, day) <= LONGEST_OPEN_MS
  {
    var opens, closes := WallOf(day, s.startMinute), WallOf(day, s.endMinute);
    var guess, other := opens - z.off(opens), closes - z.off(closes);
    assert z.off(guess) <= MAX_OFFSET && -MAX_OFFSET <= z.off(other);
  }

  // ----- The window never lies -----

  // What the schedule asks for, read off the wall clock alone: a ticked day, inside the hours.
  ghost predicate ClockOpen(z: Zone, s: Schedule, at: Time) {
    Weekday(LocalDay(z, at)) in s.days && s.startMinute <= LocalMinute(z, at) < s.endMinute
  }

  // No end of the window falls in an hour the clock skips or repeats.
  ghost predicate EndsHappenOnce(z: Zone, s: Schedule) {
    forall day :: HappensOnce(z, WallOf(day, s.startMinute)) && HappensOnce(z, WallOf(day, s.endMinute))
  }

  ghost predicate Plain(z: Zone, s: Schedule) {
    Regular(z) && ValidSchedule(s) && EndsHappenOnce(z, s)
  }

  // On each day, the code's window is exactly the clock's window.
  lemma DayWindow(z: Zone, s: Schedule, day: int, at: Time)
    requires Plain(z, s)
    ensures at >= OpensAt(z, s, day) <==> Wall(z, at) >= WallOf(day, s.startMinute)
    ensures at >= ClosesAt(z, s, day) <==> Wall(z, at) >= WallOf(day, s.endMinute)
    ensures Wall(z, OpensAt(z, s, day)) == WallOf(day, s.startMinute)
    ensures OpensAt(z, s, day) < ClosesAt(z, s, day)
  {
    assert HappensOnce(z, WallOf(day, s.startMinute)) && HappensOnce(z, WallOf(day, s.endMinute));
    OnceSplits(z, WallOf(day, s.startMinute), at);
    OnceSplits(z, WallOf(day, s.endMinute), at);
    OnceSplits(z, WallOf(day, s.startMinute), ClosesAt(z, s, day));
    OnceSplits(z, WallOf(day, s.endMinute), OpensAt(z, s, day));
  }

  // The clock is in the window at `at` exactly when the code's window of that local day is on.
  lemma ClockOpenIsDayWindow(z: Zone, s: Schedule, at: Time, day: int)
    requires Plain(z, s)
    ensures OpensAt(z, s, day) <= at < ClosesAt(z, s, day) ==> LocalDay(z, at) == day
    ensures LocalDay(z, at) == day ==>
      (ClockOpen(z, s, at) <==> Weekday(day) in s.days && OpensAt(z, s, day) <= at < ClosesAt(z, s, day))
  {
    DayWindow(z, s, day, at);
  }

  // How the walk ends: at the first ticked day, from `offset` on, whose window has not closed.
  ghost predicate Decides(z: Zone, s: Schedule, now: Time, offset: int) {
    var day := LocalDay(z, now) + offset;
    Weekday(day) in s.days && now < ClosesAt(z, s, day)
  }

  lemma {:induction false} WalkFinds(z: Zone, s: Schedule, now: Time, offset: nat) returns (k: nat)
    requires offset <= 8
    requires exists j :: offset <= j <= 7 && Decides(z, s, now, j)
    ensures offset <= k <= 7 && Decides(z, s, now, k)
    ensures forall j :: offset <= j < k ==> !Decides(z, s, now, j)
    ensures var day := LocalDay(z, now) + k;
            WalkFrom(z, s, now, offset) ==
              if now >= OpensAt(z, s, day)
              then WindowState(true, Some(ClosesAt(z, s, day) - now), Some(ClosesAt(z, s, day)), None)
              else WindowState(false, Some(0), None, Some(OpensAt(z, s, day)))
    decreases 8 - offset
  {
    if Decides(z, s, now, offset) {
      k := offset;
    } else {
      k := WalkFinds(z, s, now, offset + 1);
    }
  }

  // Any weekday comes round within the seven days after `today`.
  lemma WeekdayAhead(today: int, ticked: int) returns (j: nat)
    requires 0 <= ticked <= 6
    ensures 1 <= j <= 7 && Weekday(today + j) == ticked
  {
    var week, w := (today + 5) / 7, (today + 5) % 7;
    j := 1 + if ticked >= w then ticked - w else ticked - w + 7;
    if ticked >= w {
      assert today + j + 4 == 7 * week + ticked;
    } else {
      assert today + j + 4 == 7 * (week + 1) + ticked;
    }
  }

  lemma TickedAhead(s: Schedule, today: int) returns (j: nat)
    requires ValidSchedule(s)
    ensures 1 <= j <= 7 && Weekday(today + j) in s.days
  {
    hide Weekday;
    j := WeekdayAhead(today, s.days[0]);
  }

  // A week ahead always reaches a ticked day that has not closed.
  lemma WeekReaches(z: Zone, s: Schedule, now: Time) returns (k: nat)
    requires Plain(z, s)
    ensures 0 <= k <= 7 && Decides(z, s, now, k)
    ensures forall j :: 0 <= j < k ==> !Decides(z, s, now, j)
    ensures var day := LocalDay(z, now) + k;
            WalkFrom(z, s, now, 0) ==
              if now >= OpensAt(z, s, day)
              then WindowState(true, Some(ClosesAt(z, s, day) - now), Some(ClosesAt(z, s, day)), None)
              else WindowState(false, Some(0), None, Some(OpensAt(z, s, day)))
  {
    hide Weekday, OpensAt, ClosesAt, Regular, EndsHappenOnce;
    var today := LocalDay(z, now);
    var j := TickedAhead(s, today);
    DayWindow(z, s, today + j, now);
    assert Decides(z, s, now, j);
    k := WalkFinds(z, s, now, 0);
  }

  // Every earlier day's window is over by the time its date has passed.
  lemma PastDaysClosed(z: Zone, s: Schedule, now: Time, day: int)
    requires Plain(z, s) && day < LocalDay(z, now)
    ensures now >= ClosesAt(z, s, day)
  {
    DayWindow(z, s, day, now);
  }

  lemma FutureDaysNotOpen(z: Zone, s: Schedule, now: Time, day: int)
    requires Plain(z, s) && day > LocalDay(z, now)
    ensures now < OpensAt(z, s, day)
  {
    DayWindow(z, s, day, now);
  }

  // Open says what the clock says: a ticked day inside the hours, on exactly the instants from
  // `now` up to `closesAt`, all of them in one window with the same close.
  lemma OpenIsTrue(z: Zone, s: Schedule, now: Time)
    requires Plain(z, s)
    ensures var w := WalkFrom(z, s, now, 0);
            && (w.open <==> ClockOpen(z, s, now))
            && (w.open ==>
                  && w.closesAt.Some? && w.msLeft == Some(w.closesAt.value - now)
                  && now < w.closesAt.value
                  && Wall(z, w.closesAt.value) == WallOf(LocalDay(z, now), s.endMinute))
  {
    var k := WeekReaches(z, s, now);
    var today := LocalDay(z, now);
    ClockOpenIsDayWindow(z, s, now, today);
    if k > 0 {
      FutureDaysNotOpen(z, s, now, today + k);
      assert !Decides(z, s, now, 0);
    }
    assert HappensOnce(z, WallOf(today, s.endMinute));
    OnceSplits(z, WallOf(today, s.endMinute), now);
  }

  // Which day the walk stops at when open, and its window.
  lemma OpenToday(z: Zone, s: Schedule, now: Time)
    requires Plain(z, s)
    ensures var today := LocalDay(z, now);
            && (WalkFrom(z, s, now, 0).open <==>
                  Weekday(today) in s.days && OpensAt(z, s, today) <= now < ClosesAt(z, s, today))
            && (WalkFrom(z, s, now, 0).open ==> WalkFrom(z, s, now, 0).closesAt == Some(ClosesAt(z, s, today)))
  {
    var k := WeekReaches(z, s, now);
    var today := LocalDay(z, now);
    if k > 0 {
      FutureDaysNotOpen(z, s, now, today + k);
      assert !Decides(z, s, now, 0);
    }
  }

  lemma OpenUntilItCloses(z: Zone, s: Schedule, now: Time, at: Time)
    requires Plain(z, s)
    requires WalkFrom(z, s, now, 0).open && now <= at < WalkFrom(z, s, now, 0).closesAt.value
    ensures ClockOpen(z, s, at)
    ensures WalkFrom(z, s, at, 0).open
    ensures WalkFrom(z, s, at, 0).closesAt == WalkFrom(z, s, now, 0).closesAt
  {
    OpenToday(z, s, now);
    ClockOpenIsDayWindow(z, s, at, LocalDay(z, now));
    OpenToday(z, s, at);
  }

  // No day before the one the walk stops at has an open instant from `now` on.
  lemma NoEarlierDay(z: Zone, s: Schedule, now: Time, k: nat, at: Time)
    requires Plain(z, s) && Decides(z, s, now, k)
    requires forall j :: 0 <= j < k ==> !Decides(z, s, now, j)
    requires now <= at && ClockOpen(z, s, at)
    ensures LocalDay(z, at) >= LocalDay(z, now) + k
  {
    var today, day := LocalDay(z, now), LocalDay(z, at);
    ClockOpenIsDayWindow(z, s, at, day);
    if day < today {
      PastDaysClosed(z, s, now, day);
    }
    assert 0 <= day - today < k ==> !Decides(z, s, now, day - today);
  }

  lemma NotOpenBefore(z: Zone, s: Schedule, now: Time, k: nat, at: Time)
    requires Plain(z, s) && Decides(z, s, now, k)
    requires forall j :: 0 <= j < k ==> !Decides(z, s, now, j)
    requires now <= at < OpensAt(z, s, LocalDay(z, now) + k)
    ensures !ClockOpen(z, s, at)
  {
    if ClockOpen(z, s, at) {
      NoEarlierDay(z, s, now, k, at);
      DayWindow(z, s, LocalDay(z, now) + k, at);
    }
  }

  lemma OpenAtOpening(z: Zone, s: Schedule, day: int)
    requires Plain(z, s) && Weekday(day) in s.days
    ensures ClockOpen(z, s, OpensAt(z, s, day))
  {
    DayWindow(z, s, day, OpensAt(z, s, day));
    ClockOpenIsDayWindow(z, s, OpensAt(z, s, day), day);
  }

  // Closed, with a ticked day: `nextOpenAt` exists, is later, and is open by the clock.
  lemma OpensNext(z: Zone, s: Schedule, now: Time) returns (k: nat, next: Time)
    requires Plain(z, s) && !WalkFrom(z, s, now, 0).open
    ensures Decides(z, s, now, k) && next == OpensAt(z, s, LocalDay(z, now) + k)
    ensures forall j :: 0 <= j < k ==> !Decides(z, s, now, j)
    ensures WalkFrom(z, s, now, 0).nextOpenAt == Some(next)
    ensures now < next && ClockOpen(z, s, next)
  {
    hide LocalDay, OpensAt, ClosesAt, Weekday, ClockOpen, Plain;
    k := WeekReaches(z, s, now);
    var day := LocalDay(z, now) + k;
    next := OpensAt(z, s, day);
    OpenAtOpening(z, s, day);
  }

  // And no instant before it is open.
  lemma ClosedUntilItOpens(z: Zone, s: Schedule, now: Time, at: Time) returns (next: Time)
    requires Plain(z, s) && !WalkFrom(z, s, now, 0).open
    ensures WalkFrom(z, s, now, 0).nextOpenAt == Some(next)
    ensures now < next && ClockOpen(z, s, next)
    ensures now <= at < next ==> !ClockOpen(z, s, at)
  {
    var k;
    k, next := OpensNext(z, s, now);
    if now <= at < next {
      NotOpenBefore(z, s, now, k, at);
    }
  }

  // ----- A lead's window (sendWindow.ts) -----

  // The campaign's own window, or the same days and hours in the lead's zone when it has one.
  function LeadWindow(
    zones: ZoneTable, schedule: Option<Schedule>, useLeadZone: bool, leadZone: Option<string>, now: Time
  ): WindowState
    requires schedule.Some? ==> schedule.value.timezone in zones
  {
    if schedule.None? then ALWAYS_OPEN
    else if !useLeadZone || leadZone.None? then WindowAt(zones, schedule, now, schedule.value.timezone)
    else WindowAt(zones, schedule, now, leadZone.value)
  }

  // Whose clock the window is read on: the lead's own when the campaign asks for it and the runtime
  // knows that zone, and in every other case the schedule's.
  lemma ReadInZone(
    zones: ZoneTable, s: Schedule, useLeadZone: bool, leadZone: Option<string>, z: Zone, now: Time)
    requires s.timezone in zones
    requires z == if useLeadZone && leadZone.Some? && leadZone.value in zones
                  then zones[leadZone.value] else zones[s.timezone]
    ensures LeadWindow(zones, Some(s), useLeadZone, leadZone, now) == WalkFrom(z, s, now, 0)
    ensures LeadWindow(zones, None, useLeadZone, leadZone, now).open
    ensures LeadWindow(zones, None, useLeadZone, leadZone, now).msLeft.None?
  {
    hide WalkFrom;
  }

  // Open is what that clock says: a ticked day, inside the hours.
  lemma LeadWindowIsTrue(
    zones: ZoneTable, s: Schedule, useLeadZone: bool, leadZone: Option<string>, now: Time)
    requires s.timezone in zones
    ensures useLeadZone && leadZone.Some? && leadZone.value in zones && Plain(zones[leadZone.value], s) ==>
      (LeadWindow(zones, Some(s), useLeadZone, leadZone, now).open <==> ClockOpen(zones[leadZone.value], s, now))
    ensures !(useLeadZone && leadZone.Some? && leadZone.value in zones) && Plain(zones[s.timezone], s) ==>
      (LeadWindow(zones, Some(s), useLeadZone, leadZone, now).open <==> ClockOpen(zones[s.timezone], s, now))
  {
    hide Plain, ClockOpen, LeadWindow, WalkFrom;
    var z := if useLeadZone && leadZone.Some? && leadZone.value in zones
             then zones[leadZone.value] else zones[s.timezone];
    ReadInZone(zones, s, useLeadZone, leadZone, z, now);
    if Plain(z, s) {
      OpenIsTrue(z, s, now);
    }
  }

  // A slot booked before the window's time runs out is inside the window, on that same clock.
  lemma SlotInsideWindow(
    zones: ZoneTable, s: Schedule, useLeadZone: bool, leadZone: Option<string>, z: Zone, now: Time, slot: Time)
    requires s.timezone in zones
    requires z == if useLeadZone && leadZone.Some? && leadZone.value in zones
                  then zones[leadZone.value] else zones[s.timezone]
    requires Plain(z, s)
    requires var w := LeadWindow(zones, Some(s), useLeadZone, leadZone, now);
             w.open && now <= slot && slot - now < w.msLeft.value
    ensures ClockOpen(z, s, slot)
    ensures slot - now <= DAY_MS + 2 * MAX_OFFSET
  {
    ReadInZone(zones, s, useLeadZone, leadZone, z, now);
    OpenIsTrue(z, s, now);
    OpenUntilItCloses(z, s, now, slot);
    assert -MAX_OFFSET <= z.off(now) <= MAX_OFFSET;
    var closes := WalkFrom(z, s, now, 0).closesAt.value;
    assert -MAX_OFFSET <= z.off(closes) <= MAX_OFFSET;
  }

  // Days are numbered from Thursday, 1 January 1970, and weekdays from Sunday.
  lemma WeekdayIsRight(day: int)
    ensures Weekday(0) == 4
    ensures Weekday(day + 1) == if Weekday(day) == 6 then 0 else Weekday(day) + 1
  {
  }
}

// What `windowState` tells is true of its own later answers, for every window whose ends the clock
// shows, once or twice (packages/db/src/sendSchedule.ts and apps/worker/src/sendWindow.ts).
module SendWindow {
  import opened Basics
  import opened SendSchedule

  // ----- Dates that never go back, ends that exist -----

  ghost predicate DatesNeverGoBack(z: Zone) {
    forall x, y :: x <= y ==> LocalDay(z, x) <= LocalDay(z, y)
  }

  ghost predicate EndsHappen(z: Zone, s: Schedule) {
    forall day :: Happens(z, WallOf(day, s.startMinute)) && Happens(z, WallOf(day, s.endMinute))
  }

  ghost predicate Sound(z: Zone, s: Schedule) {
    Regular(z) && DatesNeverGoBack(z) && ValidSchedule(s) && EndsHappen(z, s)
  }

  // Ends that happen once happen; and with them a window always closes on its own day. So what holds
  // of sound windows, and always the close, holds of those `OpenIsTrue` reads off the wall clock.
  lemma PlainIsSound(z: Zone, s: Schedule, day: int)
    requires Plain(z, s) && DatesNeverGoBack(z)
    ensures Sound(z, s) && ClosesOnItsDay(z, s, day)
  {
    forall d ensures Happens(z, WallOf(d, s.startMinute)) && Happens(z, WallOf(d, s.endMinute)) {
      assert HappensOnce(z, WallOf(d, s.startMinute)) && HappensOnce(z, WallOf(d, s.endMinute));
    }
    forall at | at < ClosesAt(z, s, day) ensures LocalDay(z, at) <= day {
      DayWindow(z, s, day, at);
    }
  }

  // Times of one day that the clock shows come out in their own order, repeated hours included.
  lemma InstantsInOrder(z: Zone, v: int, w: int)
    requires Regular(z) && Happens(z, v) && Happens(z, w) && v < w <= v + DAY_MS
    ensures ZonedInstant(z, v) < ZonedInstant(z, w)
    ensures Wall(z, ZonedInstant(z, v)) == v && Wall(z, ZonedInstant(z, w)) == w
  {
    assert OneChangeNear(z, v) && OneChangeNear(z, w);
    InversionExact(z, v);
    InversionExact(z, w);
    var t, a, b :| ChangesAt(z, v, t, a, b);
    assert z.off(v) == if v < t then a else b;
    assert z.off(w) == if w < t then a else b;
    var g, h := v - z.off(v), w - z.off(w);
    assert -MAX_OFFSET <= z.off(v) <= MAX_OFFSET && -MAX_OFFSET <= z.off(w) <= MAX_OFFSET;
    assert z.off(g) == if g < t then a else b;
    assert z.off(h) == if h < t then a else b;
    var r, q := v - z.off(g), w - z.off(h);
    assert -MAX_OFFSET <= z.off(g) <= MAX_OFFSET && -MAX_OFFSET <= z.off(h) <= MAX_OFFSET;
    assert z.off(r) == if r < t then a else b;
    assert z.off(q) == if q < t then a else b;
  }

  // A day's window starts on that day, before it closes.
  lemma DayEnds(z: Zone, s: Schedule, day: int)
    requires Sound(z, s)
    ensures OpensAt(z, s, day) < ClosesAt(z, s, day)
    ensures Wall(z, OpensAt(z, s, day)) == WallOf(day, s.startMinute)
    ensures Wall(z, ClosesAt(z, s, day)) == WallOf(day, s.endMinute)
    ensures LocalDay(z, OpensAt(z, s, day)) == day
  {
    hide Regular, DatesNeverGoBack, ZonedInstant, Happens;
    assert Happens(z, WallOf(day, s.startMinute)) && Happens(z, WallOf(day, s.endMinute));
    InstantsInOrder(z, WallOf(day, s.startMinute), WallOf(day, s.endMinute));
  }

  lemma DatesInOrder(z: Zone, x: Time, y: Time)
    requires DatesNeverGoBack(z) && LocalDay(z, x) < LocalDay(z, y)
    ensures x < y
  {
  }

  lemma LaterDaysNotOpen(z: Zone, s: Schedule, now: Time, day: int)
    requires Sound(z, s) && day > LocalDay(z, now)
    ensures now < OpensAt(z, s, day) < ClosesAt(z, s, day)
  {
    hide LocalDay, OpensAt, ClosesAt, Regular, EndsHappen;
    DayEnds(z, s, day);
    DatesInOrder(z, now, OpensAt(z, s, day));
  }

  // ----- Where the walk stops -----

  ghost predicate Stops(z: Zone, s: Schedule, now: Time, k: nat) {
    && k <= 7
    && Decides(z, s, now, k)
    && forall j :: 0 <= j < k ==> !Decides(z, s, now, j)
  }

  function Answer(z: Zone, s: Schedule, now: Time, day: int): WindowState {
    if now >= OpensAt(z, s, day)
    then WindowState(true, Some(ClosesAt(z, s, day) - now), Some(ClosesAt(z, s, day)), None)
    else WindowState(false, Some(0), None, Some(OpensAt(z, s, day)))
  }

  // A week ahead always reaches a ticked day that has not closed.
  lemma WalkStops(z: Zone, s: Schedule, now: Time) returns (k: nat)
    requires Sound(z, s)
    ensures Stops(z, s, now, k)
    ensures WalkFrom(z, s, now, 0) == Answer(z, s, now, LocalDay(z, now) + k)
  {
    hide LocalDay, OpensAt, ClosesAt, Weekday, Regular, EndsHappen, DatesNeverGoBack;
    var today := LocalDay(z, now);
    var j := TickedAhead(s, today);
    LaterDaysNotOpen(z, s, now, today + j);
    assert Decides(z, s, now, j);
    k := WalkFinds(z, s, now, 0);
  }

  // Open: today is ticked and inside its own window.
  lemma OpenMeansToday(z: Zone, s: Schedule, now: Time)
    requires Sound(z, s)
    ensures var today, w := LocalDay(z, now), WalkFrom(z, s, now, 0);
            && (w.open <==> Weekday(today) in s.days && OpensAt(z, s, today) <= now < ClosesAt(z, s, today))
            && (w.open ==> w == Answer(z, s, now, today))
  {
    hide LocalDay, OpensAt, ClosesAt, Weekday, WalkFrom, Sound;
    var today := LocalDay(z, now);
    var k := WalkStops(z, s, now);
    if k > 0 {
      LaterDaysNotOpen(z, s, now, today + k);
      assert !Decides(z, s, now, 0);
    }
  }

  // ----- Open until it closes -----

  // Nothing before the close of the day's window is on a later date.
  ghost predicate ClosesOnItsDay(z: Zone, s: Schedule, day: int) {
    forall at :: at < ClosesAt(z, s, day) ==> LocalDay(z, at) <= day
  }

  // The answer at a later instant of the same window.
  ghost predicate SameWindow(z: Zone, s: Schedule, now: Time, at: Time) {
    WalkFrom(z, s, at, 0).open && WalkFrom(z, s, at, 0).closesAt == WalkFrom(z, s, now, 0).closesAt
  }

  lemma SameWindowIffSameDay(z: Zone, s: Schedule, now: Time, at: Time)
    requires Sound(z, s) && WalkFrom(z, s, now, 0).open
    requires now <= at < WalkFrom(z, s, now, 0).closesAt.value
    ensures SameWindow(z, s, now, at) <==> LocalDay(z, at) == LocalDay(z, now)
  {
    hide OpensAt, ClosesAt, Weekday, WalkFrom, Sound, LocalDay, Wall;
    OpenMeansToday(z, s, now);
    OpenMeansToday(z, s, at);
    DayEnds(z, s, LocalDay(z, now));
    DayEnds(z, s, LocalDay(z, at));
  }

  // Open means every instant up to `closesAt` is open with the same close, exactly when that
  // close falls on the window's own day.
  lemma OpenHoldsIff(z: Zone, s: Schedule, now: Time)
    requires Sound(z, s) && WalkFrom(z, s, now, 0).open
    ensures (forall at :: now <= at < WalkFrom(z, s, now, 0).closesAt.value ==> SameWindow(z, s, now, at))
            <==> ClosesOnItsDay(z, s, LocalDay(z, now))
  {
    hide OpensAt, ClosesAt, Weekday, WalkFrom, LocalDay, Regular, EndsHappen, ValidSchedule, SameWindow;
    OpenMeansToday(z, s, now);
    var closes := WalkFrom(z, s, now, 0).closesAt.value;
    forall at | now <= at < closes
      ensures SameWindow(z, s, now, at) <==> LocalDay(z, at) == LocalDay(z, now)
    {
      SameWindowIffSameDay(z, s, now, at);
    }
  }

  // It does whenever the window ends before midnight, and with a window up to midnight exactly
  // when the close is the first time the clock shows that midnight.
  lemma ClosesOnItsDayIff(z: Zone, s: Schedule, day: int)
    requires Sound(z, s)
    ensures ClosesOnItsDay(z, s, day) <==>
              s.endMinute < MINUTES_PER_DAY
              || forall at :: Wall(z, at) == WallOf(day, s.endMinute) ==> at >= ClosesAt(z, s, day)
  {
    DayEnds(z, s, day);
    var closes := ClosesAt(z, s, day);
    if s.endMinute < MINUTES_PER_DAY {
      EndsThatDay(z, s, day);
    } else {
      if ClosesOnItsDay(z, s, day) {
        forall at | Wall(z, at) == WallOf(day, s.endMinute) ensures at >= closes {
          assert LocalDay(z, at) == day + 1;
        }
      }
      if exists at :: at < closes && LocalDay(z, at) > day {
        var at :| at < closes && LocalDay(z, at) > day;
        var first := MidnightBefore(z, day, closes, at);
        assert Wall(z, first) == WallOf(day, s.endMinute);
      }
    }
  }

  lemma EndsThatDay(z: Zone, s: Schedule, day: int)
    requires Sound(z, s) && s.endMinute < MINUTES_PER_DAY
    ensures ClosesOnItsDay(z, s, day)
  {
    DayEnds(z, s, day);
    assert LocalDay(z, ClosesAt(z, s, day)) == day;
    hide Wall, ZonedInstant, OpensAt, ClosesAt, LocalDay, EndsHappen, Regular;
  }

  // A clock that read the next date before `closes`, the next midnight, showed that midnight then.
  lemma MidnightBefore(z: Zone, day: int, closes: Time, at: Time) returns (first: Time)
    requires Regular(z) && DatesNeverGoBack(z)
    requires Wall(z, closes) == WallOf(day, MINUTES_PER_DAY) && at < closes && LocalDay(z, at) > day
    ensures first < closes && Wall(z, first) == WallOf(day, MINUTES_PER_DAY)
  {
    assert LocalDay(z, at) <= LocalDay(z, closes) == day + 1;
    assert OneChangeNear(z, closes);
    var t, a, b :| ChangesAt(z, closes, t, a, b);
    assert -MAX_OFFSET <= z.off(at) <= MAX_OFFSET && -MAX_OFFSET <= z.off(closes) <= MAX_OFFSET;
    assert closes - 3 * MAX_OFFSET <= at;
    assert z.off(at) == if at < t then a else b;
    assert z.off(closes) == if closes < t then a else b;
    first := WallOf(day, MINUTES_PER_DAY) - a;
    assert z.off(first) == if first < t then a else b;
  }

  // A time the clock shows twice, before a change back at `t` and from it on: the second is taken
  // exactly when the UTC clock reading that time is at or past the change, so the second east of UTC
  // and the first west of it.
  lemma RepeatedTime(z: Zone, wall: int, t: Time, a: int, b: int)
    requires Bounded(z) && ChangesAt(z, wall, t, a, b)
    requires z.off(t - 1) == a && z.off(t) == b && t + b <= wall < t + a
    ensures Wall(z, wall - a) == wall == Wall(z, wall - b) && wall - a < t <= wall - b
    ensures ZonedInstant(z, wall) == if wall >= t then wall - b else wall - a
    ensures (b >= 0 ==> ZonedInstant(z, wall) == wall - b) && (a <= 0 ==> ZonedInstant(z, wall) == wall - a)
  {
    assert -MAX_OFFSET <= z.off(t - 1) <= MAX_OFFSET && -MAX_OFFSET <= z.off(t) <= MAX_OFFSET;
    assert z.off(wall) == if wall < t then a else b;
    var guess := wall - z.off(wall);
    assert z.off(guess) == if guess < t then a else b;
    assert z.off(wall - a) == a && z.off(wall - b) == b;
  }

  // Clocks in Amman once went from 1:00 back to midnight, on the new date.
  const AMMAN := Zone((x: Time) => if x < -2 * HOUR_MS then 3 * HOUR_MS else 2 * HOUR_MS)
  const LATE := Schedule("Asia/Amman", [0, 1, 2, 3, 4, 5, 6], 1380, 1440)

  // Nothing else is odd about them: every time happens, and no date comes back.
  lemma AmmanIsSound()
    ensures Sound(AMMAN, LATE)
  {
    forall c ensures OneChangeNear(AMMAN, c) {
      assert ChangesAt(AMMAN, c, -2 * HOUR_MS, 3 * HOUR_MS, 2 * HOUR_MS);
    }
    forall wall ensures Happens(AMMAN, wall) {
      assert Wall(AMMAN, if wall < HOUR_MS then wall - 3 * HOUR_MS else wall - 2 * HOUR_MS) == wall;
    }
    forall x, y | x <= y ensures LocalDay(AMMAN, x) <= LocalDay(AMMAN, y) {
      if x < -2 * HOUR_MS <= y {
        assert Wall(AMMAN, x) < HOUR_MS && Wall(AMMAN, y) >= 0;
        DayNumbers(Wall(AMMAN, x), Wall(AMMAN, y));
      } else {
        DayNumbers(Wall(AMMAN, x), Wall(AMMAN, y));
      }
    }
  }

  lemma DayNumbers(v: int, w: int)
    requires v <= w || (v < HOUR_MS && w >= 0)
    ensures v / DAY_MS <= w / DAY_MS
  {
    if v > w {
      assert v / DAY_MS == 0 || v < 0;
    }
  }

  // There the window that closes at midnight says it is open until the second midnight, and is
  // closed at the first, an hour before.
  lemma AmmanClosesTwice()
    ensures var w := WalkFrom(AMMAN, LATE, -4 * HOUR_MS, 0);
            && w.open && w.closesAt == Some(-2 * HOUR_MS)
            && !WalkFrom(AMMAN, LATE, -3 * HOUR_MS, 0).open
            && !ClosesOnItsDay(AMMAN, LATE, LocalDay(AMMAN, -4 * HOUR_MS))
  {
    assert LocalDay(AMMAN, -4 * HOUR_MS) == -1;
    assert LocalDay(AMMAN, -3 * HOUR_MS) == 0;
    assert Weekday(-1) == 3 == LATE.days[3] && Weekday(0) == 4 == LATE.days[4];
    assert ClosesAt(AMMAN, LATE, -1) == -2 * HOUR_MS && OpensAt(AMMAN, LATE, -1) == -4 * HOUR_MS;
    assert ClosesAt(AMMAN, LATE, 0) > OpensAt(AMMAN, LATE, 0) > -3 * HOUR_MS;
  }

  // ----- Closed until it opens -----

  // Closed: `nextOpenAt` exists, is later, is open, and nothing from now to then is.
  lemma NextOpenIsFirst(z: Zone, s: Schedule, now: Time) returns (next: Time)
    requires Sound(z, s) && !WalkFrom(z, s, now, 0).open
    ensures WalkFrom(z, s, now, 0).nextOpenAt == Some(next)
    ensures now < next && WalkFrom(z, s, next, 0).open
    ensures forall at :: now <= at < next ==> !WalkFrom(z, s, at, 0).open
  {
    hide OpensAt, ClosesAt, Weekday, WalkFrom, LocalDay, Sound;
    var k := WalkStops(z, s, now);
    var day := LocalDay(z, now) + k;
    next := OpensAt(z, s, day);
    DayEnds(z, s, day);
    OpenMeansToday(z, s, next);
    forall at | now <= at < next ensures !WalkFrom(z, s, at, 0).open {
      NotOpenYet(z, s, now, k, at);
    }
  }

  lemma NotOpenYet(z: Zone, s: Schedule, now: Time, k: nat, at: Time)
    requires Sound(z, s) && Stops(z, s, now, k)
    requires now <= at < OpensAt(z, s, LocalDay(z, now) + k)
    ensures !WalkFrom(z, s, at, 0).open
  {
    hide OpensAt, ClosesAt, Weekday, WalkFrom, LocalDay, Regular, EndsHappen, ValidSchedule;
    var today, day := LocalDay(z, now), LocalDay(z, at);
    OpenMeansToday(z, s, at);
    DayEnds(z, s, today + k);
    assert today <= day <= today + k;
    assert day < today + k ==> !Decides(z, s, now, day - today);
  }

  // ----- A lead's slot -----

  // A slot booked before the lead's window runs out is still inside it, with the same close, when
  // its time comes: exactly if its date is the one it was booked on, which a window ending before
  // midnight, or at a midnight shown once, always gives.
  lemma SlotStaysInside(
    zones: ZoneTable, s: Schedule, useLeadZone: bool, leadZone: Option<string>, z: Zone, now: Time, slot: Time)
    requires s.timezone in zones
    requires z == if useLeadZone && leadZone.Some? && leadZone.value in zones
                  then zones[leadZone.value] else zones[s.timezone]
    requires Sound(z, s)
    requires var w := LeadWindow(zones, Some(s), useLeadZone, leadZone, now);
             w.open && now <= slot && slot - now < w.msLeft.value
    ensures var w, v := LeadWindow(zones, Some(s), useLeadZone, leadZone, now),
                        LeadWindow(zones, Some(s), useLeadZone, leadZone, slot);
            && (v.open && v.closesAt == w.closesAt <==> LocalDay(z, slot) == LocalDay(z, now))
            && (ClosesOnItsDay(z, s, LocalDay(z, now)) ==> v.open && v.closesAt == w.closesAt)
  {
    hide Sound, LocalDay, OpensAt, ClosesAt, Weekday, WalkFrom;
    ReadInZone(zones, s, useLeadZone, leadZone, z, now);
    ReadInZone(zones, s, useLeadZone, leadZone, z, slot);
    WalkOpenShape(z, s, now);
    OpenHoldsIff(z, s, now);
    SameWindowIffSameDay(z, s, now, slot);
    assert ClosesOnItsDay(z, s, LocalDay(z, now)) ==> SameWindow(z, s, now, slot);
  }

  lemma WalkOpenShape(z: Zone, s: Schedule, now: Time)
    ensures var w := WalkFrom(z, s, now, 0);
            w.open ==> w.closesAt.Some? && w.msLeft == Some(w.closesAt.value - now)
  {
  }
}

// Follow-up sequences (apps/api/src/lib/sequence.ts).
module Sequence {
  import opened Basics

  const MAX_FOLLOW_UPS := 3
  const MIN_WAIT_DAYS := 1
  const MAX_WAIT_DAYS := 30
  const MAX_BODY_LENGTH := 20_000

  datatype Step = Step(position: nat, waitDays: int, body: string, aiRewrite: bool)

  // The follow-up due after `stepsSent` emails, or None when the sequence is done.
  function NextFollowUp(steps: seq<Step>, stepsSent: nat): (r: Option<Step>)
    ensures r.Some? ==> r.value in steps && r.value.position == stepsSent && stepsSent >= 1
    ensures r.None? && stepsSent >= 1 ==> forall s :: s in steps ==> s.position != stepsSent
  {
    if stepsSent < 1 || |steps| == 0 then None
    else if steps[0].position == stepsSent then Some(steps[0])
    else NextFollowUp(steps[1..], stepsSent)
  }

  function NextStepAtAfter(steps: seq<Step>, stepsSent: nat, sentAt: Time): Option<Time> {
    var next := NextFollowUp(steps, stepsSent);
    if next.Some? then Some(sentAt + next.value.waitDays * DAY_MS) else None
  }

  // Steps as `parseStepsInput` accepts them.
  predicate ValidSteps(steps: seq<Step>) {
    && |steps| <= MAX_FOLLOW_UPS
    && forall i :: 0 <= i < |steps| ==>
         && steps[i].position == i + 1
         && MIN_WAIT_DAYS <= steps[i].waitDays <= MAX_WAIT_DAYS
         && |steps[i].body| <= MAX_BODY_LENGTH
  }

  // A follow-up waits at least a day, and there is one for each position up to the last.
  lemma FollowUpWaitsADay(steps: seq<Step>, stepsSent: nat, sentAt: Time)
    requires ValidSteps(steps)
    ensures NextStepAtAfter(steps, stepsSent, sentAt).Some? <==> 1 <= stepsSent <= |steps|
    ensures NextStepAtAfter(steps, stepsSent, sentAt).Some? ==>
      sentAt + DAY_MS <= NextStepAtAfter(steps, stepsSent, sentAt).value
    ensures 1 <= stepsSent <= |steps| ==>
      NextStepAtAfter(steps, stepsSent, sentAt) == Some(sentAt + steps[stepsSent - 1].waitDays * DAY_MS)
  {
    if 1 <= stepsSent <= |steps| {
      assert steps[stepsSent - 1] in steps;
    }
  }

  // One entry of the dashboard's list; `waitDays` is None when it is not a whole number, and
  // `body` is None when it is neither text nor absent.
  datatype StepInput = StepInput(waitDays: Option<int>, body: Option<string>, aiRewrite: bool)

  predicate AcceptableStep(raw: StepInput) {
    && raw.waitDays.Some? && MIN_WAIT_DAYS <= raw.waitDays.value <= MAX_WAIT_DAYS
    && raw.body.Some? && |raw.body.value| <= MAX_BODY_LENGTH
  }

  // Accepts a replacement list exactly when it is short enough and every entry is acceptable, and
  // numbers the steps in order.
  method ParseStepsInput(input: seq<StepInput>) returns (r: Option<seq<Step>>)
    ensures r.Some? <==> |input| <= MAX_FOLLOW_UPS && forall i :: 0 <= i < |input| ==> AcceptableStep(input[i])
    ensures r.Some? ==> ValidSteps(r.value) && |r.value| == |input|
    ensures r.Some? ==> forall i :: 0 <= i < |input| ==>
      r.value[i] == Step(i + 1, input[i].waitDays.value, input[i].body.value, input[i].aiRewrite)
  {
    if |input| > MAX_FOLLOW_UPS {
      return None;
    }
    var steps: seq<Step> := [];
    for i := 0 to |input|
      invariant |steps| == i
      invariant forall k :: 0 <= k < i ==> AcceptableStep(input[k])
      invariant forall k :: 0 <= k < i ==>
        steps[k] == Step(k + 1, input[k].waitDays.value, input[k].body.value, input[k].aiRewrite)
    {
      var raw := input[i];
      if raw.waitDays.None? || raw.waitDays.value < MIN_WAIT_DAYS || raw.waitDays.value > MAX_WAIT_DAYS {
        return None;
      }
      if raw.body.None? || |raw.body.value| > MAX_BODY_LENGTH {
        return None;
      }
      steps := steps + [Step(i + 1, raw.waitDays.value, raw.body.value, raw.aiRewrite)];
    }
    return Some(steps);
  }
}

// The rows the worker and the API share: leads, mailboxes, campaigns, the send log and replies.
module Model {
  import opened Basics
  import opened SendSchedule
  import opened Sequence

  type LeadId = string
  type MailboxId = string
  type CampaignId = string
  type Email = string

  // `${leadId}:${mailboxId}:${slotAtMs}`; see JobIds for the text.
  datatype JobId = JobId(lead: LeadId, mailbox: MailboxId, slot: Time)

  datatype LeadStatus =
    Untouched | Queued | Contacted | Opened | Replied | Bounced | Failed | Suppressed

  datatype Lead = Lead(
    campaign: CampaignId,
    email: Email,
    zone: Option<string>,
    status: LeadStatus,
    retryCount: nat,
    nextRetryAt: Option<Time>,
    queuedJobId: Option<JobId>,
    queuedSlotAt: Option<Time>,
    mailbox: Option<MailboxId>,
    stepsSent: nat,
    lastStepAt: Option<Time>,
    nextStepAt: Option<Time>)

  // `usable` stands for ACTIVE with a mailing address on its domain.
  datatype Mailbox = Mailbox(
    usable: bool, dailyCap: nat, graduatedAt: Option<Time>, lastSentAt: Option<Time>)

  // `Halted` stands for paused, draft and archived.
  datatype CampaignStatus = Sending | Completed | Halted

  datatype Campaign = Campaign(
    status: CampaignStatus,
    pausedForBounceRate: bool,
    maxNewLeadsPerDay: Option<nat>,
    schedule: Option<Schedule>,
    useLeadZone: bool,
    senders: set<MailboxId>,
    steps: seq<Step>)

  datatype LogStatus = LogSent | LogOpened | LogReplied | LogBounced | LogFailed

  // `deferral` is what `isDeferral` says of a failed row's message.
  datatype LogRow = LogRow(
    campaign: CampaignId, lead: LeadId, mailbox: MailboxId, status: LogStatus, at: Time, deferral: bool)

  datatype Label =
    | Interested | NotInterested | OutOfOffice | AutoReply
    | OptOut | Unclassified | LeftCompany | BounceReport

  // How an address came to be on the suppression list.
  datatype Source = Manual | ReplyOptOut | UnsubscribeLink | Imported

  datatype Entry = Entry(source: Source, reason: string)

  // `returnDate` is what `parseReturnDate` reads in the text; `labelled` is `classifiedAt` set.
  datatype Reply = Reply(
    lead: LeadId,
    mailbox: MailboxId,
    content: string,
    repliedAt: Time,
    returnDate: Option<Time>,
    tag: Label,
    labelled: bool)

  predicate Waiting(status: LeadStatus) {
    status == Contacted || status == Opened || status == Queued
  }

  predicate Running(status: LeadStatus) {
    status == Contacted || status == Opened
  }

  // Every send that left the mailbox.
  predicate CountedSend(row: LogRow, m: MailboxId) {
    row.mailbox == m && row.status != LogFailed
  }

  // How many sends of `m` the log holds after `since`.
  function CountSends(log: seq<LogRow>, m: MailboxId, since: Time): nat {
    if |log| == 0 then 0
    else
      var row := log[|log| - 1];
      CountSends(log[..|log| - 1], m, since) + if CountedSend(row, m) && row.at > since then 1 else 0
  }

  // Rows of the mailbox sent since, opened, answered or bounced by now; not what failed.
  function SendsAfter(log: seq<LogRow>, m: MailboxId, since: Time): set<int> {
    set i | 0 <= i < |log| && log[i].mailbox == m && log[i].at > since
            && (log[i].status == LogSent || log[i].status == LogOpened
                || log[i].status == LogReplied || log[i].status == LogBounced)
  }

  lemma SendsAfterMore(log: seq<LogRow>, m: MailboxId, since: Time)
    requires |log| > 0
    ensures var k := |log| - 1;
            SendsAfter(log, m, since) ==
              SendsAfter(log[..k], m, since) + if CountedSend(log[k], m) && log[k].at > since then {k} else {}
  {
    var k := |log| - 1;
    assert forall i :: 0 <= i < k ==> log[..k][i] == log[i];
  }

  lemma {:induction false} CountSendsIs(log: seq<LogRow>, m: MailboxId, since: Time)
    ensures CountSends(log, m, since) == |SendsAfter(log, m, since)|
  {
    if |log| > 0 {
      CountSendsIs(log[..|log| - 1], m, since);
      SendsAfterMore(log, m, since);
      assert |log| - 1 !in SendsAfter(log[..|log| - 1], m, since);
      hide SendsAfter;
    }
  }
}

// The text of a job id, `lead:mailbox:slot`, and reading it back (apps/worker/src/enqueuer.ts and
// apps/worker/src/reconcile.ts).
module JobIds {
  import opened Basics
  import opened Model

  // JavaScript's `text.split(sep)`.
  function Split(text: string, sep: char): (parts: seq<string>)
    ensures |parts| >= 1
    ensures |parts| == 1 <==> sep !in text
    ensures sep !in text ==> parts == [text]
  {
    if |text| == 0 then [[]]
    else
      var rest := Split(text[1..], sep);
      assert [text[0]] + text[1..] == text;
      if text[0] == sep then [[]] + rest
      else [[text[0]] + rest[0]] + rest[1..]
  }

  lemma {:induction false} SplitAtSep(a: string, b: string, sep: char)
    ensures |Split(a + [sep] + b, sep)| == |Split(a, sep)| + |Split(b, sep)|
    ensures sep !in a ==> Split(a + [sep] + b, sep) == [a] + Split(b, sep)
  {
    var text := a + [sep] + b;
    if |a| == 0 {
      assert text[1..] == b;
    } else {
      SplitAtSep(a[1..], b, sep);
      assert text[1..] == a[1..] + [sep] + b;
      assert [a[0]] + a[1..] == a;
    }
  }

  lemma {:induction false} PartsHaveNoSep(text: string, sep: char, k: nat)
    requires k < |Split(text, sep)|
    ensures sep !in Split(text, sep)[k]
  {
    if |text| > 0 {
      if text[0] == sep {
        if k > 0 {
          PartsHaveNoSep(text[1..], sep, k - 1);
        }
      } else {
        PartsHaveNoSep(text[1..], sep, k);
      }
    }
  }

  // ----- Decimal text -----

  function Digit(n: nat): char
    requires n < 10
  {
    '0' + n as char
  }

  function NatText(n: nat): (text: string)
    ensures |text| > 0
    ensures forall i :: 0 <= i < |text| ==> '0' <= text[i] <= '9'
  {
    if n < 10 then [Digit(n)] else NatText(n / 10) + [Digit(n % 10)]
  }

  function NumberText(n: int): string {
    if n < 0 then "-" + NatText(-n) else NatText(n)
  }

  function NatValue(text: string): nat
    requires forall i :: 0 <= i < |text| ==> '0' <= text[i] <= '9'
  {
    if |text| == 0 then 0
    else 10 * NatValue(text[..|text| - 1]) + (text[|text| - 1] - '0') as nat
  }

  lemma {:induction false} NatReadsBack(n: nat)
    ensures NatValue(NatText(n)) == n
  {
    if n >= 10 {
      NatReadsBack(n / 10);
      assert NatText(n)[..|NatText(n)| - 1] == NatText(n / 10);
    } else {
      assert NatText(n)[..0] == [];
    }
  }

  lemma NumberTextIsUnique(m: int, n: int)
    requires NumberText(m) == NumberText(n)
    ensures m == n
  {
    assert m < 0 ==> NumberText(m)[0] == '-' && NumberText(m)[1..] == NatText(-m);
    assert n < 0 ==> NumberText(n)[0] == '-' && NumberText(n)[1..] == NatText(-n);
    NatReadsBack(if m < 0 then -m else m);
    NatReadsBack(if n < 0 then -n else n);
  }

  lemma NumberHasNoColon(n: int)
    ensures ':' !in NumberText(n)
  {
  }

  // ----- Job ids -----

  function Text(job: JobId): string {
    job.lead + [':'] + (job.mailbox + [':'] + NumberText(job.slot))
  }

  // The mailbox named in a job id, when the id has exactly three parts and the middle one is not empty.
  function MailboxIn(text: string): Option<MailboxId> {
    var parts := Split(text, ':');
    if |parts| == 3 && parts[1] != [] then Some(parts[1]) else None
  }

  predicate PlainIds(job: JobId) {
    ':' !in job.lead && ':' !in job.mailbox && job.mailbox != []
  }

  // The mailbox is read back, and from exactly the ids whose own parts have no colon.
  lemma ReadsBack(job: JobId)
    ensures MailboxIn(Text(job)) == Some(job.mailbox) <==> PlainIds(job)
    ensures MailboxIn(Text(job)).Some? <==> PlainIds(job)
  {
    NumberHasNoColon(job.slot);
    SplitAtSep(job.lead, job.mailbox + [':'] + NumberText(job.slot), ':');
    SplitAtSep(job.mailbox, NumberText(job.slot), ':');
  }

  // Two jobs with the same id are one job.
  lemma TextIsUnique(a: JobId, b: JobId)
    requires PlainIds(a) && PlainIds(b) && Text(a) == Text(b)
    ensures a == b
  {
    NumberHasNoColon(a.slot);
    NumberHasNoColon(b.slot);
    SplitAtSep(a.lead, a.mailbox + [':'] + NumberText(a.slot), ':');
    SplitAtSep(a.mailbox, NumberText(a.slot), ':');
    SplitAtSep(b.lead, b.mailbox + [':'] + NumberText(b.slot), ':');
    SplitAtSep(b.mailbox, NumberText(b.slot), ':');
    var parts := Split(Text(a), ':');
    assert parts == [a.lead, a.mailbox, NumberText(a.slot)] == [b.lead, b.mailbox, NumberText(b.slot)];
    assert parts[0] == a.lead == b.lead && parts[1] == a.mailbox == b.mailbox;
    assert parts[2] == NumberText(a.slot) == NumberText(b.slot);
    NumberTextIsUnique(a.slot, b.slot);
  }
}

