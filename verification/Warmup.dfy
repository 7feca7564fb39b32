// The warm-up engine's rules (apps/api/src/lib/warmup/policy.ts and partners.ts).
module WarmupPolicy {
  import opened Basics
  import opened CampaignCap

  const WARMUP_START_PER_DAY := 2.0
  const WARMUP_GROWTH := 1.2
  const WARMUP_MAX_PER_DAY := 20
  const MAINTENANCE_PER_DAY := 3
  const SEND_WINDOW_HOURS := 16
  const RECIPIENT_GAP_MS := 5 * MINUTE_MS

  datatype Status = Warming | Active | Paused

  // 1 in the first 24 hours, 0 before the mailbox has started.
  function WarmupDay(startedAt: Option<Time>, now: Time): int {
    if startedAt.None? then 0 else Max(1, (now - startedAt.value) / DAY_MS + 1)
  }

  function WarmupDayStart(startedAt: Time, now: Time): Time {
    startedAt + (WarmupDay(Some(startedAt), now) - 1) * DAY_MS
  }

  // From the start on, the day's 24 hours are the ones `now` is in.
  lemma DayHoldsNow(startedAt: Time, now: Time)
    requires startedAt <= now
    ensures WarmupDayStart(startedAt, now) <= now < WarmupDayStart(startedAt, now) + DAY_MS
    ensures WarmupDayStart(startedAt, now) > now - DAY_MS
  {
  }

  // Any two moments of one such day have that day in common, and of different days do not.
  lemma SameDayIff(startedAt: Time, a: Time, b: Time)
    requires startedAt <= a && startedAt <= b
    ensures WarmupDay(Some(startedAt), a) == WarmupDay(Some(startedAt), b) <==>
            WarmupDayStart(startedAt, a) <= b < WarmupDayStart(startedAt, a) + DAY_MS
    ensures a <= b ==> WarmupDayStart(startedAt, a) <= WarmupDayStart(startedAt, b)
  {
  }

  function DailyWarmupTarget(day: int, status: Status): int {
    match status
    case Paused => 0
    case Active => MAINTENANCE_PER_DAY
    case Warming =>
      var d := Max(1, day);
      Min(WARMUP_MAX_PER_DAY, Round(WARMUP_START_PER_DAY * Pow(WARMUP_GROWTH, d - 1)))
  }

  // A mailbox that warms up sends two a day at least and twenty at most, and never fewer than the day before.
  lemma TargetBounds(day: int, status: Status)
    requires status != Paused
    ensures 2 <= DailyWarmupTarget(day, status) <= WARMUP_MAX_PER_DAY
    ensures DailyWarmupTarget(day, status) <= DailyWarmupTarget(day + 1, status)
  {
    if status == Warming {
      PowGrows(Max(1, day) - 1, Max(1, day + 1) - 1);
    }
  }

  // Day by day: a fifth more each day, rounded, up to the twenty of day 14 and after. A mailbox that has
  // graduated keeps three, a paused one none.
  const TARGETS := [2, 2, 3, 3, 4, 5, 6, 7, 9, 10, 12, 15, 18, 20]

  lemma TargetTable(day: int)
    ensures DailyWarmupTarget(day, Warming) == if day < 1 then 2 else if day <= 14 then TARGETS[day - 1] else 20
    ensures DailyWarmupTarget(day, Active) == 3 && DailyWarmupTarget(day, Paused) == 0
  {
    assert Pow(WARMUP_GROWTH, 0) == 1.0 && Pow(WARMUP_GROWTH, 1) == 1.2 && Pow(WARMUP_GROWTH, 2) == 1.44;
    assert Pow(WARMUP_GROWTH, 3) == 1.728 && Pow(WARMUP_GROWTH, 4) == 2.0736;
    assert Pow(WARMUP_GROWTH, 5) == 2.48832 && Pow(WARMUP_GROWTH, 6) == 2.985984;
    assert Pow(WARMUP_GROWTH, 7) == 3.5831808 && Pow(WARMUP_GROWTH, 8) == 4.29981696;
    assert Pow(WARMUP_GROWTH, 9) == 5.159780352 && Pow(WARMUP_GROWTH, 10) == 6.1917364224;
    assert Pow(WARMUP_GROWTH, 11) == 7.43008370688 && Pow(WARMUP_GROWTH, 12) == 8.916100448256;
    assert Pow(WARMUP_GROWTH, 13) == 10.6993205379072;
    if day > 14 {
      PowGrows(13, day - 1);
    }
  }

  // No gap (None) stands for "never".
  function MinSendGapMs(target: int): Option<int> {
    if target <= 0 then None else Some(SEND_WINDOW_HOURS * HOUR_MS / target)
  }

  lemma GapBounds(target: int)
    requires 2 <= target
    ensures MinSendGapMs(target).Some? && 0 <= MinSendGapMs(target).value <= 8 * HOUR_MS
    ensures target * MinSendGapMs(target).value <= 16 * HOUR_MS < target * (MinSendGapMs(target).value + 1)
  {
    var w := SEND_WINDOW_HOURS * HOUR_MS;
    WholeShares(w, target);
    HalfAtMost(w, target, w / target);
  }

  lemma WholeShares(w: nat, n: int)
    requires n > 0
    ensures 0 <= w / n && n * (w / n) <= w < n * (w / n + 1)
  {
  }

  lemma HalfAtMost(w: nat, n: int, share: nat)
    requires n >= 2 && n * share <= w
    ensures 2 * share <= w
  {
    assert (n - 2) * share >= 0;
  }

  predicate IsSendDue(target: int, sentToday: int, lastSentAt: Option<Time>, now: Time) {
    && target > 0 && sentToday < target
    && (lastSentAt.None? || now - lastSentAt.value >= MinSendGapMs(target).value)
  }

  // ----- Placements and the decision -----

  datatype Placement = Inbox | Promotions | Spam | Missing | Bounced | Pending | Unchecked | Failed

  datatype Counts = Counts(
    sent: nat, inbox: nat, promotions: nat, spam: nat, missing: nat, bounced: nat,
    pending: nat, unchecked: nat, failed: nat, rescued: nat)

  function CountOf(messages: seq<(Placement, bool)>, p: Placement): nat {
    if |messages| == 0 then 0
    else CountOf(messages[..|messages| - 1], p) + if messages[|messages| - 1].0 == p then 1 else 0
  }

  function RescuedOf(messages: seq<(Placement, bool)>): nat {
    if |messages| == 0 then 0
    else RescuedOf(messages[..|messages| - 1]) + if messages[|messages| - 1].1 then 1 else 0
  }

  function At(c: Counts, p: Placement): nat {
    match p
    case Inbox => c.inbox
    case Promotions => c.promotions
    case Spam => c.spam
    case Missing => c.missing
    case Bounced => c.bounced
    case Pending => c.pending
    case Unchecked => c.unchecked
    case Failed => c.failed
  }

  method AddOne(c: Counts, p: Placement, rescued: bool) returns (r: Counts)
    ensures r.sent == c.sent + 1 && r.rescued == c.rescued + if rescued then 1 else 0
    ensures forall q :: At(r, q) == At(c, q) + if q == p then 1 else 0
  {
    r := c.(sent := c.sent + 1, rescued := if rescued then c.rescued + 1 else c.rescued);
    match p
    case Inbox => r := r.(inbox := r.inbox + 1);
    case Promotions => r := r.(promotions := r.promotions + 1);
    case Spam => r := r.(spam := r.spam + 1);
    case Missing => r := r.(missing := r.missing + 1);
    case Bounced => r := r.(bounced := r.bounced + 1);
    case Pending => r := r.(pending := r.pending + 1);
    case Unchecked => r := r.(unchecked := r.unchecked + 1);
    case Failed => r := r.(failed := r.failed + 1);
  }

  lemma NothingCounted(messages: seq<(Placement, bool)>, c: Counts)
    requires c == Counts(0, 0, 0, 0, 0, 0, 0, 0, 0, 0)
    ensures forall p :: At(c, p) == CountOf(messages[..0], p)
  {
    assert messages[..0] == [];
  }

  lemma CountNext(messages: seq<(Placement, bool)>, i: nat)
    requires i < |messages|
    ensures forall p :: CountOf(messages[..i + 1], p) == CountOf(messages[..i], p) + if p == messages[i].0 then 1 else 0
  {
    assert messages[..i + 1][..i] == messages[..i];
  }

  // Each message is counted once as sent and once at its placement.
  method TallyPlacements(messages: seq<(Placement, bool)>) returns (c: Counts)
    ensures c.sent == |messages| && forall p :: At(c, p) == CountOf(messages, p)
    ensures c.sent == CheckedCount(c) + c.pending + c.unchecked + c.failed
    ensures c.rescued == RescuedOf(messages)
  {
    c := Counts(0, 0, 0, 0, 0, 0, 0, 0, 0, 0);
    NothingCounted(messages, c);
    hide At, CheckedCount, CountOf;
    for i := 0 to |messages|
      invariant c.sent == i && forall p :: At(c, p) == CountOf(messages[..i], p)
      invariant c.rescued == RescuedOf(messages[..i])
    {
      assert messages[..i + 1][..i] == messages[..i];
      CountNext(messages, i);
      c := AddOne(c, messages[i].0, messages[i].1);
    }
    assert messages[..|messages|] == messages;
    CountsAddUp(messages, c);
  }

  lemma CountsAddUp(messages: seq<(Placement, bool)>, c: Counts)
    requires forall p :: At(c, p) == CountOf(messages, p)
    ensures CheckedCount(c) + c.pending + c.unchecked + c.failed == |messages|
  {
    EachCountedOnce(messages);
    assert At(c, Inbox) == c.inbox && At(c, Promotions) == c.promotions && At(c, Spam) == c.spam
      && At(c, Missing) == c.missing && At(c, Bounced) == c.bounced && At(c, Pending) == c.pending
      && At(c, Unchecked) == c.unchecked && At(c, Failed) == c.failed;
  }

  lemma {:induction false} EachCountedOnce(messages: seq<(Placement, bool)>)
    ensures CountOf(messages, Inbox) + CountOf(messages, Promotions) + CountOf(messages, Spam)
      + CountOf(messages, Missing) + CountOf(messages, Bounced) + CountOf(messages, Pending)
      + CountOf(messages, Unchecked) + CountOf(messages, Failed) == |messages|
  {
    if |messages| > 0 {
      EachCountedOnce(messages[..|messages| - 1]);
    }
  }

  function CheckedCount(c: Counts): nat {
    c.inbox + c.promotions + c.spam + c.missing + c.bounced
  }

  function HealthScore(c: Counts): Option<int> {
    if CheckedCount(c) == 0 then None
    else Some(Round(c.inbox as real / CheckedCount(c) as real * 100.0))
  }

  datatype Decision = Graduate | Demote | NoChange

  function DecideStatus(status: Status, day: int, c: Counts): Decision {
    var health := HealthScore(c);
    if health.None? then NoChange
    else if status == Warming && day >= 14 && CheckedCount(c) >= 20 && health.value >= 90 then Graduate
    else if status == Active && CheckedCount(c) >= 10 && health.value < 70 then Demote
    else NoChange
  }

  // What graduates a mailbox does not demote it, nor the other way round, whatever the day; and one
  // that graduates has at least 89.5 % of its checked emails in the inbox.
  lemma NoFlapping(day: int, later: int, c: Counts)
    ensures DecideStatus(Warming, day, c) == Graduate ==> DecideStatus(Active, later, c) == NoChange
    ensures DecideStatus(Active, day, c) == Demote ==> DecideStatus(Warming, later, c) == NoChange
    ensures DecideStatus(Warming, day, c) == Graduate ==> 1000 * c.inbox >= 895 * CheckedCount(c)
  {
    if DecideStatus(Warming, day, c) == Graduate {
      var n := CheckedCount(c) as real;
      AtLeast(c.inbox as real / n, 0.895, n);
      assert c.inbox as real / n * n == c.inbox as real;
    }
  }

  // Exactly when: from day 14 on, with twenty emails checked and at least 89.5 % of them in the inbox, a
  // warming mailbox graduates; an active one is demoted with ten checked and less than 69.5 % there.
  lemma DecidedIff(status: Status, day: int, c: Counts)
    ensures DecideStatus(status, day, c) == Graduate <==>
      status == Warming && day >= 14 && CheckedCount(c) >= 20 && 1000 * c.inbox >= 895 * CheckedCount(c)
    ensures DecideStatus(status, day, c) == Demote <==>
      status == Active && CheckedCount(c) >= 10 && 1000 * c.inbox < 695 * CheckedCount(c)
    ensures CheckedCount(c) == c.inbox + c.promotions + c.spam + c.missing + c.bounced
  {
    if CheckedCount(c) > 0 {
      ShareAtLeast(c.inbox, CheckedCount(c), 90);
      ShareAtLeast(c.inbox, CheckedCount(c), 70);
    }
  }

  // A rounded percentage reaches `p` from half a point below it.
  lemma ShareAtLeast(part: nat, whole: nat, p: int)
    requires whole > 0
    ensures Round(part as real / whole as real * 100.0) >= p <==> 1000 * part >= (10 * p - 5) * whole
  {
    var share := part as real / whole as real;
    assert share * whole as real == part as real;
    Scales(share, whole as real, (10 * p - 5) as real / 1000.0);
    assert Round(share * 100.0) >= p <==> share >= (10 * p - 5) as real / 1000.0;
    assert (10 * p - 5) as real / 1000.0 * whole as real == ((10 * p - 5) * whole) as real / 1000.0;
  }

  lemma Scales(r: real, n: real, least: real)
    requires n > 0.0
    ensures r >= least <==> r * n >= least * n
  {
    if r < least {
      assert (least - r) * n > 0.0;
    } else {
      assert (r - least) * n >= 0.0;
    }
  }

  lemma AtLeast(r: real, least: real, n: real)
    requires r >= least && n >= 0.0
    ensures r * n >= least * n
  {
  }
}

// Warm-up sends over any sequence of ticks (apps/api/src/lib/warmup/engine.ts). A tick reads what was
// sent before it, then gives each due mailbox one attempt; an attempt happens at or after its tick.
module WarmupRun {
  import opened Basics
  import opened WarmupPolicy

  type Email = string

  // `email` in lower case; `able` stands for warm-up enabled, readable over IMAP and not flagged.
  datatype Warmer = Warmer(email: Email, status: Status, able: bool, startedAt: Option<Time>)

  // `recipient` in lower case; `tick` is the tick the attempt belongs to, which no query reads.
  datatype Message = Message(sender: string, recipient: Email, sentAt: Time, failed: bool, tick: Time)

  datatype State = State(mailboxes: map<string, Warmer>, messages: seq<Message>)

  // ----- What a tick reads -----

  function CountBetween(messages: seq<Message>, sender: string, from: Time, to: Time): nat {
    if |messages| == 0 then 0
    else
      var x := messages[|messages| - 1];
      CountBetween(messages[..|messages| - 1], sender, from, to)
      + if x.sender == sender && from <= x.sentAt < to then 1 else 0
  }

  function CountSince(messages: seq<Message>, sender: string, from: Time): nat {
    if |messages| == 0 then 0
    else
      var x := messages[|messages| - 1];
      CountSince(messages[..|messages| - 1], sender, from) + if x.sender == sender && from <= x.sentAt then 1 else 0
  }

  // The latest attempt of a mailbox from `from` on.
  function LastSince(messages: seq<Message>, sender: string, from: Time): (r: Option<Time>)
    ensures r.None? <==> forall i :: 0 <= i < |messages| ==> !(messages[i].sender == sender && messages[i].sentAt >= from)
    ensures r.Some? ==> forall i :: 0 <= i < |messages| && messages[i].sender == sender ==> messages[i].sentAt <= r.value
    ensures r.Some? ==> exists i :: 0 <= i < |messages| && messages[i].sender == sender && messages[i].sentAt == r.value
  {
    if |messages| == 0 then None
    else
      var x := messages[|messages| - 1];
      var r := LastSince(messages[..|messages| - 1], sender, from);
      if x.sender == sender && x.sentAt >= from && (r.None? || x.sentAt > r.value) then Some(x.sentAt) else r
  }

  // Where a mailbox's current warm-up day began; UTC midnight for one that has not started.
  function DayBegan(m: Warmer, now: Time): Time {
    if m.startedAt.Some? then WarmupDayStart(m.startedAt.value, now) else now / DAY_MS * DAY_MS
  }

  function TargetAt(m: Warmer, now: Time): int {
    DailyWarmupTarget(WarmupDay(Some(if m.startedAt.Some? then m.startedAt.value else now), now), m.status)
  }

  // Due at tick `now`, by the attempts before the tick.
  predicate DueAt(m: Warmer, id: string, base: seq<Message>, now: Time) {
    && m.able && m.status != Paused
    && IsSendDue(TargetAt(m, now), CountSince(base, id, DayBegan(m, now)), LastSince(base, id, now - 2 * DAY_MS), now)
  }

  // A mailbox is due exactly when it is able and not paused, its current warm-up day has had fewer
  // attempts than its target, and each attempt it ever made is a target-th of 16 hours ago.
  lemma DueIff(m: Warmer, id: string, base: seq<Message>, now: Time)
    ensures var day := if m.startedAt.Some? then Max(1, (now - m.startedAt.value) / DAY_MS + 1) else 1;
            var began := if m.startedAt.Some? then m.startedAt.value + (day - 1) * DAY_MS else now / DAY_MS * DAY_MS;
            var target := DailyWarmupTarget(day, m.status);
            DueAt(m, id, base, now) <==>
              && m.able && m.status != Paused && CountSince(base, id, began) < target
              && (target > 0 ==> forall i :: 0 <= i < |base| && base[i].sender == id ==>
                    base[i].sentAt + 16 * HOUR_MS / target <= now)
  {
    hide CountSince, DailyWarmupTarget;
    if m.status != Paused {
      TargetBounds(WarmupDay(Some(if m.startedAt.Some? then m.startedAt.value else now), now), m.status);
      GapBounds(TargetAt(m, now));
      LastIsLatest(base, id, now, TargetAt(m, now));
    }
  }

  lemma LastIsLatest(base: seq<Message>, id: string, now: Time, target: int)
    requires target >= 2
    ensures var last := LastSince(base, id, now - 2 * DAY_MS);
            (last.None? || now - last.value >= 16 * HOUR_MS / target) <==>
              forall i :: 0 <= i < |base| && base[i].sender == id ==> base[i].sentAt + 16 * HOUR_MS / target <= now
  {
    GapBounds(target);
    assert MinSendGapMs(target).value == 16 * HOUR_MS / target;
    var last := LastSince(base, id, now - 2 * DAY_MS);
    if last.Some? {
      var i :| 0 <= i < |base| && base[i].sender == id && base[i].sentAt == last.value;
    }
    hide LastSince, MinSendGapMs;
  }

  // An inbox that got an email inside the gap before the tick, or in the tick itself.
  predicate BusyAt(messages: seq<Message>, k: nat, recipient: Email, now: Time)
    requires k <= |messages|
  {
    exists i :: 0 <= i < |messages| && messages[i].recipient == recipient && !messages[i].failed
      && (i >= k || messages[i].sentAt > now - RECIPIENT_GAP_MS)
  }

  // ----- Attempts -----

  datatype Attempt = Attempt(id: string, recipient: Email, at: Time, failed: bool)

  // An attempt of tick `now`, whose first `k` messages were there before it.
  ghost predicate AttemptOk(s: State, k: nat, now: Time, a: Attempt) {
    && k <= |s.messages| && a.id in s.mailboxes
    && DueAt(s.mailboxes[a.id], a.id, s.messages[..k], now) && StartedBy(s.mailboxes[a.id], now)
    && (forall i :: k <= i < |s.messages| ==> s.messages[i].sender != a.id)
    && !BusyAt(s.messages, k, a.recipient, now)
    && now <= a.at && (forall i :: 0 <= i < |s.messages| ==> s.messages[i].sentAt <= a.at)
  }

  // No warm-up started after the tick that reads it.
  predicate StartedBy(m: Warmer, now: Time) {
    m.startedAt.Some? ==> m.startedAt.value <= now
  }

  function Started(m: Warmer, at: Time): Warmer {
    if m.startedAt.None? then m.(startedAt := Some(at)) else m
  }

  function Attempted(s: State, now: Time, a: Attempt): State
    requires a.id in s.mailboxes
  {
    State(s.mailboxes[a.id := Started(s.mailboxes[a.id], a.at)],
          s.messages + [Message(a.id, a.recipient, a.at, a.failed, now)])
  }

  ghost predicate TickRun(s: State, k: nat, now: Time, attempts: seq<Attempt>)
    decreases |attempts|
  {
    |attempts| > 0 ==>
      && AttemptOk(s, k, now, attempts[0])
      && TickRun(Attempted(s, now, attempts[0]), k, now, attempts[1..])
  }

  ghost function AfterTick(s: State, now: Time, attempts: seq<Attempt>): State
    decreases |attempts|
  {
    if |attempts| == 0 || attempts[0].id !in s.mailboxes then s
    else AfterTick(Attempted(s, now, attempts[0]), now, attempts[1..])
  }

  // ----- What every attempt keeps -----

  ghost predicate Chronicle(s: State) {
    && (forall i, j :: 0 <= i < j < |s.messages| ==> s.messages[i].sentAt <= s.messages[j].sentAt)
    && (forall i :: 0 <= i < |s.messages| ==> s.messages[i].tick <= s.messages[i].sentAt)
    && (forall i :: 0 <= i < |s.messages| ==>
          var x := s.messages[i];
          && x.sender in s.mailboxes && s.mailboxes[x.sender].status != Paused
          && s.mailboxes[x.sender].startedAt.Some? && s.mailboxes[x.sender].startedAt.value <= x.sentAt)
  }

  function GapAt(m: Warmer, now: Time): int {
    var gap := MinSendGapMs(TargetAt(m, now));
    if gap.Some? then gap.value else 0
  }

  ghost predicate Spaced(s: State, i: nat, j: nat)
    requires i < j < |s.messages| && s.messages[j].sender in s.mailboxes
  {
    s.messages[i].sender == s.messages[j].sender ==>
      s.messages[i].sentAt + GapAt(s.mailboxes[s.messages[j].sender], s.messages[j].tick) <= s.messages[j].sentAt
  }

  ghost predicate AllSpaced(s: State)
    requires Chronicle(s)
  {
    forall i, j :: 0 <= i < j < |s.messages| ==> Spaced(s, i, j)
  }

  // Day `d` of a mailbox that has started, 1 the first.
  function DayStart(m: Warmer, d: nat): Time
    requires m.startedAt.Some?
  {
    m.startedAt.value + (d - 1) * DAY_MS
  }

  ghost predicate DayWithin(s: State, id: string, d: nat)
    requires id in s.mailboxes && s.mailboxes[id].startedAt.Some?
  {
    var m := s.mailboxes[id];
    CountBetween(s.messages, id, DayStart(m, d), DayStart(m, d) + DAY_MS) <= DailyWarmupTarget(d, m.status)
  }

  ghost predicate DaysWithin(s: State) {
    forall id, d: nat :: id in s.mailboxes && s.mailboxes[id].startedAt.Some? && s.mailboxes[id].status != Paused && d >= 1 ==>
      DayWithin(s, id, d)
  }

  ghost predicate RecipientsSpaced(s: State) {
    forall i, j :: 0 <= i < j < |s.messages| && BothReached(s.messages[i], s.messages[j]) ==>
      s.messages[i].sentAt + RECIPIENT_GAP_MS <= s.messages[j].sentAt
  }

  // Both went out, to the same inbox.
  predicate BothReached(x: Message, y: Message) {
    x.recipient == y.recipient && !x.failed && !y.failed
  }

  ghost predicate Ok(s: State) {
    Chronicle(s) && AllSpaced(s) && DaysWithin(s) && RecipientsSpaced(s)
  }

  // Between ticks: everything before the tick is in the past of it.
  ghost predicate Past(s: State, k: nat, now: Time) {
    k <= |s.messages| && forall i :: 0 <= i < k ==> s.messages[i].sentAt <= now
  }

  lemma AttemptKeepsChronicle(s: State, k: nat, now: Time, a: Attempt)
    requires Chronicle(s) && AttemptOk(s, k, now, a)
    ensures Chronicle(Attempted(s, now, a))
  {
    var s' := Attempted(s, now, a);
    forall i | 0 <= i < |s'.messages|
      ensures s'.messages[i].sender in s'.mailboxes && s'.mailboxes[s'.messages[i].sender].status != Paused
      ensures s'.mailboxes[s'.messages[i].sender].startedAt.Some?
      ensures s'.mailboxes[s'.messages[i].sender].startedAt.value <= s'.messages[i].sentAt
    {
      if i < |s.messages| {
        assert s.messages[i].sender in s.mailboxes;
      }
    }
  }

  // The new attempt keeps its distance from the mailbox's earlier ones.
  lemma AttemptIsSpaced(s: State, k: nat, now: Time, a: Attempt, i: nat)
    requires Chronicle(s) && AttemptOk(s, k, now, a) && Past(s, k, now)
    requires i < |s.messages| && s.messages[i].sender == a.id
    ensures s.messages[i].sentAt + GapAt(Started(s.mailboxes[a.id], a.at), now) <= a.at
  {
    var m := s.mailboxes[a.id];
    assert i < k;
    var base := s.messages[..k];
    assert base[i] == s.messages[i];
    assert m.startedAt.Some?;
    TargetBounds(WarmupDay(m.startedAt, now), m.status);
    GapBounds(TargetAt(m, now));
    var last := LastSince(base, a.id, now - 2 * DAY_MS);
    if last.None? {
      assert s.messages[i].sentAt < now - 2 * DAY_MS;
    }
  }

  lemma AttemptKeepsSpacing(s: State, k: nat, now: Time, a: Attempt)
    requires Chronicle(s) && AllSpaced(s) && AttemptOk(s, k, now, a) && Past(s, k, now)
    ensures Chronicle(Attempted(s, now, a)) && AllSpaced(Attempted(s, now, a))
  {
    AttemptKeepsChronicle(s, k, now, a);
    var s' := Attempted(s, now, a);
    forall i, j | 0 <= i < j < |s'.messages| ensures Spaced(s', i, j) {
      if j < |s.messages| {
        assert Spaced(s, i, j);
        assert s.mailboxes[s.messages[j].sender].startedAt.Some?;
      } else if s.messages[i].sender == a.id {
        AttemptIsSpaced(s, k, now, a, i);
      }
    }
  }

  lemma AttemptKeepsRecipients(s: State, k: nat, now: Time, a: Attempt)
    requires Chronicle(s) && RecipientsSpaced(s) && AttemptOk(s, k, now, a)
    ensures RecipientsSpaced(Attempted(s, now, a))
  {
    var s' := Attempted(s, now, a);
    forall i | 0 <= i < |s.messages| && s.messages[i].recipient == a.recipient && !s.messages[i].failed
      ensures s.messages[i].sentAt + RECIPIENT_GAP_MS <= a.at
    {
      assert !BusyAt(s.messages, k, a.recipient, now);
    }
  }

  // ----- The target of each warm-up day -----

  lemma CountAppend(messages: seq<Message>, x: Message, sender: string, from: Time, to: Time)
    ensures CountBetween(messages + [x], sender, from, to) ==
      CountBetween(messages, sender, from, to) + if x.sender == sender && from <= x.sentAt < to then 1 else 0
  {
    assert (messages + [x])[..|messages|] == messages;
  }

  // The attempts of a mailbox in [from, to), by their place.
  function AttemptsIn(messages: seq<Message>, sender: string, from: Time, to: Time): set<int> {
    set i | 0 <= i < |messages| && messages[i].sender == sender && from <= messages[i].sentAt < to
  }

  lemma AttemptsInMore(messages: seq<Message>, sender: string, from: Time, to: Time)
    requires |messages| > 0
    ensures var k := |messages| - 1;
            AttemptsIn(messages, sender, from, to) == AttemptsIn(messages[..k], sender, from, to)
              + if messages[k].sender == sender && from <= messages[k].sentAt < to then {k} else {}
  {
    var k := |messages| - 1;
    assert forall i :: 0 <= i < k ==> messages[..k][i] == messages[i];
  }

  lemma {:induction false} CountBetweenIs(messages: seq<Message>, sender: string, from: Time, to: Time)
    ensures CountBetween(messages, sender, from, to) == |AttemptsIn(messages, sender, from, to)|
  {
    if |messages| > 0 {
      CountBetweenIs(messages[..|messages| - 1], sender, from, to);
      AttemptsInMore(messages, sender, from, to);
      assert |messages| - 1 !in AttemptsIn(messages[..|messages| - 1], sender, from, to);
      hide AttemptsIn;
    }
  }

  // With nothing of the sender at `to` or later, nor past the first `k`, counting up to `to` is
  // counting the first `k` on.
  lemma {:induction false} CountIsSince(messages: seq<Message>, k: nat, sender: string, from: Time, to: Time)
    requires k <= |messages|
    requires forall i :: 0 <= i < |messages| && messages[i].sender == sender ==> i < k && messages[i].sentAt < to
    ensures CountBetween(messages, sender, from, to) == CountSince(messages[..k], sender, from)
  {
    if |messages| > 0 {
      var last := |messages| - 1;
      if k == |messages| {
        CountIsSince(messages[..last], last, sender, from, to);
        assert messages[..k] == messages && messages[..last][..last] == messages[..last];
      } else {
        CountIsSince(messages[..last], k, sender, from, to);
        assert messages[..last][..k] == messages[..k];
      }
    }
  }

  lemma {:induction false} CountNone(messages: seq<Message>, sender: string, from: Time, to: Time)
    requires forall i :: 0 <= i < |messages| && messages[i].sender == sender ==> messages[i].sentAt < from
    ensures CountBetween(messages, sender, from, to) == 0
  {
    if |messages| > 0 {
      CountNone(messages[..|messages| - 1], sender, from, to);
    }
  }

  // The attempt falls in day `d` of its mailbox: that day had room for it. It may be the day after
  // the tick's, when the attempt crosses into it; then it is the day's first.
  lemma AttemptFits(s: State, k: nat, now: Time, a: Attempt, d: nat)
    requires Chronicle(s) && AttemptOk(s, k, now, a) && Past(s, k, now) && d >= 1
    requires var m := Started(s.mailboxes[a.id], a.at); DayStart(m, d) <= a.at < DayStart(m, d) + DAY_MS
    ensures var m := Started(s.mailboxes[a.id], a.at);
            CountBetween(s.messages, a.id, DayStart(m, d), DayStart(m, d) + DAY_MS) < DailyWarmupTarget(d, m.status)
  {
    hide BusyAt, MinSendGapMs;
    var was, m := s.mailboxes[a.id], Started(s.mailboxes[a.id], a.at);
    TargetBounds(d, m.status);
    forall i | 0 <= i < |s.messages| && s.messages[i].sender == a.id
      ensures i < k && was.startedAt.Some? && s.messages[i].sentAt <= now
    {
    }
    if was.startedAt.Some? && was.startedAt.value <= now && WarmupDay(was.startedAt, now) == d {
      CountIsSince(s.messages, k, a.id, DayStart(m, d), DayStart(m, d) + DAY_MS);
    } else {
      forall i | 0 <= i < |s.messages| && s.messages[i].sender == a.id
        ensures s.messages[i].sentAt < DayStart(m, d)
      {
        assert was.startedAt.value <= s.messages[i].sentAt <= now;
      }
      CountNone(s.messages, a.id, DayStart(m, d), DayStart(m, d) + DAY_MS);
    }
  }

  lemma AttemptKeepsDays(s: State, k: nat, now: Time, a: Attempt)
    requires Chronicle(s) && DaysWithin(s) && AttemptOk(s, k, now, a) && Past(s, k, now)
    ensures DaysWithin(Attempted(s, now, a))
  {
    var s' := Attempted(s, now, a);
    var x := s'.messages[|s.messages|];
    forall id, d: nat | id in s'.mailboxes && s'.mailboxes[id].startedAt.Some? && s'.mailboxes[id].status != Paused && d >= 1
      ensures DayWithin(s', id, d)
    {
      AttemptKeepsDay(s, k, now, a, id, d);
    }
  }

  lemma AttemptKeepsDay(s: State, k: nat, now: Time, a: Attempt, id: string, d: nat)
    requires Chronicle(s) && DaysWithin(s) && AttemptOk(s, k, now, a) && Past(s, k, now) && d >= 1
    requires var s' := Attempted(s, now, a);
             id in s'.mailboxes && s'.mailboxes[id].startedAt.Some? && s'.mailboxes[id].status != Paused
    ensures DayWithin(Attempted(s, now, a), id, d)
  {
    hide DailyWarmupTarget, DueAt, BusyAt, CountBetween;
    var s' := Attempted(s, now, a);
    var m := s'.mailboxes[id];
    var from := DayStart(m, d);
    CountAppend(s.messages, s'.messages[|s.messages|], id, from, from + DAY_MS);
    if id == a.id && from <= a.at < from + DAY_MS {
      AttemptFits(s, k, now, a, d);
    } else if s.mailboxes[id].startedAt.Some? {
      assert DayWithin(s, id, d);
    } else {
      CountNone(s.messages, id, from, from + DAY_MS);
      TargetBounds(d, m.status);
    }
  }

  // ----- Ticks and runs -----

  lemma AttemptKeeps(s: State, k: nat, now: Time, a: Attempt)
    requires Ok(s) && AttemptOk(s, k, now, a) && Past(s, k, now)
    ensures Ok(Attempted(s, now, a)) && Past(Attempted(s, now, a), k, now)
  {
    AttemptKeepsSpacing(s, k, now, a);
    AttemptKeepsDays(s, k, now, a);
    AttemptKeepsRecipients(s, k, now, a);
  }

  lemma {:induction false} TickKeeps(s: State, k: nat, now: Time, attempts: seq<Attempt>)
    requires Ok(s) && Past(s, k, now) && TickRun(s, k, now, attempts)
    ensures Ok(AfterTick(s, now, attempts))
    decreases |attempts|
  {
    hide Ok, Past, AttemptOk;
    if |attempts| > 0 {
      AttemptKeeps(s, k, now, attempts[0]);
      AttemptHasMailbox(s, k, now, attempts[0]);
      TickKeeps(Attempted(s, now, attempts[0]), k, now, attempts[1..]);
    }
  }

  lemma AttemptHasMailbox(s: State, k: nat, now: Time, a: Attempt)
    requires AttemptOk(s, k, now, a)
    ensures a.id in s.mailboxes
  {
  }

  datatype Tick = Tick(now: Time, attempts: seq<Attempt>)

  // Any sequence of ticks, each after all that was sent before it.
  ghost predicate IsRun(s: State, ticks: seq<Tick>)
    decreases |ticks|
  {
    |ticks| > 0 ==>
      var t := ticks[0];
      && Past(s, |s.messages|, t.now) && TickRun(s, |s.messages|, t.now, t.attempts)
      && IsRun(AfterTick(s, t.now, t.attempts), ticks[1..])
  }

  ghost function AfterRun(s: State, ticks: seq<Tick>): State
    decreases |ticks|
  {
    if |ticks| == 0 then s else AfterRun(AfterTick(s, ticks[0].now, ticks[0].attempts), ticks[1..])
  }

  lemma {:induction false} RunKeeps(s: State, ticks: seq<Tick>)
    requires Ok(s) && IsRun(s, ticks)
    ensures Ok(AfterRun(s, ticks))
    decreases |ticks|
  {
    hide Ok, Past, TickRun, AfterTick;
    if |ticks| > 0 {
      TickKeeps(s, |s.messages|, ticks[0].now, ticks[0].attempts);
      RunKeeps(AfterTick(s, ticks[0].now, ticks[0].attempts), ticks[1..]);
    }
  }

  lemma NothingSent(s: State)
    requires s.messages == [] && forall id :: id in s.mailboxes && s.mailboxes[id].status != Paused ==> s.mailboxes[id].startedAt.None?
    ensures Ok(s)
  {
  }

  // The three promises, over every run from a fresh install: no more attempts in the `d`-th 24 hours of a
  // mailbox's warm-up than that day's target; attempts of one mailbox a target-th of 16 hours apart, by
  // the target of the tick that made the later; and no inbox reached twice within five minutes, whoever
  // sends.
  lemma WarmupPromises(s: State, ticks: seq<Tick>, id: string, d: nat, i: nat, j: nat)
    requires s.messages == [] && IsRun(s, ticks)
    requires forall id :: id in s.mailboxes && s.mailboxes[id].status != Paused ==> s.mailboxes[id].startedAt.None?
    ensures var s' := AfterRun(s, ticks);
            && (id in s'.mailboxes && s'.mailboxes[id].startedAt.Some? && s'.mailboxes[id].status != Paused && d >= 1 ==>
                  var m := s'.mailboxes[id];
                  var began := m.startedAt.value + (d - 1) * DAY_MS;
                  |AttemptsIn(s'.messages, id, began, began + DAY_MS)| <= DailyWarmupTarget(d, m.status))
            && (i < j < |s'.messages| && s'.messages[i].sender == s'.messages[j].sender ==>
                  && s'.messages[j].sender in s'.mailboxes && s'.mailboxes[s'.messages[j].sender].startedAt.Some?
                  && var m, tick := s'.mailboxes[s'.messages[j].sender], s'.messages[j].tick;
                     var target := DailyWarmupTarget(Max(1, (tick - m.startedAt.value) / DAY_MS + 1), m.status);
                     && target >= 2
                     && s'.messages[i].sentAt + 16 * HOUR_MS / target <= s'.messages[j].sentAt)
            && (i < j < |s'.messages| && s'.messages[i].recipient == s'.messages[j].recipient
                && !s'.messages[i].failed && !s'.messages[j].failed ==>
                  s'.messages[i].sentAt + 5 * MINUTE_MS <= s'.messages[j].sentAt)
  {
    NothingSent(s);
    RunKeeps(s, ticks);
    hide IsRun, AfterRun;
    PromisesOf(AfterRun(s, ticks), id, d, i, j);
  }

  lemma PromisesOf(s: State, id: string, d: nat, i: nat, j: nat)
    requires Ok(s)
    ensures id in s.mailboxes && s.mailboxes[id].startedAt.Some? && s.mailboxes[id].status != Paused && d >= 1 ==>
      var m := s.mailboxes[id];
      var began := m.startedAt.value + (d - 1) * DAY_MS;
      |AttemptsIn(s.messages, id, began, began + DAY_MS)| <= DailyWarmupTarget(d, m.status)
    ensures i < j < |s.messages| && s.messages[i].sender == s.messages[j].sender ==>
      && s.messages[j].sender in s.mailboxes && s.mailboxes[s.messages[j].sender].startedAt.Some?
      && var m, tick := s.mailboxes[s.messages[j].sender], s.messages[j].tick;
         var target := DailyWarmupTarget(Max(1, (tick - m.startedAt.value) / DAY_MS + 1), m.status);
         && target >= 2
         && s.messages[i].sentAt + 16 * HOUR_MS / target <= s.messages[j].sentAt
    ensures i < j < |s.messages| && s.messages[i].recipient == s.messages[j].recipient
            && !s.messages[i].failed && !s.messages[j].failed ==>
      s.messages[i].sentAt + 5 * MINUTE_MS <= s.messages[j].sentAt
  {
    hide DailyWarmupTarget, AttemptsIn, CountBetween;
    if id in s.mailboxes && s.mailboxes[id].startedAt.Some? && s.mailboxes[id].status != Paused && d >= 1 {
      assert DayWithin(s, id, d);
      CountBetweenIs(s.messages, id, DayStart(s.mailboxes[id], d), DayStart(s.mailboxes[id], d) + DAY_MS);
    }
    if i < j < |s.messages| && s.messages[i].sender == s.messages[j].sender {
      assert Spaced(s, i, j);
      var m, tick := s.mailboxes[s.messages[j].sender], s.messages[j].tick;
      TargetBounds(WarmupDay(m.startedAt, tick), m.status);
    }
    if i < j < |s.messages| && s.messages[i].recipient == s.messages[j].recipient {
      assert BothReached(s.messages[i], s.messages[j]) <==> !s.messages[i].failed && !s.messages[j].failed;
    }
  }
}

// One warm-up tick's sends (apps/api/src/lib/warmup/engine.ts and partners.ts). `lower` is taken as
// done: addresses are in lower case.
module WarmupEngine {
  import opened Basics
  import opened WarmupPolicy
  import opened WarmupRun
  import JobIds

  // ----- Partners -----

  datatype Partner = Partner(email: Email, domain: string)

  function DomainOf(email: Email): string {
    var parts := JobIds.Split(email, '@');
    if |parts| > 1 then parts[1] else []
  }

  // Everyone in the pool but the sender, in the pool's order.
  function PartnersFor(sender: Email, pool: seq<Partner>): (r: seq<Partner>)
    ensures forall p :: p in r <==> p in pool && p.email != sender
  {
    if |pool| == 0 then []
    else PartnersFor(sender, pool[..|pool| - 1])
         + if pool[|pool| - 1].email != sender then [pool[|pool| - 1]] else []
  }

  function Free(partners: seq<Partner>, busy: set<Email>): (r: seq<Partner>)
    ensures forall p :: p in r <==> p in partners && p.email !in busy
  {
    if |partners| == 0 then []
    else Free(partners[..|partners| - 1], busy)
         + if partners[|partners| - 1].email !in busy then [partners[|partners| - 1]] else []
  }

  // How often a sender wrote to an address from `from` on.
  function CountTo(messages: seq<Message>, sender: string, recipient: Email, from: Time): nat {
    if |messages| == 0 then 0
    else
      var x := messages[|messages| - 1];
      CountTo(messages[..|messages| - 1], sender, recipient, from)
      + if x.sender == sender && x.recipient == recipient && x.sentAt >= from then 1 else 0
  }

  function WrittenTo(messages: seq<Message>, sender: string, recipient: Email, from: Time): set<int> {
    set i | 0 <= i < |messages| && messages[i].sender == sender && messages[i].recipient == recipient
            && messages[i].sentAt >= from
  }

  lemma WrittenToMore(messages: seq<Message>, sender: string, recipient: Email, from: Time)
    requires |messages| > 0
    ensures var k := |messages| - 1;
            var x := messages[k];
            WrittenTo(messages, sender, recipient, from) == WrittenTo(messages[..k], sender, recipient, from)
              + if x.sender == sender && x.recipient == recipient && x.sentAt >= from then {k} else {}
  {
    var k := |messages| - 1;
    assert forall i :: 0 <= i < k ==> messages[..k][i] == messages[i];
  }

  lemma {:induction false} CountToIs(messages: seq<Message>, sender: string, recipient: Email, from: Time)
    ensures CountTo(messages, sender, recipient, from) == |WrittenTo(messages, sender, recipient, from)|
  {
    if |messages| > 0 {
      CountToIs(messages[..|messages| - 1], sender, recipient, from);
      WrittenToMore(messages, sender, recipient, from);
      assert |messages| - 1 !in WrittenTo(messages[..|messages| - 1], sender, recipient, from);
      hide WrittenTo;
    }
  }

  // `a` comes before `b`: another domain first, then the one written to less.
  predicate Ranks(a: Partner, b: Partner, domain: string, counts: Email -> nat) {
    if a.domain != domain && b.domain == domain then true
    else if a.domain == domain && b.domain != domain then false
    else counts(a.email) < counts(b.email)
  }

  // One of another domain if there is any, and of its kind one written to least.
  ghost predicate BestOf(partners: seq<Partner>, domain: string, counts: Email -> nat, p: Partner) {
    forall q :: q in partners ==>
      && (p.domain == domain ==> q.domain == domain)
      && ((p.domain == domain <==> q.domain == domain) ==> counts(p.email) <= counts(q.email))
  }

  // The first of the partners that none ranks before.
  method ChoosePartner(partners: seq<Partner>, domain: string, counts: Email -> nat) returns (choice: Option<Partner>)
    ensures choice.None? <==> partners == []
    ensures choice.Some? ==> exists i ::
      (0 <= i < |partners| && partners[i] == choice.value
       && (forall j :: 0 <= j < |partners| ==> !Ranks(partners[j], partners[i], domain, counts))
       && (forall j :: 0 <= j < i ==> Ranks(partners[i], partners[j], domain, counts)))
    ensures choice.Some? ==> choice.value in partners && BestOf(partners, domain, counts, choice.value)
  {
    if |partners| == 0 {
      return None;
    }
    var best := 0;
    for n := 1 to |partners|
      invariant best < n
      invariant forall j :: 0 <= j < n ==> !Ranks(partners[j], partners[best], domain, counts)
      invariant forall j :: 0 <= j < best ==> Ranks(partners[best], partners[j], domain, counts)
    {
      if Ranks(partners[n], partners[best], domain, counts) {
        best := n;
      }
    }
    return Some(partners[best]);
  }

  // ----- Order -----

  // Fisher-Yates: the same items in some order.
  method Shuffle(a: array<string>, rng: nat -> real)
    requires forall n :: 0.0 <= rng(n) < 1.0
    modifies a
    ensures multiset(a[..]) == multiset(old(a[..]))
  {
    var i := a.Length - 1;
    var n := 0;
    while i > 0
      invariant -1 <= i < a.Length
      invariant multiset(a[..]) == multiset(old(a[..]))
      decreases i
    {
      var j := Min(i, (rng(n) * (i + 1) as real).Floor);
      a[i], a[j] := a[j], a[i];
      i, n := i - 1, n + 1;
    }
  }

  // ----- What a tick reads -----

  lemma DayBeganWithinADay(m: Warmer, now: Time)
    requires StartedBy(m, now)
    ensures now - DAY_MS < DayBegan(m, now) <= now
  {
    if m.startedAt.Some? {
      DayHoldsNow(m.startedAt.value, now);
    }
  }

  function Got(counts: map<string, nat>, id: string): nat {
    if id in counts then counts[id] else 0
  }

  // Sends of each mailbox in its own current warm-up day, out of the last 24 hours' rows.
  method CountSentThisWarmupDay(mailboxes: map<string, Warmer>, messages: seq<Message>, now: Time)
    returns (counts: map<string, nat>)
    requires forall id :: id in mailboxes ==> StartedBy(mailboxes[id], now)
    ensures forall id :: id in mailboxes ==> Got(counts, id) == CountSince(messages, id, DayBegan(mailboxes[id], now))
  {
    counts := map[];
    for i := 0 to |messages|
      invariant forall id :: id in mailboxes ==>
        Got(counts, id) == CountSince(messages[..i], id, DayBegan(mailboxes[id], now))
    {
      assert messages[..i + 1][..i] == messages[..i];
      var r := messages[i];
      if r.sentAt >= now - DAY_MS && r.sender in mailboxes && r.sentAt >= DayBegan(mailboxes[r.sender], now) {
        counts := counts[r.sender := Got(counts, r.sender) + 1];
      } else if r.sender in mailboxes {
        DayBeganWithinADay(mailboxes[r.sender], now);
      }
    }
    assert messages[..|messages|] == messages;
  }

  function Latest(last: map<string, Time>, id: string): Option<Time> {
    if id in last then Some(last[id]) else None
  }

  method LastByMailbox(messages: seq<Message>, from: Time) returns (last: map<string, Time>)
    ensures forall id :: Latest(last, id) == LastSince(messages, id, from)
  {
    last := map[];
    for i := 0 to |messages|
      invariant forall id :: Latest(last, id) == LastSince(messages[..i], id, from)
    {
      assert messages[..i + 1][..i] == messages[..i];
      var r := messages[i];
      if r.sentAt >= from && (r.sender !in last || r.sentAt > last[r.sender]) {
        last := last[r.sender := r.sentAt];
      }
    }
    assert messages[..|messages|] == messages;
  }

  method BusyInboxes(messages: seq<Message>, now: Time) returns (busy: set<Email>)
    ensures forall r :: r in busy <==> BusyAt(messages, |messages|, r, now)
  {
    busy := {};
    for i := 0 to |messages|
      invariant forall r :: r in busy <==> exists k ::
        (0 <= k < i && messages[k].recipient == r && !messages[k].failed && messages[k].sentAt > now - RECIPIENT_GAP_MS)
    {
      if !messages[i].failed && messages[i].sentAt > now - RECIPIENT_GAP_MS {
        busy := busy + {messages[i].recipient};
      }
    }
  }

  // ----- A tick in progress -----

  lemma {:induction false} TickMore(s: State, k: nat, now: Time, attempts: seq<Attempt>, a: Attempt)
    requires TickRun(s, k, now, attempts) && AttemptOk(AfterTick(s, now, attempts), k, now, a)
    ensures TickRun(s, k, now, attempts + [a])
    ensures AfterTick(s, now, attempts + [a]) == Attempted(AfterTick(s, now, attempts), now, a)
    decreases |attempts|
  {
    hide AttemptOk;
    if |attempts| == 0 {
      AttemptHasMailbox(s, k, now, a);
      assert attempts + [a] == [a] && [a][1..] == [];
    } else {
      AttemptHasMailbox(s, k, now, attempts[0]);
      TickMore(Attempted(s, now, attempts[0]), k, now, attempts[1..], a);
      assert (attempts + [a])[1..] == attempts[1..] + [a];
    }
  }

  // From `s`, `attempts` have been made; the mailboxes in `rest` have not had their turn.
  ghost predicate Ticking(s: State, now: Time, attempts: seq<Attempt>, s': State, rest: seq<string>, busy: set<Email>, at: Time) {
    var k := |s.messages|;
    && TickRun(s, k, now, attempts) && s' == AfterTick(s, now, attempts)
    && k <= |s'.messages| && s'.messages[..k] == s.messages && s'.mailboxes.Keys == s.mailboxes.Keys
    && (forall id :: id in rest && id in s.mailboxes ==> s'.mailboxes[id] == s.mailboxes[id])
    && (forall i :: k <= i < |s'.messages| ==> s'.messages[i].sender !in rest)
    && (forall r :: r in busy <==> BusyAt(s'.messages, k, r, now))
    && now <= at && (forall i :: 0 <= i < |s'.messages| ==> s'.messages[i].sentAt <= at)
  }

  predicate Unique(ids: seq<string>) {
    forall i, j :: 0 <= i < j < |ids| ==> ids[i] != ids[j]
  }

  lemma TickingSkips(s: State, now: Time, attempts: seq<Attempt>, s': State, rest: seq<string>, busy: set<Email>,
                     at: Time, later: Time)
    requires Ticking(s, now, attempts, s', rest, busy, at) && |rest| > 0 && at <= later
    ensures Ticking(s, now, attempts, s', rest[1..], busy, later)
  {
  }

  lemma TickingGoesOn(s: State, now: Time, attempts: seq<Attempt>, s': State, rest: seq<string>, busy: set<Email>,
                      at: Time, a: Attempt)
    requires Ticking(s, now, attempts, s', rest, busy, at) && |rest| > 0 && Unique(rest)
    requires a.id == rest[0] && a.id in s.mailboxes && a.at >= at && a.recipient !in busy
    requires DueAt(s.mailboxes[a.id], a.id, s.messages, now) && StartedBy(s.mailboxes[a.id], now)
    ensures a.id in s'.mailboxes
    ensures Ticking(s, now, attempts + [a], Attempted(s', now, a), rest[1..],
                    if a.failed then busy else busy + {a.recipient}, a.at)
  {
    hide TickRun, AfterTick, DueAt, BusyAt;
    var k, s'' := |s.messages|, Attempted(s', now, a);
    assert AttemptOk(s', k, now, a);
    TickMore(s, k, now, attempts, a);
    forall r ensures BusyAt(s''.messages, k, r, now) <==> BusyAt(s'.messages, k, r, now) || (r == a.recipient && !a.failed) {
      BusyMore(s', k, now, a, r);
    }
    assert s''.messages[..k] == s'.messages[..k];
  }

  lemma BusyMore(s: State, k: nat, now: Time, a: Attempt, r: Email)
    requires k <= |s.messages| && a.id in s.mailboxes
    ensures BusyAt(Attempted(s, now, a).messages, k, r, now) <==>
            BusyAt(s.messages, k, r, now) || (r == a.recipient && !a.failed)
  {
    var more := Attempted(s, now, a).messages;
    if BusyAt(s.messages, k, r, now) {
      var i :| 0 <= i < |s.messages| && s.messages[i].recipient == r && !s.messages[i].failed
        && (i >= k || s.messages[i].sentAt > now - RECIPIENT_GAP_MS);
      assert more[i] == s.messages[i];
    }
    if r == a.recipient && !a.failed {
      assert more[|s.messages|].recipient == r;
    }
  }

  // ----- Sending -----

  datatype Outcome = Sent(to: Email) | SendFailed(to: Email) | NoPartner | Busy

  class Engine {
    var mailboxes: map<string, Warmer>
    var messages: seq<Message>

    ghost function View(): State
      reads this
    {
      State(mailboxes, messages)
    }

    constructor (mailboxes: map<string, Warmer>)
      ensures this.mailboxes == mailboxes && messages == []
    {
      this.mailboxes, messages := mailboxes, [];
    }

    // One warm-up email from a mailbox to its next partner, recorded either way.
    method SendOneWarmup(id: string, pool: seq<Partner>, busy: set<Email>, tick: Time, at: Time, fails: bool)
      returns (outcome: Outcome)
      requires id in mailboxes
      modifies this
      ensures outcome.Sent? || outcome.SendFailed? ==>
        && outcome.to !in busy && outcome.Sent? == !fails
        && (exists p :: p in pool && p.email == outcome.to && p.email != old(mailboxes[id]).email
             && forall q :: q in pool && q.email != old(mailboxes[id]).email && q.email !in busy ==>
                  var own := DomainOf(old(mailboxes[id]).email);
                  && (p.domain == own ==> q.domain == own)
                  && ((p.domain == own <==> q.domain == own) ==>
                        CountTo(old(messages), id, p.email, at - DAY_MS) <= CountTo(old(messages), id, q.email, at - DAY_MS)))
        && View() == Attempted(old(View()), tick, Attempt(id, outcome.to, at, fails))
      ensures outcome.NoPartner? || outcome.Busy? ==>
        && View() == old(View())
        && forall p :: p in pool && p.email != mailboxes[id].email ==> p.email in busy
      ensures outcome.NoPartner? <==> forall p :: p in pool ==> p.email == old(mailboxes[id]).email
    {
      var m := mailboxes[id];
      var partners := PartnersFor(m.email, pool);
      if |partners| == 0 {
        assert forall p :: p in pool ==> p !in partners;
        return NoPartner;
      }
      assert partners[0] in partners;
      var free := Free(partners, busy);
      var log := messages;
      var partner := ChoosePartner(free, DomainOf(m.email), (r: Email) => CountTo(log, id, r, at - DAY_MS));
      if partner.None? {
        assert forall p :: p in partners && p.email !in busy ==> p in free;
        return Busy;
      }
      assert partner.value in free;
      if m.startedAt.None? {
        mailboxes := mailboxes[id := m.(startedAt := Some(at))];
      } else {
        assert mailboxes[id := m] == mailboxes;
      }
      messages := messages + [Message(id, partner.value.email, at, fails, tick)];
      return if fails then SendFailed(partner.value.email) else Sent(partner.value.email);
    }

    // One mailbox's turn: an attempt if it is due and some partner is free.
    method TakeTurn(id: string, pool: seq<Partner>, target: int, sentToday: nat, last: Option<Time>,
                    busy: set<Email>, now: Time, at: Time, fails: bool)
      returns (outcome: Option<Outcome>)
      requires id in mailboxes && target == TargetAt(mailboxes[id], now)
      modifies this
      ensures outcome.None? ==> View() == old(View())
      ensures outcome.None? <==> !(old(mailboxes[id]).able && old(mailboxes[id]).status != Paused
                                   && IsSendDue(target, sentToday, last, now))
      ensures outcome.Some? && (outcome.value.Sent? || outcome.value.SendFailed?) ==>
        && outcome.value.to !in busy && outcome.value.Sent? == !fails
        && View() == Attempted(old(View()), now, Attempt(id, outcome.value.to, at, fails))
      ensures outcome.Some? && (outcome.value.NoPartner? || outcome.value.Busy?) ==>
        && View() == old(View())
        && forall p :: p in pool && p.email != mailboxes[id].email ==> p.email in busy
    {
      var m := mailboxes[id];
      if !m.able || m.status == Paused || !IsSendDue(target, sentToday, last, now) {
        return None;
      }
      var result := SendOneWarmup(id, pool, busy, now, at, fails);
      return Some(result);
    }

    // The loop's body, for the mailbox at place `n` of the order.
    method NextTurn(ghost s: State, order: seq<string>, n: nat, pool: seq<Partner>, today: map<string, nat>,
                    last: map<string, Time>, busy: set<Email>, now: Time, ghost before: Time, at: Time, fails: bool,
                    ghost attempts: seq<Attempt>)
      returns (outcome: Option<Outcome>, busy': set<Email>, ghost more: seq<Attempt>)
      requires n < |order| && Unique(order) && order[n] in s.mailboxes && StartedBy(s.mailboxes[order[n]], now)
      requires Ticking(s, now, attempts, View(), order[n..], busy, before) && before <= at
      requires Got(today, order[n]) == CountSince(s.messages, order[n], DayBegan(s.mailboxes[order[n]], now))
      requires Latest(last, order[n]) == LastSince(s.messages, order[n], now - 2 * DAY_MS)
      requires TurnsDone(s, order, n, pool, attempts, View(), now)
      modifies this
      ensures Ticking(s, now, more, View(), order[n + 1..], busy', at)
      ensures TurnsDone(s, order, n + 1, pool, more, View(), now)
      ensures |more| == |attempts| + if outcome.Some? && (outcome.value.Sent? || outcome.value.SendFailed?) then 1 else 0
    {
      var id := order[n];
      assert order[n..][0] == id && order[n..][1..] == order[n + 1..];
      assert id in order[n..];
      ghost var was := View();
      outcome := TakeTurn(id, pool, TargetAt(mailboxes[id], now), Got(today, id), Latest(last, id), busy, now, at, fails);
      busy', more := busy, attempts;
      if outcome.Some? && (outcome.value.Sent? || outcome.value.SendFailed?) {
        ghost var a := Attempt(id, outcome.value.to, at, fails);
        TickingGoesOn(s, now, attempts, was, order[n..], busy, before, a);
        busy' := if outcome.value.Sent? then busy + {outcome.value.to} else busy;
        more := attempts + [a];
        TurnMade(s, order, n, pool, attempts, was, now, a);
      } else {
        TickingSkips(s, now, attempts, was, order[n..], busy, before, at);
        TurnSkipped(s, order, n, pool, attempts, was, now);
      }
    }

    // The turns, in the order given.
    method TakeTurns(order: seq<string>, pool: seq<Partner>, today: map<string, nat>, last: map<string, Time>,
                     busyBefore: set<Email>, clock: nat -> Time, fails: nat -> bool)
      returns (sent: nat, failed: nat, ghost attempts: seq<Attempt>)
      requires Unique(order) && Ticks(clock)
      requires forall i :: 0 <= i < |order| ==>
        && order[i] in mailboxes && StartedBy(mailboxes[order[i]], clock(0))
        && Got(today, order[i]) == CountSince(messages, order[i], DayBegan(mailboxes[order[i]], clock(0)))
        && Latest(last, order[i]) == LastSince(messages, order[i], clock(0) - 2 * DAY_MS)
      requires Ticking(View(), clock(0), [], View(), order, busyBefore, clock(0))
      requires TurnsDone(View(), order, 0, pool, [], View(), clock(0))
      modifies this
      ensures TickRun(old(View()), |old(messages)|, clock(0), attempts)
      ensures View() == AfterTick(old(View()), clock(0), attempts)
      ensures sent + failed == |attempts|
      ensures TurnsDone(old(View()), order, |order|, pool, attempts, View(), clock(0))
    {
      hide Ticking, TurnsDone, CountSince, LastSince, DayBegan, AfterTick, TickRun;
      ghost var s := View();
      var now := clock(0);
      var busy := busyBefore;
      sent, failed, attempts := 0, 0, [];
      assert order[0..] == order;
      for n := 0 to |order|
        invariant Ticking(s, now, attempts, View(), order[n..], busy, clock(n))
        invariant TurnsDone(s, order, n, pool, attempts, View(), now)
        invariant sent + failed == |attempts|
      {
        assert NotEarlier(clock, n);
        var outcome;
        outcome, busy, attempts :=
          NextTurn(s, order, n, pool, today, last, busy, now, clock(n), clock(n + 1), fails(n), attempts);
        if outcome.Some? && outcome.value.Sent? {
          sent := sent + 1;
        } else if outcome.Some? && outcome.value.SendFailed? {
          failed := failed + 1;
        }
      }
      TickEnds(s, now, attempts, View(), order[|order|..], busy, clock(|order|));
    }

    // Every mailbox once, in a fresh order: each due one makes its attempt, unless no partner is free.
    method SendDueWarmups(ids: seq<string>, pool: seq<Partner>, clock: nat -> Time, fails: nat -> bool, rng: nat -> real)
      returns (sent: nat, failed: nat, ghost order: seq<string>, ghost attempts: seq<Attempt>)
      requires Unique(ids) && forall i :: 0 <= i < |ids| ==> ids[i] in mailboxes
      requires forall n :: 0.0 <= rng(n) < 1.0
      requires Ticks(clock) && Past(View(), |messages|, clock(0))
      requires forall id :: id in mailboxes ==> StartedBy(mailboxes[id], clock(0))
      modifies this
      ensures TickRun(old(View()), |old(messages)|, clock(0), attempts)
      ensures View() == AfterTick(old(View()), clock(0), attempts)
      ensures sent + failed == |attempts|
      ensures multiset(order) == multiset(ids)
      ensures TurnsDone(old(View()), order, |order|, pool, attempts, View(), clock(0))
    {
      hide Ticking, TurnsDone, CountSince, LastSince, BusyAt, Past, DayBegan, AfterTick, TickRun;
      var now := clock(0);
      var today := CountSentThisWarmupDay(mailboxes, messages, now);
      var last := LastByMailbox(messages, now - 2 * DAY_MS);
      var busy := BusyInboxes(messages, now);
      var shuffled := Shuffled(ids, rng);
      order := shuffled;
      SameNames(ids, shuffled);
      assert forall i :: 0 <= i < |shuffled| ==> shuffled[i] in shuffled;
      TickStarts(View(), now, shuffled, pool, busy);
      sent, failed, attempts := TakeTurns(shuffled, pool, today, last, busy, clock, fails);
    }
  }

  ghost predicate Ticks(clock: nat -> Time) {
    forall n: nat :: NotEarlier(clock, n)
  }

  ghost predicate NotEarlier(clock: nat -> Time, n: nat) {
    clock(n) <= clock(n + 1)
  }

  // A copy in a fresh order.
  method Shuffled(ids: seq<string>, rng: nat -> real) returns (order: seq<string>)
    requires forall n :: 0.0 <= rng(n) < 1.0
    ensures multiset(order) == multiset(ids)
  {
    var a := new string[|ids|](i requires 0 <= i < |ids| => ids[i]);
    assert a[..] == ids;
    Shuffle(a, rng);
    order := a[..];
  }

  lemma SameNames(ids: seq<string>, order: seq<string>)
    requires multiset(order) == multiset(ids) && Unique(ids)
    ensures Unique(order) && forall id :: id in order <==> id in ids
  {
    assert forall id :: id in order <==> id in multiset(order);
    assert forall id :: id in ids <==> id in multiset(ids);
    forall i, j | 0 <= i < j < |order| ensures order[i] != order[j] {
      if order[i] == order[j] {
        TwiceCounted(order, i, j);
        OnceCounted(ids, order[i]);
      }
    }
  }

  lemma TwiceCounted(ids: seq<string>, i: nat, j: nat)
    requires i < j < |ids| && ids[i] == ids[j]
    ensures multiset(ids)[ids[i]] >= 2
  {
    assert ids == ids[..i] + [ids[i]] + ids[i + 1..j] + [ids[j]] + ids[j + 1..];
  }

  lemma {:induction false} OnceCounted(ids: seq<string>, id: string)
    requires Unique(ids)
    ensures multiset(ids)[id] <= 1
  {
    if |ids| > 0 {
      var last := |ids| - 1;
      OnceCounted(ids[..last], id);
      assert ids == ids[..last] + [ids[last]];
      if ids[last] == id {
        assert id !in ids[..last];
        assert multiset(ids[..last])[id] == 0;
      }
    }
  }

  lemma TickEnds(s: State, now: Time, attempts: seq<Attempt>, s': State, rest: seq<string>, busy: set<Email>, at: Time)
    requires Ticking(s, now, attempts, s', rest, busy, at)
    ensures TickRun(s, |s.messages|, now, attempts) && s' == AfterTick(s, now, attempts)
  {
  }

  lemma TickStarts(s: State, now: Time, order: seq<string>, pool: seq<Partner>, busy: set<Email>)
    requires Past(s, |s.messages|, now) && forall r :: r in busy <==> BusyAt(s.messages, |s.messages|, r, now)
    ensures Ticking(s, now, [], s, order, busy, now) && TurnsDone(s, order, 0, pool, [], s, now)
  {
    assert s.messages[..|s.messages|] == s.messages;
  }

  // The mailbox made an attempt.
  ghost predicate Tried(attempts: seq<Attempt>, id: string) {
    exists i :: 0 <= i < |attempts| && attempts[i].id == id
  }

  // Every partner of the mailbox got an email too recently.
  ghost predicate NoneFree(m: Warmer, pool: seq<Partner>, messages: seq<Message>, k: nat, now: Time) {
    k <= |messages| && forall p :: p in pool && p.email != m.email ==> BusyAt(messages, k, p.email, now)
  }

  predicate IsDue(s: State, id: string, now: Time) {
    id in s.mailboxes && DueAt(s.mailboxes[id], id, s.messages, now)
  }

  // No due mailbox was passed over for nothing.
  ghost predicate TurnsDone(s: State, order: seq<string>, n: nat, pool: seq<Partner>, attempts: seq<Attempt>, s': State, now: Time) {
    n <= |order| && forall i :: 0 <= i < n && IsDue(s, order[i], now) ==>
      Tried(attempts, order[i]) || NoneFree(s.mailboxes[order[i]], pool, s'.messages, |s.messages|, now)
  }

  // So when a due mailbox made no attempt in a tick, everyone it could write to got an email in the five
  // minutes before the tick, or in the tick.
  lemma PassedOverMeans(s: State, order: seq<string>, pool: seq<Partner>, attempts: seq<Attempt>, s': State, now: Time,
                        i: nat, p: Partner)
    requires TurnsDone(s, order, |order|, pool, attempts, s', now) && i < |order|
    requires order[i] in s.mailboxes && DueAt(s.mailboxes[order[i]], order[i], s.messages, now)
    requires forall k :: 0 <= k < |attempts| ==> attempts[k].id != order[i]
    requires p in pool && p.email != s.mailboxes[order[i]].email
    ensures exists k :: 0 <= k < |s'.messages| && s'.messages[k].recipient == p.email && !s'.messages[k].failed
                        && (k >= |s.messages| || s'.messages[k].sentAt > now - 5 * MINUTE_MS)
  {
    hide DueAt;
    assert IsDue(s, order[i], now);
    assert !Tried(attempts, order[i]);
  }

  lemma TurnMade(s: State, order: seq<string>, n: nat, pool: seq<Partner>, attempts: seq<Attempt>, s': State, now: Time, a: Attempt)
    requires n < |order| && a.id == order[n] && a.id in s'.mailboxes
    requires TurnsDone(s, order, n, pool, attempts, s', now)
    ensures TurnsDone(s, order, n + 1, pool, attempts + [a], Attempted(s', now, a), now)
  {
    var more := attempts + [a];
    forall i | 0 <= i < n + 1 && IsDue(s, order[i], now)
      ensures Tried(more, order[i])
              || NoneFree(s.mailboxes[order[i]], pool, Attempted(s', now, a).messages, |s.messages|, now)
    {
      if i == n {
        assert more[|attempts|].id == order[i];
      } else if Tried(attempts, order[i]) {
        var j :| 0 <= j < |attempts| && attempts[j].id == order[i];
        assert more[j].id == order[i];
      } else {
        forall p | p in pool && p.email != s.mailboxes[order[i]].email
          ensures BusyAt(Attempted(s', now, a).messages, |s.messages|, p.email, now)
        {
          BusyMore(s', |s.messages|, now, a, p.email);
        }
      }
    }
  }

  lemma TurnSkipped(s: State, order: seq<string>, n: nat, pool: seq<Partner>, attempts: seq<Attempt>, s': State, now: Time)
    requires n < |order| && TurnsDone(s, order, n, pool, attempts, s', now)
    requires IsDue(s, order[n], now) ==>
      NoneFree(s.mailboxes[order[n]], pool, s'.messages, |s.messages|, now)
    ensures TurnsDone(s, order, n + 1, pool, attempts, s', now)
  {
  }
}

