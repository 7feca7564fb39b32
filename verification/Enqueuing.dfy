// A mailbox's sends over the last 24 hours, read from the log (apps/worker/src/rollingSends.ts).
module RollingSends {
  import opened Basics
  import opened Model

  // The times of `m`'s sends after `since`, in log order.
  function RecentTimes(log: seq<LogRow>, m: MailboxId, since: Time): seq<Time> {
    if |log| == 0 then []
    else
      var row := log[|log| - 1];
      RecentTimes(log[..|log| - 1], m, since) + if CountedSend(row, m) && row.at > since then [row.at] else []
  }

  function CountAfter(times: seq<Time>, since: Time): nat {
    if |times| == 0 then 0
    else CountAfter(times[..|times| - 1], since) + if times[|times| - 1] > since then 1 else 0
  }

  // Counting a day's list of times from later on is counting the log from later on.
  lemma {:induction false} CountOfTimes(log: seq<LogRow>, m: MailboxId, since: Time, later: Time)
    requires since <= later
    ensures CountAfter(RecentTimes(log, m, since), later) == CountSends(log, m, later)
    ensures |RecentTimes(log, m, since)| == CountSends(log, m, since)
  {
    if |log| > 0 {
      CountOfTimes(log[..|log| - 1], m, since, later);
      var init, row := RecentTimes(log[..|log| - 1], m, since), log[|log| - 1];
      assert (init + [row.at])[..|init|] == init && init + [] == init;
    }
  }

  method CountTimes(times: seq<Time>, since: Time) returns (count: nat)
    ensures count == CountAfter(times, since)
  {
    count := 0;
    for i := 0 to |times|
      invariant count == CountAfter(times[..i], since)
    {
      assert times[..i + 1][..i] == times[..i];
      count := if times[i] > since then count + 1 else count;
    }
    assert times[..|times|] == times;
  }

  // Every mailbox's send times, gathered in one pass over the log.
  method RecentSendTimes(log: seq<LogRow>, since: Time) returns (byMailbox: map<MailboxId, seq<Time>>)
    ensures forall m :: RecentTimes(log, m, since) == if m in byMailbox then byMailbox[m] else []
  {
    byMailbox := map[];
    for i := 0 to |log|
      invariant forall m :: RecentTimes(log[..i], m, since) == if m in byMailbox then byMailbox[m] else []
    {
      assert log[..i + 1][..i] == log[..i];
      var row := log[i];
      if row.status != LogFailed && row.at > since {
        byMailbox := byMailbox[row.mailbox :=
          (if row.mailbox in byMailbox then byMailbox[row.mailbox] else []) + [row.at]];
      }
    }
    assert log[..|log|] == log;
  }

  // Mailboxes whose provider deferred a send after `since`.
  method DeferredMailboxes(log: seq<LogRow>, since: Time) returns (deferred: set<MailboxId>)
    ensures forall m :: m in deferred <==> exists i ::
      0 <= i < |log| && log[i].mailbox == m && log[i].status == LogFailed && log[i].deferral && log[i].at > since
  {
    deferred := {};
    for n := 0 to |log|
      invariant forall m :: m in deferred <==> exists i ::
        0 <= i < n && log[i].mailbox == m && log[i].status == LogFailed && log[i].deferral && log[i].at > since
    {
      if log[n].status == LogFailed && log[n].deferral && log[n].at > since {
        deferred := deferred + {log[n].mailbox};
      }
    }
  }
}

// The enqueuer's pool of mailboxes, one booking, and pass 1 of a tick, the follow-ups that are due
// (apps/worker/src/enqueuer.ts).
module Enqueuer {
  import opened Basics
  import opened SendSchedule
  import opened CampaignCap
  import opened SlotTiming
  import opened Model
  import opened ReplyOutcome
  import opened Invariants
  import opened RollingSends
  import opened Protocol
  import opened Store

  const LEAD_SCAN_SIZE := 200

  // ----- The pool -----

  // `sendTimes` are the mailbox's sends of the last day, `pendingAt` its slot already come round.
  datatype PoolEntry = PoolEntry(
    lastSentAt: Option<Time>, cap: nat, sendTimes: seq<Time>, pendingAt: Option<Time>, pace: nat)

  ghost function EntryOf(s: State, m: MailboxId): PoolEntry
    requires m in s.mailboxes
  {
    PoolEntry(s.mailboxes[m].lastSentAt, TickCap(s, m), RecentTimes(s.log, m, s.now - DAY_MS), Pending(s, m), Pace(s, m))
  }

  type Pool = map<MailboxId, PoolEntry>

  ghost predicate PoolOk(s: State, pool: Pool) {
    forall m :: m in pool ==> InPool(s, m) && pool[m] == EntryOf(s, m)
  }

  lemma SlowedIff(s: State, m: MailboxId, deferred: set<MailboxId>)
    requires m in deferred <==> exists i ::
      0 <= i < |s.log| && s.log[i].mailbox == m && s.log[i].status == LogFailed
      && s.log[i].deferral && s.log[i].at > s.now - DAY_MS
    ensures m in deferred <==> Slowed(s, m)
  {
  }

  // One mailbox's place in the pool, if it has one.
  method MakeEntry(st: Store, m: MailboxId, times: seq<Time>, slowed: bool) returns (entry: Option<PoolEntry>)
    requires m in st.mailboxes
    requires times == RecentTimes(st.log, m, st.now - DAY_MS) && (slowed <==> Slowed(st.View(), m))
    ensures entry.Some? <==> InPool(st.View(), m)
    ensures entry.Some? ==> entry.value == EntryOf(st.View(), m)
  {
    var mailbox := st.mailboxes[m];
    CountOfTimes(st.log, m, st.now - DAY_MS, st.now - DAY_MS);
    var fullCap := CampaignCapToday(mailbox.dailyCap, mailbox.graduatedAt, st.now);
    var cap := if slowed then Max(1, fullCap / 2) else fullCap;
    var pendingAt :=
      if m in st.reservations && st.now < st.reservations[m].expires then Some(st.reservations[m].slot) else None;
    if !mailbox.usable || |times| >= cap || (pendingAt.Some? && pendingAt.value > st.now) {
      return None;
    }
    return Some(PoolEntry(mailbox.lastSentAt, cap, times, pendingAt, if slowed then 2 else 1));
  }

  // Usable mailboxes under their limit whose booked slot, if any, has come round.
  method BuildPool(st: Store, order: seq<MailboxId>) returns (pool: Pool)
    requires forall i :: 0 <= i < |order| ==> order[i] in st.mailboxes
    ensures PoolOk(st.View(), pool)
    ensures forall m :: m in pool <==> m in order && InPool(st.View(), m)
  {
    hide InPool, EntryOf, Slowed, PoolFrom;
    var sendTimes := RecentSendTimes(st.log, st.now - DAY_MS);
    var deferred := DeferredMailboxes(st.log, st.now - DAY_MS);
    ghost var s := st.View();
    pool := map[];
    PoolOfNone(s);
    assert order[..0] == [];
    for i := 0 to |order|
      invariant PoolFrom(s, order[..i], pool)
    {
      assert order[..i + 1] == order[..i] + [order[i]];
      var m := order[i];
      SlowedIff(s, m, deferred);
      var entry := MakeEntry(st, m, if m in sendTimes then sendTimes[m] else [], m in deferred);
      PoolOfMore(s, order[..i], pool, m, entry);
      if entry.Some? {
        pool := pool[m := entry.value];
      }
    }
    assert order[..|order|] == order;
    PoolIsRight(s, order, pool);
  }

  // The pool of some mailboxes: those of them that belong in it, each with its numbers.
  ghost predicate PoolFrom(s: State, ms: seq<MailboxId>, pool: Pool) {
    PoolOk(s, pool) && forall m :: m in pool <==> m in ms && InPool(s, m)
  }

  lemma PoolOfNone(s: State)
    ensures PoolFrom(s, [], map[])
  {
  }

  lemma PoolOfMore(s: State, ms: seq<MailboxId>, pool: Pool, m: MailboxId, entry: Option<PoolEntry>)
    requires PoolFrom(s, ms, pool) && m in s.mailboxes && (entry.Some? <==> InPool(s, m))
    requires entry.Some? ==> entry.value == EntryOf(s, m)
    ensures PoolFrom(s, ms + [m], if entry.Some? then pool[m := entry.value] else pool)
  {
    hide EntryOf, Slowed, RecentSends, TickCap;
    assert InPool(s, m) ==> m in s.mailboxes;
    hide InPool;
  }

  lemma PoolIsRight(s: State, ms: seq<MailboxId>, pool: Pool)
    requires PoolFrom(s, ms, pool)
    ensures PoolOk(s, pool) && forall m :: m in pool <==> m in ms && InPool(s, m)
  {
    hide InPool, EntryOf;
  }

  // ----- One booking -----

  ghost function SlotAt(s: State, l: LeadId, m: MailboxId, d: Draws): Time
    requires WellFormed(s) && l in s.leads && m in s.mailboxes
  {
    s.now + NextSlotSeconds(s.mailboxes[m].lastSentAt, s.now, Pending(s, m), SpreadFor(s, l, m), Pace(s, m), d) * 1000
  }

  // The slot these draws give would land after the window closes.
  ghost predicate TooLate(s: State, l: LeadId, m: MailboxId, d: Draws)
    requires WellFormed(s) && l in s.leads && m in s.mailboxes
  {
    WindowOf(s, l).msLeft.Some? && SlotAt(s, l, m, d) - s.now >= WindowOf(s, l).msLeft.value
  }

  method SpreadGap(st: Store, l: LeadId, m: MailboxId, entry: PoolEntry, window: WindowState) returns (spreadMs: real)
    requires WellFormed(st.View()) && l in st.leads && m in st.mailboxes
    requires entry == EntryOf(st.View(), m) && window == WindowOf(st.View(), l)
    ensures spreadMs == SpreadFor(st.View(), l, m)
  {
    var stillCounted := 0;
    if window.msLeft.Some? && window.msLeft.value > 0 {
      stillCounted := CountTimes(entry.sendTimes, st.now + window.msLeft.value - DAY_MS);
      CountOfTimes(st.log, m, st.now - DAY_MS, st.now + window.msLeft.value - DAY_MS);
    }
    spreadMs := SpreadGapMs(window.msLeft, entry.cap, stillCounted);
  }

  method TakeSlot(st: Store, l: LeadId, m: MailboxId, entry: PoolEntry, window: WindowState, d: Draws)
    returns (slot: Option<Time>)
    requires WellFormed(st.View()) && l in st.leads && m in st.mailboxes
    requires entry == EntryOf(st.View(), m) && window == WindowOf(st.View(), l)
    modifies st`reservations
    ensures slot.None? <==> TooLate(old(st.View()), l, m, d)
    ensures slot.Some? ==> slot.value == SlotAt(old(st.View()), l, m, d)
    ensures st.reservations ==
      if slot.Some? then old(st.reservations)[m := ReservationFor(slot.value)] else old(st.reservations)
  {
    var spreadMs := SpreadGap(st, l, m, entry, window);
    var delaySeconds := NextSlotSeconds(entry.lastSentAt, st.now, entry.pendingAt, spreadMs, entry.pace, d);
    if window.msLeft.Some? && delaySeconds * 1000 >= window.msLeft.value {
      return None;
    }
    var slotAt := st.now + delaySeconds * 1000;
    st.reservations := st.reservations[m := Reservation(slotAt, slotAt + RESERVATION_TTL_PADDING_SECONDS * SECOND_MS)];
    return Some(slotAt);
  }

  // The row, then the job.
  method WriteBooking(st: Store, job: JobId, followUp: bool, ghost pace: nat)
    requires job.lead in st.leads
    modifies st`leads, st`waiting, st`hist
    ensures st.leads == old(st.leads)[job.lead := BookedLead(old(st.leads[job.lead]), job, followUp)]
    ensures st.waiting == old(st.waiting) + {job}
    ensures st.hist == old(st.hist).(paces := old(st.hist).paces[job := Paced(pace, st.now)])
  {
    var lead := st.leads[job.lead];
    if followUp {
      st.leads := st.leads[job.lead := lead.(queuedJobId := Some(job), queuedSlotAt := Some(job.slot))];
    } else {
      st.leads := st.leads[job.lead :=
        lead.(status := Queued, nextRetryAt := None, queuedJobId := Some(job), queuedSlotAt := Some(job.slot))];
    }
    st.waiting := st.waiting + {job};
    st.hist := st.hist.(paces := st.hist.paces[job := Paced(pace, st.now)]);
  }

  method LeadWindowNow(st: Store, l: LeadId) returns (window: WindowState)
    requires WellFormed(st.View()) && l in st.leads
    ensures window == WindowOf(st.View(), l)
  {
    var lead := st.leads[l];
    var campaign := st.campaigns[lead.campaign];
    window := LeadWindow(st.zones, campaign.schedule, campaign.useLeadZone, lead.zone, st.now);
  }

  ghost function BookingFor(s: State, l: LeadId, m: MailboxId, followUp: bool, d: Draws): Booking
    requires WellFormed(s) && l in s.leads && m in s.mailboxes
  {
    Booking(l, m, followUp, SlotAt(s, l, m, d), Pace(s, m), NoCrash)
  }

  lemma BookingIsChosen(s: State, l: LeadId, m: MailboxId, followUp: bool, d: Draws)
    requires WellFormed(s) && l in s.leads && m in s.mailboxes && ValidDraws(d)
    requires WindowOf(s, l).open && !TooLate(s, l, m, d)
    ensures SlotChosen(s, BookingFor(s, l, m, followUp, d))
  {
  }

  // The slot, then the row and the job.
  method BookLead(st: Store, l: LeadId, m: MailboxId, entry: PoolEntry, followUp: bool, d: Draws) returns (booked: bool)
    requires WellFormed(st.View()) && l in st.leads && m in st.mailboxes && entry == EntryOf(st.View(), m)
    modifies st`reservations, st`leads, st`waiting, st`hist
    ensures booked <==> !TooLate(old(st.View()), l, m, d)
    ensures st.View() ==
      if booked then Book(old(st.View()), BookingFor(old(st.View()), l, m, followUp, d)) else old(st.View())
  {
    ghost var pace := Pace(st.View(), m);
    var window := LeadWindowNow(st, l);
    var slot := TakeSlot(st, l, m, entry, window, d);
    if slot.Some? {
      WriteBooking(st, JobId(l, m, slot.value), followUp, pace);
    }
    return slot.Some?;
  }

  // ----- Runs of bookings -----

  ghost function BookAll(s: State, bs: seq<Booking>): State
    decreases |bs|
  {
    if |bs| == 0 then s
    else
      var mid := BookAll(s, bs[..|bs| - 1]);
      if bs[|bs| - 1].lead in mid.leads then Book(mid, bs[|bs| - 1]) else mid
  }

  ghost predicate AllAllowed(s: State, bs: seq<Booking>)
    decreases |bs|
  {
    |bs| > 0 ==>
      && AllAllowed(s, bs[..|bs| - 1])
      && WellFormed(BookAll(s, bs[..|bs| - 1]))
      && BookOk(BookAll(s, bs[..|bs| - 1]), bs[|bs| - 1])
  }

  // From `s`, the bookings `bs` one after the other, each allowed by the protocol when it is made.
  ghost predicate Booked(s: State, bs: seq<Booking>, s': State) {
    AllAllowed(s, bs) && s' == BookAll(s, bs)
  }

  lemma BookedMore(s: State, bs: seq<Booking>, mid: State, b: Booking)
    requires Booked(s, bs, mid) && WellFormed(mid) && BookOk(mid, b)
    ensures Booked(s, bs + [b], Book(mid, b))
  {
    assert (bs + [b])[..|bs|] == bs;
  }

  function LeadsIn(bs: seq<Booking>): set<LeadId> {
    set i | 0 <= i < |bs| :: bs[i].lead
  }

  function MailboxesIn(bs: seq<Booking>): set<MailboxId> {
    set i | 0 <= i < |bs| :: bs[i].mailbox
  }

  lemma InMore(bs: seq<Booking>, b: Booking)
    ensures LeadsIn(bs + [b]) == LeadsIn(bs) + {b.lead}
    ensures MailboxesIn(bs + [b]) == MailboxesIn(bs) + {b.mailbox}
  {
    assert forall i :: 0 <= i < |bs| ==> (bs + [b])[i] == bs[i];
    assert (bs + [b])[|bs|] == b;
  }

  // What bookings leave alone: everything but the booked leads' rows and the booked mailboxes' slots.
  ghost predicate Around(s: State, bs: seq<Booking>, s': State) {
    && s' == s.(reservations := s'.reservations, leads := s'.leads, waiting := s'.waiting, hist := s'.hist)
    && RowsAround(s.leads, LeadsIn(bs), s'.leads)
    && SlotsAround(s, MailboxesIn(bs), s')
  }

  ghost predicate RowsAround(leads: map<LeadId, Lead>, ls: set<LeadId>, leads': map<LeadId, Lead>) {
    && leads'.Keys == leads.Keys
    && (forall l :: l in leads ==> SameLead(leads[l], leads'[l]))
    && (forall l :: l in leads && l !in ls ==> leads'[l] == leads[l])
  }

  ghost predicate SlotsAround(s: State, ms: set<MailboxId>, s': State) {
    forall m :: if m in ms then Pending(s', m).Some? && Pending(s', m).value > s.now
                else Pending(s', m) == Pending(s, m)
  }

  predicate SameLead(was: Lead, row: Lead) {
    row == was.(status := row.status, nextRetryAt := row.nextRetryAt,
                queuedJobId := row.queuedJobId, queuedSlotAt := row.queuedSlotAt)
  }

  lemma RowsMore(leads: map<LeadId, Lead>, ls: set<LeadId>, mid: map<LeadId, Lead>, l: LeadId, job: JobId, followUp: bool)
    requires RowsAround(leads, ls, mid) && l in mid
    ensures RowsAround(leads, ls + {l}, mid[l := BookedLead(mid[l], job, followUp)])
  {
  }

  lemma SlotsMore(s: State, ms: set<MailboxId>, mid: State, b: Booking)
    requires SlotsAround(s, ms, mid) && mid.now == s.now && b.lead in mid.leads && b.slot > mid.now
    ensures SlotsAround(s, ms + {b.mailbox}, Book(mid, b))
  {
    forall m ensures m != b.mailbox ==> Pending(Book(mid, b), m) == Pending(mid, m) {
    }
  }

  lemma AroundMore(s: State, bs: seq<Booking>, mid: State, b: Booking)
    requires Around(s, bs, mid) && b.lead in mid.leads && b.slot > mid.now && b.crash == NoCrash
    ensures Around(s, bs + [b], Book(mid, b))
  {
    InMore(bs, b);
    RowsMore(s.leads, LeadsIn(bs), mid.leads, b.lead, JobOf(b), b.followUp);
    SlotsMore(s, MailboxesIn(bs), mid, b);
  }

  lemma StaysInPool(s: State, bs: seq<Booking>, s': State, pool: Pool)
    requires Around(s, bs, s') && PoolOk(s, pool)
    ensures PoolOk(s', pool - MailboxesIn(bs))
  {
    forall m | m in pool && m !in MailboxesIn(bs) ensures InPool(s', m) && EntryOf(s', m) == EntryOf(s, m) {
      assert Pending(s', m) == Pending(s, m);
      assert Slowed(s', m) <==> Slowed(s, m);
    }
  }

  // Nothing about a lead that is not booked has changed for it.
  lemma StaysAsItWas(s: State, bs: seq<Booking>, s': State, l: LeadId)
    requires Around(s, bs, s') && WellFormed(s) && l in s.leads && l !in LeadsIn(bs)
    ensures WellFormed(s') && l in s'.leads && s'.leads[l] == s.leads[l]
    ensures WindowOf(s', l) == WindowOf(s, l)
    ensures DueFollowUp(s', l) <==> DueFollowUp(s, l)
  {
  }

  lemma TooLateStays(s: State, bs: seq<Booking>, s': State, l: LeadId, m: MailboxId, d: Draws)
    requires Around(s, bs, s') && WellFormed(s) && WellFormed(s') && l in s.leads && l !in LeadsIn(bs)
    requires m in s.mailboxes && m !in MailboxesIn(bs)
    ensures TooLate(s', l, m, d) <==> TooLate(s, l, m, d)
  {
    StaysAsItWas(s, bs, s', l);
    assert Pending(s', m) == Pending(s, m);
    assert Slowed(s', m) <==> Slowed(s, m);
    assert SpreadFor(s', l, m) == SpreadFor(s, l, m);
  }

  // ----- Pass 1: follow-ups -----

  // A campaign that may have a lead to send now.
  predicate Sendable(s: State, c: CampaignId)
    requires WellFormed(s) && c in s.campaigns
  {
    var campaign := s.campaigns[c];
    CampaignSends(campaign) &&
    (campaign.useLeadZone || LeadWindow(s.zones, campaign.schedule, campaign.useLeadZone, None, s.now).open)
  }

  ghost predicate WantsFollowUp(s: State, l: LeadId, mailboxes: set<MailboxId>)
    requires WellFormed(s)
  {
    && DueFollowUp(s, l) && s.leads[l].mailbox.Some? && s.leads[l].mailbox.value in mailboxes
    && Sendable(s, s.leads[l].campaign)
  }

  // Asking the campaign's own window first loses nobody: a follow-up that is due, not queued and not
  // answered, whose campaign sends, whose window is open and whose mailbox is in the pool, is read.
  lemma OpenIsWanted(s: State, l: LeadId, mailboxes: set<MailboxId>)
    requires WellFormed(s) && l in s.leads
    requires s.leads[l].status == Contacted || s.leads[l].status == Opened
    requires s.leads[l].nextStepAt.Some? && s.leads[l].nextStepAt.value <= s.now && s.leads[l].queuedJobId.None?
    requires forall i :: 0 <= i < |s.replies| && s.replies[i].lead == l ==>
      s.replies[i].tag == OutOfOffice || s.replies[i].tag == AutoReply
    requires var c := s.campaigns[s.leads[l].campaign];
             && c.status == Sending && !c.pausedForBounceRate
             && LeadWindow(s.zones, c.schedule, c.useLeadZone, s.leads[l].zone, s.now).open
    requires s.leads[l].mailbox.Some? && s.leads[l].mailbox.value in mailboxes
    ensures WantsFollowUp(s, l, mailboxes)
  {
    EndingIff(s.replies, l);
  }

  // What a query takes of the rows that match, in its order.
  function FirstFew(ls: seq<LeadId>): seq<LeadId> {
    if |ls| <= LEAD_SCAN_SIZE then ls else ls[..LEAD_SCAN_SIZE]
  }

  // The leads of `ls` with a follow-up to read, in order.
  ghost function FollowUpsAmong(s: State, ls: seq<LeadId>, mailboxes: set<MailboxId>): seq<LeadId>
    requires WellFormed(s)
  {
    if |ls| == 0 then []
    else
      var last := ls[|ls| - 1];
      FollowUpsAmong(s, ls[..|ls| - 1], mailboxes) + if WantsFollowUp(s, last, mailboxes) then [last] else []
  }

  lemma OneMoreFew(all: seq<LeadId>, few: seq<LeadId>, l: LeadId, wants: bool)
    requires few == FirstFew(all)
    ensures FirstFew(all + if wants then [l] else []) == if wants && |few| < LEAD_SCAN_SIZE then few + [l] else few
  {
    assert all + [] == all;
    if |all| >= LEAD_SCAN_SIZE {
      assert (all + [l])[..LEAD_SCAN_SIZE] == all[..LEAD_SCAN_SIZE];
    }
  }

  lemma NoFollowUps(s: State, mailboxes: set<MailboxId>)
    requires WellFormed(s)
    ensures FirstFew(FollowUpsAmong(s, [], mailboxes)) == []
  {
  }

  lemma FollowUpsAmongMore(s: State, ls: seq<LeadId>, i: nat, mailboxes: set<MailboxId>)
    requires WellFormed(s) && i < |ls|
    ensures FollowUpsAmong(s, ls[..i + 1], mailboxes)
      == FollowUpsAmong(s, ls[..i], mailboxes) + if WantsFollowUp(s, ls[i], mailboxes) then [ls[i]] else []
  {
    assert ls[..i + 1][..i] == ls[..i];
  }

  // Why a due follow-up was not booked: its mailbox has no slot left this tick, its window is closed,
  // or the slot would have come after the window.
  ghost predicate FollowUpWaits(s: State, l: LeadId, mailboxes: set<MailboxId>)
    requires WellFormed(s)
  {
    && l in s.leads && s.leads[l].mailbox.Some? && s.leads[l].mailbox.value in s.mailboxes
    && (|| s.leads[l].mailbox.value !in mailboxes
        || !WindowOf(s, l).open
        || exists d :: ValidDraws(d) && TooLate(s, l, s.leads[l].mailbox.value, d))
  }

  // One due lead.
  method BookFollowUp(st: Store, pool: Pool, l: LeadId, d: Draws) returns (booked: bool, ghost b: Booking)
    requires WellFormed(st.View()) && PoolOk(st.View(), pool) && ValidDraws(d)
    requires DueFollowUp(st.View(), l) && st.leads[l].mailbox.Some? && st.leads[l].mailbox.value in st.mailboxes
    requires CampaignSends(CampaignOf(st.View(), l))
    modifies st`reservations, st`leads, st`waiting, st`hist
    ensures b.lead == l && b.followUp && b.crash == NoCrash && Some(b.mailbox) == old(st.leads[l]).mailbox
    ensures booked ==> b.mailbox in pool && BookOk(old(st.View()), b) && st.View() == Book(old(st.View()), b)
    ensures !booked ==> st.View() == old(st.View()) && FollowUpWaits(old(st.View()), l, pool.Keys)
  {
    ghost var s := st.View();
    var m := st.leads[l].mailbox.value;
    b := BookingFor(s, l, m, true, d);
    if m !in pool {
      return false, b;
    }
    var window := LeadWindowNow(st, l);
    if !window.open {
      return false, b;
    }
    booked := BookLead(st, l, m, pool[m], true, d);
    if booked {
      BookingIsChosen(s, l, m, true, d);
    }
  }

  predicate Distinct<T(==)>(xs: seq<T>) {
    forall i, j :: 0 <= i < j < |xs| ==> xs[i] != xs[j]
  }

  method CheckSendable(st: Store, c: CampaignId) returns (ok: bool)
    requires WellFormed(st.View()) && c in st.campaigns
    ensures ok <==> Sendable(st.View(), c)
  {
    var campaign := st.campaigns[c];
    var window := LeadWindow(st.zones, campaign.schedule, campaign.useLeadZone, None, st.now);
    ok := campaign.status == Sending && !campaign.pausedForBounceRate && (campaign.useLeadZone || window.open);
  }

  method CheckWantsFollowUp(st: Store, l: LeadId, mailboxes: set<MailboxId>) returns (wants: bool)
    requires WellFormed(st.View()) && l in st.leads
    ensures wants <==> WantsFollowUp(st.View(), l, mailboxes)
  {
    var lead := st.leads[l];
    var sendable := CheckSendable(st, lead.campaign);
    wants :=
      && (lead.status == Contacted || lead.status == Opened)
      && lead.nextStepAt.Some? && lead.nextStepAt.value <= st.now && lead.queuedJobId.None?
      && lead.mailbox.Some? && lead.mailbox.value in mailboxes
      && !HasEndingReply(st.replies, l) && sendable;
  }

  // The query of pass 1: the first so many of the leads in order of due time.
  method FindFollowUps(st: Store, byDue: seq<LeadId>, mailboxes: set<MailboxId>) returns (due: seq<LeadId>)
    requires WellFormed(st.View()) && Distinct(byDue) && forall l :: l in byDue ==> l in st.leads
    ensures Distinct(due) && |due| <= LEAD_SCAN_SIZE
    ensures forall l :: l in due ==> l in byDue && WantsFollowUp(st.View(), l, mailboxes)
    ensures |due| < LEAD_SCAN_SIZE ==>
      forall l :: l in byDue && WantsFollowUp(st.View(), l, mailboxes) ==> l in due
    ensures due == FirstFew(FollowUpsAmong(st.View(), byDue, mailboxes))
  {
    hide WantsFollowUp, FollowUpsAmong, FirstFew;
    due := [];
    ghost var s := st.View();
    NoFollowUps(s, mailboxes);
    assert byDue[..0] == [];
    for i := 0 to |byDue|
      invariant due == FirstFew(FollowUpsAmong(s, byDue[..i], mailboxes))
      invariant Distinct(due) && |due| <= LEAD_SCAN_SIZE
      invariant forall l :: l in due ==> l in byDue[..i] && WantsFollowUp(s, l, mailboxes)
      invariant |due| < LEAD_SCAN_SIZE ==>
        forall l :: l in byDue[..i] && WantsFollowUp(s, l, mailboxes) ==> l in due
    {
      assert byDue[..i + 1] == byDue[..i] + [byDue[i]];
      assert byDue[i] in byDue;
      var wants := CheckWantsFollowUp(st, byDue[i], mailboxes);
      FollowUpsAmongMore(s, byDue, i, mailboxes);
      OneMoreFew(FollowUpsAmong(s, byDue[..i], mailboxes), due, byDue[i], wants);
      if wants && |due| < LEAD_SCAN_SIZE {
        due := due + [byDue[i]];
      }
    }
    assert byDue[..|byDue|] == byDue;
  }

  ghost predicate DueOk(s: State, due: seq<LeadId>, mailboxes: set<MailboxId>)
    requires WellFormed(s)
  {
    Distinct(due) && forall i :: 0 <= i < |due| ==> WantsFollowUp(s, due[i], mailboxes)
  }

  // What a pass has done so far: bookings the protocol allows, the pool less their mailboxes.
  ghost predicate PassState(s: State, pool: Pool, bs: seq<Booking>, s': State, pool': Pool) {
    && Booked(s, bs, s') && Around(s, bs, s') && WellFormed(s')
    && pool' == pool - MailboxesIn(bs) && PoolOk(s', pool')
  }

  lemma PassStarts(s: State, pool: Pool)
    requires WellFormed(s) && PoolOk(s, pool)
    ensures PassState(s, pool, [], s, pool)
  {
    assert LeadsIn([]) == {} && MailboxesIn([]) == {};
    assert pool - {} == pool;
  }

  lemma PoolGoesOn(s: State, pool: Pool, bs: seq<Booking>, mid: State, b: Booking)
    requires PoolOk(s, pool) && Around(s, bs, mid) && WellFormed(mid)
    requires b.lead in mid.leads && b.slot > mid.now && b.crash == NoCrash
    ensures Around(s, bs + [b], Book(mid, b)) && WellFormed(Book(mid, b))
    ensures PoolOk(Book(mid, b), pool - MailboxesIn(bs + [b]))
    ensures pool - MailboxesIn(bs + [b]) == pool - MailboxesIn(bs) - {b.mailbox}
  {
    hide PoolOk, Around, WellFormed, Book;
    AroundMore(s, bs, mid, b);
    InMore(bs, b);
    StaysInPool(s, bs + [b], Book(mid, b), pool);
    BookedIsWellFormed(mid, b);
  }

  lemma BookedIsWellFormed(s: State, b: Booking)
    requires WellFormed(s) && b.lead in s.leads
    ensures WellFormed(Book(s, b))
  {
  }

  lemma PassGoesOn(s: State, pool: Pool, bs: seq<Booking>, mid: State, pool': Pool, b: Booking)
    requires PoolOk(s, pool) && PassState(s, pool, bs, mid, pool')
    requires BookOk(mid, b) && b.crash == NoCrash
    ensures PassState(s, pool, bs + [b], Book(mid, b), pool' - {b.mailbox})
  {
    SlotClears(mid, b);
    BookedMore(s, bs, mid, b);
    PoolGoesOn(s, pool, bs, mid, b);
  }

  // A reason seen during the pass is a reason at its start.
  lemma WaitedFromTheStart(s: State, bs: seq<Booking>, s': State, l: LeadId, mailboxes: set<MailboxId>)
    requires Around(s, bs, s') && WellFormed(s) && WellFormed(s') && l in s.leads && l !in LeadsIn(bs)
    requires s.leads[l].mailbox.Some? && s.leads[l].mailbox.value in s.mailboxes
    requires mailboxes !! MailboxesIn(bs)
    requires s'.leads[l] == s.leads[l] && FollowUpWaits(s', l, mailboxes)
    ensures FollowUpWaits(s, l, mailboxes)
  {
    StaysAsItWas(s, bs, s', l);
    var m := s.leads[l].mailbox.value;
    if m in mailboxes && WindowOf(s, l).open {
      var d :| ValidDraws(d) && TooLate(s', l, m, d);
      TooLateStays(s, bs, s', l, m, d);
    }
  }

  // Each of the first `n` leads is booked, or has a reason to wait.
  ghost predicate FollowUpsDone(s: State, ls: seq<LeadId>, n: nat, bs: seq<Booking>, mailboxes: set<MailboxId>)
    requires WellFormed(s) && n <= |ls|
  {
    && (forall b :: b in bs ==> b.followUp && b.crash == NoCrash && b.lead in ls[..n])
    && (forall k :: 0 <= k < n ==> ls[k] in LeadsIn(bs) || FollowUpWaits(s, ls[k], mailboxes))
  }

  lemma FollowUpBooked(s: State, ls: seq<LeadId>, n: nat, bs: seq<Booking>, all: set<MailboxId>, b: Booking,
                       rest: set<MailboxId>)
    requires WellFormed(s) && n < |ls| && FollowUpsDone(s, ls, n, bs, all) && rest <= all
    requires b.followUp && b.crash == NoCrash && b.lead == ls[n]
    ensures FollowUpsDone(s, ls, n + 1, bs + [b], rest)
  {
    InMore(bs, b);
    assert ls[..n + 1] == ls[..n] + [ls[n]];
    forall k | 0 <= k < n && ls[k] !in LeadsIn(bs) ensures FollowUpWaits(s, ls[k], rest) {
      assert FollowUpWaits(s, ls[k], all);
    }
  }

  lemma FollowUpPassedOver(s: State, ls: seq<LeadId>, n: nat, bs: seq<Booking>, all: set<MailboxId>)
    requires WellFormed(s) && n < |ls| && FollowUpsDone(s, ls, n, bs, all) && FollowUpWaits(s, ls[n], all)
    ensures FollowUpsDone(s, ls, n + 1, bs, all)
  {
    assert ls[..n + 1] == ls[..n] + [ls[n]];
  }

  // One turn of the loop, seen from the start of the pass.
  method FollowUpTurn(st: Store, ghost s: State, ghost all: Pool, pool: Pool, ghost bs: seq<Booking>, l: LeadId, d: Draws)
    returns (booked: bool, rest: Pool, ghost b: Booking)
    requires WellFormed(s) && PoolOk(s, all) && PassState(s, all, bs, st.View(), pool) && ValidDraws(d)
    requires WantsFollowUp(s, l, all.Keys) && l !in LeadsIn(bs)
    modifies st`reservations, st`leads, st`waiting, st`hist
    ensures b.lead == l && b.followUp && b.crash == NoCrash
    ensures booked ==> PassState(s, all, bs + [b], st.View(), rest) && rest.Keys <= pool.Keys
    ensures !booked ==> st.View() == old(st.View()) && rest == pool && FollowUpWaits(s, l, pool.Keys)
  {
    ghost var mid := st.View();
    StaysAsItWas(s, bs, mid, l);
    var m := st.leads[l].mailbox.value;
    booked, b := BookFollowUp(st, pool, l, d);
    if booked {
      PassGoesOn(s, all, bs, mid, pool, b);
      rest := pool - {m};
    } else {
      WaitedFromTheStart(s, bs, mid, l, pool.Keys);
      rest := pool;
    }
  }

  method NextFollowUpTurn(st: Store, ghost s: State, ghost all: Pool, pool: Pool, ghost bs: seq<Booking>,
                          due: seq<LeadId>, i: nat, d: Draws)
    returns (booked: bool, rest: Pool, ghost more: seq<Booking>)
    requires WellFormed(s) && PoolOk(s, all) && PassState(s, all, bs, st.View(), pool) && ValidDraws(d)
    requires i < |due| && DueOk(s, due, all.Keys) && FollowUpsDone(s, due, i, bs, pool.Keys)
    modifies st`reservations, st`leads, st`waiting, st`hist
    ensures PassState(s, all, more, st.View(), rest) && FollowUpsDone(s, due, i + 1, more, rest.Keys)
    ensures |more| == |bs| + if booked then 1 else 0
  {
    LeadNotBooked(bs, due, i);
    ghost var b;
    booked, rest, b := FollowUpTurn(st, s, all, pool, bs, due[i], d);
    if booked {
      FollowUpBooked(s, due, i, bs, pool.Keys, b, rest.Keys);
      more := bs + [b];
    } else {
      FollowUpPassedOver(s, due, i, bs, pool.Keys);
      more := bs;
    }
  }

  method FollowUpPass(st: Store, all: Pool, due: seq<LeadId>, draws: nat -> Draws)
    returns (pool: Pool, enqueued: nat, ghost bs: seq<Booking>)
    requires WellFormed(st.View()) && PoolOk(st.View(), all)
    requires DueOk(st.View(), due, all.Keys) && forall n :: ValidDraws(draws(n))
    modifies st`reservations, st`leads, st`waiting, st`hist
    ensures PassState(old(st.View()), all, bs, st.View(), pool)
    ensures enqueued == |bs| && FollowUpsDone(old(st.View()), due, |due|, bs, pool.Keys)
  {
    ghost var s := st.View();
    pool, enqueued, bs := all, 0, [];
    PassStarts(s, all);
    for i := 0 to |due|
      invariant PassState(s, all, bs, st.View(), pool)
      invariant enqueued == |bs| && FollowUpsDone(s, due, i, bs, pool.Keys)
    {
      var booked;
      booked, pool, bs := NextFollowUpTurn(st, s, all, pool, bs, due, i, draws(i));
      enqueued := if booked then enqueued + 1 else enqueued;
    }
  }

  lemma LeadNotBooked(bs: seq<Booking>, ls: seq<LeadId>, i: nat)
    requires Distinct(ls) && i < |ls| && forall b :: b in bs ==> b.lead in ls[..i]
    ensures ls[i] !in LeadsIn(bs)
  {
    assert forall k :: 0 <= k < |bs| ==> bs[k] in bs;
  }
}

// Pass 2 of an enqueuer tick: first emails, each from the least recently used of its campaign's
// mailboxes, inside its campaign's limit of new leads, with risky addresses spread out
// (apps/worker/src/enqueuer.ts).
module FirstEmails {
  import opened Basics
  import opened SendSchedule
  import opened SlotTiming
  import opened Model
  import opened Protocol
  import opened Invariants
  import opened Store
  import opened Enqueuer

  // ----- Pass 2: which mailbox -----

  // Least recently used first; one that never sent comes before all that did.
  predicate SortsBefore(a: Option<Time>, b: Option<Time>) {
    b.Some? && (a.None? || a.value < b.value)
  }

  method LeastRecent(pool: Pool, among: set<MailboxId>) returns (pick: Option<MailboxId>)
    requires among <= pool.Keys
    ensures pick.None? <==> among == {}
    ensures pick.Some? ==> pick.value in among
    ensures pick.Some? ==> forall m :: m in among ==> !SortsBefore(pool[m].lastSentAt, pool[pick.value].lastSentAt)
  {
    pick := None;
    var rest := among;
    while rest != {}
      invariant rest <= among
      invariant pick.None? ==> rest == among
      invariant pick.Some? ==> pick.value in among
      invariant pick.Some? ==>
        forall m :: m in among - rest ==> !SortsBefore(pool[m].lastSentAt, pool[pick.value].lastSentAt)
      decreases |rest|
    {
      var m :| m in rest;
      rest := rest - {m};
      if pick.None? || SortsBefore(pool[m].lastSentAt, pool[pick.value].lastSentAt) {
        pick := Some(m);
      }
    }
  }

  // Least recently used of the campaign's mailboxes with a slot left, those that need a rest from
  // risky leads set aside for a risky lead; one that needs a rest takes a risky lead only when every
  // other does too and no confirmed lead waits.
  predicate GoodPick(pool: Pool, senders: set<MailboxId>, risky: bool, tired: set<MailboxId>, ready: int, pick: MailboxId) {
    && pick in senders && pick in pool
    && (forall m :: m in senders && m in pool ==>
          || !SortsBefore(pool[m].lastSentAt, pool[pick].lastSentAt)
          || (risky && m in tired && pick !in tired))
    && (risky && pick in tired ==> ready <= 0 && forall m :: m in senders && m in pool ==> m in tired)
  }

  // The rule for one first email: `senders` are its campaign's mailboxes, `tired` the mailboxes whose
  // last first email was risky, `ready` how many confirmed leads of the campaign still wait.
  method PickMailbox(pool: Pool, senders: set<MailboxId>, risky: bool, tired: set<MailboxId>, ready: int)
    returns (pick: Option<MailboxId>)
    ensures pick.Some? ==> GoodPick(pool, senders, risky, tired, ready, pick.value)
    ensures pick.None? ==> forall m :: m in senders && m in pool ==> risky && m in tired && ready > 0
  {
    var candidates := set m | m in senders && m in pool;
    assert forall m :: m in senders && m in pool ==> m in candidates;
    if risky {
      var rested := candidates - tired;
      assert forall m :: m in candidates && m !in tired ==> m in rested;
      if rested != {} {
        candidates := rested;
      } else if ready > 0 {
        return None;
      }
    }
    pick := LeastRecent(pool, candidates);
  }

  // ----- Pass 2: counters -----

  // First emails left today, for each campaign with a limit.
  ghost predicate LeftOk(s: State, left: map<CampaignId, nat>) {
    && (forall c :: c in left <==> c in s.campaigns && CampaignSends(s.campaigns[c]) && s.campaigns[c].maxNewLeadsPerDay.Some?)
    && (forall c :: c in left ==> left[c] == Max(0, s.campaigns[c].maxNewLeadsPerDay.value - |NewLeadsUsed(s, c)|))
  }

  method CountNewLeads(st: Store) returns (left: map<CampaignId, nat>)
    ensures LeftOk(st.View(), left)
  {
    left := map c | c in st.campaigns && CampaignSends(st.campaigns[c]) && st.campaigns[c].maxNewLeadsPerDay.Some? ::
      Max(0, st.campaigns[c].maxNewLeadsPerDay.value - |set l | l in st.leads && CountsAsNew(st.leads[l], c, st.now)|);
  }

  function LessOne(left: map<CampaignId, nat>, c: CampaignId): map<CampaignId, nat>
    requires c in left ==> left[c] > 0
  {
    if c in left then left[c := left[c] - 1] else left
  }

  // A first email takes exactly one place of its own campaign's limit.
  lemma TakesOnePlace(s: State, b: Booking, c: CampaignId)
    requires b.lead in s.leads && !b.followUp && b.crash == NoCrash
    requires LeadOk(b.lead, s.leads[b.lead], s.now) && FirstEmailDue(s.leads[b.lead], s.now)
    ensures |NewLeadsUsed(Book(s, b), c)| == |NewLeadsUsed(s, c)| + if s.leads[b.lead].campaign == c then 1 else 0
  {
    hide NewLeadsUsed, LeadOk, FirstEmailDue, Book;
    BookedIsCounted(s, b, c);
  }

  lemma BookedIsCounted(s: State, b: Booking, c: CampaignId)
    requires b.lead in s.leads && !b.followUp && b.crash == NoCrash
    requires LeadOk(b.lead, s.leads[b.lead], s.now) && FirstEmailDue(s.leads[b.lead], s.now)
    ensures b.lead !in NewLeadsUsed(s, c)
    ensures NewLeadsUsed(Book(s, b), c) == NewLeadsUsed(s, c) + if s.leads[b.lead].campaign == c then {b.lead} else {}
  {
  }

  lemma LeftGoesOn(s: State, left: map<CampaignId, nat>, b: Booking)
    requires LeftOk(s, left) && b.lead in s.leads && !b.followUp && b.crash == NoCrash
    requires LeadOk(b.lead, s.leads[b.lead], s.now) && FirstEmailDue(s.leads[b.lead], s.now)
    requires s.leads[b.lead].campaign in left ==> left[s.leads[b.lead].campaign] > 0
    ensures LeftOk(Book(s, b), LessOne(left, s.leads[b.lead].campaign))
    ensures forall c :: c in s.campaigns && !RoomForNewLead(s, c) ==> !RoomForNewLead(Book(s, b), c)
  {
    forall c ensures |NewLeadsUsed(Book(s, b), c)| ==
                     |NewLeadsUsed(s, c)| + if s.leads[b.lead].campaign == c then 1 else 0
    {
      TakesOnePlace(s, b, c);
    }
  }

  // Leads of `ls` with a clear check, whose window is open.
  ghost function Confirmed(s: State, ls: seq<LeadId>, risky: set<LeadId>, c: CampaignId): set<LeadId>
    requires WellFormed(s)
  {
    set l | l in ls && l in s.leads && l !in risky && WindowOf(s, l).open && s.leads[l].campaign == c
  }

  function ReadyFor(ready: map<CampaignId, int>, c: CampaignId): int {
    if c in ready then ready[c] else 0
  }

  // How many confirmed leads of each campaign are not booked yet.
  ghost predicate ReadyOk(s: State, ls: seq<LeadId>, risky: set<LeadId>, done: set<LeadId>, ready: map<CampaignId, int>)
    requires WellFormed(s)
  {
    forall c :: ReadyFor(ready, c) == |Confirmed(s, ls, risky, c) - done|
  }

  method CountConfirmed(st: Store, ls: seq<LeadId>, risky: set<LeadId>) returns (ready: map<CampaignId, int>)
    requires WellFormed(st.View()) && Distinct(ls) && forall l :: l in ls ==> l in st.leads
    ensures ReadyOk(st.View(), ls, risky, {}, ready)
  {
    ready := map[];
    ghost var s := st.View();
    for i := 0 to |ls|
      invariant forall c :: ReadyFor(ready, c) == |Confirmed(s, ls[..i], risky, c)|
    {
      var l := ls[i];
      assert l in ls;
      var window := LeadWindowNow(st, l);
      var c := st.leads[l].campaign;
      forall k ensures |Confirmed(s, ls[..i + 1], risky, k)| ==
                       |Confirmed(s, ls[..i], risky, k)| + if k == c && l !in risky && window.open then 1 else 0
      {
        OneMoreConfirmed(s, ls, i, risky, k);
      }
      ghost var was := ready;
      if l !in risky && window.open {
        ready := ready[c := ReadyFor(ready, c) + 1];
      }
      forall k ensures ReadyFor(ready, k) == |Confirmed(s, ls[..i + 1], risky, k)| {
        assert ReadyFor(was, k) == |Confirmed(s, ls[..i], risky, k)|;
      }
    }
    assert ls[..|ls|] == ls;
    assert forall c :: Confirmed(s, ls, risky, c) - {} == Confirmed(s, ls, risky, c);
  }

  lemma OneMoreConfirmed(s: State, ls: seq<LeadId>, i: nat, risky: set<LeadId>, c: CampaignId)
    requires WellFormed(s) && Distinct(ls) && i < |ls| && ls[i] in s.leads
    ensures |Confirmed(s, ls[..i + 1], risky, c)| == |Confirmed(s, ls[..i], risky, c)| +
      if c == s.leads[ls[i]].campaign && ls[i] !in risky && WindowOf(s, ls[i]).open then 1 else 0
  {
    hide WellFormed, WindowOf;
    var more := c == s.leads[ls[i]].campaign && ls[i] !in risky && WindowOf(s, ls[i]).open;
    assert ls[..i + 1] == ls[..i] + [ls[i]];
    assert ls[i] !in ls[..i];
    assert Confirmed(s, ls[..i + 1], risky, c) == Confirmed(s, ls[..i], risky, c) + if more then {ls[i]} else {};
  }

  lemma ReadyGoesOn(s: State, ls: seq<LeadId>, risky: set<LeadId>, done: set<LeadId>, ready: map<CampaignId, int>, l: LeadId)
    requires WellFormed(s) && ReadyOk(s, ls, risky, done, ready) && l in ls && l in s.leads && l !in done
    requires WindowOf(s, l).open
    ensures var c := s.leads[l].campaign;
            ReadyOk(s, ls, risky, done + {l}, if l in risky then ready else ready[c := ReadyFor(ready, c) - 1])
  {
    forall c ensures |Confirmed(s, ls, risky, c) - (done + {l})| ==
                     |Confirmed(s, ls, risky, c) - done| - if c == s.leads[l].campaign && l !in risky then 1 else 0
    {
      var waiting := Confirmed(s, ls, risky, c) - done;
      assert Confirmed(s, ls, risky, c) - (done + {l}) == waiting - {l};
      assert l in waiting <==> c == s.leads[l].campaign && l !in risky;
    }
  }

  // ----- Pass 2: first emails -----

  ghost predicate WantsFirst(s: State, l: LeadId, mailboxes: set<MailboxId>, left: map<CampaignId, nat>)
    requires WellFormed(s)
  {
    && l in s.leads && FirstEmailDue(s.leads[l], s.now)
    && Sendable(s, s.leads[l].campaign)
    && (s.leads[l].campaign in left ==> left[s.leads[l].campaign] > 0)
    && CampaignOf(s, l).senders * mailboxes != {}
  }

  // The same of first emails: one that is due, not sent yet or to be tried again by now, whose campaign
  // sends and has a place left and a mailbox in the pool, and whose window is open, is read.
  lemma OpenFirstIsWanted(s: State, l: LeadId, mailboxes: set<MailboxId>, left: map<CampaignId, nat>)
    requires WellFormed(s) && l in s.leads
    requires s.leads[l].status == Untouched
             || (s.leads[l].status == Queued && s.leads[l].nextRetryAt.Some? && s.leads[l].nextRetryAt.value <= s.now)
    requires var c := s.campaigns[s.leads[l].campaign];
             && c.status == Sending && !c.pausedForBounceRate
             && LeadWindow(s.zones, c.schedule, c.useLeadZone, s.leads[l].zone, s.now).open
             && exists m :: m in c.senders && m in mailboxes
    requires s.leads[l].campaign in left ==> left[s.leads[l].campaign] > 0
    ensures WantsFirst(s, l, mailboxes, left)
  {
    var m :| m in s.campaigns[s.leads[l].campaign].senders && m in mailboxes;
    assert m in CampaignOf(s, l).senders * mailboxes;
  }

  method CheckWantsFirst(st: Store, l: LeadId, mailboxes: set<MailboxId>, left: map<CampaignId, nat>)
    returns (wants: bool)
    requires WellFormed(st.View()) && l in st.leads
    ensures wants <==> WantsFirst(st.View(), l, mailboxes, left)
  {
    var lead := st.leads[l];
    var sendable := CheckSendable(st, lead.campaign);
    wants :=
      && FirstEmailDue(lead, st.now) && sendable
      && !(lead.campaign in left && left[lead.campaign] == 0)
      && st.campaigns[lead.campaign].senders * mailboxes != {};
  }

  // The leads of `ls` with a first email to read, in order.
  ghost function FirstsAmong(s: State, ls: seq<LeadId>, mailboxes: set<MailboxId>, left: map<CampaignId, nat>): seq<LeadId>
    requires WellFormed(s)
  {
    if |ls| == 0 then []
    else
      var last := ls[|ls| - 1];
      FirstsAmong(s, ls[..|ls| - 1], mailboxes, left) + if WantsFirst(s, last, mailboxes, left) then [last] else []
  }

  lemma NoFirsts(s: State, mailboxes: set<MailboxId>, left: map<CampaignId, nat>)
    requires WellFormed(s)
    ensures FirstFew(FirstsAmong(s, [], mailboxes, left)) == []
  {
  }

  lemma FirstsAmongMore(s: State, ls: seq<LeadId>, i: nat, mailboxes: set<MailboxId>, left: map<CampaignId, nat>)
    requires WellFormed(s) && i < |ls|
    ensures FirstsAmong(s, ls[..i + 1], mailboxes, left)
      == FirstsAmong(s, ls[..i], mailboxes, left) + if WantsFirst(s, ls[i], mailboxes, left) then [ls[i]] else []
  {
    assert ls[..i + 1][..i] == ls[..i];
  }

  // The query of pass 2: the first so many of the leads in order of import.
  method FindFirstEmails(st: Store, byImport: seq<LeadId>, mailboxes: set<MailboxId>, left: map<CampaignId, nat>)
    returns (ls: seq<LeadId>)
    requires WellFormed(st.View()) && Distinct(byImport) && forall l :: l in byImport ==> l in st.leads
    ensures Distinct(ls) && |ls| <= LEAD_SCAN_SIZE
    ensures forall l :: l in ls ==> l in byImport && WantsFirst(st.View(), l, mailboxes, left)
    ensures |ls| < LEAD_SCAN_SIZE ==>
      forall l :: l in byImport && WantsFirst(st.View(), l, mailboxes, left) ==> l in ls
    ensures ls == FirstFew(FirstsAmong(st.View(), byImport, mailboxes, left))
  {
    hide WantsFirst, FirstsAmong, FirstFew;
    ls := [];
    ghost var s := st.View();
    NoFirsts(s, mailboxes, left);
    assert byImport[..0] == [];
    for i := 0 to |byImport|
      invariant ls == FirstFew(FirstsAmong(s, byImport[..i], mailboxes, left))
      invariant Distinct(ls) && |ls| <= LEAD_SCAN_SIZE
      invariant forall l :: l in ls ==> l in byImport[..i] && WantsFirst(s, l, mailboxes, left)
      invariant |ls| < LEAD_SCAN_SIZE ==>
        forall l :: l in byImport[..i] && WantsFirst(s, l, mailboxes, left) ==> l in ls
    {
      assert byImport[..i + 1] == byImport[..i] + [byImport[i]];
      assert byImport[i] in byImport;
      var wants := CheckWantsFirst(st, byImport[i], mailboxes, left);
      FirstsAmongMore(s, byImport, i, mailboxes, left);
      OneMoreFew(FirstsAmong(s, byImport[..i], mailboxes, left), ls, byImport[i], wants);
      if wants && |ls| < LEAD_SCAN_SIZE {
        ls := ls + [byImport[i]];
      }
    }
    assert byImport[..|byImport|] == byImport;
  }

  // Why a first email was not booked: its campaign's limit is used up, its window is closed, none of
  // its mailboxes has a slot left for it, or the slot would have come after the window.
  ghost predicate FirstWaitsNow(s: State, pool: Pool, l: LeadId, risky: bool, tired: set<MailboxId>, ready: int)
    requires WellFormed(s) && l in s.leads
  {
    || !RoomForNewLead(s, s.leads[l].campaign)
    || !WindowOf(s, l).open
    || (forall m :: m in CampaignOf(s, l).senders && m in pool ==> risky && m in tired && ready > 0)
    || (exists m, d :: m in CampaignOf(s, l).senders && m in s.mailboxes && m in pool
                       && ValidDraws(d) && TooLate(s, l, m, d))
  }

  lemma LeftIsRoom(s: State, left: map<CampaignId, nat>, c: CampaignId)
    requires LeftOk(s, left) && c in s.campaigns && CampaignSends(s.campaigns[c])
    ensures RoomForNewLead(s, c) <==> (c in left ==> left[c] > 0)
  {
  }

  // One lead of pass 2.
  method BookFirstEmail(st: Store, pool: Pool, l: LeadId, left: map<CampaignId, nat>, risky: bool, tired: set<MailboxId>,
                        ready: int, d: Draws)
    returns (target: Option<MailboxId>, ghost b: Booking)
    requires WellFormed(st.View()) && PoolOk(st.View(), pool) && ValidDraws(d) && LeftOk(st.View(), left)
    requires l in st.leads && FirstEmailDue(st.leads[l], st.now) && CampaignSends(CampaignOf(st.View(), l))
    modifies st`reservations, st`leads, st`waiting, st`hist
    ensures target.Some? ==>
      && b.lead == l && !b.followUp && b.crash == NoCrash && b.mailbox == target.value
      && BookOk(old(st.View()), b) && st.View() == Book(old(st.View()), b)
      && GoodPick(pool, CampaignOf(old(st.View()), l).senders, risky, tired, ready, b.mailbox)
    ensures target.None? ==> st.View() == old(st.View()) && FirstWaitsNow(old(st.View()), pool, l, risky, tired, ready)
  {
    ghost var s := st.View();
    b := Booking(l, "", false, 0, 1, NoCrash);
    var lead := st.leads[l];
    LeftIsRoom(s, left, lead.campaign);
    if lead.campaign in left && left[lead.campaign] == 0 {
      return None, b;
    }
    var window := LeadWindowNow(st, l);
    if !window.open {
      return None, b;
    }
    target := PickMailbox(pool, st.campaigns[lead.campaign].senders, risky, tired, ready);
    if target.None? {
      return None, b;
    }
    b := BookingFor(s, l, target.value, false, d);
    var booked := BookLead(st, l, target.value, pool[target.value], false, d);
    if !booked {
      return None, b;
    }
    BookingIsChosen(s, l, target.value, false, d);
  }

  // What pass 2 starts from: the state, its pool, the leads in line, which of them are risky, and the
  // mailboxes whose last first email was risky.
  datatype Line = Line(s: State, all: Pool, ls: seq<LeadId>, risky: set<LeadId>, tired: set<MailboxId>)

  ghost predicate LineOk(p: Line) {
    && WellFormed(p.s) && PoolOk(p.s, p.all) && Distinct(p.ls)
    && forall l :: l in p.ls ==>
         l in p.s.leads && FirstEmailDue(p.s.leads[l], p.s.now) && CampaignSends(CampaignOf(p.s, l))
         && LeadOk(l, p.s.leads[l], p.s.now)
  }

  // The tick's counters, after the bookings `bs`.
  ghost predicate Counters(p: Line, bs: seq<Booking>, s': State, left: map<CampaignId, nat>, tired: set<MailboxId>,
                           ready: map<CampaignId, int>)
    requires WellFormed(p.s)
  {
    LeftOk(s', left) && TiredOk(p, bs, tired) && ReadyOk(p.s, p.ls, p.risky, LeadsIn(bs), ready)
  }

  // A mailbox's rest changes only with its own booking.
  ghost predicate TiredOk(p: Line, bs: seq<Booking>, tired: set<MailboxId>) {
    && (forall m :: m !in MailboxesIn(bs) ==> (m in tired <==> m in p.tired))
    && (forall b :: b in bs ==> (b.mailbox in tired <==> b.lead in p.risky))
  }

  // Booking `k` took the least recently used mailbox its campaign had left, and the spacing of risky
  // leads held: a mailbox whose last first email was risky got another risky one only with no rested
  // mailbox left for it and every confirmed lead of its campaign in line already booked.
  ghost predicate PickedWell(p: Line, bs: seq<Booking>, k: nat)
    requires WellFormed(p.s) && k < |bs|
  {
    var b, before := bs[k], bs[..k];
    && b.lead in p.ls && b.lead in p.s.leads && !b.followUp && b.crash == NoCrash && b.mailbox in p.all
    && var senders := CampaignOf(p.s, b.lead).senders;
       && b.mailbox in senders
       && (forall m :: m in senders && m in p.all && m !in MailboxesIn(before) ==>
             || !SortsBefore(p.all[m].lastSentAt, p.all[b.mailbox].lastSentAt)
             || (b.lead in p.risky && m in p.tired && b.mailbox !in p.tired))
       && (b.lead in p.risky && b.mailbox in p.tired ==>
             && (forall m :: m in senders && m in p.all && m !in MailboxesIn(before) ==> m in p.tired)
             && Confirmed(p.s, p.ls, p.risky, p.s.leads[b.lead].campaign) <= LeadsIn(before))
  }

  // For a lead with nothing against it that is the least recently used outright: no mailbox of the
  // campaign still in the pool has been quiet for longer, and one that never sent goes first.
  lemma LeastRecentlyUsed(p: Line, bs: seq<Booking>, k: nat, m: MailboxId)
    requires WellFormed(p.s) && k < |bs| && PickedWell(p, bs, k)
    requires m in p.s.campaigns[p.s.leads[bs[k].lead].campaign].senders && m in p.all
    requires forall j :: 0 <= j < k ==> bs[j].mailbox != m
    requires bs[k].lead !in p.risky || m !in p.tired
    ensures bs[k].mailbox in p.all
    ensures p.all[bs[k].mailbox].lastSentAt.Some? ==>
      p.all[m].lastSentAt.Some? && p.all[bs[k].mailbox].lastSentAt.value <= p.all[m].lastSentAt.value
  {
    hide Confirmed;
    NotBookedYet(bs, k, m);
  }

  lemma NotBookedYet(bs: seq<Booking>, k: nat, m: MailboxId)
    requires k < |bs| && forall j :: 0 <= j < k ==> bs[j].mailbox != m
    ensures m !in MailboxesIn(bs[..k])
  {
  }

  // A risky lead never gets a mailbox that has just had one while another of the campaign's is left
  // that has not, or while a lead of the campaign with a clear check and an open window is in line.
  lemma RiskyStandsBack(p: Line, bs: seq<Booking>, k: nat, m: MailboxId, l: LeadId)
    requires WellFormed(p.s) && k < |bs| && PickedWell(p, bs, k)
    requires bs[k].lead in p.risky && bs[k].mailbox in p.tired
    ensures bs[k].lead in p.s.leads
    ensures m in p.s.campaigns[p.s.leads[bs[k].lead].campaign].senders && m in p.all && m !in p.tired ==>
      exists j :: 0 <= j < k && bs[j].mailbox == m
    ensures l in p.ls && l in p.s.leads && l !in p.risky && p.s.leads[l].campaign == p.s.leads[bs[k].lead].campaign ==>
      var c := p.s.campaigns[p.s.leads[l].campaign];
      LeadWindow(p.s.zones, c.schedule, c.useLeadZone, p.s.leads[l].zone, p.s.now).open ==>
        exists j :: 0 <= j < k && bs[j].lead == l
  {
    hide LeadWindow;
    var before := bs[..k];
    if m in MailboxesIn(before) {
      var j :| 0 <= j < |before| && before[j].mailbox == m;
      assert bs[j].mailbox == m;
    }
    if l in LeadsIn(before) {
      var j :| 0 <= j < |before| && before[j].lead == l;
      assert bs[j].lead == l;
    }
    if l in p.ls && l in p.s.leads && l !in p.risky && p.s.leads[l].campaign == p.s.leads[bs[k].lead].campaign
       && WindowOf(p.s, l).open {
      assert l in Confirmed(p.s, p.ls, p.risky, p.s.leads[bs[k].lead].campaign);
    }
  }

  // The reason a lead of the line was passed over, in terms of the start of the pass and its end.
  ghost predicate FirstWaits(p: Line, s': State, l: LeadId, mailboxes: set<MailboxId>)
    requires WellFormed(p.s) && l in p.s.leads && s'.campaigns == p.s.campaigns
  {
    var c, senders := p.s.leads[l].campaign, CampaignOf(p.s, l).senders;
    || !RoomForNewLead(s', c)
    || !WindowOf(p.s, l).open
    || (forall m :: m in senders && m in mailboxes ==>
          l in p.risky && m in p.tired && Confirmed(p.s, p.ls, p.risky, c) != {})
    || (exists m, d :: m in senders && m in p.all && m in p.s.mailboxes && ValidDraws(d) && TooLate(p.s, l, m, d))
  }

  lemma WaitedInLine(p: Line, bs: seq<Booking>, mid: State, pool: Pool, tired: set<MailboxId>,
                     ready: map<CampaignId, int>, l: LeadId)
    requires WellFormed(p.s) && Around(p.s, bs, mid) && WellFormed(mid) && pool == p.all - MailboxesIn(bs)
    requires TiredOk(p, bs, tired) && ReadyOk(p.s, p.ls, p.risky, LeadsIn(bs), ready)
    requires l in p.s.leads && l !in LeadsIn(bs) && l in mid.leads
    requires FirstWaitsNow(mid, pool, l, l in p.risky, tired, ReadyFor(ready, p.s.leads[l].campaign))
    ensures FirstWaits(p, mid, l, pool.Keys)
  {
    hide WindowOf, TooLate, RoomForNewLead, ReadyOk, Confirmed, SlotsAround, RowsAround;
    StaysAsItWas(p.s, bs, mid, l);
    var c, senders := p.s.leads[l].campaign, CampaignOf(p.s, l).senders;
    StillWaiting(p, LeadsIn(bs), ready, c);
    if RoomForNewLead(mid, c) && WindowOf(p.s, l).open
      && !(forall m :: m in senders && m in pool ==> l in p.risky && m in tired && ReadyFor(ready, c) > 0)
    {
      var m, d :| m in senders && m in p.s.mailboxes && m in pool && ValidDraws(d) && TooLate(mid, l, m, d);
      TooLateStays(p.s, bs, mid, l, m, d);
    }
  }

  lemma StillWaiting(p: Line, done: set<LeadId>, ready: map<CampaignId, int>, c: CampaignId)
    requires WellFormed(p.s) && ReadyOk(p.s, p.ls, p.risky, done, ready)
    ensures ReadyFor(ready, c) > 0 ==> Confirmed(p.s, p.ls, p.risky, c) != {}
    ensures ReadyFor(ready, c) <= 0 ==> Confirmed(p.s, p.ls, p.risky, c) <= done
  {
    assert ReadyFor(ready, c) == |Confirmed(p.s, p.ls, p.risky, c) - done|;
    if ReadyFor(ready, c) <= 0 {
      assert Confirmed(p.s, p.ls, p.risky, c) - done == {};
      forall l | l in Confirmed(p.s, p.ls, p.risky, c) ensures l in done {
        assert l !in Confirmed(p.s, p.ls, p.risky, c) - done;
      }
    }
  }

  lemma PickIsGood(p: Line, bs: seq<Booking>, pool: Pool, tired: set<MailboxId>, ready: map<CampaignId, int>, b: Booking)
    requires WellFormed(p.s) && pool == p.all - MailboxesIn(bs)
    requires TiredOk(p, bs, tired) && ReadyOk(p.s, p.ls, p.risky, LeadsIn(bs), ready)
    requires b.lead in p.ls && b.lead in p.s.leads && !b.followUp && b.crash == NoCrash
    requires GoodPick(pool, CampaignOf(p.s, b.lead).senders, b.lead in p.risky, tired,
                      ReadyFor(ready, p.s.leads[b.lead].campaign), b.mailbox)
    ensures PickedWell(p, bs + [b], |bs|)
  {
    assert (bs + [b])[..|bs|] == bs && (bs + [b])[|bs|] == b;
    StillWaiting(p, LeadsIn(bs), ready, p.s.leads[b.lead].campaign);
  }

  function NextTired(tired: set<MailboxId>, m: MailboxId, risky: bool): set<MailboxId> {
    if risky then tired + {m} else tired - {m}
  }

  function NextReady(ready: map<CampaignId, int>, c: CampaignId, risky: bool): map<CampaignId, int> {
    if risky then ready else ready[c := ReadyFor(ready, c) - 1]
  }

  lemma CountersGoOn(p: Line, bs: seq<Booking>, mid: State, left: map<CampaignId, nat>,
                     tired: set<MailboxId>, ready: map<CampaignId, int>, b: Booking)
    requires LineOk(p) && Counters(p, bs, mid, left, tired, ready)
    requires b.lead in p.ls && b.lead !in LeadsIn(bs) && b.mailbox !in MailboxesIn(bs)
    requires !b.followUp && b.crash == NoCrash && WindowOf(p.s, b.lead).open
    requires b.lead in mid.leads && mid.leads[b.lead] == p.s.leads[b.lead] && mid.now == p.s.now
    requires var c := p.s.leads[b.lead].campaign; c in left ==> left[c] > 0
    ensures var c, r := p.s.leads[b.lead].campaign, b.lead in p.risky;
            Counters(p, bs + [b], Book(mid, b), LessOne(left, c), NextTired(tired, b.mailbox, r), NextReady(ready, c, r))
    ensures forall c :: c in mid.campaigns && !RoomForNewLead(mid, c) ==> !RoomForNewLead(Book(mid, b), c)
  {
    InMore(bs, b);
    LeftGoesOn(mid, left, b);
    ReadyGoesOn(p.s, p.ls, p.risky, LeadsIn(bs), ready, b.lead);
    forall x | x in bs + [b]
      ensures x.mailbox in NextTired(tired, b.mailbox, b.lead in p.risky) <==> x.lead in p.risky
    {
      if x != b {
        assert x in bs && x.mailbox in MailboxesIn(bs);
      }
    }
  }

  // Each of the first `n` leads in line is booked, with the right mailbox, or has a reason to wait.
  ghost predicate FirstDone(p: Line, n: nat, bs: seq<Booking>, s': State, mailboxes: set<MailboxId>)
    requires WellFormed(p.s) && n <= |p.ls| && s'.campaigns == p.s.campaigns
  {
    && (forall b :: b in bs ==> b.lead in p.ls[..n])
    && (forall k :: 0 <= k < |bs| ==> PickedWell(p, bs, k))
    && (forall k :: 0 <= k < n ==>
          p.ls[k] in LeadsIn(bs) || (p.ls[k] in p.s.leads && FirstWaits(p, s', p.ls[k], mailboxes)))
  }

  lemma FirstPassedOver(p: Line, n: nat, bs: seq<Booking>, s': State, mailboxes: set<MailboxId>)
    requires WellFormed(p.s) && n < |p.ls| && s'.campaigns == p.s.campaigns
    requires FirstDone(p, n, bs, s', mailboxes)
    requires p.ls[n] in p.s.leads && FirstWaits(p, s', p.ls[n], mailboxes)
    ensures FirstDone(p, n + 1, bs, s', mailboxes)
  {
    assert p.ls[..n + 1] == p.ls[..n] + [p.ls[n]];
  }

  lemma PickedStays(p: Line, bs: seq<Booking>, b: Booking, k: nat)
    requires WellFormed(p.s) && k < |bs|
    ensures PickedWell(p, bs + [b], k) <==> PickedWell(p, bs, k)
  {
    hide WellFormed, Confirmed;
    assert (bs + [b])[..k] == bs[..k];
  }

  lemma FirstBooked(p: Line, n: nat, bs: seq<Booking>, mid: State, s': State, all: set<MailboxId>, b: Booking,
                    rest: set<MailboxId>)
    requires WellFormed(p.s) && n < |p.ls| && s'.campaigns == mid.campaigns == p.s.campaigns
    requires FirstDone(p, n, bs, mid, all) && rest <= all && b.lead == p.ls[n]
    requires PickedWell(p, bs + [b], |bs|)
    requires forall c :: c in mid.campaigns && !RoomForNewLead(mid, c) ==> !RoomForNewLead(s', c)
    ensures FirstDone(p, n + 1, bs + [b], s', rest)
  {
    hide PickedWell, WindowOf, TooLate, Confirmed, RoomForNewLead;
    InMore(bs, b);
    assert p.ls[..n + 1] == p.ls[..n] + [p.ls[n]];
    forall k | 0 <= k < |bs + [b]| ensures PickedWell(p, bs + [b], k) {
      if k < |bs| {
        PickedStays(p, bs, b, k);
      }
    }
    forall k | 0 <= k < n && p.ls[k] !in LeadsIn(bs) ensures FirstWaits(p, s', p.ls[k], rest) {
      assert FirstWaits(p, mid, p.ls[k], all);
    }
  }

  // Everything pass 2 keeps between two turns.
  ghost predicate FirstState(p: Line, n: nat, bs: seq<Booking>, s': State, pool: Pool, left: map<CampaignId, nat>,
                             tired: set<MailboxId>, ready: map<CampaignId, int>)
    requires WellFormed(p.s) && n <= |p.ls|
  {
    && PassState(p.s, p.all, bs, s', pool)
    && Counters(p, bs, s', left, tired, ready)
    && FirstDone(p, n, bs, s', pool.Keys)
  }

  lemma FirstTurnBooked(p: Line, n: nat, bs: seq<Booking>, mid: State, pool: Pool, left: map<CampaignId, nat>,
                        tired: set<MailboxId>, ready: map<CampaignId, int>, b: Booking)
    requires LineOk(p) && n < |p.ls| && FirstState(p, n, bs, mid, pool, left, tired, ready)
    requires b.lead == p.ls[n] && b.lead !in LeadsIn(bs) && !b.followUp && b.crash == NoCrash && BookOk(mid, b)
    requires GoodPick(pool, CampaignOf(p.s, b.lead).senders, b.lead in p.risky, tired,
                      ReadyFor(ready, p.s.leads[b.lead].campaign), b.mailbox)
    ensures var c, r := p.s.leads[b.lead].campaign, b.lead in p.risky;
            && (c in left ==> left[c] > 0)
            && FirstState(p, n + 1, bs + [b], Book(mid, b), pool - {b.mailbox},
                          LessOne(left, c), NextTired(tired, b.mailbox, r), NextReady(ready, c, r))
  {
    hide LeftOk, TiredOk, ReadyOk, FirstDone, PickedWell, Book, Booked, InPool, DueFollowUp;
    StaysAsItWas(p.s, bs, mid, b.lead);
    LeftIsRoom(mid, left, p.s.leads[b.lead].campaign);
    PassGoesOn(p.s, p.all, bs, mid, pool, b);
    CountersGoOn(p, bs, mid, left, tired, ready, b);
    PickIsGood(p, bs, pool, tired, ready, b);
    FirstBooked(p, n, bs, mid, Book(mid, b), pool.Keys, b, (pool - {b.mailbox}).Keys);
  }

  lemma FirstTurnSkipped(p: Line, n: nat, bs: seq<Booking>, mid: State, pool: Pool, left: map<CampaignId, nat>,
                         tired: set<MailboxId>, ready: map<CampaignId, int>)
    requires LineOk(p) && n < |p.ls| && FirstState(p, n, bs, mid, pool, left, tired, ready)
    requires p.ls[n] !in LeadsIn(bs) && p.ls[n] in p.s.leads && p.ls[n] in mid.leads
    requires FirstWaitsNow(mid, pool, p.ls[n], p.ls[n] in p.risky, tired,
                           ReadyFor(ready, p.s.leads[p.ls[n]].campaign))
    ensures FirstState(p, n + 1, bs, mid, pool, left, tired, ready)
  {
    WaitedInLine(p, bs, mid, pool, tired, ready, p.ls[n]);
    FirstPassedOver(p, n, bs, mid, pool.Keys);
  }

  // One turn of the loop of pass 2.
  method FirstTurn(st: Store, ghost p: Line, n: nat, ls: seq<LeadId>, risky: set<LeadId>, ghost bs: seq<Booking>,
                   pool: Pool, left: map<CampaignId, nat>, tired: set<MailboxId>, ready: map<CampaignId, int>, d: Draws)
    returns (booked: bool, pool': Pool, left': map<CampaignId, nat>, tired': set<MailboxId>,
             ready': map<CampaignId, int>, ghost more: seq<Booking>)
    requires LineOk(p) && p.ls == ls && p.risky == risky && n < |ls| && ValidDraws(d)
    requires FirstState(p, n, bs, st.View(), pool, left, tired, ready)
    modifies st`reservations, st`leads, st`waiting, st`hist
    ensures FirstState(p, n + 1, more, st.View(), pool', left', tired', ready')
    ensures |more| == |bs| + if booked then 1 else 0
  {
    var l := ls[n];
    ghost var mid := st.View();
    assert l in p.ls;
    LeadNotBooked(bs, ls, n);
    StaysAsItWas(p.s, bs, mid, l);
    var c := st.leads[l].campaign;
    var target, b := BookFirstEmail(st, pool, l, left, l in risky, tired, ReadyFor(ready, c), d);
    if target.None? {
      FirstTurnSkipped(p, n, bs, mid, pool, left, tired, ready);
      return false, pool, left, tired, ready, bs;
    }
    FirstTurnBooked(p, n, bs, mid, pool, left, tired, ready, b);
    return true, pool - {target.value}, LessOne(left, c), NextTired(tired, target.value, l in risky),
           NextReady(ready, c, l in risky), bs + [b];
  }

  lemma FirstStarts(p: Line, left: map<CampaignId, nat>, ready: map<CampaignId, int>)
    requires LineOk(p) && LeftOk(p.s, left) && ReadyOk(p.s, p.ls, p.risky, {}, ready)
    ensures FirstState(p, 0, [], p.s, p.all, left, p.tired, ready)
  {
    hide LeftOk, ReadyOk;
    PassStarts(p.s, p.all);
    assert LeadsIn([]) == {} && MailboxesIn([]) == {};
  }

  method FirstEmailPass(st: Store, ls: seq<LeadId>, risky: set<LeadId>, all: Pool, newLeadsLeft: map<CampaignId, nat>,
                        lastRisky: set<MailboxId>, draws: nat -> Draws)
    returns (enqueued: nat, pool: Pool, tired: set<MailboxId>, ghost bs: seq<Booking>)
    requires LineOk(Line(st.View(), all, ls, risky, lastRisky)) && LeftOk(st.View(), newLeadsLeft)
    requires forall n :: ValidDraws(draws(n))
    modifies st`reservations, st`leads, st`waiting, st`hist
    ensures PassState(old(st.View()), all, bs, st.View(), pool)
    ensures enqueued == |bs|
    ensures FirstDone(Line(old(st.View()), all, ls, risky, lastRisky), |ls|, bs, st.View(), pool.Keys)
    ensures TiredOk(Line(old(st.View()), all, ls, risky, lastRisky), bs, tired)
  {
    hide LeftOk, ReadyOk, PassState, FirstDone, TiredOk;
    ghost var p := Line(st.View(), all, ls, risky, lastRisky);
    enqueued, pool, tired, bs := 0, all, lastRisky, [];
    var left := newLeadsLeft;
    var ready := CountConfirmed(st, ls, risky);
    FirstStarts(p, left, ready);
    for n := 0 to |ls|
      invariant FirstState(p, n, bs, st.View(), pool, left, tired, ready)
      invariant enqueued == |bs|
    {
      var booked;
      booked, pool, left, tired, ready, bs :=
        FirstTurn(st, p, n, ls, risky, bs, pool, left, tired, ready, draws(n));
      enqueued := if booked then enqueued + 1 else enqueued;
    }
  }
}

// One enqueuer tick (apps/worker/src/enqueuer.ts): a run of the protocol's bookings, one slot per
// mailbox and one email per lead, that passes over no lead without a reason.
module Tick {
  import opened Basics
  import opened SendSchedule
  import opened SendWindow
  import opened SlotTiming
  import opened Model
  import opened Protocol
  import opened Invariants
  import opened Store
  import opened Enqueuer
  import opened FirstEmails
  import Completion

  // ----- The tick -----

  lemma LastBooking(s: State, bs: seq<Booking>, s': State) returns (mid: State)
    requires Booked(s, bs, s') && |bs| > 0
    ensures Booked(s, bs[..|bs| - 1], mid) && WellFormed(mid) && BookOk(mid, bs[|bs| - 1])
    ensures s' == Book(mid, bs[|bs| - 1])
  {
    mid := BookAll(s, bs[..|bs| - 1]);
  }

  lemma OneBookingKeeps(s: State, b: Booking)
    requires Inv(s) && BookOk(s, b)
    ensures Inv(Book(s, b))
  {
    BookKeeps(s, b);
  }

  // The invariant holds after every run of bookings.
  lemma {:induction false} BookedKeeps(s: State, bs: seq<Booking>, s': State)
    requires Inv(s) && Booked(s, bs, s')
    ensures Inv(s')
    decreases |bs|
  {
    if |bs| > 0 {
      var k := |bs| - 1;
      var mid := LastBooking(s, bs, s');
      BookedKeeps(s, bs[..k], mid);
      OneBookingKeeps(mid, bs[k]);
    }
  }

  // What a booking leaves cannot be booked again in the same tick.
  ghost predicate Taken(s: State, bs: seq<Booking>) {
    && (forall k :: 0 <= k < |bs| ==>
          && Pending(s, bs[k].mailbox).Some? && Pending(s, bs[k].mailbox).value > s.now
          && bs[k].lead in s.leads && s.leads[bs[k].lead].queuedJobId.Some?
          && !FirstEmailDue(s.leads[bs[k].lead], s.now))
    && (forall j, k :: 0 <= j < k < |bs| ==> bs[j].mailbox != bs[k].mailbox && bs[j].lead != bs[k].lead)
  }

  lemma TakenMore(s: State, bs: seq<Booking>, b: Booking)
    requires WellFormed(s) && Taken(s, bs) && b.lead in s.leads && b.slot > s.now && b.crash == NoCrash
    requires InPool(s, b.mailbox)
    requires if b.followUp then DueFollowUp(s, b.lead) else FirstEmailDue(s.leads[b.lead], s.now)
    ensures Taken(Book(s, b), bs + [b])
  {
    hide WellFormed, RecentSends, TickCap;
    var s' := Book(s, b);
    forall k | 0 <= k < |bs| ensures bs[k].mailbox != b.mailbox && bs[k].lead != b.lead {
    }
  }

  lemma TakenByBooking(s: State, bs: seq<Booking>, b: Booking)
    requires WellFormed(s) && Taken(s, bs) && BookOk(s, b) && b.crash == NoCrash
    ensures Taken(Book(s, b), bs + [b])
  {
    SlotClears(s, b);
    TakenMore(s, bs, b);
  }

  lemma OneMoreTaken(s: State, before: seq<Booking>, bs: seq<Booking>, b: Booking)
    requires WellFormed(s) && Taken(s, before + bs) && BookOk(s, b) && b.crash == NoCrash
    ensures Taken(Book(s, b), before + (bs + [b]))
  {
    TakenByBooking(s, before + bs, b);
    assert before + (bs + [b]) == before + bs + [b];
  }

  // One slot per mailbox and one email per lead, in any run of bookings at one instant.
  lemma {:induction false} OneSlotEach(s: State, before: seq<Booking>, bs: seq<Booking>, s': State)
    requires Taken(s, before) && Booked(s, bs, s') && forall b :: b in bs ==> b.crash == NoCrash
    ensures Taken(s', before + bs)
    decreases |bs|
  {
    hide Taken, BookOk, WellFormed;
    if |bs| == 0 {
      assert before + bs == before;
    } else {
      var k := |bs| - 1;
      var mid := LastBooking(s, bs, s');
      OneSlotEach(s, before, bs[..k], mid);
      OneMoreTaken(mid, before, bs[..k], bs[k]);
      assert bs[..k] + [bs[k]] == bs;
    }
  }

  lemma SyncKeeps(s: State)
    requires Inv(s)
    ensures Inv(Completion.Synced(s))
  {
    forall c | c in s.campaigns ensures ValidCampaign(s.zones, Completion.Synced(s).campaigns[c]) {
      assert ValidCampaign(s.zones, s.campaigns[c]);
    }
    assert Live(Completion.Synced(s)) == Live(s);
  }

  // A tick's outcome: follow-ups first, then first emails, each pass a run of bookings the protocol
  // allows; one slot per mailbox and one email per lead over both.
  ghost predicate TickOk(s: State, followUps: seq<Booking>, mid: State, firsts: seq<Booking>, s': State) {
    && Booked(s, followUps, mid) && Booked(mid, firsts, s')
    && (forall b :: b in followUps ==> b.followUp) && (forall b :: b in firsts ==> !b.followUp)
    && Taken(s', followUps + firsts)
  }

  lemma TickIsOk(s: State, followUps: seq<Booking>, mid: State, firsts: seq<Booking>, s': State)
    requires Booked(s, followUps, mid) && Booked(mid, firsts, s')
    requires forall b :: b in followUps ==> b.followUp && b.crash == NoCrash
    requires forall b :: b in firsts ==> !b.followUp && b.crash == NoCrash
    ensures TickOk(s, followUps, mid, firsts, s')
  {
    OneSlotEach(s, [], followUps, mid);
    assert [] + followUps == followUps;
    OneSlotEach(mid, followUps, firsts, s');
  }

  lemma LineIsOk(s: State, all: Pool, ls: seq<LeadId>, risky: set<LeadId>, tired: set<MailboxId>,
                 left: map<CampaignId, nat>)
    requires Inv(s) && PoolOk(s, all) && Distinct(ls)
    requires forall l :: l in ls ==> WantsFirst(s, l, all.Keys, left)
    ensures LineOk(Line(s, all, ls, risky, tired))
  {
    forall l | l in ls ensures LeadOk(l, s.leads[l], s.now) {
      assert WantsFirst(s, l, all.Keys, left);
    }
  }

  lemma PickedAreFirsts(p: Line, n: nat, bs: seq<Booking>, s': State, mailboxes: set<MailboxId>)
    requires WellFormed(p.s) && n <= |p.ls| && s'.campaigns == p.s.campaigns && FirstDone(p, n, bs, s', mailboxes)
    ensures forall b :: b in bs ==> !b.followUp && b.crash == NoCrash
  {
    forall b | b in bs ensures !b.followUp && b.crash == NoCrash {
      var k :| 0 <= k < |bs| && bs[k] == b;
      assert PickedWell(p, bs, k);
    }
  }

  // Every slot a tick books is inside its lead's window when its time comes, with the same close, if
  // the window closes on its own day.
  lemma SlotsAreInWindows(s: State, b: Booking)
    requires WellFormed(s) && BookOk(s, b)
    requires var c, own := s.campaigns[s.leads[b.lead].campaign], s.leads[b.lead].zone;
             c.schedule.Some? ==>
               var z := if c.useLeadZone && own.Some? && own.value in s.zones
                        then s.zones[own.value] else s.zones[c.schedule.value.timezone];
               Sound(z, c.schedule.value) && ClosesOnItsDay(z, c.schedule.value, LocalDay(z, s.now))
    ensures b.slot > s.now
    ensures var c, own := s.campaigns[s.leads[b.lead].campaign], s.leads[b.lead].zone;
            var w, v := LeadWindow(s.zones, c.schedule, c.useLeadZone, own, s.now),
                        LeadWindow(s.zones, c.schedule, c.useLeadZone, own, b.slot);
            w.open && v.open && v.closesAt == w.closesAt
  {
    hide Sound, ClosesOnItsDay, LocalDay, WalkFrom, TickCap, RecentSends;
    SlotClears(s, b);
    var c, own := CampaignOf(s, b.lead), s.leads[b.lead].zone;
    if c.schedule.Some? {
      var z := if c.useLeadZone && own.Some? && own.value in s.zones
               then s.zones[own.value] else s.zones[c.schedule.value.timezone];
      SlotStaysInside(s.zones, c.schedule.value, c.useLeadZone, own, z, s.now, b.slot);
    }
  }

  // By the wall clock itself, of the zone the campaign asks for, where no end of its window is
  // skipped or shown twice: a slot is booked while that clock is in the window, for a time it is too.
  lemma SlotsAreInHours(s: State, b: Booking, z: Zone)
    requires WellFormed(s) && BookOk(s, b)
    requires var c, own := s.campaigns[s.leads[b.lead].campaign], s.leads[b.lead].zone;
             && c.schedule.Some?
             && z == (if c.useLeadZone && own.Some? && own.value in s.zones
                      then s.zones[own.value] else s.zones[c.schedule.value.timezone])
             && Plain(z, c.schedule.value)
    ensures var hours := s.campaigns[s.leads[b.lead].campaign].schedule.value;
            ClockOpen(z, hours, s.now) && ClockOpen(z, hours, b.slot)
  {
    hide Plain, ClockOpen, WalkFrom, TickCap, RecentSends;
    SlotClears(s, b);
    var c, own := CampaignOf(s, b.lead), s.leads[b.lead].zone;
    LeadWindowIsTrue(s.zones, c.schedule.value, c.useLeadZone, own, s.now);
    SlotInsideWindow(s.zones, c.schedule.value, c.useLeadZone, own, z, s.now, b.slot);
  }

  // What a tick did: the follow-ups it read and booked, then the first emails, and the mailboxes each
  // pass had left at its end.
  datatype Report = Report(
    due: seq<LeadId>, followUps: seq<Booking>, mid: State, between: Pool,
    left: map<CampaignId, nat>, line: Line, firsts: seq<Booking>, after: Pool)

  // Every lead a query could find is in its pass, unless the query was full; and every lead in a pass
  // is booked, or waits for a reason.
  ghost predicate NobodyForgotten(s: State, all: Pool, byDue: seq<LeadId>, byImport: seq<LeadId>, r: Report, s': State) {
    && WellFormed(s) && WellFormed(r.mid) && r.line.s == r.mid && r.line.all == r.between
    && s'.campaigns == r.mid.campaigns && LeftOk(r.mid, r.left)
    && FollowUpsDone(s, r.due, |r.due|, r.followUps, r.between.Keys)
    && FirstDone(r.line, |r.line.ls|, r.firsts, s', r.after.Keys)
    && r.due == FirstFew(FollowUpsAmong(s, byDue, all.Keys))
    && r.line.ls == FirstFew(FirstsAmong(r.mid, byImport, r.between.Keys, r.left))
    && (|r.due| < LEAD_SCAN_SIZE ==> forall l :: l in byDue && WantsFollowUp(s, l, all.Keys) ==> l in r.due)
    && (|r.line.ls| < LEAD_SCAN_SIZE ==>
          forall l :: l in byImport && WantsFirst(r.mid, l, r.between.Keys, r.left) ==> l in r.line.ls)
  }

  // Pass 2, from its query to its last lead.
  method SendFirstEmails(st: Store, all: Pool, byImport: seq<LeadId>, risky: set<LeadId>, lastRisky: set<MailboxId>,
                         draws: nat -> Draws)
    returns (enqueued: nat, tired: set<MailboxId>, left: map<CampaignId, nat>, ls: seq<LeadId>, pool: Pool,
             ghost bs: seq<Booking>)
    requires Inv(st.View()) && PoolOk(st.View(), all)
    requires Distinct(byImport) && forall l :: l in byImport ==> l in st.leads
    requires forall n :: ValidDraws(draws(n))
    modifies st`reservations, st`leads, st`waiting, st`hist
    ensures PassState(old(st.View()), all, bs, st.View(), pool) && enqueued == |bs|
    ensures FirstDone(Line(old(st.View()), all, ls, risky, lastRisky), |ls|, bs, st.View(), pool.Keys)
    ensures TiredOk(Line(old(st.View()), all, ls, risky, lastRisky), bs, tired)
    ensures LeftOk(old(st.View()), left)
    ensures |ls| < LEAD_SCAN_SIZE ==>
      forall l :: l in byImport && WantsFirst(old(st.View()), l, all.Keys, left) ==> l in ls
    ensures ls == FirstFew(FirstsAmong(old(st.View()), byImport, all.Keys, left))
  {
    left := CountNewLeads(st);
    ls := FindFirstEmails(st, byImport, all.Keys, left);
    LineIsOk(st.View(), all, ls, risky, lastRisky, left);
    enqueued, pool, tired, bs := FirstEmailPass(st, ls, risky, all, left, lastRisky, draws);
  }

  // The whole tick, after the campaigns' statuses are brought up to date. `tired` comes back as the
  // mailboxes whose last first email is risky now.
  method RunEnqueuerTick(st: Store, mailboxes: seq<MailboxId>, byDue: seq<LeadId>, byImport: seq<LeadId>,
                         risky: set<LeadId>, lastRisky: set<MailboxId>, draws: nat -> Draws, moreDraws: nat -> Draws)
    returns (enqueued: nat, tired: set<MailboxId>, ghost all: Pool, ghost r: Report)
    requires Inv(st.View())
    requires forall i :: 0 <= i < |mailboxes| ==> mailboxes[i] in st.mailboxes
    requires Distinct(byDue) && Distinct(byImport)
    requires forall l :: l in byDue || l in byImport ==> l in st.leads
    requires forall n :: ValidDraws(draws(n)) && ValidDraws(moreDraws(n))
    modifies st
    ensures var s := Completion.Synced(old(st.View()));
            && TickOk(s, r.followUps, r.mid, r.firsts, st.View())
            && (forall m :: m in all <==> m in mailboxes && InPool(s, m))
            && NobodyForgotten(s, all, byDue, byImport, r, st.View())
    ensures r.line.risky == risky && r.line.tired == lastRisky && TiredOk(r.line, r.firsts, tired)
    ensures enqueued == |r.followUps| + |r.firsts|
    ensures Inv(st.View())
  {
    hide TickOk, Taken, Booked;
    SyncKeeps(st.View());
    var _, _ := Completion.SyncCampaignCompletion(st);
    ghost var s := st.View();
    var pool := BuildPool(st, mailboxes);
    all := pool;
    var due := FindFollowUps(st, byDue, pool.Keys);
    var count, more, left, ls, rest;
    ghost var followUps, firsts;
    pool, count, followUps := FollowUpPass(st, pool, due, draws);
    ghost var mid, between := st.View(), pool;
    BookedKeeps(s, followUps, mid);
    more, tired, left, ls, rest, firsts := SendFirstEmails(st, pool, byImport, risky, lastRisky, moreDraws);
    ghost var line := Line(mid, between, ls, risky, lastRisky);
    r := Report(due, followUps, mid, between, left, line, firsts, rest);
    PickedAreFirsts(line, |ls|, firsts, st.View(), rest.Keys);
    TickIsOk(s, followUps, mid, firsts, st.View());
    BookedKeeps(mid, firsts, st.View());
    enqueued := count + more;
  }

  // ----- A tick goes on a run -----

  // Steps of the protocol from `s` to `s'`.
  ghost predicate Chain(ss: seq<State>, es: seq<Event>, s: State, s': State) {
    && |ss| == |es| + 1 && ss[0] == s && ss[|es|] == s'
    && forall i :: 0 <= i < |es| ==> StepAt(ss, es, i)
  }

  lemma ChainMore(ss: seq<State>, es: seq<Event>, s: State, mid: State, e: Event, s': State)
    requires Chain(ss, es, s, mid) && Steps(mid, e, s')
    ensures Chain(ss + [s'], es + [e], s, s')
  {
    hide Steps;
    var ss', es' := ss + [s'], es + [e];
    forall i | 0 <= i < |es'| ensures StepAt(ss', es', i) {
      assert i < |es| ==> StepAt(ss, es, i);
    }
  }

  lemma {:induction false} ChainOn(ss: seq<State>, es: seq<Event>, s: State, mid: State,
                                   ss2: seq<State>, es2: seq<Event>, s': State)
    requires Chain(ss, es, s, mid) && Chain(ss2, es2, mid, s')
    ensures Chain(ss + ss2[1..], es + es2, s, s')
  {
    hide Steps;
    var ss', es' := ss + ss2[1..], es + es2;
    assert ss'[|es|] == mid == ss2[0];
    forall i | 0 <= i < |es'| ensures StepAt(ss', es', i) {
      if i < |es| {
        assert StepAt(ss, es, i);
      } else {
        assert StepAt(ss2, es2, i - |es|);
        assert i > |es| ==> ss'[i] == ss2[i - |es|];
        assert ss'[i + 1] == ss2[i + 1 - |es|];
      }
    }
  }

  function BooksAll(bs: seq<Booking>): seq<Event> {
    if |bs| == 0 then [] else BooksAll(bs[..|bs| - 1]) + [Books(bs[|bs| - 1])]
  }

  lemma IsBooking(s: State, b: Booking)
    requires WellFormed(s) && BookOk(s, b)
    ensures Steps(s, Books(b), Book(s, b))
  {
    hide BookOk, WellFormed;
  }

  lemma {:induction false} BookedIsChain(s: State, bs: seq<Booking>, s': State) returns (ss: seq<State>)
    requires Booked(s, bs, s')
    ensures Chain(ss, BooksAll(bs), s, s')
    decreases |bs|
  {
    if |bs| == 0 {
      ss := [s];
    } else {
      hide Steps, BookOk, Chain;
      var k := |bs| - 1;
      var mid := LastBooking(s, bs, s');
      ss := BookedIsChain(s, bs[..k], mid);
      IsBooking(mid, bs[k]);
      ChainMore(ss, BooksAll(bs[..k]), s, mid, Books(bs[k]), s');
      ss := ss + [s'];
    }
  }

  // The state with some of its campaigns brought up to date.
  function SyncedOn(s: State, cs: set<CampaignId>): State {
    s.(campaigns := map c | c in s.campaigns ::
      if c in cs then s.campaigns[c].(status := Completion.StatusNow(s, c)) else s.campaigns[c])
  }

  lemma SyncedOnStep(s: State, cs: set<CampaignId>, c: CampaignId)
    requires WellFormed(s) && c in s.campaigns && c in cs
    ensures var was, row := SyncedOn(s, cs - {c}), s.campaigns[c];
            Steps(was, SetsCampaign(c, Completion.StatusNow(s, c), row.pausedForBounceRate, row.senders), SyncedOn(s, cs))
  {
    hide Steps, WellFormed;
    var was, row := SyncedOn(s, cs - {c}), s.campaigns[c];
    SyncedOnIsWellFormed(s, cs - {c});
    assert SetCampaign(was, c, Completion.StatusNow(s, c), row.pausedForBounceRate, row.senders).campaigns
      == SyncedOn(s, cs).campaigns;
    IsSetting(was, c, Completion.StatusNow(s, c), row.pausedForBounceRate, row.senders);
  }

  lemma IsSetting(s: State, c: CampaignId, status: CampaignStatus, paused: bool, senders: set<MailboxId>)
    requires WellFormed(s) && c in s.campaigns
    ensures Steps(s, SetsCampaign(c, status, paused, senders), SetCampaign(s, c, status, paused, senders))
  {
    hide WellFormed, SetCampaign;
  }

  lemma SyncedOnIsWellFormed(s: State, cs: set<CampaignId>)
    requires WellFormed(s)
    ensures WellFormed(SyncedOn(s, cs))
  {
    forall c | c in s.campaigns ensures ValidCampaign(s.zones, SyncedOn(s, cs).campaigns[c]) {
      assert ValidCampaign(s.zones, s.campaigns[c]);
    }
  }

  predicate SetsCampaigns(es: seq<Event>) {
    forall i :: 0 <= i < |es| ==> es[i].SetsCampaign?
  }

  lemma {:induction false} SyncedIsChain(s: State, cs: set<CampaignId>) returns (ss: seq<State>, es: seq<Event>)
    requires WellFormed(s) && cs <= s.campaigns.Keys
    ensures Chain(ss, es, s, SyncedOn(s, cs)) && SetsCampaigns(es)
    decreases |cs|
  {
    if cs == {} {
      ss, es := [s], [];
      assert SyncedOn(s, cs).campaigns == s.campaigns;
    } else {
      hide Steps, Chain, SyncedOn, WellFormed;
      var c := SomeMember(cs);
      ss, es := SyncedIsChain(s, cs - {c});
      var e := SetsCampaign(c, Completion.StatusNow(s, c), s.campaigns[c].pausedForBounceRate, s.campaigns[c].senders);
      SyncedOnStep(s, cs, c);
      ChainMore(ss, es, s, SyncedOn(s, cs - {c}), e, SyncedOn(s, cs));
      ss, es := ss + [SyncedOn(s, cs)], es + [e];
    }
  }

  // A tick is some campaigns' statuses set, then its follow-ups and then its first emails booked.
  lemma TickIsChain(s: State, followUps: seq<Booking>, mid: State, firsts: seq<Booking>, s': State)
    returns (ss: seq<State>, sets: seq<Event>)
    requires WellFormed(s) && TickOk(Completion.Synced(s), followUps, mid, firsts, s')
    ensures SetsCampaigns(sets) && Chain(ss, sets + BooksAll(followUps) + BooksAll(firsts), s, s')
  {
    hide Chain, Steps, Booked, Taken, BooksAll;
    ss, sets := SyncedIsChain(s, s.campaigns.Keys);
    assert SyncedOn(s, s.campaigns.Keys).campaigns == Completion.Synced(s).campaigns;
    var ss2 := BookedIsChain(Completion.Synced(s), followUps, mid);
    ChainEnds(ss2, BooksAll(followUps), Completion.Synced(s), mid);
    ChainOn(ss, sets, s, Completion.Synced(s), ss2, BooksAll(followUps), mid);
    var ss3 := BookedIsChain(mid, firsts, s');
    ChainEnds(ss3, BooksAll(firsts), mid, s');
    ChainOn(ss + ss2[1..], sets + BooksAll(followUps), s, mid, ss3, BooksAll(firsts), s');
    ss := ss + ss2[1..] + ss3[1..];
  }

  lemma ChainEnds(ss: seq<State>, es: seq<Event>, s: State, s': State)
    requires Chain(ss, es, s, s')
    ensures |ss| > 0
  {
  }

  // So a run up to a tick goes on through it.
  lemma TickGoesOnRun(ss: seq<State>, es: seq<Event>, followUps: seq<Booking>, mid: State, firsts: seq<Booking>, s': State)
    returns (ss': seq<State>, es': seq<Event>)
    requires IsRun(ss, es) && TickOk(Completion.Synced(ss[|es|]), followUps, mid, firsts, s')
    ensures IsRun(ss', es') && ss <= ss' && es <= es' && ss'[|es'|] == s'
  {
    hide Steps, Fresh, TickOk, Taken, Booked;
    var s := ss[|es|];
    RunKeeps(ss, es, |es|);
    var more, sets := TickIsChain(s, followUps, mid, firsts, s');
    var booked := sets + BooksAll(followUps) + BooksAll(firsts);
    ChainOn(ss, es, ss[0], s, more, booked, s');
    ss', es' := ss + more[1..], es + booked;
  }
}
