// What a booking, a job start and a send promise, read off the rows, the log and the clock alone.
module BookingRules {
  import opened Basics
  import opened SendSchedule
  import opened SlotTiming
  import opened CampaignCap
  import opened Model
  import opened ReplyOutcome
  import opened Protocol
  import opened Invariants

  // ----- Who is booked, and when -----

  // A booking is allowed exactly when its campaign is sending and inside the lead's window, which the
  // slot is too; its mailbox is usable, under the limit of the tick and has no slot still to come; and
  // its lead has a follow-up due from that mailbox, unanswered and not queued, or a first email due
  // from one of the campaign's mailboxes, inside the campaign's limit of new leads.
  lemma BookedIff(s: State, b: Booking)
    requires WellFormed(s)
    ensures BookOk(s, b) <==>
      && b.lead in s.leads && b.mailbox in s.mailboxes && SlotChosen(s, b)
      && var lead, mailbox := s.leads[b.lead], s.mailboxes[b.mailbox];
         var campaign := s.campaigns[lead.campaign];
         var window := LeadWindow(s.zones, campaign.schedule, campaign.useLeadZone, lead.zone, s.now);
         && campaign.status == Sending && !campaign.pausedForBounceRate
         && window.open && (window.msLeft.Some? ==> b.slot - s.now < window.msLeft.value)
         && mailbox.usable && CountSends(s.log, b.mailbox, s.now - DAY_MS) < TickCap(s, b.mailbox)
         && (b.mailbox in s.reservations && s.now < s.reservations[b.mailbox].expires ==>
               s.reservations[b.mailbox].slot <= s.now)
         && (if b.followUp then
               && (lead.status == Contacted || lead.status == Opened)
               && lead.nextStepAt.Some? && lead.nextStepAt.value <= s.now && lead.queuedJobId.None?
               && lead.mailbox == Some(b.mailbox)
               && (forall i :: 0 <= i < |s.replies| && s.replies[i].lead == b.lead ==>
                     s.replies[i].tag == OutOfOffice || s.replies[i].tag == AutoReply)
             else
               && (lead.status == Untouched
                   || (lead.status == Queued && lead.nextRetryAt.Some? && lead.nextRetryAt.value <= s.now))
               && b.mailbox in campaign.senders
               && RoomForNewLead(s, lead.campaign))
  {
    hide LeadWindow, CampaignCapToday, TickCap, NextSlotSeconds, SpreadFor, RoomForNewLead;
    EndingIff(s.replies, b.lead);
    hide HasEndingReply;
  }

  // Inside the limit: fewer leads than it allows are first emailed in the last 24 hours or have a
  // first email booked. A campaign without one has room always.
  lemma RoomIff(s: State, c: CampaignId)
    requires c in s.campaigns
    ensures RoomForNewLead(s, c) <==>
      (s.campaigns[c].maxNewLeadsPerDay.Some? ==>
         |set l | l in s.leads && s.leads[l].campaign == c
            && ((s.leads[l].stepsSent == 1 && s.leads[l].lastStepAt.Some?
                 && s.leads[l].lastStepAt.value > s.now - DAY_MS)
                || (s.leads[l].status == Queued && s.leads[l].queuedJobId.Some?))|
         < s.campaigns[c].maxNewLeadsPerDay.value)
  {
    assert NewLeadsUsed(s, c) ==
      set l | l in s.leads && s.leads[l].campaign == c
         && ((s.leads[l].stepsSent == 1 && s.leads[l].lastStepAt.Some?
              && s.leads[l].lastStepAt.value > s.now - DAY_MS)
             || (s.leads[l].status == Queued && s.leads[l].queuedJobId.Some?));
  }

  // The pool of a tick: the usable mailboxes with no slot still to come whose last day's sends are
  // fewer than their limit, or than half of it, one at least, after a deferral in that day.
  lemma InPoolIff(s: State, m: MailboxId, limit: nat)
    requires m in s.mailboxes
    requires var full := CampaignCapToday(s.mailboxes[m].dailyCap, s.mailboxes[m].graduatedAt, s.now);
             limit == if exists i :: (0 <= i < |s.log| && s.log[i].mailbox == m && s.log[i].status == LogFailed
                                      && s.log[i].deferral && s.log[i].at > s.now - DAY_MS)
                      then Max(1, full / 2) else full
    ensures InPool(s, m) <==>
      && s.mailboxes[m].usable && CountSends(s.log, m, s.now - DAY_MS) < limit
      && (m in s.reservations && s.now < s.reservations[m].expires ==> s.reservations[m].slot <= s.now)
  {
    hide CampaignCapToday, CountSends;
  }

  // ----- At what pace -----

  // A mailbox whose provider deferred a send in the last day is booked at half pace: 16 minutes past
  // its last send and past a slot already booked, and within half its limit.
  lemma SlowedBooking(s: State, b: Booking, i: nat)
    requires WellFormed(s) && BookOk(s, b)
    requires i < |s.log| && s.log[i].mailbox == b.mailbox && s.log[i].status == LogFailed && s.log[i].deferral
    requires s.log[i].at > s.now - DAY_MS
    ensures var mailbox := s.mailboxes[b.mailbox];
            && (mailbox.lastSentAt.Some? ==> b.slot >= mailbox.lastSentAt.value + 16 * MINUTE_MS)
            && (b.mailbox in s.reservations && s.now < s.reservations[b.mailbox].expires ==>
                  b.slot >= s.reservations[b.mailbox].slot + 16 * MINUTE_MS)
            && CountSends(s.log, b.mailbox, s.now - DAY_MS)
               < Max(1, CampaignCapToday(mailbox.dailyCap, mailbox.graduatedAt, s.now) / 2)
  {
    hide CampaignCapToday, CountSends, WindowOf, NextSlotSeconds;
    assert Slowed(s, b.mailbox);
    SlotClears(s, b);
  }

  // Any other mailbox keeps 8 minutes and its whole limit, and is not held back: with no window to
  // spread over, its slot is at most 1051 seconds away.
  lemma FullPaceBooking(s: State, b: Booking)
    requires WellFormed(s) && BookOk(s, b)
    requires forall i :: 0 <= i < |s.log| && s.log[i].mailbox == b.mailbox && s.log[i].status == LogFailed ==>
      s.log[i].deferral ==> s.log[i].at <= s.now - DAY_MS
    ensures var mailbox := s.mailboxes[b.mailbox];
            && (mailbox.lastSentAt.Some? ==> b.slot >= mailbox.lastSentAt.value + 8 * MINUTE_MS)
            && (b.mailbox in s.reservations && s.now < s.reservations[b.mailbox].expires ==>
                  b.slot >= s.reservations[b.mailbox].slot + 8 * MINUTE_MS)
            && CountSends(s.log, b.mailbox, s.now - DAY_MS)
               < CampaignCapToday(mailbox.dailyCap, mailbox.graduatedAt, s.now)
            && (s.campaigns[s.leads[b.lead].campaign].schedule.None?
                && (mailbox.lastSentAt.Some? ==> mailbox.lastSentAt.value <= s.now) ==>
                  b.slot <= s.now + 1051 * SECOND_MS)
  {
    hide CampaignCapToday, CountSends, NextSlotSeconds;
    assert !Slowed(s, b.mailbox);
    SlotClears(s, b);
    if s.campaigns[s.leads[b.lead].campaign].schedule.None? {
      assert SpreadFor(s, b.lead, b.mailbox) == 0.0;
      var mailbox := s.mailboxes[b.mailbox];
      var d :| ValidDraws(d) &&
        b.slot == s.now + NextSlotSeconds(mailbox.lastSentAt, s.now, Pending(s, b.mailbox), 0.0, b.pace, d) * 1000;
      if mailbox.lastSentAt.Some? ==> mailbox.lastSentAt.value <= s.now {
        UnspreadSlotIsSoon(mailbox.lastSentAt, s.now, Pending(s, b.mailbox), b.pace, d);
      }
    }
  }

  // In a window, what the mailbox has left is spread over what is left of it: the slot is four fifths
  // of its share of the time past the last send, the sends that still count at the close taken off.
  lemma SpreadBooking(s: State, b: Booking, left: int, limit: nat)
    requires WellFormed(s) && BookOk(s, b)
    requires var lead := s.leads[b.lead];
             var campaign := s.campaigns[lead.campaign];
             LeadWindow(s.zones, campaign.schedule, campaign.useLeadZone, lead.zone, s.now).msLeft == Some(left)
    requires var m := b.mailbox;
             var full := CampaignCapToday(s.mailboxes[m].dailyCap, s.mailboxes[m].graduatedAt, s.now);
             limit == if exists i :: (0 <= i < |s.log| && s.log[i].mailbox == m && s.log[i].status == LogFailed
                                      && s.log[i].deferral && s.log[i].at > s.now - DAY_MS)
                      then Max(1, full / 2) else full
    ensures left > 0
    ensures s.mailboxes[b.mailbox].lastSentAt.Some? ==>
      var counted := CountSends(s.log, b.mailbox, s.now + left - DAY_MS);
      var share := left as real / Max(1, limit - counted) as real;
      b.slot as real >= s.mailboxes[b.mailbox].lastSentAt.value as real + 0.8 * share - 500.0
  {
    hide CampaignCapToday, CountSends, NextSlotSeconds, LeadWindow, InPool, DueFollowUp, RoomForNewLead, TickCap;
    BookedMailbox(s, b);
    LimitIsTickCap(s, b.mailbox, limit);
    SpreadShare(s, b, left);
    ShareIs(left, limit, CountSends(s.log, b.mailbox, s.now + left - DAY_MS));
    var mailbox := s.mailboxes[b.mailbox];
    var spread := SpreadFor(s, b.lead, b.mailbox);
    var d :| ValidDraws(d) &&
      b.slot == s.now + NextSlotSeconds(mailbox.lastSentAt, s.now, Pending(s, b.mailbox), spread, b.pace, d) * 1000;
    SlotClears(s, b);
    var latest := Max(s.now, Max(if mailbox.lastSentAt.Some? then mailbox.lastSentAt.value else s.now,
                                 if Pending(s, b.mailbox).Some? then Pending(s, b.mailbox).value else s.now));
    SlotIsSpread(mailbox.lastSentAt, s.now, Pending(s, b.mailbox), spread, b.pace, d, latest);
  }

  lemma BookedMailbox(s: State, b: Booking)
    requires WellFormed(s) && BookOk(s, b)
    ensures b.mailbox in s.mailboxes
  {
  }

  lemma SpreadShare(s: State, b: Booking, left: int)
    requires WellFormed(s) && b.lead in s.leads && b.mailbox in s.mailboxes && WindowOf(s, b.lead).open
    requires WindowOf(s, b.lead).msLeft == Some(left)
    ensures left > 0
    ensures SpreadFor(s, b.lead, b.mailbox) > 0.0
    ensures SpreadFor(s, b.lead, b.mailbox) ==
      SpreadGapMs(Some(left), TickCap(s, b.mailbox), CountSends(s.log, b.mailbox, s.now + left - DAY_MS))
  {
    hide WellFormed, WindowOf, TickCap, SpreadFor, SpreadGapMs, CountSends;
    OpenHasTimeLeft(s, b.lead);
    SpreadIs(s, b, left);
    SpreadIsPositive(left, TickCap(s, b.mailbox), CountSends(s.log, b.mailbox, s.now + left - DAY_MS));
  }

  lemma SpreadIs(s: State, b: Booking, left: int)
    requires WellFormed(s) && b.lead in s.leads && b.mailbox in s.mailboxes
    requires WindowOf(s, b.lead).msLeft == Some(left)
    ensures SpreadFor(s, b.lead, b.mailbox) ==
      SpreadGapMs(Some(left), TickCap(s, b.mailbox), CountSends(s.log, b.mailbox, s.now + left - DAY_MS))
  {
    hide WellFormed, WindowOf, TickCap, SpreadGapMs, CountSends;
  }

  lemma ShareIs(left: int, limit: nat, counted: nat)
    requires left > 0
    ensures SpreadGapMs(Some(left), limit, counted) == left as real / Max(1, limit - counted) as real
  {
  }

  lemma LimitIsTickCap(s: State, m: MailboxId, limit: nat)
    requires m in s.mailboxes
    requires var full := CampaignCapToday(s.mailboxes[m].dailyCap, s.mailboxes[m].graduatedAt, s.now);
             limit == if exists i :: (0 <= i < |s.log| && s.log[i].mailbox == m && s.log[i].status == LogFailed
                                      && s.log[i].deferral && s.log[i].at > s.now - DAY_MS)
                      then Max(1, full / 2) else full
    ensures TickCap(s, m) == limit
  {
    hide CampaignCapToday;
  }

  lemma OpenHasTimeLeft(s: State, l: LeadId)
    requires WellFormed(s) && l in s.leads
    ensures WindowOf(s, l).open && WindowOf(s, l).msLeft.Some? ==> WindowOf(s, l).msLeft.value > 0
  {
  }

  // ----- What a booking writes -----

  // The slot is reserved until two minutes past it; the lead names the job, a first email's lead being
  // QUEUED from then on, and a follow-up's status and due time as they were; then the job is added.
  lemma BookingWrites(s: State, b: Booking, s': State)
    requires Steps(s, Books(b), s')
    ensures b.lead in s.leads && b.lead in s'.leads
    ensures s'.reservations == s.reservations[b.mailbox := Reservation(b.slot, b.slot + 2 * MINUTE_MS)]
    ensures b.crash == BeforeRow ==> s'.leads == s.leads && s'.waiting == s.waiting
    ensures b.crash != BeforeRow ==>
      var was, row := s.leads[b.lead], s'.leads[b.lead];
      && row.queuedJobId == Some(JobId(b.lead, b.mailbox, b.slot)) && row.queuedSlotAt == Some(b.slot)
      && row.stepsSent == was.stepsSent && row.retryCount == was.retryCount && row.nextStepAt == was.nextStepAt
      && (if b.followUp then row.status == was.status && row.nextRetryAt == was.nextRetryAt
          else row.status == Queued && row.nextRetryAt.None?)
    ensures b.crash == NoCrash ==> s'.waiting == s.waiting + {JobId(b.lead, b.mailbox, b.slot)}
    ensures b.crash == BeforeAdd ==> s'.waiting == s.waiting
    ensures forall l :: l in s.leads && l != b.lead ==> l in s'.leads && s'.leads[l] == s.leads[l]
  {
    hide WellFormed, SlotChosen, InPool, DueFollowUp, RoomForNewLead, CampaignOf, WindowOf;
  }
}

// When a job may start, and when its email may leave (apps/worker/src/processor.ts and
// apps/api/src/lib/mailSender.ts).
module DispatchRules {
  import opened Basics
  import opened SendSchedule
  import opened CampaignCap
  import opened Model
  import opened ReplyOutcome
  import opened Protocol
  import opened Invariants
  import AnswerRun

  // A due job's email is dispatched only if all of this still holds when it starts, and its lead taken
  // off the queue again only if some of it does not: the mailbox is usable and has room today, the
  // campaign is sending, neither paused by hand nor for its bounce rate, the lead's window is open, and
  // the lead still fits: a follow-up still due, from the lead's own mailbox, or a first email still
  // QUEUED, from a mailbox the campaign sends from.
  lemma JobStartsIff(s: State, job: JobId, s': State)
    requires WellFormed(s) && job.lead in s.leads
    ensures var lead := s.leads[job.lead];
            var campaign := s.campaigns[lead.campaign];
            var ok :=
              && job.mailbox in s.mailboxes && s.mailboxes[job.mailbox].usable
              && CountSends(s.log, job.mailbox, s.now - DAY_MS)
                 < CampaignCapToday(s.mailboxes[job.mailbox].dailyCap, s.mailboxes[job.mailbox].graduatedAt, s.now)
              && campaign.status == Sending && !campaign.pausedForBounceRate
              && LeadWindow(s.zones, campaign.schedule, campaign.useLeadZone, lead.zone, s.now).open
              && (if lead.stepsSent > 0 then
                    && lead.mailbox == Some(job.mailbox) && (lead.status == Contacted || lead.status == Opened)
                    && lead.nextStepAt.Some? && lead.nextStepAt.value <= s.now
                  else lead.status == Queued && job.mailbox in campaign.senders);
            && (Eligible(s, job) <==> ok)
            && (Steps(s, Dispatches(job), s') ==> ok)
            && (Steps(s, Releases(job), s') ==> !ok)
  {
    hide LeadWindow, CampaignCapToday, CountSends;
    EligibleIff(s, job);
    StartNeeds(s, job, s');
    hide Eligible, Steps;
  }

  lemma EligibleIff(s: State, job: JobId)
    requires WellFormed(s) && job.lead in s.leads
    ensures var lead := s.leads[job.lead];
            var campaign := s.campaigns[lead.campaign];
            Eligible(s, job) <==>
              && job.mailbox in s.mailboxes && s.mailboxes[job.mailbox].usable
              && CountSends(s.log, job.mailbox, s.now - DAY_MS)
                 < CampaignCapToday(s.mailboxes[job.mailbox].dailyCap, s.mailboxes[job.mailbox].graduatedAt, s.now)
              && campaign.status == Sending && !campaign.pausedForBounceRate
              && LeadWindow(s.zones, campaign.schedule, campaign.useLeadZone, lead.zone, s.now).open
              && (if lead.stepsSent > 0 then
                    && lead.mailbox == Some(job.mailbox) && (lead.status == Contacted || lead.status == Opened)
                    && lead.nextStepAt.Some? && lead.nextStepAt.value <= s.now
                  else lead.status == Queued && job.mailbox in campaign.senders)
  {
    hide LeadWindow, CampaignCapToday, CountSends;
  }

  lemma StartNeeds(s: State, job: JobId, s': State)
    requires WellFormed(s) && job.lead in s.leads
    ensures Steps(s, Dispatches(job), s') ==> Eligible(s, job)
    ensures Steps(s, Releases(job), s') ==> !Eligible(s, job)
  {
    hide WellFormed, Eligible, Released;
  }

  // So in every dispatch of every run. A follow-up's lead has, besides, no reply stored but away
  // notices and auto-replies.
  lemma EveryDispatch(ss: seq<State>, es: seq<Event>, k: nat)
    requires IsRun(ss, es) && k < |es| && es[k].Dispatches?
    ensures var s, job := ss[k], es[k].job;
            && job.lead in s.leads && s.leads[job.lead].campaign in s.campaigns
            && job in s.waiting && job.slot <= s.now
            && var lead := s.leads[job.lead];
               var campaign := s.campaigns[lead.campaign];
               && (campaign.schedule.Some? ==> campaign.schedule.value.timezone in s.zones)
               && job.mailbox in s.mailboxes && s.mailboxes[job.mailbox].usable
               && CountSends(s.log, job.mailbox, s.now - DAY_MS)
                  < CampaignCapToday(s.mailboxes[job.mailbox].dailyCap, s.mailboxes[job.mailbox].graduatedAt, s.now)
               && campaign.status == Sending && !campaign.pausedForBounceRate
               && LeadWindow(s.zones, campaign.schedule, campaign.useLeadZone, lead.zone, s.now).open
               && (lead.stepsSent > 0 ==>
                     && lead.mailbox == Some(job.mailbox) && (lead.status == Contacted || lead.status == Opened)
                     && lead.nextStepAt.Some? && lead.nextStepAt.value <= s.now
                     && (forall i :: 0 <= i < |s.replies| && s.replies[i].lead == job.lead ==>
                           s.replies[i].tag == OutOfOffice || s.replies[i].tag == AutoReply))
               && (lead.stepsSent == 0 ==> lead.status == Queued && job.mailbox in campaign.senders)
  {
    hide Inv, Fresh, LeadWindow, CampaignCapToday, CountSends, Eligible;
    var s, job := ss[k], es[k].job;
    assert StepAt(ss, es, k);
    RunKeeps(ss, es, k);
    AnswerRun.DispatchOfAnswered(s, es[k], ss[k + 1]);
    DispatchIsDue(s, job, ss[k + 1]);
    StartNeeds(s, job, ss[k + 1]);
    EligibleIff(s, job);
    EndingIff(s.replies, job.lead);
    hide Steps, HasEndingReply;
  }

  lemma DispatchIsDue(s: State, job: JobId, s': State)
    requires Steps(s, Dispatches(job), s')
    ensures WellFormed(s) && job in s.waiting && job.slot <= s.now && job.lead in s.leads
    ensures s.leads[job.lead].campaign in s.campaigns
    ensures var campaign := s.campaigns[s.leads[job.lead].campaign];
            campaign.schedule.Some? ==> campaign.schedule.value.timezone in s.zones
  {
    hide Eligible;
    assert ValidCampaign(s.zones, s.campaigns[s.leads[job.lead].campaign]);
  }

  // By the wall clock of the zone the campaign asks for: no email is dispatched but on a ticked day
  // and inside the hours, whatever the campaign's settings were when it was booked.
  lemma EveryDispatchInHours(ss: seq<State>, es: seq<Event>, k: nat, z: Zone)
    requires IsRun(ss, es) && k < |es| && es[k].Dispatches?
    requires es[k].job.lead in ss[k].leads && ss[k].leads[es[k].job.lead].campaign in ss[k].campaigns
    requires var s, lead := ss[k], ss[k].leads[es[k].job.lead];
             var campaign := s.campaigns[lead.campaign];
             && campaign.schedule.Some? && campaign.schedule.value.timezone in s.zones
             && z == (if campaign.useLeadZone && lead.zone.Some? && lead.zone.value in s.zones
                      then s.zones[lead.zone.value] else s.zones[campaign.schedule.value.timezone])
             && Plain(z, campaign.schedule.value)
    ensures ClockOpen(z, ss[k].campaigns[ss[k].leads[es[k].job.lead].campaign].schedule.value, ss[k].now)
  {
    hide Plain, ClockOpen, LeadWindow;
    EveryDispatch(ss, es, k);
    var s, lead := ss[k], ss[k].leads[es[k].job.lead];
    var campaign := s.campaigns[lead.campaign];
    LeadWindowIsTrue(s.zones, campaign.schedule.value, campaign.useLeadZone, lead.zone, s.now);
  }

  // An email is handed to the mail server only while its address is not on the suppression list, a
  // first one from a mailbox the campaign sends from, a follow-up from the mailbox that sent the first.
  lemma EveryTransport(ss: seq<State>, es: seq<Event>, k: nat)
    requires IsRun(ss, es) && k < |es| && es[k].Transports?
    ensures var s := ss[k];
            && s.flight.Some? && s.flight.value.job.lead in s.leads
            && s.flight.value.email !in s.blocked
            && var job := s.flight.value.job;
               var lead := s.leads[job.lead];
               && lead.campaign in s.campaigns
               && (lead.stepsSent > 0 && lead.mailbox.Some? ==> lead.mailbox.value == job.mailbox)
               && (lead.stepsSent == 0 ==> job.mailbox in s.campaigns[lead.campaign].senders)
  {
    assert StepAt(ss, es, k);
    TransportNeeds(ss[k], ss[k + 1]);
  }

  lemma TransportNeeds(s: State, s': State)
    requires Steps(s, Transports, s')
    ensures s.flight.Some? && s.flight.value.job.lead in s.leads && s.flight.value.email !in s.blocked
    ensures var job := s.flight.value.job;
            var lead := s.leads[job.lead];
            && lead.campaign in s.campaigns
            && (lead.stepsSent > 0 && lead.mailbox.Some? ==> lead.mailbox.value == job.mailbox)
            && (lead.stepsSent == 0 ==> job.mailbox in s.campaigns[lead.campaign].senders)
  {
  }
}

// What a handler leaves of its lead's row, and what becomes of the lead from there.
module RowRules {
  import opened Basics
  import opened Sequence
  import opened Model
  import opened ReplyOutcome
  import opened Protocol
  import opened Invariants

  // ----- A job that starts -----

  // Taken off the queue without a send, a lead loses nothing but its place: a QUEUED one is UNTOUCHED
  // again, and so due to the next tick; a follow-up keeps its status and its due time.
  lemma ReleaseLosesNothing(s: State, job: JobId, s': State)
    requires Inv(s) && Steps(s, Releases(job), s')
    ensures job.lead in s.leads && job.lead in s'.leads && s'.log == s.log && s'.reservations == s.reservations
    ensures var was, row := s.leads[job.lead], s'.leads[job.lead];
            && row == was.(status := row.status, queuedJobId := row.queuedJobId, queuedSlotAt := row.queuedSlotAt)
            && (was.stepsSent > 0 || was.status == Queued ==> row.queuedJobId.None? && row.queuedSlotAt.None?)
            && (was.stepsSent > 0 ==> row.status == was.status)
            && (was.stepsSent == 0 && was.status == Queued ==> row.status == Untouched && FirstEmailDue(row, s'.now))
            && (was.stepsSent == 0 && was.status != Queued ==> row == was)
  {
    hide JobsOk, FlightOk, Eligible, WellFormed;
    assert LeadOk(job.lead, s.leads[job.lead], s.now);
  }

  // A dead address: FAILED for good, with a row in the log that no limit counts, and its own slot back.
  lemma DeadIsFailed(s: State, job: JobId, s': State, m: MailboxId, since: Time)
    requires Steps(s, StopsDead(job), s')
    ensures job.lead in s.leads && job.lead in s'.leads
    ensures var was, row := s.leads[job.lead], s'.leads[job.lead];
            && row.status == Failed && row.queuedJobId.None? && row.nextRetryAt.None? && row.stepsSent == was.stepsSent
            && s'.log == s.log + [LogRow(was.campaign, job.lead, job.mailbox, LogFailed, s.now, false)]
            && CountSends(s'.log, m, since) == CountSends(s.log, m, since)
            && (forall k :: k != job.mailbox ==> (k in s'.reservations <==> k in s.reservations))
            && (job.mailbox in s.reservations && s.now < s.reservations[job.mailbox].expires ==>
                  (job.mailbox in s'.reservations <==> Some(s.reservations[job.mailbox].slot) != was.queuedSlotAt))
  {
    hide WellFormed, WindowOf, MailboxCanSend;
    assert s'.log[..|s.log|] == s.log;
  }

  // "Not now" from the address's server: still QUEUED, due again in 30 to 60 minutes, in no job.
  lemma AskedAgainSoon(s: State, job: JobId, retryAt: Time, s': State)
    requires Steps(s, AsksAgain(job, retryAt), s')
    ensures job.lead in s.leads && job.lead in s'.leads && s'.log == s.log
    ensures var was, row := s.leads[job.lead], s'.leads[job.lead];
            && s.now + 30 * MINUTE_MS <= retryAt < s.now + 60 * MINUTE_MS
            && row == was.(nextRetryAt := Some(retryAt), queuedJobId := None, queuedSlotAt := None)
            && (forall t :: FirstEmailDue(row, t) <==> t >= retryAt)
  {
    hide WellFormed, WindowOf, MailboxCanSend, FreeSlot;
  }

  // ----- The checks of a send -----

  // Refused before anything was recorded: a first email still QUEUED waits half an hour, a follow-up
  // an hour, and both are off the queue; nothing else of the row changes.
  lemma RefusalWaits(s: State, s': State)
    requires Steps(s, Refuses, s')
    ensures s.flight.Some? && s.flight.value.job.lead in s.leads && s.flight.value.job.lead in s'.leads
    ensures var l := s.flight.value.job.lead;
            var was, row := s.leads[l], s'.leads[l];
            && (was.queuedJobId.Some? && !s.flight.value.followUp && was.status == Queued ==>
                  row == was.(queuedJobId := None, queuedSlotAt := None, nextRetryAt := Some(s.now + 30 * MINUTE_MS)))
            && (was.queuedJobId.Some? && s.flight.value.followUp && was.nextStepAt.Some? ==>
                  row == was.(queuedJobId := None, queuedSlotAt := None, nextStepAt := Some(s.now + 60 * MINUTE_MS)))
            && (was.queuedJobId.None? ==> row == was)
  {
    hide WellFormed, SenderAllowed;
  }

  // Refused because the address is listed: SUPPRESSED, whatever it was, with no retry left.
  lemma ListedIsSuppressed(s: State, s': State)
    requires Steps(s, RefusesBlocked, s')
    ensures s.flight.Some? && s.flight.value.email in s.blocked
    ensures var l := s.flight.value.job.lead;
            l in s.leads && l in s'.leads && s'.leads[l].status == Suppressed
            && (s.leads[l].status != Suppressed ==> s'.leads[l].nextRetryAt.None?)
            && s'.leads[l].stepsSent == s.leads[l].stepsSent && s'.log == s.log
  {
    hide WellFormed, SenderAllowed;
  }

  // Nothing left to write: the sequence is over, the lead stays as it is.
  lemma SequenceIsOver(s: State, s': State)
    requires Steps(s, EndsSequence, s')
    ensures s.flight.Some? && s.flight.value.job.lead in s.leads && s.flight.value.job.lead in s'.leads
    ensures var l := s.flight.value.job.lead;
            && s'.leads[l] == s.leads[l].(nextStepAt := None, queuedJobId := None, queuedSlotAt := None)
            && s'.log == s.log && s.leads[l].stepsSent > 0
  {
    hide WellFormed, SenderAllowed;
  }

  // ----- The mail server's answer -----

  // Delivered: one step more, from now; the next one due after that step's own wait, or none after the
  // last; the first email ties the lead to its mailbox for good; the send is in the log, counts, and is
  // the mailbox's last.
  lemma DeliveryAdvances(s: State, s': State)
    requires Inv(s) && Steps(s, Delivers, s')
    ensures s.flight.Some? && s.flight.value.job.lead in s.leads && s.flight.value.job.lead in s'.leads
    ensures s.leads[s.flight.value.job.lead].campaign in s.campaigns
    ensures var job := s.flight.value.job;
            var was, row := s.leads[job.lead], s'.leads[job.lead];
            var steps := s.campaigns[was.campaign].steps;
            && row.stepsSent == was.stepsSent + 1 && row.lastStepAt == Some(s.now)
            && row.nextStepAt == (if was.stepsSent < |steps|
                                  then Some(s.now + steps[was.stepsSent].waitDays * DAY_MS) else None)
            && row.status == (if was.status == Opened then Opened else Contacted)
            && row.retryCount == 0 && row.nextRetryAt.None? && row.queuedJobId.None? && row.queuedSlotAt.None?
            && row.mailbox == (if was.stepsSent == 0 then Some(job.mailbox) else was.mailbox)
            && row.campaign == was.campaign && row.email == was.email && row.zone == was.zone
            && s'.log == s.log + [LogRow(was.campaign, job.lead, job.mailbox, LogSent, s.now, false)]
            && job.mailbox in s'.mailboxes && s'.mailboxes[job.mailbox].lastSentAt == Some(s.now)
  {
    hide RowsOk, JobsOk, FlightOk, PaceOf, BookedAt, SentLead;
    var job := s.flight.value.job;
    var campaign := s.campaigns[s.leads[job.lead].campaign];
    assert ValidCampaign(s.zones, campaign);
    SentRowIs(s.leads[job.lead], campaign.steps, job.mailbox, s.now);
    hide WellFormed, ValidSteps;
  }

  lemma SentRowIs(was: Lead, steps: seq<Step>, m: MailboxId, now: Time)
    requires ValidSteps(steps)
    ensures var row := SentLead(was, steps, m, now);
            && row.stepsSent == was.stepsSent + 1 && row.lastStepAt == Some(now)
            && row.nextStepAt == (if was.stepsSent < |steps|
                                  then Some(now + steps[was.stepsSent].waitDays * DAY_MS) else None)
            && row.status == (if was.status == Opened then Opened else Contacted)
            && row.retryCount == 0 && row.nextRetryAt.None? && row.queuedJobId.None? && row.queuedSlotAt.None?
            && row.mailbox == (if was.stepsSent == 0 then Some(m) else was.mailbox)
            && row.campaign == was.campaign && row.email == was.email && row.zone == was.zone
  {
    FollowUpWaitsADay(steps, was.stepsSent + 1, now);
    hide ValidSteps, NextStepAtAfter;
  }

  // A hard bounce ends it: BOUNCED, no next step, in no job; and it counts as a send of its mailbox.
  lemma HardBounceEnds(s: State, s': State, since: Time)
    requires Steps(s, Bounces, s') && since < s.now
    ensures s.flight.Some? && s.flight.value.job.lead in s.leads && s.flight.value.job.lead in s'.leads
    ensures var job := s.flight.value.job;
            var was, row := s.leads[job.lead], s'.leads[job.lead];
            && row == was.(status := Bounced, nextStepAt := None, queuedJobId := None, queuedSlotAt := None)
            && CountSends(s'.log, job.mailbox, since) == CountSends(s.log, job.mailbox, since) + 1
            && s'.mailboxes == s.mailboxes
  {
    hide WellFormed;
    assert s'.log[..|s.log|] == s.log;
  }

  // A follow-up that fails keeps its lead as it was and tries the same step again in half an hour, one
  // hour, then two, each give or take a tenth; the fourth failure ends the sequence.
  lemma FollowUpBackoff(s: State, jitter: real, deferral: bool, s': State)
    requires Steps(s, FailsSoftly(jitter, deferral), s')
    requires s.flight.Some? && s.flight.value.job.lead in s.leads && s.leads[s.flight.value.job.lead].stepsSent > 0
    ensures s.flight.value.job.lead in s'.leads
    ensures var l := s.flight.value.job.lead;
            var was, row := s.leads[l], s'.leads[l];
            && row == was.(retryCount := row.retryCount, nextStepAt := row.nextStepAt,
                           queuedJobId := None, queuedSlotAt := None)
            && (row.nextStepAt.Some? <==> was.retryCount <= 2)
            && (row.retryCount == if was.retryCount <= 2 then was.retryCount + 1 else 0)
            && (was.retryCount == 0 ==> 27 * MINUTE_MS <= row.nextStepAt.value - s.now <= 33 * MINUTE_MS)
            && (was.retryCount == 1 ==> 54 * MINUTE_MS <= row.nextStepAt.value - s.now <= 66 * MINUTE_MS)
            && (was.retryCount == 2 ==> 108 * MINUTE_MS <= row.nextStepAt.value - s.now <= 132 * MINUTE_MS)
  {
    hide WellFormed, RetryDelaySeconds;
    ThreeWaits(jitter);
  }

  // A first email that fails stays QUEUED for its next try, or is SUPPRESSED at the fourth failure.
  lemma FirstEmailBackoff(s: State, jitter: real, deferral: bool, s': State)
    requires Steps(s, FailsSoftly(jitter, deferral), s')
    requires s.flight.Some? && s.flight.value.job.lead in s.leads && s.leads[s.flight.value.job.lead].stepsSent == 0
    ensures s.flight.value.job.lead in s'.leads
    ensures var l := s.flight.value.job.lead;
            var was, row := s.leads[l], s'.leads[l];
            && row.stepsSent == 0 && row.retryCount == was.retryCount + 1
            && (was.retryCount <= 2 ==> row.status == Queued && row.queuedJobId.None? && row.queuedSlotAt.None?)
            && (was.retryCount > 2 ==> row.status == Suppressed && row.nextRetryAt.None?)
            && (was.retryCount == 0 ==>
                  row.nextRetryAt.Some? && 27 * MINUTE_MS <= row.nextRetryAt.value - s.now <= 33 * MINUTE_MS)
            && (was.retryCount == 1 ==>
                  row.nextRetryAt.Some? && 54 * MINUTE_MS <= row.nextRetryAt.value - s.now <= 66 * MINUTE_MS)
            && (was.retryCount == 2 ==>
                  row.nextRetryAt.Some? && 108 * MINUTE_MS <= row.nextRetryAt.value - s.now <= 132 * MINUTE_MS)
  {
    hide WellFormed, RetryDelaySeconds;
    ThreeWaits(jitter);
  }

  // Either way the failure is in the log, as a deferral if it was one, and counts as no send.
  lemma FailureIsLogged(s: State, jitter: real, deferral: bool, s': State, m: MailboxId, since: Time)
    requires Steps(s, FailsSoftly(jitter, deferral), s')
    ensures s.flight.Some? && s.flight.value.job.lead in s.leads
    ensures var job := s.flight.value.job;
            && s'.log == s.log + [LogRow(s.leads[job.lead].campaign, job.lead, job.mailbox, LogFailed, s.now, deferral)]
            && CountSends(s'.log, m, since) == CountSends(s.log, m, since)
            && s'.mailboxes == s.mailboxes
  {
    hide WellFormed, SoftFailed, RetryAt;
    assert s'.log[..|s.log|] == s.log;
  }

  // ----- Replies, opt-outs, lost jobs -----

  // A reply stops a lead that waits on one: REPLIED, nothing due, nothing to try again. Its job, if it
  // has one, is left to find that out.
  lemma ReplyStops(s: State, r: Reply, s': State)
    requires Steps(s, StoresReply(r), s')
    ensures r.lead in s.leads && r.lead in s'.leads && s'.replies == s.replies + [r]
    ensures var was, row := s.leads[r.lead], s'.leads[r.lead];
            && (was.status == Contacted || was.status == Opened || was.status == Queued ==>
                  row == was.(status := Replied, nextStepAt := None, nextRetryAt := None))
            && (was.status != Contacted && was.status != Opened && was.status != Queued ==> row == was)
  {
    hide WellFormed, Known;
  }

  // Labelled an away notice or an auto-reply, with no other reply that stops it, a lead runs again: as
  // OPENED exactly if it was, or if it had been stopped and the log shows that it opened an email.
  lemma RunsAgainAsItWas(s: State, i: nat, tag: Label, s': State)
    requires Steps(s, Labels(i, tag), s') && i < |s.replies|
    requires tag == OutOfOffice || tag == AutoReply
    requires forall k :: 0 <= k < |s.replies| && k != i && s.replies[k].lead == s.replies[i].lead ==>
      s.replies[k].tag == OutOfOffice || s.replies[k].tag == AutoReply
    ensures s.replies[i].lead in s.leads && s.replies[i].lead in s'.leads
    ensures var l := s.replies[i].lead;
            var was := s.leads[l].status;
            was == Replied || was == Contacted || was == Opened ==>
              s'.leads[l].status ==
                if was == Opened || (was == Replied && exists n :: 0 <= n < |s.log| && s.log[n].lead == l
                                                                   && s.log[n].status == LogOpened)
                then Opened else Contacted
  {
    hide WellFormed, HeldUntil, Scheduled;
    var l, after := s.replies[i].lead, Labelled(s.replies, i, tag);
    forall k | 0 <= k < |after| ensures !Ends(after[k], l) {
      assert k != i ==> after[k] == s.replies[k];
    }
  }

  // A bounce report does the same as BOUNCED, takes the lead off the queue, and marks the lead's
  // latest send from that mailbox.
  lemma ReportBounces(s: State, r: Reply, s': State)
    requires Steps(s, StoresBounce(r), s')
    ensures r.lead in s.leads && r.lead in s'.leads && s'.replies == s.replies + [r] && |s'.log| == |s.log|
    ensures var was, row := s.leads[r.lead], s'.leads[r.lead];
            && (was.status == Contacted || was.status == Opened || was.status == Queued ==>
                  row == was.(status := Bounced, nextStepAt := None, nextRetryAt := None,
                              queuedJobId := None, queuedSlotAt := None))
            && (was.status != Contacted && was.status != Opened && was.status != Queued ==>
                  row == was && s'.log == s.log)
  {
    hide WellFormed, Known;
  }

  // A message is new, and stored, unless a reply of the same lead to the same mailbox with the same
  // text already is.
  lemma NewUnlessStored(s: State, r: Reply)
    ensures !Known(s.replies, r) <==>
      forall i :: 0 <= i < |s.replies| && s.replies[i].lead == r.lead && s.replies[i].mailbox == r.mailbox ==>
        s.replies[i].content != r.content
  {
  }

  // An opt-out lists the address, its first entry staying, and stops every lead that carries it; no
  // other lead changes.
  lemma OptOutStops(s: State, email: Email, entry: Entry, s': State, l: LeadId)
    requires Steps(s, Blocks(email, entry), s') && l in s.leads
    ensures email in s'.blocked && s'.blocked[email] == if email in s.blocked then s.blocked[email] else entry
    ensures forall other :: other != email ==> (other in s'.blocked <==> other in s.blocked)
    ensures l in s'.leads
    ensures s.leads[l].email != email || s.leads[l].status == Suppressed ==> s'.leads[l] == s.leads[l]
    ensures s.leads[l].email == email && s.leads[l].status != Suppressed ==>
      s'.leads[l] == s.leads[l].(status := Suppressed, nextRetryAt := None, nextStepAt := None)
  {
    hide WellFormed;
  }

  // Reconcile takes a lead whose slot is more than a quarter of an hour past and whose job the queue
  // does not know, and no other; it gets a job on the same mailbox, half a minute from now.
  lemma RequeuedIff(s: State, l: LeadId)
    requires l in s.leads
    ensures Stuck(s, l) <==>
      var lead := s.leads[l];
      && (lead.status == Queued || lead.status == Contacted || lead.status == Opened)
      && lead.queuedSlotAt.Some? && lead.queuedSlotAt.value + 15 * MINUTE_MS < s.now && lead.queuedJobId.Some?
      && lead.queuedJobId.value !in s.waiting && lead.queuedJobId.value !in s.kept
      && (s.flight.Some? ==> s.flight.value.job != lead.queuedJobId.value)
  {
  }

  lemma RequeueGivesAJob(s: State, l: LeadId, s': State)
    requires Steps(s, Requeues(l), s')
    ensures l in s.leads && s.leads[l].queuedJobId.Some? && l in s'.leads
    ensures var job := JobId(l, s.leads[l].queuedJobId.value.mailbox, s.now + 30 * SECOND_MS);
            && s'.waiting == s.waiting + {job}
            && s'.leads == s.leads[l := s.leads[l].(queuedJobId := Some(job), queuedSlotAt := Some(job.slot))]
            && s'.reservations == s.reservations
  {
    hide WellFormed;
  }
}
