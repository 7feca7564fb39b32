// What the worker and the API keep between them: Postgres rows, Redis reservations, the queue.
module Store {
  import opened Basics
  import opened SendSchedule
  import opened Model
  import opened Protocol

  class Store {
    var now: Time
    var zones: ZoneTable
    var campaigns: map<CampaignId, Campaign>
    var mailboxes: map<MailboxId, Mailbox>
    var leads: map<LeadId, Lead>
    var reservations: map<MailboxId, Reservation>
    var waiting: set<JobId>
    var kept: set<JobId>
    var flight: Option<Flight>
    var log: seq<LogRow>
    var replies: seq<Reply>
    var blocked: map<Email, Entry>
    ghost var hist: History

    // The protocol state these fields hold.
    ghost function View(): State
      reads this
    {
      State(now, zones, campaigns, mailboxes, leads, reservations, waiting, kept, flight, log, replies, blocked, hist)
    }

    constructor (zones: ZoneTable, campaigns: map<CampaignId, Campaign>, mailboxes: map<MailboxId, Mailbox>, now: Time)
      ensures this.zones == zones && this.campaigns == campaigns && this.mailboxes == mailboxes && this.now == now
      ensures leads == map[] && reservations == map[] && waiting == {} && kept == {} && flight == None
      ensures log == [] && replies == [] && blocked == map[] && hist == History(map[], [], {}, {})
    {
      this.zones, this.campaigns, this.mailboxes, this.now := zones, campaigns, mailboxes, now;
      leads, reservations, waiting, kept, flight := map[], map[], {}, {}, None;
      log, replies, blocked := [], [], map[];
      hist := History(map[], [], {}, {});
    }
  }
}

// The worker's job handler (apps/worker/src/processor.ts).
module Processor {
  import opened Basics
  import opened SendSchedule
  import opened CampaignCap
  import opened Model
  import opened Protocol
  import opened Store

  // What the junk test and the pre-send address check come to: nothing against the address, a dead
  // one, or a server that said "not now" while a retry was left.
  datatype Check = Clear | Dead | NotNow(retryAt: Time)

  method FreeBookedSlot(st: Store, m: MailboxId, slotAt: Option<Time>)
    modifies st`reservations
    ensures st.reservations == FreeSlot(old(st.View()), m, slotAt)
  {
    if slotAt.None? {
      return;
    }
    if m in st.reservations && st.now < st.reservations[m].expires && st.reservations[m].slot == slotAt.value {
      st.reservations := st.reservations - {m};
    }
  }

  method AskLeadAgainLater(st: Store, l: LeadId, retryAt: Time)
    requires l in st.leads
    modifies st`leads
    ensures st.leads == old(st.leads)[l := AskedAgainLater(old(st.leads[l]), retryAt)]
  {
    var lead := st.leads[l];
    if lead.status == Queued {
      st.leads := st.leads[l := lead.(queuedJobId := None, queuedSlotAt := None, nextRetryAt := Some(retryAt))];
    }
  }

  method ReleaseLead(st: Store, l: LeadId, followUp: bool)
    requires l in st.leads
    modifies st`leads
    ensures st.leads == old(st.leads)[l := Released(old(st.leads[l]), followUp)]
  {
    var lead := st.leads[l];
    if followUp {
      if lead.queuedJobId.Some? {
        st.leads := st.leads[l := lead.(queuedJobId := None, queuedSlotAt := None)];
      }
      return;
    }
    if lead.status == Queued {
      st.leads := st.leads[l := lead.(status := Untouched, queuedJobId := None, queuedSlotAt := None)];
    }
  }

  method StopDeadAddress(st: Store, l: LeadId, c: CampaignId, m: MailboxId)
    requires l in st.leads
    modifies st`leads, st`log
    ensures st.leads == old(st.leads)[l := StoppedDead(old(st.leads[l]))]
    ensures st.log == old(st.log) + [LogRow(c, l, m, LogFailed, st.now, false)]
  {
    var lead := st.leads[l];
    if lead.status == Queued {
      st.leads := st.leads[l :=
        lead.(status := Failed, queuedJobId := None, queuedSlotAt := None, nextRetryAt := None)];
    }
    st.log := st.log + [LogRow(c, l, m, LogFailed, st.now, false)];
  }

  method RecentSendCount(log: seq<LogRow>, m: MailboxId, since: Time) returns (count: nat)
    ensures count == CountSends(log, m, since)
  {
    count := 0;
    for i := 0 to |log|
      invariant count == CountSends(log[..i], m, since)
    {
      assert log[..i + 1][..i] == log[..i];
      if CountedSend(log[i], m) && log[i].at > since {
        count := count + 1;
      }
    }
    assert log[..|log|] == log;
  }

  // The checks at dispatch time.
  method CheckEligible(st: Store, job: JobId) returns (ok: bool)
    requires WellFormed(st.View()) && job.lead in st.leads
    ensures ok <==> Eligible(st.View(), job)
  {
    var lead := st.leads[job.lead];
    var campaign := st.campaigns[lead.campaign];
    var mailboxCanSend := false;
    if job.mailbox in st.mailboxes && st.mailboxes[job.mailbox].usable {
      var count := RecentSendCount(st.log, job.mailbox, st.now - DAY_MS);
      var mailbox := st.mailboxes[job.mailbox];
      mailboxCanSend := count < CampaignCapToday(mailbox.dailyCap, mailbox.graduatedAt, st.now);
    }
    var window := LeadWindow(st.zones, campaign.schedule, campaign.useLeadZone, lead.zone, st.now);
    var campaignCanSend := campaign.status == Sending && !campaign.pausedForBounceRate && window.open;
    var leadFits :=
      if lead.stepsSent > 0
      then lead.mailbox == Some(job.mailbox) && (lead.status == Contacted || lead.status == Opened) &&
           lead.nextStepAt.Some? && lead.nextStepAt.value <= st.now
      else lead.status == Queued && job.mailbox in campaign.senders;
    ok := mailboxCanSend && campaignCanSend && leadFits;
  }

  // What a due job does to its lead, up to the webhook call: which event of the protocol it is.
  function JobEvent(s: State, job: JobId, check: Check): Event
    requires WellFormed(s)
  {
    if job.lead !in s.leads then FindsNoLead(job)
    else if !Eligible(s, job) then Releases(job)
    else if s.leads[job.lead].stepsSent > 0 then Dispatches(job)
    else match check
      case Dead => StopsDead(job)
      case NotNow(retryAt) => AsksAgain(job, retryAt)
      case Clear => Dispatches(job)
  }

  function AfterJob(s: State, job: JobId, check: Check): State
    requires WellFormed(s)
  {
    match JobEvent(s, job, check)
    case FindsNoLead(_) => FindNoLead(s, job)
    case Releases(_) => Release(s, job)
    case StopsDead(_) => StopDead(s, job)
    case AsksAgain(_, retryAt) => AskAgain(s, job, retryAt)
    case Dispatches(_) => Dispatch(s, job)
  }

  // The address check decides about first emails alone: a dead address is never written to, one whose
  // server said "not now" is asked again, and every other email that may go does.
  lemma ChecksDecide(s: State, job: JobId, check: Check)
    requires WellFormed(s) && job.lead in s.leads && Eligible(s, job)
    ensures JobEvent(s, job, check).Dispatches? <==> s.leads[job.lead].stepsSent > 0 || check.Clear?
    ensures s.leads[job.lead].stepsSent == 0 && check.Dead? ==> JobEvent(s, job, check) == StopsDead(job)
    ensures s.leads[job.lead].stepsSent == 0 && check.NotNow? ==>
      JobEvent(s, job, check) == AsksAgain(job, check.retryAt)
  {
    hide Eligible;
  }

  // A retry is asked for 30 to 60 minutes ahead.
  predicate CheckOk(check: Check, now: Time) {
    check.NotNow? ==>
      now + UNKNOWN_RETRY_MIN_MS <= check.retryAt < now + UNKNOWN_RETRY_MIN_MS + UNKNOWN_RETRY_RANGE_MS
  }

  // Whatever the checks find, a job that fires is exactly one step of the protocol.
  lemma JobIsOneStep(s: State, job: JobId, check: Check)
    requires WellFormed(s) && Due(s, job) && CheckOk(check, s.now)
    ensures Steps(s, JobEvent(s, job, check), AfterJob(s, job, check))
  {
    hide Eligible, Release, StopDead, AskAgain, Dispatch, FindNoLead, WellFormed;
    assert Starts(JobEvent(s, job, check));
  }

  // The queue keeps a finished job's record.
  method Finish(st: Store, job: JobId)
    modifies st`waiting, st`kept
    ensures st.waiting == old(st.waiting) - {job} && st.kept == old(st.kept) + {job}
  {
    st.waiting := st.waiting - {job};
    st.kept := st.kept + {job};
  }

  method ReleaseJob(st: Store, job: JobId)
    requires job.lead in st.leads
    modifies st
    ensures st.View() == Release(old(st.View()), job)
  {
    ReleaseLead(st, job.lead, st.leads[job.lead].stepsSent > 0);
    Finish(st, job);
  }

  method StopJob(st: Store, job: JobId)
    requires job.lead in st.leads
    modifies st
    ensures st.View() == StopDead(old(st.View()), job)
  {
    var lead := st.leads[job.lead];
    StopDeadAddress(st, job.lead, lead.campaign, job.mailbox);
    FreeBookedSlot(st, job.mailbox, lead.queuedSlotAt);
    Finish(st, job);
  }

  method PostponeJob(st: Store, job: JobId, retryAt: Time)
    requires job.lead in st.leads
    modifies st
    ensures st.View() == AskAgain(old(st.View()), job, retryAt)
  {
    var lead := st.leads[job.lead];
    AskLeadAgainLater(st, job.lead, retryAt);
    FreeBookedSlot(st, job.mailbox, lead.queuedSlotAt);
    Finish(st, job);
  }

  // Hands the email to the dispatch workflow.
  method DispatchJob(st: Store, job: JobId)
    requires job.lead in st.leads
    modifies st
    ensures st.View() == Dispatch(old(st.View()), job)
  {
    var lead := st.leads[job.lead];
    st.waiting := st.waiting - {job};
    st.flight := Some(Flight(job, lead.email, lead.stepsSent > 0, st.now, false));
  }

  method ProcessDispatchJob(st: Store, job: JobId, check: Check)
    requires WellFormed(st.View()) && Due(st.View(), job) && CheckOk(check, st.now)
    modifies st
    ensures st.View() == AfterJob(old(st.View()), job, check)
  {
    hide Eligible, Release, StopDead, AskAgain, Dispatch, CheckOk, Due, WellFormed;
    if job.lead !in st.leads {
      Finish(st, job);
      return;
    }
    var lead := st.leads[job.lead];
    var followUp := lead.stepsSent > 0;
    var eligible := CheckEligible(st, job);
    if !eligible {
      ReleaseJob(st, job);
      return;
    }
    if !followUp && check.Dead? {
      StopJob(st, job);
      return;
    }
    if !followUp && check.NotNow? {
      PostponeJob(st, job, check.retryAt);
      return;
    }
    DispatchJob(st, job);
  }

  // A dispatch that answered "failed", when `sendMail` recorded nothing itself.
  method HandleDispatchFailure(st: Store, l: LeadId, followUp: bool)
    requires l in st.leads
    modifies st`leads
    ensures st.leads == old(st.leads)[l := DispatchFailed(old(st.leads[l]), followUp, st.now)]
  {
    var lead := st.leads[l];
    if lead.queuedJobId.Some? && followUp {
      if lead.nextStepAt.Some? {
        st.leads := st.leads[l :=
          lead.(queuedJobId := None, queuedSlotAt := None,
                nextStepAt := Some(st.now + FOLLOW_UP_FAILURE_RETRY_MS))];
      }
    } else if lead.queuedJobId.Some? && lead.status == Queued {
      st.leads := st.leads[l :=
        lead.(queuedJobId := None, queuedSlotAt := None,
              nextRetryAt := Some(st.now + DISPATCH_FAILURE_RETRY_MS))];
    }
  }
}

// The lead and log bookkeeping of `sendMail` (apps/api/src/lib/mailSender.ts).
module MailSender {
  import opened Basics
  import opened Sequence
  import opened Model
  import opened Protocol
  import opened Invariants
  import opened Store
  import Processor

  // ----- Backoff -----

  // Whatever the two jitters, a later retry never waits less than an earlier one.
  lemma BackoffNeverShrinks(n: nat, m: nat, jitterN: real, jitterM: real)
    requires n < m && 0.0 <= jitterN < 1.0 && 0.0 <= jitterM < 1.0
    ensures RetryDelaySeconds(n, jitterN) <= RetryDelaySeconds(m, jitterM)
  {
    DoubledTwice(BASE_RETRY_DELAY_SECONDS, n, m);
    var early, late := Doubled(BASE_RETRY_DELAY_SECONDS, n), Doubled(BASE_RETRY_DELAY_SECONDS, m);
    var x, y := 0.9 + jitterN * 0.2, 0.9 + jitterM * 0.2;
    Apart(early, late, x, y);
    var a, b := early * x, late * y;
    assert RetryDelaySeconds(n, jitterN) == if a < MAX_RETRY_DELAY_SECONDS then a else MAX_RETRY_DELAY_SECONDS;
    assert RetryDelaySeconds(m, jitterM) == if b < MAX_RETRY_DELAY_SECONDS then b else MAX_RETRY_DELAY_SECONDS;
  }

  // Twice the delay stays above, whatever a tenth either way does.
  lemma Apart(early: real, late: real, x: real, y: real)
    requires 0.0 <= early && 2.0 * early <= late && x <= 1.1 && 0.9 <= y
    ensures early * x <= late * y
  {
    MoreTimes(early, x, 1.1);
    MoreTimes(late, 0.9, y);
  }

  lemma MoreTimes(a: real, b: real, c: real)
    requires a >= 0.0 && b <= c
    ensures a * b <= a * c
  {
  }

  lemma {:induction false} DoubledTwice(x: real, n: nat, m: nat)
    requires n < m && x >= 0.0
    ensures 2.0 * Doubled(x, n) <= Doubled(x, m)
    decreases n
  {
    if n > 0 {
      DoubledTwice(2.0 * x, n - 1, m - 1);
    }
  }

  // A lead that is tried again waits half an hour, one, then two, each give or take a tenth, and
  // never the 48 hours of the cap; the fourth failure ends it.
  lemma BackoffScale(lead: Lead, now: Time, jitter: real)
    requires 0.0 <= jitter < 1.0 && lead.stepsSent == 0
    ensures var row := SoftFailed(lead, RetryAt(now, lead.retryCount, jitter));
            && (row.status == Queued <==> lead.retryCount <= 2)
            && (row.status == Suppressed <==> lead.retryCount >= 3)
            && (lead.retryCount == 0 ==> 27 * MINUTE_MS <= row.nextRetryAt.value - now <= 33 * MINUTE_MS)
            && (lead.retryCount == 1 ==> 54 * MINUTE_MS <= row.nextRetryAt.value - now <= 66 * MINUTE_MS)
            && (lead.retryCount == 2 ==> 108 * MINUTE_MS <= row.nextRetryAt.value - now <= 132 * MINUTE_MS)
  {
    ThreeWaits(jitter);
  }

  // ----- The gate -----

  // What the checks come to: `credentials` is whether the mailbox can open a connection at all, and
  // `compliant` whether the footer has its address and link.
  function GateEvent(s: State, credentials: bool, compliant: bool): Event
    requires WellFormed(s) && AtGate(s)
  {
    if !credentials || !SenderAllowed(s, s.flight.value.job) then Refuses
    else if s.flight.value.email in s.blocked then RefusesBlocked
    else if !compliant then Refuses
    else Transports
  }

  function AfterGate(s: State, credentials: bool, compliant: bool): State
    requires WellFormed(s) && AtGate(s)
  {
    match GateEvent(s, credentials, compliant)
    case RefusesBlocked => RefuseBlocked(s)
    case Transports => Transport(s)
    case _ => Refuse(s)
  }

  // The email goes on to the mail server exactly when nothing stands against it: the mailbox can send,
  // the lead may be written to from it, the address is not listed, and the footer is complete.
  lemma GateOpensIff(s: State, credentials: bool, compliant: bool)
    requires WellFormed(s) && AtGate(s)
    ensures var job, lead := s.flight.value.job, s.leads[s.flight.value.job.lead];
            GateEvent(s, credentials, compliant).Transports? <==>
              && credentials && compliant && s.flight.value.email !in s.blocked
              && (if lead.stepsSent > 0 then lead.mailbox.Some? ==> lead.mailbox.value == job.mailbox
                  else job.mailbox in s.campaigns[lead.campaign].senders)
  {
  }

  lemma GateIsOneStep(s: State, credentials: bool, compliant: bool)
    requires WellFormed(s) && AtGate(s)
    ensures Steps(s, GateEvent(s, credentials, compliant), AfterGate(s, credentials, compliant))
  {
    assert Gates(GateEvent(s, credentials, compliant));
  }

  // The send was refused before anything was recorded, and the worker hears "failed".
  method EndRefused(st: Store)
    requires AtGate(st.View())
    modifies st
    ensures st.View() == Refuse(old(st.View()))
  {
    var f := st.flight.value;
    ghost var unmoved := Unmoved(st.View());
    Processor.HandleDispatchFailure(st, f.job.lead, f.followUp);
    st.kept := st.kept + {f.job};
    st.flight := None;
    st.hist := st.hist.(unmoved := unmoved);
  }

  method MarkFlying(st: Store, l: LeadId)
    requires l in st.leads
    modifies st`leads
    ensures st.leads == old(st.leads)[l := SuppressedAtGate(old(st.leads[l]))]
  {
    var lead := st.leads[l];
    if lead.status != Suppressed {
      st.leads := st.leads[l := lead.(status := Suppressed, nextRetryAt := None)];
    }
  }

  method EndBlocked(st: Store)
    requires AtGate(st.View())
    modifies st
    ensures st.View() == RefuseBlocked(old(st.View()))
  {
    hide DispatchFailed, SuppressedAtGate;
    var f := st.flight.value;
    ghost var unmoved := Unmoved(st.View());
    MarkFlying(st, f.job.lead);
    Processor.HandleDispatchFailure(st, f.job.lead, f.followUp);
    st.kept := st.kept + {f.job};
    st.flight := None;
    st.hist := st.hist.(unmoved := unmoved);
  }

  method CheckSender(st: Store, job: JobId) returns (ok: bool)
    requires WellFormed(st.View()) && job.lead in st.leads
    ensures ok <==> SenderAllowed(st.View(), job)
  {
    var lead := st.leads[job.lead];
    if lead.stepsSent > 0 {
      ok := lead.mailbox.None? || lead.mailbox.value == job.mailbox;
    } else {
      ok := job.mailbox in st.campaigns[lead.campaign].senders;
    }
  }

  method Gate(st: Store, credentials: bool, compliant: bool)
    requires WellFormed(st.View()) && AtGate(st.View())
    modifies st
    ensures st.View() == AfterGate(old(st.View()), credentials, compliant)
  {
    var f := st.flight.value;
    if !credentials {
      EndRefused(st);
      return;
    }
    var sender := CheckSender(st, f.job);
    if !sender {
      EndRefused(st);
      return;
    }
    if f.email in st.blocked {
      EndBlocked(st);
      return;
    }
    if !compliant {
      EndRefused(st);
      return;
    }
    st.flight := Some(f.(atTransport := true));
  }

  // ----- The transport's answer -----

  // Writes the lead's row and ends the job.
  method EndFlight(st: Store, row: Lead)
    requires st.flight.Some?
    modifies st`leads, st`kept, st`flight
    ensures st.View() == Land(old(st.View()), row)
  {
    var job := st.flight.value.job;
    st.leads := st.leads[job.lead := row];
    st.kept := st.kept + {job};
    st.flight := None;
  }

  method AppendLog(st: Store, status: LogStatus, deferral: bool)
    requires AtTransport(st.View())
    modifies st`log
    ensures st.log == old(st.log) + [FlightRow(old(st.View()), status, deferral)]
  {
    var job := st.flight.value.job;
    st.log := st.log + [LogRow(st.leads[job.lead].campaign, job.lead, job.mailbox, status, st.now, deferral)];
  }

  method RecordSuccess(st: Store)
    requires WellFormed(st.View()) && AtTransport(st.View())
    modifies st
    ensures st.View() == Deliver(old(st.View()))
  {
    var job, sentAt := st.flight.value.job, st.now;
    ghost var after := Deliver(st.View());
    var current := st.leads[job.lead];
    st.mailboxes := st.mailboxes[job.mailbox := st.mailboxes[job.mailbox].(lastSentAt := Some(sentAt))];
    var stepsSent := current.stepsSent + 1;
    var next := NextStepAtAfter(st.campaigns[current.campaign].steps, stepsSent, sentAt);
    var row := current.(status := if current.status == Opened then Opened else Contacted,
                        retryCount := 0, nextRetryAt := None, queuedJobId := None, queuedSlotAt := None,
                        stepsSent := stepsSent, lastStepAt := Some(sentAt), nextStepAt := next,
                        mailbox := if current.stepsSent > 0 then current.mailbox else Some(job.mailbox));
    AppendLog(st, LogSent, false);
    EndFlight(st, row);
    st.hist := after.hist;
  }

  // How a soft failure leaves the lead.
  method SoftFailure(lead: Lead, now: Time, jitter: real) returns (row: Lead)
    requires 0.0 <= jitter < 1.0
    ensures row == SoftFailed(lead, RetryAt(now, lead.retryCount, jitter))
  {
    var exhausted := lead.retryCount + 1 >= MAX_RETRY_ATTEMPTS;
    var retryAt := now + (RetryDelaySeconds(lead.retryCount, jitter) * 1000.0).Floor;
    if lead.stepsSent > 0 {
      row := lead.(retryCount := if exhausted then 0 else lead.retryCount + 1,
                   nextStepAt := if exhausted then None else Some(retryAt),
                   queuedJobId := None, queuedSlotAt := None);
    } else if exhausted {
      row := lead.(status := Suppressed, retryCount := lead.retryCount + 1, nextRetryAt := None);
    } else {
      row := lead.(status := Queued, retryCount := lead.retryCount + 1, nextRetryAt := Some(retryAt),
                   queuedJobId := None, queuedSlotAt := None);
    }
  }

  method RecordSendFailure(st: Store, hard: bool, jitter: real, deferral: bool)
    requires WellFormed(st.View()) && AtTransport(st.View()) && 0.0 <= jitter < 1.0
    modifies st
    ensures st.View() ==
      if hard then Bounce(old(st.View()))
      else FailSoftly(old(st.View()), RetryAt(st.now, FlyingLead(old(st.View())).retryCount, jitter), deferral)
  {
    var lead := st.leads[st.flight.value.job.lead];
    if hard {
      AppendLog(st, LogBounced, false);
      EndFlight(st, lead.(status := Bounced, nextStepAt := None, queuedJobId := None, queuedSlotAt := None));
    } else {
      var row := SoftFailure(lead, st.now, jitter);
      AppendLog(st, LogFailed, deferral);
      EndFlight(st, row);
    }
  }
}

// Replies and bounce reports as they arrive (apps/api/src/routes/internalReplies.ts), and what their
// label does (apps/api/src/lib/replyOutcome.ts).
module Replies {
  import opened Basics
  import opened Sequence
  import opened Model
  import opened ReplyOutcome
  import opened Protocol
  import opened Store

  // ----- Arrival -----

  method FindKnown(replies: seq<Reply>, r: Reply) returns (known: bool)
    ensures known <==> Known(replies, r)
  {
    for i := 0 to |replies|
      invariant !Known(replies[..i], r)
    {
      if replies[i].lead == r.lead && replies[i].mailbox == r.mailbox && replies[i].content == r.content {
        return true;
      }
    }
    assert replies[..|replies|] == replies;
    return false;
  }

  lemma {:induction false} MarkFromEnd(log: seq<LogRow>, k: nat, c: CampaignId, l: LeadId, m: MailboxId)
    requires 0 < k <= |log|
    ensures var row := log[k - 1];
            MarkBounced(log[..k], c, l, m) + log[k..] ==
              if row.campaign == c && row.lead == l && row.mailbox == m && row.status == LogSent
              then log[k - 1 := row.(status := LogBounced)]
              else MarkBounced(log[..k - 1], c, l, m) + log[k - 1..]
  {
    assert log[..k][..k - 1] == log[..k - 1];
    assert log[k - 1..] == [log[k - 1]] + log[k..];
  }

  predicate SendOf(row: LogRow, c: CampaignId, l: LeadId, m: MailboxId) {
    row.campaign == c && row.lead == l && row.mailbox == m && row.status == LogSent
  }

  // Exactly one row changes, the latest send of that lead from that mailbox; none if there is none.
  lemma {:induction false} OnlyTheLastBounces(log: seq<LogRow>, c: CampaignId, l: LeadId, m: MailboxId, i: nat)
    requires i < |log|
    ensures MarkBounced(log, c, l, m)[i] ==
      if SendOf(log[i], c, l, m) && (forall j :: i < j < |log| ==> !SendOf(log[j], c, l, m))
      then log[i].(status := LogBounced) else log[i]
  {
    var k := |log| - 1;
    if SendOf(log[k], c, l, m) {
      assert MarkBounced(log, c, l, m) == log[k := log[k].(status := LogBounced)];
    } else {
      assert MarkBounced(log, c, l, m) == MarkBounced(log[..k], c, l, m) + [log[k]];
      hide MarkBounced;
      if i < k {
        OnlyTheLastBounces(log[..k], c, l, m, i);
        assert forall j :: i < j < k ==> log[..k][j] == log[j];
      }
    }
  }

  // The latest send of the lead from that mailbox, if there is one.
  method FindLastSend(log: seq<LogRow>, c: CampaignId, l: LeadId, m: MailboxId) returns (marked: seq<LogRow>)
    ensures marked == MarkBounced(log, c, l, m)
  {
    hide MarkBounced;
    var k := |log|;
    assert log[..k] == log && MarkBounced(log, c, l, m) + [] == MarkBounced(log, c, l, m);
    while k > 0
      invariant 0 <= k <= |log|
      invariant MarkBounced(log, c, l, m) == MarkBounced(log[..k], c, l, m) + log[k..]
    {
      var row := log[k - 1];
      MarkFromEnd(log, k, c, l, m);
      if row.campaign == c && row.lead == l && row.mailbox == m && row.status == LogSent {
        return log[k - 1 := row.(status := LogBounced)];
      }
      k := k - 1;
    }
    assert log[..0] == [];
    MarkNothing(c, l, m);
    return log;
  }

  lemma MarkNothing(c: CampaignId, l: LeadId, m: MailboxId)
    ensures MarkBounced([], c, l, m) == []
  {
  }

  // A reply as the poll hands it over: not labelled yet, or labelled a bounce report.
  predicate Incoming(r: Reply) {
    (r.tag == Unclassified && !r.labelled) || (r.tag == BounceReport && r.labelled)
  }

  function Arrival(s: State, r: Reply): State
    requires r.lead in s.leads
  {
    if Known(s.replies, r) then s
    else if r.tag == BounceReport then StoreBounce(s, r)
    else StoreReply(s, r)
  }

  lemma ArrivalIsOneStep(s: State, r: Reply)
    requires WellFormed(s) && r.lead in s.leads && Incoming(r) && !Known(s.replies, r)
    ensures Steps(s, if r.tag == BounceReport then StoresBounce(r) else StoresReply(r), Arrival(s, r))
  {
    assert Answers(if r.tag == BounceReport then StoresBounce(r) else StoresReply(r));
  }

  // The poll finds an answered lead's notice again and again; it is stored once.
  lemma FoundAgain(s: State, r: Reply)
    requires r.lead in s.leads
    ensures r.lead in Arrival(s, r).leads && Arrival(Arrival(s, r), r) == Arrival(s, r)
  {
    var s' := Arrival(s, r);
    if !Known(s.replies, r) {
      assert s'.replies[|s.replies|] == r;
    }
  }

  method CreateReply(st: Store, r: Reply)
    requires r.lead in st.leads && Incoming(r)
    modifies st`replies, st`leads, st`log
    ensures st.View() == Arrival(old(st.View()), r)
  {
    var known := FindKnown(st.replies, r);
    if known {
      return;
    }
    var lead := st.leads[r.lead];
    st.replies := st.replies + [r];
    if r.tag != BounceReport {
      if Waiting(lead.status) {
        st.leads := st.leads[r.lead := lead.(status := Replied, nextStepAt := None, nextRetryAt := None)];
      }
      return;
    }
    if Waiting(lead.status) {
      st.leads := st.leads[r.lead :=
        lead.(status := Bounced, nextStepAt := None, nextRetryAt := None,
              queuedJobId := None, queuedSlotAt := None)];
      var log := FindLastSend(st.log, lead.campaign, r.lead, r.mailbox);
      st.log := log;
    }
  }

  // ----- The label -----

  datatype Outcome = OutcomeStopped | Resumed | Paused | Unchanged

  // One look through a lead's replies: does any end the sequence, and until when do the others hold?
  method ReadReplies(replies: seq<Reply>, l: LeadId, scheduled: Option<Time>) returns (ending: bool, next: Option<Time>)
    ensures ending <==> HasEndingReply(replies, l)
    ensures next == Held(replies, l, scheduled)
  {
    ending, next := false, scheduled;
    for i := 0 to |replies|
      invariant ending <==> HasEndingReply(replies[..i], l)
      invariant next == Held(replies[..i], l, scheduled)
    {
      assert replies[..i + 1][..i] == replies[..i];
      var r := replies[i];
      if r.lead == l {
        if !KeepsSequence(r.tag) {
          assert Ends(replies[..i + 1][i], l);
          ending := true;
        }
        if r.tag == OutOfOffice && next.Some? && AwayUntil(r) > next.value {
          next := Some(AwayUntil(r));
        }
      }
      assert HasEndingReply(replies[..i + 1], l) <==> HasEndingReply(replies[..i], l) || Ends(r, l) by {
        EndingOneMore(replies, i, l);
      }
    }
    assert replies[..|replies|] == replies;
  }

  lemma EndingOneMore(replies: seq<Reply>, i: nat, l: LeadId)
    requires i < |replies|
    ensures HasEndingReply(replies[..i + 1], l) <==> HasEndingReply(replies[..i], l) || Ends(replies[i], l)
  {
    if HasEndingReply(replies[..i], l) {
      var k :| 0 <= k < i && Ends(replies[..i][k], l);
      assert Ends(replies[..i + 1][k], l);
    }
    if Ends(replies[i], l) {
      assert Ends(replies[..i + 1][i], l);
    }
    if HasEndingReply(replies[..i + 1], l) {
      var k :| 0 <= k < i + 1 && Ends(replies[..i + 1][k], l);
      assert k < i ==> Ends(replies[..i][k], l);
    }
  }

  method HasOpened(log: seq<LogRow>, l: LeadId) returns (seen: bool)
    ensures seen <==> exists i :: 0 <= i < |log| && log[i].lead == l && log[i].status == LogOpened
  {
    for i := 0 to |log|
      invariant forall k :: 0 <= k < i ==> !(log[k].lead == l && log[k].status == LogOpened)
    {
      if log[i].lead == l && log[i].status == LogOpened {
        return true;
      }
    }
    return false;
  }

  // Applies reply `i`'s label to its lead.
  method ApplyReplyOutcome(st: Store, i: nat) returns (outcome: Outcome)
    requires WellFormed(st.View()) && CanLabel(st.View(), i)
    modifies st`leads
    ensures var l := st.replies[i].lead;
            st.leads == old(st.leads)[l :=
              ApplyOutcome(l, old(st.leads[l]), st.replies[i].tag, st.replies,
                           CampaignOf(old(st.View()), l).steps, EverOpened(old(st.View()), l))]
    ensures outcome == Unchanged <==>
      var l := st.replies[i].lead;
      var status := old(st.leads[l]).status;
      if KeepsSequence(st.replies[i].tag)
      then (status != Replied && !Running(status)) || HasEndingReply(st.replies, l)
      else !Waiting(status)
    ensures outcome == OutcomeStopped <==>
      !KeepsSequence(st.replies[i].tag) && Waiting(old(st.leads[st.replies[i].lead]).status)
    ensures outcome == Resumed <==>
      var l := st.replies[i].lead;
      && KeepsSequence(st.replies[i].tag) && !HasEndingReply(st.replies, l)
      && (old(st.leads[l]).status == Replied || Running(old(st.leads[l]).status))
      && var own := Scheduled(old(st.leads[l]), CampaignOf(old(st.View()), l).steps);
         own.Some? ==> HeldUntil(st.replies, l, own.value) <= own.value
    ensures outcome == Paused <==>
      var l := st.replies[i].lead;
      && KeepsSequence(st.replies[i].tag) && !HasEndingReply(st.replies, l)
      && (old(st.leads[l]).status == Replied || Running(old(st.leads[l]).status))
      && var own := Scheduled(old(st.leads[l]), CampaignOf(old(st.View()), l).steps);
         own.Some? && HeldUntil(st.replies, l, own.value) > own.value
  {
    hide ValidCampaign, HeldUntil;
    var reply := st.replies[i];
    var l := reply.lead;
    var lead := st.leads[l];
    if !KeepsSequence(reply.tag) {
      if Waiting(lead.status) {
        st.leads := st.leads[l := lead.(status := Replied, nextStepAt := None, nextRetryAt := None)];
        return OutcomeStopped;
      }
      return Unchanged;
    }
    if lead.status != Replied && lead.status != Contacted && lead.status != Opened {
      return Unchanged;
    }
    var scheduled := Scheduled(lead, st.campaigns[lead.campaign].steps);
    var ending, next := ReadReplies(st.replies, l, scheduled);
    if ending {
      return Unchanged;
    }
    var seen := HasOpened(st.log, l);
    var seenOpen := lead.status == Opened || (lead.status == Replied && seen);
    st.leads := st.leads[l :=
      lead.(status := if seenOpen then Opened else Contacted, nextStepAt := next, nextRetryAt := None)];
    return if next.Some? && scheduled.Some? && next.value > scheduled.value then Paused else Resumed;
  }

  // The dashboard or the classifier labels a reply.
  method LabelReply(st: Store, i: nat, tag: Label) returns (outcome: Outcome)
    requires WellFormed(st.View()) && CanLabel(st.View(), i)
    modifies st`replies, st`leads
    ensures st.View() == GiveLabel(old(st.View()), i, tag)
  {
    st.replies := st.replies[i := st.replies[i].(tag := tag, labelled := true)];
    outcome := ApplyReplyOutcome(st, i);
  }

  // ----- Leads an away notice stopped before those stopped stopping them -----

  predicate AutoStopped(s: State, l: LeadId) {
    && l in s.leads && s.leads[l].status == Replied
    && (exists i :: 0 <= i < |s.replies| && s.replies[i].lead == l)
    && !HasEndingReply(s.replies, l)
  }

  lemma AutoStoppedIff(s: State, l: LeadId)
    requires l in s.leads
    ensures AutoStopped(s, l) <==>
      && s.leads[l].status == Replied
      && (exists i :: 0 <= i < |s.replies| && s.replies[i].lead == l)
      && (forall i :: 0 <= i < |s.replies| && s.replies[i].lead == l ==>
            s.replies[i].tag == OutOfOffice || s.replies[i].tag == AutoReply)
  {
    EndingIff(s.replies, l);
  }

  function ResumedLead(s: State, l: LeadId): Lead
    requires WellFormed(s) && l in s.leads
  {
    ApplyOutcome(l, s.leads[l], AutoReply, s.replies, CampaignOf(s, l).steps, EverOpened(s, l))
  }

  // Any label that keeps the sequence does the same.
  lemma KeepingLabelsAgree(s: State, l: LeadId, tag: Label)
    requires WellFormed(s) && l in s.leads && KeepsSequence(tag)
    ensures ApplyOutcome(l, s.leads[l], tag, s.replies, CampaignOf(s, l).steps, EverOpened(s, l)) == ResumedLead(s, l)
  {
  }

  // The lead's latest reply.
  method LatestReply(replies: seq<Reply>, l: LeadId) returns (latest: nat)
    requires exists i :: 0 <= i < |replies| && replies[i].lead == l
    ensures latest < |replies| && replies[latest].lead == l
    ensures forall i :: 0 <= i < |replies| && replies[i].lead == l ==> replies[i].repliedAt <= replies[latest].repliedAt
  {
    var best: Option<nat> := None;
    for i := 0 to |replies|
      invariant best.None? ==> forall k :: 0 <= k < i ==> replies[k].lead != l
      invariant best.Some? ==> best.value < i && replies[best.value].lead == l
      invariant best.Some? ==> forall k :: 0 <= k < i && replies[k].lead == l ==>
        replies[k].repliedAt <= replies[best.value].repliedAt
    {
      if replies[i].lead == l && (best.None? || replies[i].repliedAt > replies[best.value].repliedAt) {
        best := Some(i);
      }
    }
    latest := best.value;
  }

  method CountAutoStopped(st: Store, l: LeadId) returns (stopped: bool)
    requires l in st.leads
    ensures stopped <==> AutoStopped(st.View(), l)
  {
    if st.leads[l].status != Replied {
      return false;
    }
    var any := false;
    for i := 0 to |st.replies|
      invariant any <==> exists k :: 0 <= k < i && st.replies[k].lead == l
    {
      any := any || st.replies[i].lead == l;
    }
    var ending, _ := ReadReplies(st.replies, l, None);
    return any && !ending;
  }

  // The leads as resuming those of `ls` leaves them.
  function ResumedAll(s: State, ls: seq<LeadId>): map<LeadId, Lead>
    requires WellFormed(s)
  {
    map l | l in s.leads :: if l in ls && AutoStopped(s, l) then ResumedLead(s, l) else s.leads[l]
  }

  lemma ResumeOneMore(s: State, ls: seq<LeadId>, i: nat)
    requires WellFormed(s) && i < |ls| && AutoStopped(s, ls[i])
    ensures ResumedAll(s, ls[..i + 1]) == ResumedAll(s, ls[..i])[ls[i] := ResumedLead(s, ls[i])]
  {
    assert ls[..i + 1] == ls[..i] + [ls[i]];
  }

  lemma ResumedKeepsWellFormed(s: State, ls: seq<LeadId>)
    requires WellFormed(s)
    ensures WellFormed(s.(leads := ResumedAll(s, ls)))
  {
  }

  ghost function AutoStoppedAmong(s: State, ls: seq<LeadId>): set<LeadId> {
    set l | l in ls && AutoStopped(s, l)
  }

  lemma EachFoundOnce(s: State, order: seq<LeadId>, found: seq<LeadId>)
    requires forall l :: l in found <==> l in order && AutoStopped(s, l)
    requires forall i, j :: 0 <= i < j < |found| ==> found[i] != found[j]
    ensures |found| == |AutoStoppedAmong(s, order)|
  {
    hide AutoStopped;
    DistinctCount(found);
    assert AutoStoppedAmong(s, order) == set l | l in found;
  }

  lemma {:induction false} DistinctCount(ls: seq<LeadId>)
    requires forall i, j :: 0 <= i < j < |ls| ==> ls[i] != ls[j]
    ensures |set l | l in ls| == |ls|
  {
    if |ls| > 0 {
      var init, last := ls[..|ls| - 1], ls[|ls| - 1];
      DistinctCount(init);
      assert (set l | l in ls) == (set l | l in init) + {last};
    }
  }

  method FindAutoStopped(st: Store, order: seq<LeadId>) returns (found: seq<LeadId>)
    requires forall i :: 0 <= i < |order| ==> order[i] in st.leads
    requires forall i, j :: 0 <= i < j < |order| ==> order[i] != order[j]
    ensures forall l :: l in found <==> l in order && AutoStopped(st.View(), l)
    ensures forall i, j :: 0 <= i < j < |found| ==> found[i] != found[j]
  {
    found := [];
    for n := 0 to |order|
      invariant forall l :: l in found <==> l in order[..n] && AutoStopped(st.View(), l)
      invariant forall i, j :: 0 <= i < j < |found| ==> found[i] != found[j]
    {
      assert order[..n + 1] == order[..n] + [order[n]];
      var stopped := CountAutoStopped(st, order[n]);
      if stopped {
        found := found + [order[n]];
      }
    }
    assert order[..|order|] == order;
  }

  method ResumeLead(st: Store, l: LeadId) returns (outcome: Outcome)
    requires WellFormed(st.View()) && AutoStopped(st.View(), l)
    modifies st`leads
    ensures st.leads == old(st.leads)[l := ResumedLead(old(st.View()), l)]
    ensures outcome == Paused || outcome == Resumed
  {
    var latest := LatestReply(st.replies, l);
    assert !Ends(st.replies[latest], l);
    KeepingLabelsAgree(st.View(), l, st.replies[latest].tag);
    outcome := ApplyReplyOutcome(st, latest);
  }

  // Resumes every lead only auto-replies stopped, each by its latest reply, and no other.
  method ResumeAutoReplied(st: Store, order: seq<LeadId>, dryRun: bool) returns (found: nat, paused: nat, resumed: nat)
    requires WellFormed(st.View())
    requires forall i :: 0 <= i < |order| ==> order[i] in st.leads
    requires forall i, j :: 0 <= i < j < |order| ==> order[i] != order[j]
    modifies st`leads
    ensures st.leads == if dryRun then old(st.leads) else ResumedAll(old(st.View()), order)
    ensures found == |AutoStoppedAmong(old(st.View()), order)|
    ensures if dryRun then paused == resumed == 0 else found == paused + resumed
  {
    hide WellFormed, AutoStopped, ResumedLead, ResumedAll;
    ghost var was := st.View();
    var leads := FindAutoStopped(st, order);
    EachFoundOnce(was, order, leads);
    found, paused, resumed := |leads|, 0, 0;
    if dryRun {
      return;
    }
    ResumedNone(was);
    for i := 0 to |leads|
      invariant st.View() == was.(leads := ResumedAll(was, leads[..i]))
      invariant i == paused + resumed
    {
      NotYetResumed(was, leads, i);
      ResumeOneMore(was, leads, i);
      var outcome := ResumeLead(st, leads[i]);
      if outcome == Paused {
        paused := paused + 1;
      }
      if outcome == Resumed {
        resumed := resumed + 1;
      }
    }
    assert leads[..|leads|] == leads;
    ResumedAlike(was, leads, order);
  }

  lemma ResumedNone(s: State)
    requires WellFormed(s)
    ensures s.(leads := ResumedAll(s, [])) == s
  {
    assert ResumedAll(s, []) == s.leads;
  }

  lemma NotYetResumed(s: State, ls: seq<LeadId>, i: nat)
    requires WellFormed(s) && i < |ls| && AutoStopped(s, ls[i])
    requires forall i, j :: 0 <= i < j < |ls| ==> ls[i] != ls[j]
    ensures var s' := s.(leads := ResumedAll(s, ls[..i]));
            WellFormed(s') && AutoStopped(s', ls[i]) && ResumedLead(s', ls[i]) == ResumedLead(s, ls[i])
  {
    ResumedKeepsWellFormed(s, ls[..i]);
    assert ls[i] !in ls[..i];
  }

  lemma ResumedAlike(s: State, a: seq<LeadId>, b: seq<LeadId>)
    requires WellFormed(s) && forall l :: l in a <==> l in b && AutoStopped(s, l)
    ensures ResumedAll(s, a) == ResumedAll(s, b)
  {
  }
}

// Opt-outs (apps/api/src/lib/suppression.ts).
module Suppression {
  import opened Basics
  import opened Model
  import opened Protocol
  import opened Store

  const BULK_CHUNK := 1000

  // The lead rows that carry one of these addresses, in one update.
  method MarkSuppressed(st: Store, emails: set<Email>)
    modifies st`leads
    ensures st.leads == SuppressWhere(old(st.leads), emails)
  {
    st.leads := map l | l in st.leads ::
      if st.leads[l].email in emails && st.leads[l].status != Suppressed
      then st.leads[l].(status := Suppressed, nextRetryAt := None, nextStepAt := None)
      else st.leads[l];
  }

  method SuppressEmail(st: Store, email: Email, entry: Entry)
    modifies st`blocked, st`leads
    ensures st.View() == Block(old(st.View()), email, entry)
  {
    if email !in st.blocked {
      st.blocked := st.blocked[email := entry];
    }
    MarkSuppressed(st, {email});
  }

  // One address after the other.
  function BlockEach(s: State, emails: seq<Email>, entry: Entry): State {
    if |emails| == 0 then s
    else Block(BlockEach(s, emails[..|emails| - 1], entry), emails[|emails| - 1], entry)
  }

  function Elements(emails: seq<Email>): set<Email> {
    set e | e in emails
  }

  function ListedAll(list: map<Email, Entry>, emails: set<Email>, entry: Entry): map<Email, Entry> {
    map e | e in list.Keys + emails :: if e in list then list[e] else entry
  }

  lemma ListOneMore(list: map<Email, Entry>, emails: set<Email>, more: Email, entry: Entry)
    ensures Listed(ListedAll(list, emails, entry), more, entry) == ListedAll(list, emails + {more}, entry)
  {
  }

  lemma SuppressOneMore(leads: map<LeadId, Lead>, emails: set<Email>, more: Email)
    ensures SuppressWhere(SuppressWhere(leads, emails), {more}) == SuppressWhere(leads, emails + {more})
  {
  }

  lemma ListNone(s: State, entry: Entry)
    ensures ListedAll(s.blocked, {}, entry) == s.blocked
    ensures SuppressWhere(s.leads, {}) == s.leads
  {
  }

  lemma OneMoreElement(emails: seq<Email>, k: nat)
    requires k < |emails|
    ensures Elements(emails[..k + 1]) == Elements(emails[..k]) + {emails[k]}
  {
    assert emails[..k + 1] == emails[..k] + [emails[k]];
  }

  // A whole chunk written at once comes to the same as its addresses one by one.
  lemma {:induction false} ChunkIsOneByOne(s: State, emails: seq<Email>, entry: Entry)
    ensures BlockEach(s, emails, entry) ==
      s.(blocked := ListedAll(s.blocked, Elements(emails), entry),
         leads := SuppressWhere(s.leads, Elements(emails)))
  {
    if |emails| == 0 {
      ListNone(s, entry);
    } else {
      var k := |emails| - 1;
      ChunkIsOneByOne(s, emails[..k], entry);
      OneMoreElement(emails, k);
      assert emails[..k + 1] == emails;
      ListOneMore(s.blocked, Elements(emails[..k]), emails[k], entry);
      SuppressOneMore(s.leads, Elements(emails[..k]), emails[k]);
    }
  }

  lemma {:induction false} EachInTurn(s: State, a: seq<Email>, b: seq<Email>, entry: Entry)
    ensures BlockEach(s, a + b, entry) == BlockEach(BlockEach(s, a, entry), b, entry)
    decreases |b|
  {
    if |b| == 0 {
      assert a + b == a;
    } else {
      assert (a + b)[..|a + b| - 1] == a + b[..|b| - 1];
      EachInTurn(s, a, b[..|b| - 1], entry);
    }
  }

  // `createMany` with duplicates skipped: how many rows it created.
  method ListChunk(st: Store, chunk: seq<Email>, entry: Entry) returns (created: nat)
    modifies st`blocked
    ensures st.blocked == ListedAll(old(st.blocked), Elements(chunk), entry)
    ensures created == |st.blocked.Keys| - |old(st.blocked).Keys|
  {
    created := 0;
    ghost var list := st.blocked;
    assert ListedAll(list, {}, entry) == list;
    for i := 0 to |chunk|
      invariant st.blocked == ListedAll(list, Elements(chunk[..i]), entry)
      invariant created == |st.blocked.Keys| - |list.Keys|
    {
      OneMoreElement(chunk, i);
      ListOneMore(list, Elements(chunk[..i]), chunk[i], entry);
      if chunk[i] !in st.blocked {
        assert st.blocked[chunk[i] := entry].Keys == st.blocked.Keys + {chunk[i]};
        st.blocked := st.blocked[chunk[i] := entry];
        created := created + 1;
      }
    }
    assert chunk[..|chunk|] == chunk;
  }

  // One transaction: the list and the rows.
  method SuppressChunk(st: Store, chunk: seq<Email>, entry: Entry) returns (created: nat)
    modifies st`blocked, st`leads
    ensures st.View() == BlockEach(old(st.View()), chunk, entry)
    ensures created == |st.blocked.Keys| - |old(st.blocked).Keys|
  {
    ghost var before := st.View();
    created := ListChunk(st, chunk, entry);
    MarkSuppressed(st, set e | e in chunk);
    ChunkIsOneByOne(before, chunk, entry);
  }

  lemma BlockNobody(s: State, entry: Entry)
    ensures BlockEach(s, [], entry) == s
  {
  }

  // A do-not-contact list in chunks of a thousand: the same as blocking each address on its own, in
  // order, and the count is of the addresses that were not listed before.
  method SuppressEmails(st: Store, emails: seq<Email>, entry: Entry) returns (added: nat)
    modifies st`blocked, st`leads
    ensures st.View() == BlockEach(old(st.View()), emails, entry)
    ensures added == |Elements(emails) - old(st.blocked).Keys|
  {
    hide BlockEach, Elements;
    added := 0;
    var i := 0;
    ghost var was := st.View();
    BlockNobody(was, entry);
    assert emails[..0] == [];
    while i < |emails|
      invariant 0 <= i <= |emails|
      invariant st.View() == BlockEach(was, emails[..i], entry)
      invariant added == |st.blocked.Keys| - |was.blocked.Keys|
    {
      var next := if i + BULK_CHUNK < |emails| then i + BULK_CHUNK else |emails|;
      var created := SuppressChunk(st, emails[i..next], entry);
      assert emails[..next] == emails[..i] + emails[i..next];
      EachInTurn(was, emails[..i], emails[i..next], entry);
      added := added + created;
      i := next;
    }
    assert emails[..|emails|] == emails;
    CountNew(was, emails, entry);
  }

  lemma CountNew(s: State, emails: seq<Email>, entry: Entry)
    ensures |BlockEach(s, emails, entry).blocked.Keys| ==
      |s.blocked.Keys| + |Elements(emails) - s.blocked.Keys|
  {
    hide BlockEach, Elements, SuppressWhere;
    ChunkIsOneByOne(s, emails, entry);
    assert BlockEach(s, emails, entry).blocked.Keys == s.blocked.Keys + (Elements(emails) - s.blocked.Keys);
  }

  method UnsuppressEmail(st: Store, email: Email) returns (was: bool)
    modifies st`blocked
    ensures was <==> email in old(st.blocked)
    ensures st.View() == old(st.View()).(blocked := old(st.blocked) - {email})
  {
    was := email in st.blocked;
    st.blocked := st.blocked - {email};
  }
}

// The crash-recovery loop (apps/worker/src/reconcile.ts).
module Reconcile {
  import opened Basics
  import opened Model
  import opened JobIds
  import opened Protocol
  import opened Invariants
  import opened Store

  const CANDIDATE_LIMIT := 500

  // What the loop does to one candidate.
  predicate Recoverable(s: State, l: LeadId) {
    Stuck(s, l) && PlainIds(s.leads[l].queuedJobId.value)
  }

  function RequeueEach(s: State, ls: seq<LeadId>): State {
    if |ls| == 0 then s
    else
      var s' := RequeueEach(s, ls[..|ls| - 1]);
      var l := ls[|ls| - 1];
      if Recoverable(s', l) then Requeue(s', l) else s'
  }

  method FindJob(st: Store, job: JobId) returns (found: bool)
    ensures found <==> job in InQueue(st.View())
  {
    found := job in st.waiting || job in st.kept || (st.flight.Some? && st.flight.value.job == job);
  }

  // One candidate: a job with the same mailbox, half a minute from now.
  method RecoverLead(st: Store, l: LeadId) returns (requeued: bool)
    requires l in st.leads && Overdue(st.leads[l], st.now)
    modifies st`leads, st`waiting, st`hist
    ensures requeued <==> Recoverable(old(st.View()), l)
    ensures st.View() == if requeued then Requeue(old(st.View()), l) else old(st.View())
  {
    hide PlainIds, MailboxIn, Text;
    var lead := st.leads[l];
    var found := FindJob(st, lead.queuedJobId.value);
    if found {
      return false;
    }
    ReadsBack(lead.queuedJobId.value);
    var mailbox := MailboxIn(Text(lead.queuedJobId.value));
    if mailbox.None? {
      return false;
    }
    var slot := st.now + RECONCILE_REQUEUE_DELAY_MS;
    var job := JobId(l, mailbox.value, slot);
    st.hist := st.hist.(paces := st.hist.paces[job := Paced(1, st.now)]);
    st.waiting := st.waiting + {job};
    st.leads := st.leads[l := lead.(queuedJobId := Some(job), queuedSlotAt := Some(slot))];
    return true;
  }

  method FindOverdue(st: Store, order: seq<LeadId>) returns (found: seq<LeadId>)
    requires forall i :: 0 <= i < |order| ==> order[i] in st.leads
    requires forall i, j :: 0 <= i < j < |order| ==> order[i] != order[j]
    ensures |found| <= CANDIDATE_LIMIT
    ensures forall l :: l in found ==> l in order && Overdue(st.leads[l], st.now)
    ensures |found| < CANDIDATE_LIMIT ==> forall l :: l in order && Overdue(st.leads[l], st.now) ==> l in found
    ensures forall i, j :: 0 <= i < j < |found| ==> found[i] != found[j]
  {
    found := [];
    for n := 0 to |order|
      invariant |found| <= CANDIDATE_LIMIT
      invariant forall l :: l in found ==> l in order[..n] && Overdue(st.leads[l], st.now)
      invariant |found| < CANDIDATE_LIMIT ==> forall l :: l in order[..n] && Overdue(st.leads[l], st.now) ==> l in found
      invariant forall i, j :: 0 <= i < j < |found| ==> found[i] != found[j]
    {
      assert order[..n + 1] == order[..n] + [order[n]];
      if |found| < CANDIDATE_LIMIT && Overdue(st.leads[order[n]], st.now) {
        found := found + [order[n]];
      }
    }
    assert order[..|order|] == order;
  }

  // Requeueing some leads leaves the others as they were.
  lemma {:induction false} OthersStayStuck(s: State, ls: seq<LeadId>, l: LeadId)
    requires Inv(s) && l in s.leads && l !in ls
    ensures Inv(RequeueEach(s, ls)) && RequeueEach(s, ls).now == s.now
    ensures l in RequeueEach(s, ls).leads && RequeueEach(s, ls).leads[l] == s.leads[l]
    ensures Recoverable(RequeueEach(s, ls), l) <==> Recoverable(s, l)
  {
    if |ls| > 0 {
      var init, last := ls[..|ls| - 1], ls[|ls| - 1];
      OthersStayStuck(s, init, l);
      if Recoverable(RequeueEach(s, init), last) {
        RequeueApart(RequeueEach(s, init), last, l);
      }
    }
  }

  lemma RequeueApart(s: State, k: LeadId, l: LeadId)
    requires Inv(s) && l in s.leads && k != l && Recoverable(s, k)
    ensures Inv(Requeue(s, k)) && l in Requeue(s, k).leads && Requeue(s, k).leads[l] == s.leads[l]
    ensures Recoverable(Requeue(s, k), l) <==> Recoverable(s, l)
  {
    RequeueKeeps(s, k);
    assert LeadOk(l, s.leads[l], s.now);
    assert InQueue(Requeue(s, k)) == InQueue(s) + {RequeueJob(s, k)};
  }

  // Requeued, a lead is not stuck: its new job is in the queue.
  lemma RequeuedOnce(s: State, l: LeadId)
    requires Recoverable(s, l)
    ensures var s' := Requeue(s, l);
            l in s'.leads && !Recoverable(s', l) && s'.leads[l].queuedJobId == Some(RequeueJob(s, l))
  {
  }

  // Every candidate that can be recovered is, and none of them is left stuck.
  lemma {:induction false} NoneLeftStuck(s: State, ls: seq<LeadId>, l: LeadId)
    requires Inv(s) && l in ls && forall k :: k in ls ==> k in s.leads
    requires forall i, j :: 0 <= i < j < |ls| ==> ls[i] != ls[j]
    ensures var s' := RequeueEach(s, ls);
            && l in s'.leads && !Recoverable(s', l)
            && (Recoverable(s, l) ==> s'.leads[l].queuedJobId == Some(RequeueJob(s, l)))
  {
    hide Inv, Requeue;
    var k := |ls| - 1;
    if l == ls[k] {
      OthersStayStuck(s, ls[..k], l);
      if Recoverable(s, l) {
        RequeuedOnce(RequeueEach(s, ls[..k]), l);
      }
    } else {
      NoneLeftStuck(s, ls[..k], l);
      OthersStayStuck(s, ls[..k], ls[k]);
      if Recoverable(RequeueEach(s, ls[..k]), ls[k]) {
        RequeueApart(RequeueEach(s, ls[..k]), ls[k], l);
      }
    }
  }

  lemma RequeueIsOneStep(s: State, l: LeadId)
    requires WellFormed(s) && Stuck(s, l)
    ensures Steps(s, Requeues(l), Requeue(s, l))
  {
    assert OtherStep(s, Requeues(l), Requeue(s, l));
  }

  function RecoverableIn(s: State, ls: seq<LeadId>): set<LeadId> {
    set l | l in ls && Recoverable(s, l)
  }

  lemma {:induction false} NextCandidate(s: State, ls: seq<LeadId>, i: nat)
    requires Inv(s) && i < |ls| && ls[i] in s.leads && Overdue(s.leads[ls[i]], s.now)
    requires forall i, j :: 0 <= i < j < |ls| ==> ls[i] != ls[j]
    ensures var s' := RequeueEach(s, ls[..i]);
            && ls[i] in s'.leads && Overdue(s'.leads[ls[i]], s'.now)
            && RequeueEach(s, ls[..i + 1]) == if Recoverable(s', ls[i]) then Requeue(s', ls[i]) else s'
    ensures |RecoverableIn(s, ls[..i + 1])| ==
      |RecoverableIn(s, ls[..i])| + if Recoverable(RequeueEach(s, ls[..i]), ls[i]) then 1 else 0
  {
    hide Inv;
    assert ls[..i + 1][..i] == ls[..i];
    assert ls[i] !in ls[..i];
    OthersStayStuck(s, ls[..i], ls[i]);
    assert RecoverableIn(s, ls[..i + 1]) ==
      RecoverableIn(s, ls[..i]) + if Recoverable(s, ls[i]) then {ls[i]} else {};
  }

  // The candidates one by one, in the order found.
  method RecoverEach(st: Store, found: seq<LeadId>) returns (requeued: nat)
    requires Inv(st.View())
    requires forall l :: l in found ==> l in st.leads && Overdue(st.leads[l], st.now)
    requires forall i, j :: 0 <= i < j < |found| ==> found[i] != found[j]
    modifies st`leads, st`waiting, st`hist
    ensures st.View() == RequeueEach(old(st.View()), found)
    ensures requeued == |RecoverableIn(old(st.View()), found)|
  {
    ghost var was := st.View();
    requeued := 0;
    for i := 0 to |found|
      invariant st.View() == RequeueEach(was, found[..i])
      invariant requeued == |RecoverableIn(was, found[..i])|
    {
      assert found[i] in found;
      NextCandidate(was, found, i);
      var done := RecoverLead(st, found[i]);
      requeued := if done then requeued + 1 else requeued;
    }
    assert found[..|found|] == found;
  }

  method ReconcileStuckLeads(st: Store, order: seq<LeadId>)
    returns (checked: nat, requeued: nat, ghost candidates: seq<LeadId>)
    requires Inv(st.View())
    requires forall i :: 0 <= i < |order| ==> order[i] in st.leads
    requires forall i, j :: 0 <= i < j < |order| ==> order[i] != order[j]
    modifies st`leads, st`waiting, st`hist
    ensures checked == |candidates| <= CANDIDATE_LIMIT
    ensures forall l :: l in candidates ==> l in order && Overdue(old(st.leads[l]), st.now)
    ensures checked < CANDIDATE_LIMIT ==>
      forall l :: l in order && Overdue(old(st.leads[l]), st.now) ==> l in candidates
    ensures st.View() == RequeueEach(old(st.View()), candidates)
    ensures requeued == |RecoverableIn(old(st.View()), candidates)|
  {
    var found := FindOverdue(st, order);
    requeued := RecoverEach(st, found);
    candidates, checked := found, |found|;
  }
}

// When a campaign is done, and when it is not any more (apps/worker/src/campaignCompletion.ts).
module Completion {
  import opened Basics
  import opened Model
  import opened ReplyOutcome
  import opened Protocol
  import opened Store

  // A lead the campaign still owes an email.
  predicate StillToSend(s: State, l: LeadId) {
    && l in s.leads
    && var lead := s.leads[l];
       || lead.status == Untouched || lead.status == Queued
       || (Running(lead.status) && lead.queuedJobId.Some?)
       || (Running(lead.status) && lead.nextStepAt.Some? && !HasEndingReply(s.replies, l))
  }

  function LeadsOf(s: State, c: CampaignId): set<LeadId> {
    set l | l in s.leads && s.leads[l].campaign == c
  }

  predicate Owes(s: State, c: CampaignId) {
    exists l :: l in LeadsOf(s, c) && StillToSend(s, l)
  }

  // Where a campaign stands by what is left for it to send.
  function StatusNow(s: State, c: CampaignId): CampaignStatus
    requires c in s.campaigns
  {
    match s.campaigns[c].status
    case Sending => if LeadsOf(s, c) != {} && !Owes(s, c) then Completed else Sending
    case Completed => if Owes(s, c) then Sending else Completed
    case Halted => Halted
  }

  function Synced(s: State): State {
    s.(campaigns := map c | c in s.campaigns :: s.campaigns[c].(status := StatusNow(s, c)))
  }

  // Synced once, nothing is left to change.
  lemma SyncedOnce(s: State)
    ensures Synced(Synced(s)) == Synced(s)
  {
    hide LeadsOf, Owes;
    forall c | c in s.campaigns ensures StatusNow(Synced(s), c) == Synced(s).campaigns[c].status {
      SameRowsOweTheSame(s, Synced(s), c);
    }
  }

  // After it, a campaign that was sending or done reads Completed exactly when it owes nobody an
  // email, and was not waiting for its first leads: no lead of it is waiting or queued for a first
  // email, none in its sequence is queued, and none has a next step with no reply but away notices and
  // auto-replies. A halted one stays so.
  lemma SyncedIsRight(s: State, c: CampaignId)
    requires c in s.campaigns
    ensures var was, now := s.campaigns[c].status, Synced(s).campaigns[c].status;
            var owed := exists l ::
              l in s.leads && s.leads[l].campaign == c
              && (|| s.leads[l].status == Untouched || s.leads[l].status == Queued
                  || ((s.leads[l].status == Contacted || s.leads[l].status == Opened)
                      && (|| s.leads[l].queuedJobId.Some?
                          || (s.leads[l].nextStepAt.Some?
                              && forall i :: 0 <= i < |s.replies| && s.replies[i].lead == l ==>
                                   s.replies[i].tag == OutOfOffice || s.replies[i].tag == AutoReply))));
            var waitsForLeads := was == Sending && forall l :: l in s.leads ==> s.leads[l].campaign != c;
            if was == Halted then now == Halted
            else now == if !owed && !waitsForLeads then Completed else Sending
  {
    OwesIff(s, c);
    NoLeadsIff(s, c);
    hide Owes, LeadsOf;
  }

  lemma OwesIff(s: State, c: CampaignId)
    ensures Owes(s, c) <==> exists l ::
      l in s.leads && s.leads[l].campaign == c
      && (|| s.leads[l].status == Untouched || s.leads[l].status == Queued
          || ((s.leads[l].status == Contacted || s.leads[l].status == Opened)
              && (|| s.leads[l].queuedJobId.Some?
                  || (s.leads[l].nextStepAt.Some?
                      && forall i :: 0 <= i < |s.replies| && s.replies[i].lead == l ==>
                           s.replies[i].tag == OutOfOffice || s.replies[i].tag == AutoReply))))
  {
    forall l ensures !HasEndingReply(s.replies, l) <==>
      forall i :: 0 <= i < |s.replies| && s.replies[i].lead == l ==>
        s.replies[i].tag == OutOfOffice || s.replies[i].tag == AutoReply
    {
      EndingIff(s.replies, l);
    }
    hide HasEndingReply;
    assert forall l :: l in LeadsOf(s, c) <==> l in s.leads && s.leads[l].campaign == c;
  }

  lemma NoLeadsIff(s: State, c: CampaignId)
    ensures LeadsOf(s, c) == {} <==> forall l :: l in s.leads ==> s.leads[l].campaign != c
  {
    if l :| l in s.leads && s.leads[l].campaign == c {
      assert l in LeadsOf(s, c);
    }
  }

  // So every lead a tick could pick belongs to a campaign that is sending, or that is halted.
  lemma PickedIsSending(s: State, c: CampaignId, l: LeadId)
    requires c in s.campaigns && l in s.leads && s.leads[l].campaign == c
    requires DueFollowUp(s, l) || FirstEmailDue(s.leads[l], s.now)
    ensures Synced(s).campaigns[c].status == if s.campaigns[c].status == Halted then Halted else Sending
  {
    assert l in LeadsOf(s, c) && StillToSend(s, l);
  }

  method HasOwed(st: Store, c: CampaignId) returns (any: bool, owed: bool)
    ensures any <==> LeadsOf(st.View(), c) != {}
    ensures owed <==> Owes(st.View(), c)
  {
    var leads := set l | l in st.leads && st.leads[l].campaign == c;
    assert leads == LeadsOf(st.View(), c);
    any, owed := leads != {}, false;
    var rest := leads;
    while rest != {}
      invariant rest <= leads
      invariant owed <==> exists l :: l in leads - rest && StillToSend(st.View(), l)
      decreases |rest|
    {
      var l :| l in rest;
      var lead := st.leads[l];
      var still :=
        || lead.status == Untouched || lead.status == Queued
        || (Running(lead.status) && lead.queuedJobId.Some?)
        || (Running(lead.status) && lead.nextStepAt.Some? && !HasEndingReply(st.replies, l));
      assert still <==> StillToSend(st.View(), l);
      owed := owed || still;
      rest := rest - {l};
    }
  }

  // Which campaigns of one status an update would move.
  predicate Moves(s: State, c: CampaignId, from: CampaignStatus) {
    && c in s.campaigns && s.campaigns[c].status == from
    && if from == Sending then LeadsOf(s, c) != {} && !Owes(s, c) else Owes(s, c)
  }

  method FindMoving(st: Store, from: CampaignStatus) returns (ids: set<CampaignId>)
    ensures ids == set c | c in st.campaigns && Moves(st.View(), c, from)
  {
    ids := {};
    ghost var s := st.View();
    var rest := st.campaigns.Keys;
    while rest != {}
      invariant rest <= st.campaigns.Keys
      invariant forall c :: c in ids <==> Moves(s, c, from) && c !in rest
      decreases |rest|
    {
      var c :| c in rest;
      if st.campaigns[c].status == from {
        var any, owed := HasOwed(st, c);
        if if from == Sending then any && !owed else owed {
          ids := ids + {c};
        }
      }
      rest := rest - {c};
    }
  }

  method Move(st: Store, ids: set<CampaignId>, to: CampaignStatus)
    modifies st`campaigns
    ensures st.campaigns == map c | c in old(st.campaigns) ::
      if c in ids then old(st.campaigns)[c].(status := to) else old(st.campaigns)[c]
  {
    st.campaigns := map c | c in st.campaigns ::
      if c in ids then st.campaigns[c].(status := to) else st.campaigns[c];
  }

  // Two updates in turn: the first to Completed, the second back to Sending.
  method SyncCampaignCompletion(st: Store) returns (completed: nat, reopened: nat)
    modifies st`campaigns
    ensures st.View() == Synced(old(st.View()))
    ensures completed == |set c | c in old(st.campaigns) && Moves(old(st.View()), c, Sending)|
    ensures reopened == |set c | c in old(st.campaigns) && Moves(old(st.View()), c, Completed)|
  {
    hide Moves, Synced;
    ghost var was := st.View();
    var done := FindMoving(st, Sending);
    Move(st, done, Completed);
    CompletedOwesNothing(was, st.View());
    var back := FindMoving(st, Completed);
    ghost var between := st.View();
    Move(st, back, Sending);
    BothUpdates(was, between, st.View());
    completed, reopened := |done|, |back|;
  }

  // A campaign just marked Completed is not one the second update reopens.
  lemma CompletedOwesNothing(s: State, s': State)
    requires Moved(s, Sending, Completed, s')
    ensures (set c | c in s'.campaigns && Moves(s', c, Completed)) ==
            (set c | c in s.campaigns && Moves(s, c, Completed))
  {
    hide LeadsOf, Owes;
    forall c | c in s.campaigns ensures Moves(s', c, Completed) <==> Moves(s, c, Completed) {
      SameRowsOweTheSame(s, s', c);
    }
  }

  // The campaigns one update moves, moved.
  ghost predicate Moved(s: State, from: CampaignStatus, to: CampaignStatus, s': State) {
    s' == s.(campaigns := map c | c in s.campaigns ::
               if Moves(s, c, from) then s.campaigns[c].(status := to) else s.campaigns[c])
  }

  lemma BothUpdates(s: State, mid: State, s': State)
    requires Moved(s, Sending, Completed, mid) && Moved(mid, Completed, Sending, s')
    ensures s' == Synced(s)
  {
    hide LeadsOf, Owes;
    forall c | c in s.campaigns ensures s'.campaigns[c] == Synced(s).campaigns[c] {
      SameRowsOweTheSame(s, mid, c);
    }
  }

  lemma SameRowsOweTheSame(s: State, s': State, c: CampaignId)
    requires s'.leads == s.leads && s'.replies == s.replies
    ensures LeadsOf(s', c) == LeadsOf(s, c) && (Owes(s', c) <==> Owes(s, c))
  {
    assert LeadsOf(s', c) == LeadsOf(s, c);
    assert forall l :: StillToSend(s', l) <==> StillToSend(s, l);
  }
}

