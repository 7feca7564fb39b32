// What a labelled reply does to its lead (apps/api/src/lib/replyOutcome.ts).
module ReplyOutcome {
  import opened Basics
  import opened Sequence
  import opened Model

  const AWAY_DEFAULT_DAYS := 7

  predicate KeepsSequence(tag: Label) {
    tag == OutOfOffice || tag == AutoReply
  }

  function AwayUntil(r: Reply): Time {
    if r.returnDate.Some? then r.returnDate.value + DAY_MS else r.repliedAt + AWAY_DEFAULT_DAYS * DAY_MS
  }

  predicate Ends(r: Reply, lead: LeadId) {
    r.lead == lead && !KeepsSequence(r.tag)
  }

  // A stored reply that ends the lead's sequence; one not labelled yet counts.
  predicate HasEndingReply(replies: seq<Reply>, lead: LeadId) {
    exists i :: 0 <= i < |replies| && Ends(replies[i], lead)
  }

  // The latest of `from` and every away hold on the lead.
  function HeldUntil(replies: seq<Reply>, lead: LeadId, from: Time): (t: Time)
    ensures t >= from
    ensures forall i :: 0 <= i < |replies| && replies[i].lead == lead && replies[i].tag == OutOfOffice ==>
      t >= AwayUntil(replies[i])
    ensures t == from || exists i ::
      0 <= i < |replies| && replies[i].lead == lead && replies[i].tag == OutOfOffice && t == AwayUntil(replies[i])
  {
    if |replies| == 0 then from
    else
      var r := replies[|replies| - 1];
      var t := HeldUntil(replies[..|replies| - 1], lead, from);
      if r.lead == lead && r.tag == OutOfOffice then Max(t, AwayUntil(r)) else t
  }

  function Scheduled(lead: Lead, steps: seq<Step>): Option<Time> {
    if lead.status != Replied then lead.nextStepAt
    else if lead.stepsSent > 0 && lead.lastStepAt.Some?
    then NextStepAtAfter(steps, lead.stepsSent, lead.lastStepAt.value)
    else None
  }

  function Stopped(lead: Lead): Lead {
    if Waiting(lead.status) then lead.(status := Replied, nextStepAt := None, nextRetryAt := None) else lead
  }

  // `applyReplyOutcome` for a reply labelled `tag`; `everOpened` is whether the log shows an open.
  function ApplyOutcome(
    id: LeadId, lead: Lead, tag: Label, replies: seq<Reply>, steps: seq<Step>, everOpened: bool): Lead
  {
    if !KeepsSequence(tag) then Stopped(lead)
    else if lead.status != Replied && !Running(lead.status) then lead
    else if HasEndingReply(replies, id) then lead
    else
      var scheduled := Scheduled(lead, steps);
      var nextStepAt := if scheduled.Some? then Some(HeldUntil(replies, id, scheduled.value)) else None;
      var seenOpen := lead.status == Opened || (lead.status == Replied && everOpened);
      lead.(status := if seenOpen then Opened else Contacted, nextStepAt := nextStepAt, nextRetryAt := None)
  }

  // What a label does. Anything but an away notice or an auto-reply stops a lead that waits on an
  // answer. Those two start it again, or let it run on, if no other reply stops it: the next step is
  // the one the sequence had, after the last email sent or as it stood, but never before the day after
  // the return date of an away notice, or a week after one that names none; and as soon as that.
  lemma LabelMeans(
    id: LeadId, lead: Lead, tag: Label, replies: seq<Reply>, steps: seq<Step>, everOpened: bool, own: Option<Time>)
    requires ValidSteps(steps)
    requires own == if lead.status != Replied then lead.nextStepAt
                    else if 1 <= lead.stepsSent <= |steps| && lead.lastStepAt.Some?
                    then Some(lead.lastStepAt.value + steps[lead.stepsSent - 1].waitDays * DAY_MS) else None
    ensures var row := ApplyOutcome(id, lead, tag, replies, steps, everOpened);
            var waits := lead.status == Contacted || lead.status == Opened || lead.status == Queued;
            var follows := lead.status == Contacted || lead.status == Opened || lead.status == Replied;
            var stopped := exists i ::
              0 <= i < |replies| && replies[i].lead == id
              && replies[i].tag != OutOfOffice && replies[i].tag != AutoReply;
            if tag != OutOfOffice && tag != AutoReply
            then row == if waits then lead.(status := Replied, nextStepAt := None, nextRetryAt := None) else lead
            else if !follows || stopped then row == lead
            else
              && row == lead.(status := row.status, nextStepAt := row.nextStepAt, nextRetryAt := None)
              && row.status == (if lead.status == Opened || (lead.status == Replied && everOpened)
                                then Opened else Contacted)
              && (row.nextStepAt.Some? <==> own.Some?)
              && (own.Some? ==> IsHold(replies, id, own.value, row.nextStepAt.value))
  {
    hide HeldUntil;
    EndingIff(replies, id);
    if own.Some? {
      HeldIsHold(replies, id, own.value);
    }
    if 1 <= lead.stepsSent && lead.lastStepAt.Some? {
      FollowUpWaitsADay(steps, lead.stepsSent, lead.lastStepAt.value);
    }
    hide NextStepAtAfter, HasEndingReply, IsHold;
  }

  // `t` is the latest of `own` and every away notice's hold.
  ghost predicate IsHold(replies: seq<Reply>, id: LeadId, own: Time, t: Time) {
    && t >= own
    && (forall i :: 0 <= i < |replies| && replies[i].lead == id && replies[i].tag == OutOfOffice ==>
          t >= if replies[i].returnDate.Some? then replies[i].returnDate.value + DAY_MS
               else replies[i].repliedAt + 7 * DAY_MS)
    && (t == own || exists i ::
          0 <= i < |replies| && replies[i].lead == id && replies[i].tag == OutOfOffice
          && t == if replies[i].returnDate.Some? then replies[i].returnDate.value + DAY_MS
                  else replies[i].repliedAt + 7 * DAY_MS)
  }

  lemma HeldIsHold(replies: seq<Reply>, id: LeadId, own: Time)
    ensures IsHold(replies, id, own, HeldUntil(replies, id, own))
  {
  }

  lemma EndingIff(replies: seq<Reply>, id: LeadId)
    ensures HasEndingReply(replies, id) <==> exists i ::
      0 <= i < |replies| && replies[i].lead == id
      && replies[i].tag != OutOfOffice && replies[i].tag != AutoReply
  {
    if i :| 0 <= i < |replies| && replies[i].lead == id && replies[i].tag != OutOfOffice && replies[i].tag != AutoReply {
      assert Ends(replies[i], id);
    }
  }

  // ----- Running it again -----

  // A hold already taken holds nothing more.
  lemma HoldOnce(replies: seq<Reply>, lead: LeadId, from: Time)
    ensures HeldUntil(replies, lead, HeldUntil(replies, lead, from)) == HeldUntil(replies, lead, from)
  {
    Rehold(replies, replies, lead, from);
  }

  // "Safe to run more than once": the second run changes nothing.
  lemma OutcomeOnce(
    id: LeadId, lead: Lead, tag: Label, replies: seq<Reply>, steps: seq<Step>, opens: bool, opensLater: bool)
    ensures var once := ApplyOutcome(id, lead, tag, replies, steps, opens);
            ApplyOutcome(id, once, tag, replies, steps, opensLater) == once
  {
    var scheduled := Scheduled(lead, steps);
    if scheduled.Some? {
      HoldOnce(replies, id, scheduled.value);
    }
  }

  // ----- In whatever order the replies come -----

  // What can happen to a stopped or running lead between two sends: a reply arrives, not labelled
  // yet, or reply `i` gets a label (its first, or another from the dashboard).
  datatype Act = Arrives(r: Reply) | Gets(i: nat, tag: Label, opens: bool)

  datatype Talk = Talk(lead: Lead, replies: seq<Reply>)

  predicate CanAct(t: Talk, id: LeadId, a: Act) {
    match a
    case Arrives(r) => r.lead == id && r.tag == Unclassified
    case Gets(i, _, _) => i < |t.replies| && t.replies[i].lead == id
  }

  function After(t: Talk, id: LeadId, a: Act, steps: seq<Step>): Talk
    requires CanAct(t, id, a)
  {
    match a
    case Arrives(r) => Talk(Stopped(t.lead), t.replies + [r])
    case Gets(i, tag, opens) =>
      var replies := t.replies[i := t.replies[i].(tag := tag, labelled := true)];
      Talk(ApplyOutcome(id, t.lead, tag, replies, steps, opens), replies)
  }

  // When the next step is due by the sequence alone.
  function OwnTime(lead: Lead, steps: seq<Step>): Option<Time> {
    if lead.stepsSent > 0 && lead.lastStepAt.Some?
    then NextStepAtAfter(steps, lead.stepsSent, lead.lastStepAt.value)
    else None
  }

  function Held(replies: seq<Reply>, id: LeadId, own: Option<Time>): Option<Time> {
    if own.Some? then Some(HeldUntil(replies, id, own.value)) else None
  }

  // The lead stands as its replies say, in whatever order they came: stopped while one of them ends
  // the sequence, else running, with its next step at the latest of its own time and every hold.
  predicate Follows(t: Talk, id: LeadId, steps: seq<Step>) {
    if HasEndingReply(t.replies, id) then t.lead.status == Replied
    else Running(t.lead.status) && t.lead.nextStepAt == Held(t.replies, id, OwnTime(t.lead, steps))
  }

  // A running lead's away notice is relabelled an auto-reply, and its hold was the latest.
  predicate DropsHold(t: Talk, id: LeadId, a: Act, steps: seq<Step>)
    requires CanAct(t, id, a)
  {
    && a.Gets? && a.tag == AutoReply && t.replies[a.i].tag == OutOfOffice
    && !HasEndingReply(t.replies, id)
    && var own := OwnTime(t.lead, steps);
       own.Some? && AwayUntil(t.replies[a.i]) > HeldUntil(After(t, id, a, steps).replies, id, own.value)
  }

  lemma ArrivalFollows(t: Talk, id: LeadId, r: Reply, steps: seq<Step>)
    requires Follows(t, id, steps) && r.lead == id && r.tag == Unclassified
    ensures Follows(After(t, id, Arrives(r), steps), id, steps)
  {
    var replies := t.replies + [r];
    assert Ends(replies[|t.replies|], id);
  }

  // Relabelling changes the hold from `u` to `v`: the lead moves to the later of the two.
  lemma Rehold(before: seq<Reply>, after: seq<Reply>, id: LeadId, own: Time)
    ensures HeldUntil(after, id, HeldUntil(before, id, own)) ==
      Max(HeldUntil(before, id, own), HeldUntil(after, id, own))
  {
    var u, v := HeldUntil(before, id, own), HeldUntil(after, id, own);
    var w := HeldUntil(after, id, u);
    if w != u {
      var i :| 0 <= i < |after| && after[i].lead == id && after[i].tag == OutOfOffice && w == AwayUntil(after[i]);
    }
    if v != own {
      var i :| 0 <= i < |after| && after[i].lead == id && after[i].tag == OutOfOffice && v == AwayUntil(after[i]);
    }
  }

  // The hold only drops when an away notice stops being one, and only to what the others say.
  lemma HoldDrops(before: seq<Reply>, id: LeadId, i: nat, tag: Label, own: Time)
    requires i < |before| && before[i].lead == id
    ensures var after := before[i := before[i].(tag := tag, labelled := true)];
            HeldUntil(before, id, own) > HeldUntil(after, id, own) <==>
              before[i].tag == OutOfOffice && tag != OutOfOffice && AwayUntil(before[i]) > HeldUntil(after, id, own)
  {
    var after := before[i := before[i].(tag := tag, labelled := true)];
    var u, v := HeldUntil(before, id, own), HeldUntil(after, id, own);
    forall k | 0 <= k < |before| && k != i ensures after[k] == before[k] {
    }
    if u > v {
      var k :| 0 <= k < |before| && before[k].lead == id && before[k].tag == OutOfOffice && u == AwayUntil(before[k]);
      assert AwayUntil(after[i]) == AwayUntil(before[i]);
    }
  }

  lemma LabelFollowsIff(t: Talk, id: LeadId, a: Act, steps: seq<Step>)
    requires Follows(t, id, steps) && a.Gets? && CanAct(t, id, a)
    ensures Follows(After(t, id, a, steps), id, steps) <==> !DropsHold(t, id, a, steps)
  {
    var t' := After(t, id, a, steps);
    var own := OwnTime(t.lead, steps);
    if !KeepsSequence(a.tag) {
      assert Ends(t'.replies[a.i], id);
    } else if !HasEndingReply(t.replies, id) {
      forall k | 0 <= k < |t'.replies| ensures !Ends(t'.replies[k], id) {
        assert !Ends(t.replies[k], id);
      }
      if own.Some? {
        Rehold(t.replies, t'.replies, id, own.value);
        HoldDrops(t.replies, id, a.i, a.tag, own.value);
      }
    }
  }

  predicate CanRun(t: Talk, id: LeadId, acts: seq<Act>, steps: seq<Step>)
    decreases |acts|
  {
    |acts| > 0 ==>
      CanAct(t, id, acts[0]) && CanRun(After(t, id, acts[0], steps), id, acts[1..], steps)
  }

  function RunActs(t: Talk, id: LeadId, acts: seq<Act>, steps: seq<Step>): Talk
    requires CanRun(t, id, acts, steps)
    decreases |acts|
  {
    if |acts| == 0 then t else RunActs(After(t, id, acts[0], steps), id, acts[1..], steps)
  }

  predicate NoHoldDropped(t: Talk, id: LeadId, acts: seq<Act>, steps: seq<Step>)
    requires CanRun(t, id, acts, steps)
    decreases |acts|
  {
    |acts| > 0 ==>
      !DropsHold(t, id, acts[0], steps) && NoHoldDropped(After(t, id, acts[0], steps), id, acts[1..], steps)
  }

  // However arrivals and labels are interleaved, a lead ends where its replies put it.
  lemma {:induction false} OrderFree(t: Talk, id: LeadId, acts: seq<Act>, steps: seq<Step>)
    requires Follows(t, id, steps) && CanRun(t, id, acts, steps) && NoHoldDropped(t, id, acts, steps)
    ensures Follows(RunActs(t, id, acts, steps), id, steps)
    decreases |acts|
  {
    if |acts| > 0 {
      if acts[0].Arrives? {
        ArrivalFollows(t, id, acts[0].r, steps);
      } else {
        LabelFollowsIff(t, id, acts[0], steps);
      }
      OrderFree(After(t, id, acts[0], steps), id, acts[1..], steps);
    }
  }

  // Where the replies put a lead depends on which they are, not on their order.
  lemma HoldsAlike(a: seq<Reply>, b: seq<Reply>, id: LeadId, own: Time)
    requires forall r :: r in a <==> r in b
    ensures HeldUntil(a, id, own) == HeldUntil(b, id, own)
    ensures HasEndingReply(a, id) <==> HasEndingReply(b, id)
  {
    HoldsWithin(a, b, id, own);
    HoldsWithin(b, a, id, own);
  }

  lemma HoldsWithin(a: seq<Reply>, b: seq<Reply>, id: LeadId, own: Time)
    requires forall r :: r in a ==> r in b
    ensures HeldUntil(a, id, own) <= HeldUntil(b, id, own)
    ensures HasEndingReply(a, id) ==> HasEndingReply(b, id)
  {
    if HeldUntil(a, id, own) != own {
      var i :| 0 <= i < |a| && a[i].lead == id && a[i].tag == OutOfOffice && HeldUntil(a, id, own) == AwayUntil(a[i]);
      var r := a[i];
      assert r in b;
      var j :| 0 <= j < |b| && b[j] == r;
    }
    if HasEndingReply(a, id) {
      var i :| 0 <= i < |a| && Ends(a[i], id);
      var r := a[i];
      assert r in b;
      var j :| 0 <= j < |b| && b[j] == r;
      assert Ends(b[j], id);
    }
  }

  // Nothing a reply does changes what the lead has been sent.
  lemma {:induction false} ActsKeepSteps(t: Talk, id: LeadId, acts: seq<Act>, steps: seq<Step>)
    requires CanRun(t, id, acts, steps)
    ensures OwnTime(RunActs(t, id, acts, steps).lead, steps) == OwnTime(t.lead, steps)
    decreases |acts|
  {
    if |acts| > 0 {
      ActsKeepSteps(After(t, id, acts[0], steps), id, acts[1..], steps);
    }
  }

  // Two interleavings that leave the same replies, in whatever order, leave the lead the same: both
  // stopped, or both running with the same next step.
  lemma OrderDoesNotMatter(t: Talk, id: LeadId, a: seq<Act>, b: seq<Act>, steps: seq<Step>)
    requires Follows(t, id, steps)
    requires CanRun(t, id, a, steps) && NoHoldDropped(t, id, a, steps)
    requires CanRun(t, id, b, steps) && NoHoldDropped(t, id, b, steps)
    requires forall r :: r in RunActs(t, id, a, steps).replies <==> r in RunActs(t, id, b, steps).replies
    ensures var x, y := RunActs(t, id, a, steps).lead, RunActs(t, id, b, steps).lead;
            && (x.status == Replied <==> y.status == Replied) && (Running(x.status) <==> Running(y.status))
            && (Running(x.status) ==> x.nextStepAt == y.nextStepAt)
  {
    hide RunActs, CanRun, NoHoldDropped, OwnTime;
    OrderFree(t, id, a, steps);
    OrderFree(t, id, b, steps);
    ActsKeepSteps(t, id, a, steps);
    ActsKeepSteps(t, id, b, steps);
    var own := OwnTime(t.lead, steps);
    HoldsAlike(RunActs(t, id, a, steps).replies, RunActs(t, id, b, steps).replies, id, if own.Some? then own.value else 0);
  }

  // Relabelled, an away notice keeps holding: "back on day 20" read as an auto-reply an hour later
  // still leaves the follow-up at day 21, where an auto-reply from the start leaves it at day 3.
  lemma RelabelledHoldStays()
    ensures var lead := Lead("c", "a@b.c", None, Contacted, 0, None, None, None, Some("m"), 1, Some(0), Some(3 * DAY_MS));
            var steps := [Step(1, 3, "", false)];
            var notice := Reply("l", "m", "back on day 20", DAY_MS, Some(20 * DAY_MS), Unclassified, false);
            var stopped := After(Talk(lead, []), "l", Arrives(notice), steps);
            var away := After(stopped, "l", Gets(0, OutOfOffice, false), steps);
            var relabelled := After(away, "l", Gets(0, AutoReply, false), steps);
            var machine := After(stopped, "l", Gets(0, AutoReply, false), steps);
            && relabelled.replies == machine.replies
            && relabelled.lead.nextStepAt == Some(21 * DAY_MS) && machine.lead.nextStepAt == Some(3 * DAY_MS)
  {
    hide HeldUntil, HasEndingReply;
    var lead := Lead("c", "a@b.c", None, Contacted, 0, None, None, None, Some("m"), 1, Some(0), Some(3 * DAY_MS));
    var steps := [Step(1, 3, "", false)];
    var notice := Reply("l", "m", "back on day 20", DAY_MS, Some(20 * DAY_MS), Unclassified, false);
    var dated, machine := notice.(tag := OutOfOffice, labelled := true), notice.(tag := AutoReply, labelled := true);
    assert NextStepAtAfter(steps, 1, 0) == Some(3 * DAY_MS);
    OnlyReply(dated, "l", 3 * DAY_MS);
    OnlyReply(machine, "l", 3 * DAY_MS);
    OnlyReply(machine, "l", 21 * DAY_MS);
    hide NextStepAtAfter;
    var stopped := After(Talk(lead, []), "l", Arrives(notice), steps);
    assert stopped.replies == [notice] && stopped.lead.status == Replied;
    var away := After(stopped, "l", Gets(0, OutOfOffice, false), steps);
    assert [notice][0 := dated] == [dated] && away.replies == [dated];
    assert away.lead.status == Contacted && away.lead.nextStepAt == Some(21 * DAY_MS);
    assert [dated][0 := machine] == [machine] && [notice][0 := machine] == [machine];
  }

  lemma OnlyReply(r: Reply, l: LeadId, own: Time)
    ensures HeldUntil([r], l, own) == if r.lead == l && r.tag == OutOfOffice then Max(own, AwayUntil(r)) else own
    ensures HasEndingReply([r], l) <==> Ends(r, l)
  {
    assert [r][..0] == [];
    assert Ends(r, l) ==> Ends([r][0], l);
  }
}

// The campaign send scheduler as a state machine: what every handler of the worker and the API does
// to the rows, the queue and the reservations they share. One event is one handler run to its end,
// except that a dispatch is split where other handlers can run: the job starts (the worker's
// checks), the gate (the checks of `sendMail`), and the finish (the transport's answer, recorded).
// Where a handler branches, each branch is an event of its own, with the branch's condition as guard.
module Protocol {
  import opened Basics
  import opened SendSchedule
  import opened SlotTiming
  import opened CampaignCap
  import opened Sequence
  import opened Model
  import opened ReplyOutcome

  // ----- State -----

  datatype Reservation = Reservation(slot: Time, expires: Time)

  // The dispatch being carried out. `checkedAt` is when the worker read the mailbox's limit.
  datatype Flight = Flight(job: JobId, email: Email, followUp: bool, checkedAt: Time, atTransport: bool)

  // `bookedAt` is when the send's slot was booked, and `pace` the pace it was booked at.
  datatype SendRecord = SendRecord(
    campaign: CampaignId, lead: LeadId, mailbox: MailboxId, first: bool, pace: nat, bookedAt: Time, at: Time)

  datatype Paced = Paced(pace: nat, at: Time)

  // What happened so far; no handler reads it. `paces` are the jobs booked, `abandoned` are the jobs whose webhook call never
  // answered, `unmoved` the follow-ups refused while their lead had no next step.
  datatype History = History(
    paces: map<JobId, Paced>,
    sends: seq<SendRecord>,
    abandoned: set<JobId>,
    unmoved: set<JobId>)

  datatype State = State(
    now: Time,
    zones: ZoneTable,
    campaigns: map<CampaignId, Campaign>,
    mailboxes: map<MailboxId, Mailbox>,
    leads: map<LeadId, Lead>,
    reservations: map<MailboxId, Reservation>,
    waiting: set<JobId>,
    kept: set<JobId>,
    flight: Option<Flight>,
    log: seq<LogRow>,
    replies: seq<Reply>,
    blocked: map<Email, Entry>,
    hist: History)

  // ----- Reading the state -----

  // The mailbox's booked slot, until its reservation runs out.
  function Pending(s: State, m: MailboxId): Option<Time> {
    if m in s.reservations && s.now < s.reservations[m].expires then Some(s.reservations[m].slot) else None
  }

  // Every lead has its campaign, every schedule a zone the runtime knows, every sequence valid steps.
  predicate WellFormed(s: State) {
    && (forall c :: c in s.campaigns ==> ValidCampaign(s.zones, s.campaigns[c]))
    && (forall l :: l in s.leads ==> s.leads[l].campaign in s.campaigns)
  }

  predicate ValidCampaign(zones: ZoneTable, c: Campaign) {
    (c.schedule.Some? ==> c.schedule.value.timezone in zones) && ValidSteps(c.steps)
  }

  function CampaignOf(s: State, l: LeadId): Campaign
    requires WellFormed(s) && l in s.leads
  {
    s.campaigns[s.leads[l].campaign]
  }

  function WindowOf(s: State, l: LeadId): WindowState
    requires WellFormed(s) && l in s.leads
  {
    var c := CampaignOf(s, l);
    LeadWindow(s.zones, c.schedule, c.useLeadZone, s.leads[l].zone, s.now)
  }

  function FullCap(s: State, m: MailboxId): nat
    requires m in s.mailboxes
  {
    CampaignCapToday(s.mailboxes[m].dailyCap, s.mailboxes[m].graduatedAt, s.now)
  }

  function RecentSends(s: State, m: MailboxId): nat {
    CountSends(s.log, m, s.now - DAY_MS)
  }

  // Its provider deferred a send in the last day.
  predicate Slowed(s: State, m: MailboxId) {
    exists i :: 0 <= i < |s.log| && s.log[i].mailbox == m && s.log[i].status == LogFailed
      && s.log[i].deferral && s.log[i].at > s.now - DAY_MS
  }

  function TickCap(s: State, m: MailboxId): nat
    requires m in s.mailboxes
  {
    if Slowed(s, m) then Max(1, FullCap(s, m) / 2) else FullCap(s, m)
  }

  function Pace(s: State, m: MailboxId): nat {
    if Slowed(s, m) then 2 else 1
  }

  predicate CampaignSends(c: Campaign) {
    c.status == Sending && !c.pausedForBounceRate
  }

  // What counts against a campaign's "max new leads per day".
  predicate CountsAsNew(lead: Lead, c: CampaignId, now: Time) {
    && lead.campaign == c
    && ((lead.stepsSent == 1 && lead.lastStepAt.Some? && lead.lastStepAt.value > now - DAY_MS)
        || (lead.status == Queued && lead.queuedJobId.Some?))
  }

  function NewLeadsUsed(s: State, c: CampaignId): set<LeadId> {
    set l | l in s.leads && CountsAsNew(s.leads[l], c, s.now)
  }

  predicate RoomForNewLead(s: State, c: CampaignId)
    requires c in s.campaigns
  {
    s.campaigns[c].maxNewLeadsPerDay.Some? ==> |NewLeadsUsed(s, c)| < s.campaigns[c].maxNewLeadsPerDay.value
  }

  // Jobs the queue will still run, the running one included.
  function Live(s: State): set<JobId> {
    s.waiting + if s.flight.Some? then {s.flight.value.job} else {}
  }

  // Jobs `queue.getJob` finds.
  function InQueue(s: State): set<JobId> {
    Live(s) + s.kept
  }

  // ----- Booking: one lead of an enqueuer tick (enqueuer.ts) -----

  // Where a crash stops a booking, if it does: after the reservation, or after the row is written.
  datatype Crash = NoCrash | BeforeRow | BeforeAdd

  datatype Booking = Booking(
    lead: LeadId, mailbox: MailboxId, followUp: bool, slot: Time, pace: nat, crash: Crash)

  // A mailbox in the tick's pool: usable, under its limit, no slot still to come.
  predicate InPool(s: State, m: MailboxId) {
    && m in s.mailboxes && s.mailboxes[m].usable
    && RecentSends(s, m) < TickCap(s, m)
    && (Pending(s, m).Some? ==> Pending(s, m).value <= s.now)
  }

  // Pass 1's filter: a follow-up due, not queued, with no reply that ends the sequence.
  predicate DueFollowUp(s: State, l: LeadId) {
    && l in s.leads && Running(s.leads[l].status)
    && s.leads[l].nextStepAt.Some? && s.leads[l].nextStepAt.value <= s.now
    && s.leads[l].queuedJobId.None?
    && !HasEndingReply(s.replies, l)
  }

  // Pass 2's filter: a first email to send, or to try again.
  predicate FirstEmailDue(lead: Lead, now: Time) {
    lead.status == Untouched ||
    (lead.status == Queued && lead.nextRetryAt.Some? && lead.nextRetryAt.value <= now)
  }

  function SpreadFor(s: State, l: LeadId, m: MailboxId): real
    requires WellFormed(s) && l in s.leads && m in s.mailboxes
  {
    var left := WindowOf(s, l).msLeft;
    SpreadGapMs(left, TickCap(s, m),
                if left.Some? then CountSends(s.log, m, s.now + left.value - DAY_MS) else 0)
  }

  // The slot `takeSlot` books for some random draws, inside the lead's window.
  ghost predicate SlotChosen(s: State, b: Booking)
    requires WellFormed(s) && b.lead in s.leads && b.mailbox in s.mailboxes
  {
    && b.pace == Pace(s, b.mailbox)
    && WindowOf(s, b.lead).open
    && (WindowOf(s, b.lead).msLeft.Some? ==> b.slot - s.now < WindowOf(s, b.lead).msLeft.value)
    && exists d :: ValidDraws(d) &&
         b.slot == s.now + NextSlotSeconds(s.mailboxes[b.mailbox].lastSentAt, s.now, Pending(s, b.mailbox),
                                           SpreadFor(s, b.lead, b.mailbox), b.pace, d) * 1000
  }

  ghost predicate BookOk(s: State, b: Booking)
    requires WellFormed(s)
  {
    && b.lead in s.leads && InPool(s, b.mailbox)
    && CampaignSends(CampaignOf(s, b.lead))
    && SlotChosen(s, b)
    && (if b.followUp
        then DueFollowUp(s, b.lead) && s.leads[b.lead].mailbox == Some(b.mailbox)
        else
          && FirstEmailDue(s.leads[b.lead], s.now)
          && b.mailbox in CampaignOf(s, b.lead).senders
          && RoomForNewLead(s, s.leads[b.lead].campaign))
  }

  function JobOf(b: Booking): JobId {
    JobId(b.lead, b.mailbox, b.slot)
  }

  function BookedLead(lead: Lead, job: JobId, followUp: bool): Lead {
    if followUp then lead.(queuedJobId := Some(job), queuedSlotAt := Some(job.slot))
    else lead.(status := Queued, nextRetryAt := None, queuedJobId := Some(job), queuedSlotAt := Some(job.slot))
  }

  function ReservationFor(slot: Time): Reservation {
    Reservation(slot, slot + RESERVATION_TTL_PADDING_SECONDS * SECOND_MS)
  }

  function Book(s: State, b: Booking): State
    requires b.lead in s.leads
  {
    s.(reservations := s.reservations[b.mailbox := ReservationFor(b.slot)],
       leads := if b.crash == BeforeRow then s.leads
                else s.leads[b.lead := BookedLead(s.leads[b.lead], JobOf(b), b.followUp)],
       waiting := if b.crash == NoCrash then s.waiting + {JobOf(b)} else s.waiting,
       hist := s.hist.(paces := s.hist.paces[JobOf(b) := Paced(b.pace, s.now)]))
  }

  // ----- A job starts: processDispatchJob up to the webhook call (processor.ts) -----

  const UNKNOWN_RETRY_MIN_MS := 30 * MINUTE_MS
  const UNKNOWN_RETRY_RANGE_MS := 30 * MINUTE_MS

  predicate Due(s: State, job: JobId) {
    job in s.waiting && job.slot <= s.now && s.flight.None?
  }

  predicate MailboxCanSend(s: State, m: MailboxId) {
    m in s.mailboxes && s.mailboxes[m].usable && RecentSends(s, m) < FullCap(s, m)
  }

  predicate LeadFits(s: State, job: JobId)
    requires WellFormed(s) && job.lead in s.leads
  {
    var lead := s.leads[job.lead];
    if lead.stepsSent > 0
    then lead.mailbox == Some(job.mailbox) && Running(lead.status) &&
         lead.nextStepAt.Some? && lead.nextStepAt.value <= s.now
    else lead.status == Queued && job.mailbox in CampaignOf(s, job.lead).senders
  }

  predicate Eligible(s: State, job: JobId)
    requires WellFormed(s) && job.lead in s.leads
  {
    && MailboxCanSend(s, job.mailbox)
    && CampaignSends(CampaignOf(s, job.lead)) && WindowOf(s, job.lead).open
    && LeadFits(s, job)
  }

  // Takes a lead back off the queue without sending.
  function Released(lead: Lead, followUp: bool): Lead {
    if followUp
    then if lead.queuedJobId.Some? then lead.(queuedJobId := None, queuedSlotAt := None) else lead
    else if lead.status == Queued
    then lead.(status := Untouched, queuedJobId := None, queuedSlotAt := None)
    else lead
  }

  function StoppedDead(lead: Lead): Lead {
    if lead.status == Queued
    then lead.(status := Failed, queuedJobId := None, queuedSlotAt := None, nextRetryAt := None)
    else lead
  }

  function AskedAgainLater(lead: Lead, retryAt: Time): Lead {
    if lead.status == Queued
    then lead.(queuedJobId := None, queuedSlotAt := None, nextRetryAt := Some(retryAt))
    else lead
  }

  // Compare-and-delete: the reservation goes only while it still holds this slot.
  function FreeSlot(s: State, m: MailboxId, slot: Option<Time>): map<MailboxId, Reservation> {
    if slot.Some? && Pending(s, m) == slot then s.reservations - {m} else s.reservations
  }

  function FindNoLead(s: State, job: JobId): State {
    s.(waiting := s.waiting - {job}, kept := s.kept + {job})
  }

  function Release(s: State, job: JobId): State
    requires job.lead in s.leads
  {
    var lead := s.leads[job.lead];
    s.(waiting := s.waiting - {job}, kept := s.kept + {job},
       leads := s.leads[job.lead := Released(lead, lead.stepsSent > 0)])
  }

  function StopDead(s: State, job: JobId): State
    requires job.lead in s.leads
  {
    var lead := s.leads[job.lead];
    s.(waiting := s.waiting - {job}, kept := s.kept + {job},
       leads := s.leads[job.lead := StoppedDead(lead)],
       log := s.log + [LogRow(lead.campaign, job.lead, job.mailbox, LogFailed, s.now, false)],
       reservations := FreeSlot(s, job.mailbox, lead.queuedSlotAt))
  }

  function AskAgain(s: State, job: JobId, retryAt: Time): State
    requires job.lead in s.leads
  {
    var lead := s.leads[job.lead];
    s.(waiting := s.waiting - {job}, kept := s.kept + {job},
       leads := s.leads[job.lead := AskedAgainLater(lead, retryAt)],
       reservations := FreeSlot(s, job.mailbox, lead.queuedSlotAt))
  }

  function Dispatch(s: State, job: JobId): State
    requires job.lead in s.leads
  {
    var lead := s.leads[job.lead];
    s.(waiting := s.waiting - {job},
       flight := Some(Flight(job, lead.email, lead.stepsSent > 0, s.now, false)))
  }

  // ----- The gate: sendMail's checks before the transport (mailSender.ts) -----

  const DISPATCH_FAILURE_RETRY_MS := 30 * MINUTE_MS
  const FOLLOW_UP_FAILURE_RETRY_MS := 60 * MINUTE_MS

  predicate AtGate(s: State) {
    s.flight.Some? && !s.flight.value.atTransport && s.flight.value.job.lead in s.leads
  }

  predicate SenderAllowed(s: State, job: JobId)
    requires WellFormed(s) && job.lead in s.leads
  {
    var lead := s.leads[job.lead];
    if lead.stepsSent > 0 then lead.mailbox.Some? ==> lead.mailbox.value == job.mailbox
    else job.mailbox in CampaignOf(s, job.lead).senders
  }

  // What the worker does with a dispatch that failed before `sendMail` recorded anything.
  function DispatchFailed(lead: Lead, followUp: bool, now: Time): Lead {
    if lead.queuedJobId.None? then lead
    else if followUp then
      if lead.nextStepAt.Some?
      then lead.(queuedJobId := None, queuedSlotAt := None, nextStepAt := Some(now + FOLLOW_UP_FAILURE_RETRY_MS))
      else lead
    else if lead.status == Queued
    then lead.(queuedJobId := None, queuedSlotAt := None, nextRetryAt := Some(now + DISPATCH_FAILURE_RETRY_MS))
    else lead
  }

  function SuppressedAtGate(lead: Lead): Lead {
    if lead.status != Suppressed then lead.(status := Suppressed, nextRetryAt := None) else lead
  }

  // The flight is over and leaves its lead as `lead`.
  function Land(s: State, lead: Lead): State
    requires s.flight.Some?
  {
    var job := s.flight.value.job;
    s.(leads := s.leads[job.lead := lead], kept := s.kept + {job}, flight := None)
  }

  function FlyingLead(s: State): Lead
    requires s.flight.Some? && s.flight.value.job.lead in s.leads
  {
    s.leads[s.flight.value.job.lead]
  }

  // A refused follow-up whose lead has no next step is left as it was.
  function Unmoved(s: State): set<JobId>
    requires AtGate(s)
  {
    s.hist.unmoved + if s.flight.value.followUp && FlyingLead(s).nextStepAt.None? then {s.flight.value.job} else {}
  }

  function Refuse(s: State): State
    requires AtGate(s)
  {
    Land(s, DispatchFailed(FlyingLead(s), s.flight.value.followUp, s.now)).(hist := s.hist.(unmoved := Unmoved(s)))
  }

  function RefuseBlocked(s: State): State
    requires AtGate(s)
  {
    Land(s, DispatchFailed(SuppressedAtGate(FlyingLead(s)), s.flight.value.followUp, s.now)).(
      hist := s.hist.(unmoved := Unmoved(s)))
  }

  function Transport(s: State): State
    requires AtGate(s)
  {
    s.(flight := Some(s.flight.value.(atTransport := true)))
  }

  // Writing the email found no follow-up left to send: the sequence ends there (internalAi.ts).
  function EndSequence(s: State): State
    requires AtGate(s)
  {
    Land(s, FlyingLead(s).(nextStepAt := None, queuedJobId := None, queuedSlotAt := None))
  }

  // ----- The finish: the transport's answer, recorded -----

  const MAX_RETRY_ATTEMPTS := 4
  const BASE_RETRY_DELAY_SECONDS := 1800.0
  const MAX_RETRY_DELAY_SECONDS := 172_800.0

  function Doubled(x: real, times: nat): (r: real)
    requires x >= 0.0
    ensures r >= x
    decreases times
  {
    if times == 0 then x else Doubled(2.0 * x, times - 1)
  }

  function RetryDelaySeconds(priorRetryCount: nat, jitter: real): (r: real)
    requires 0.0 <= jitter < 1.0
    ensures 0.0 <= r <= MAX_RETRY_DELAY_SECONDS
  {
    var exponential := Doubled(BASE_RETRY_DELAY_SECONDS, priorRetryCount);
    var jittered := exponential * (0.9 + jitter * 0.2);
    if jittered < MAX_RETRY_DELAY_SECONDS then jittered else MAX_RETRY_DELAY_SECONDS
  }

  function RetryAt(now: Time, priorRetryCount: nat, jitter: real): Time
    requires 0.0 <= jitter < 1.0
  {
    now + (RetryDelaySeconds(priorRetryCount, jitter) * 1000.0).Floor
  }

  function BouncedAtSend(lead: Lead): Lead {
    lead.(status := Bounced, nextStepAt := None, queuedJobId := None, queuedSlotAt := None)
  }

  function SoftFailed(lead: Lead, retryAt: Time): Lead {
    var exhausted := lead.retryCount + 1 >= MAX_RETRY_ATTEMPTS;
    if lead.stepsSent > 0 then
      if exhausted
      then lead.(retryCount := 0, nextStepAt := None, queuedJobId := None, queuedSlotAt := None)
      else lead.(retryCount := lead.retryCount + 1, nextStepAt := Some(retryAt),
                 queuedJobId := None, queuedSlotAt := None)
    else if exhausted
    then lead.(status := Suppressed, retryCount := lead.retryCount + 1, nextRetryAt := None)
    else lead.(status := Queued, retryCount := lead.retryCount + 1, nextRetryAt := Some(retryAt),
               queuedJobId := None, queuedSlotAt := None)
  }

  function SentLead(lead: Lead, steps: seq<Step>, mailbox: MailboxId, now: Time): Lead {
    lead.(status := if lead.status == Opened then Opened else Contacted,
          retryCount := 0, nextRetryAt := None, queuedJobId := None, queuedSlotAt := None,
          stepsSent := lead.stepsSent + 1, lastStepAt := Some(now),
          nextStepAt := NextStepAtAfter(steps, lead.stepsSent + 1, now),
          mailbox := if lead.stepsSent > 0 then lead.mailbox else Some(mailbox))
  }

  predicate AtTransport(s: State) {
    && s.flight.Some? && s.flight.value.atTransport
    && s.flight.value.job.lead in s.leads && s.flight.value.job.mailbox in s.mailboxes
  }

  function FlightRow(s: State, status: LogStatus, deferral: bool): LogRow
    requires AtTransport(s)
  {
    LogRow(FlyingLead(s).campaign, s.flight.value.job.lead, s.flight.value.job.mailbox, status, s.now, deferral)
  }

  function Bounce(s: State): State
    requires AtTransport(s)
  {
    Land(s, BouncedAtSend(FlyingLead(s))).(log := s.log + [FlightRow(s, LogBounced, false)])
  }

  function FailSoftly(s: State, retryAt: Time, deferral: bool): State
    requires AtTransport(s)
  {
    Land(s, SoftFailed(FlyingLead(s), retryAt)).(log := s.log + [FlightRow(s, LogFailed, deferral)])
  }

  function PaceOf(s: State, job: JobId): nat {
    if job in s.hist.paces then s.hist.paces[job].pace else 1
  }

  function BookedAt(s: State, job: JobId): Time {
    if job in s.hist.paces then s.hist.paces[job].at else s.now
  }

  function Deliver(s: State): State
    requires WellFormed(s) && AtTransport(s)
  {
    var job := s.flight.value.job;
    var lead := FlyingLead(s);
    var sent := SentLead(lead, CampaignOf(s, job.lead).steps, job.mailbox, s.now);
    var record := SendRecord(lead.campaign, job.lead, job.mailbox, lead.stepsSent == 0,
                             PaceOf(s, job), BookedAt(s, job), s.now);
    Land(s, sent).(
      log := s.log + [FlightRow(s, LogSent, false)],
      mailboxes := s.mailboxes[job.mailbox := s.mailboxes[job.mailbox].(lastSentAt := Some(s.now))],
      hist := s.hist.(sends := s.hist.sends + [record]))
  }

  // The webhook call never answered: the job is over and nothing was recorded.
  function Abandon(s: State): State
    requires s.flight.Some?
  {
    var job := s.flight.value.job;
    s.(kept := s.kept + {job}, flight := None, hist := s.hist.(abandoned := s.hist.abandoned + {job}))
  }

  // ----- Replies (internalReplies.ts, replyOutcome.ts) -----

  // The same message found again.
  predicate Known(replies: seq<Reply>, r: Reply) {
    exists i :: 0 <= i < |replies| && replies[i].lead == r.lead
      && replies[i].mailbox == r.mailbox && replies[i].content == r.content
  }

  function BouncedByReport(lead: Lead): Lead {
    if Waiting(lead.status)
    then lead.(status := Bounced, nextStepAt := None, nextRetryAt := None,
               queuedJobId := None, queuedSlotAt := None)
    else lead
  }

  // The lead's latest send from that mailbox is the one that bounced.
  function MarkBounced(log: seq<LogRow>, c: CampaignId, l: LeadId, m: MailboxId): (r: seq<LogRow>)
    ensures |r| == |log|
    ensures forall i :: 0 <= i < |log| ==>
      r[i] == log[i] || (log[i].status == LogSent && r[i] == log[i].(status := LogBounced))
  {
    if |log| == 0 then []
    else
      var k := |log| - 1;
      var row := log[k];
      if row.campaign == c && row.lead == l && row.mailbox == m && row.status == LogSent
      then log[k := row.(status := LogBounced)]
      else MarkBounced(log[..k], c, l, m) + [row]
  }

  function StoreReply(s: State, r: Reply): State
    requires r.lead in s.leads
  {
    s.(replies := s.replies + [r], leads := s.leads[r.lead := Stopped(s.leads[r.lead])])
  }

  function StoreBounce(s: State, r: Reply): State
    requires r.lead in s.leads
  {
    var lead := s.leads[r.lead];
    s.(replies := s.replies + [r],
       leads := s.leads[r.lead := BouncedByReport(lead)],
       log := if Waiting(lead.status) then MarkBounced(s.log, lead.campaign, r.lead, r.mailbox) else s.log)
  }

  predicate EverOpened(s: State, l: LeadId) {
    exists i :: 0 <= i < |s.log| && s.log[i].lead == l && s.log[i].status == LogOpened
  }

  predicate CanLabel(s: State, i: nat) {
    i < |s.replies| && s.replies[i].lead in s.leads
  }

  function Labelled(replies: seq<Reply>, i: nat, tag: Label): seq<Reply>
    requires i < |replies|
  {
    replies[i := replies[i].(tag := tag, labelled := true)]
  }

  // Gives reply `i` a label and lets its lead follow it.
  function GiveLabel(s: State, i: nat, tag: Label): State
    requires WellFormed(s) && CanLabel(s, i)
  {
    var l := s.replies[i].lead;
    var after := Labelled(s.replies, i, tag);
    s.(replies := after,
       leads := s.leads[l :=
         ApplyOutcome(l, s.leads[l], tag, after, CampaignOf(s, l).steps, EverOpened(s, l))])
  }

  // ----- Suppression (suppression.ts) -----

  function SuppressedLead(lead: Lead): Lead {
    if lead.status != Suppressed
    then lead.(status := Suppressed, nextRetryAt := None, nextStepAt := None)
    else lead
  }

  function SuppressWhere(leads: map<LeadId, Lead>, emails: set<Email>): map<LeadId, Lead> {
    map l | l in leads :: if leads[l].email in emails then SuppressedLead(leads[l]) else leads[l]
  }

  // The first entry is the one on record.
  function Listed(list: map<Email, Entry>, email: Email, entry: Entry): map<Email, Entry> {
    if email in list then list else list[email := entry]
  }

  function Block(s: State, email: Email, entry: Entry): State {
    s.(blocked := Listed(s.blocked, email, entry), leads := SuppressWhere(s.leads, {email}))
  }

  // ----- Reconciliation (reconcile.ts) -----

  const RECONCILE_OVERDUE_GRACE_MS := 15 * MINUTE_MS
  const RECONCILE_REQUEUE_DELAY_MS := 30 * SECOND_MS

  // Queued, and overdue by its own slot.
  predicate Overdue(lead: Lead, now: Time) {
    && (lead.status == Queued || Running(lead.status))
    && lead.queuedSlotAt.Some? && lead.queuedSlotAt.value < now - RECONCILE_OVERDUE_GRACE_MS
    && lead.queuedJobId.Some?
  }

  predicate Stuck(s: State, l: LeadId) {
    l in s.leads && Overdue(s.leads[l], s.now) && s.leads[l].queuedJobId.value !in InQueue(s)
  }

  function RequeueJob(s: State, l: LeadId): JobId
    requires Stuck(s, l)
  {
    JobId(l, s.leads[l].queuedJobId.value.mailbox, s.now + RECONCILE_REQUEUE_DELAY_MS)
  }

  function Requeue(s: State, l: LeadId): State
    requires Stuck(s, l)
  {
    var job := RequeueJob(s, l);
    s.(leads := s.leads[l := s.leads[l].(queuedJobId := Some(job), queuedSlotAt := Some(job.slot))],
       waiting := s.waiting + {job},
       hist := s.hist.(paces := s.hist.paces[job := Paced(1, s.now)]))
  }

  // ----- Imports and settings -----

  function NewLead(c: CampaignId, email: Email, zone: Option<string>): Lead {
    Lead(c, email, zone, Untouched, 0, None, None, None, None, 0, None, None)
  }

  // A lead's personal data is erased: an address nobody has, and no more follow-ups.
  function Erase(s: State, l: LeadId, nobody: Email): State
    requires l in s.leads
  {
    s.(leads := s.leads[l := s.leads[l].(email := nobody, zone := None, nextStepAt := None)])
  }

  // A lead not emailed yet is corrected.
  function Edit(s: State, l: LeadId, email: Email, zone: Option<string>): State
    requires l in s.leads
  {
    s.(leads := s.leads[l := s.leads[l].(email := email, zone := zone)])
  }

  function SetCampaign(s: State, c: CampaignId, status: CampaignStatus, paused: bool, senders: set<MailboxId>): State
    requires c in s.campaigns
  {
    s.(campaigns := s.campaigns[c :=
         s.campaigns[c].(status := status, pausedForBounceRate := paused, senders := senders)])
  }

  function SetUsable(s: State, m: MailboxId, usable: bool): State
    requires m in s.mailboxes
  {
    s.(mailboxes := s.mailboxes[m := s.mailboxes[m].(usable := usable)])
  }

  // ----- Events and runs -----

  datatype Event =
    | Pass(to: Time)
    | Books(b: Booking)
    | FindsNoLead(job: JobId)
    | Releases(job: JobId)
    | StopsDead(job: JobId)
    | AsksAgain(job: JobId, retryAt: Time)
    | Dispatches(job: JobId)
    | EndsSequence
    | Refuses
    | RefusesBlocked
    | Transports
    | Bounces
    | FailsSoftly(jitter: real, deferral: bool)
    | Delivers
    | Abandons
    | StoresReply(r: Reply)
    | StoresBounce(r: Reply)
    | Labels(i: nat, tag: Label)
    | Blocks(email: Email, entry: Entry)
    | Unblocks(email: Email)
    | Requeues(l: LeadId)
    | Forgets(job: JobId)   // the queue drops a finished job's record, or loses a waiting job
    | Imports(l: LeadId, c: CampaignId, email: Email, zone: Option<string>)
    | Erases(l: LeadId, nobody: Email)
    | Edits(l: LeadId, email: Email, zone: Option<string>)
    | SetsCampaign(c: CampaignId, status: CampaignStatus, paused: bool, senders: set<MailboxId>)
    | SetsMailbox(m: MailboxId, usable: bool)

  // A job starts; the checks of `sendMail`; the transport's answer; a reply; an opt-out.
  predicate Starts(e: Event) {
    e.FindsNoLead? || e.Releases? || e.StopsDead? || e.AsksAgain? || e.Dispatches?
  }

  predicate Gates(e: Event) {
    e.EndsSequence? || e.Refuses? || e.RefusesBlocked? || e.Transports?
  }

  predicate Lands(e: Event) {
    e.Bounces? || e.FailsSoftly? || e.Delivers? || e.Abandons?
  }

  predicate Answers(e: Event) {
    e.StoresReply? || e.StoresBounce?
  }

  predicate Suppresses(e: Event) {
    e.Blocks? || e.Unblocks?
  }

  ghost predicate StartStep(s: State, e: Event, s': State)
    requires WellFormed(s) && Starts(e)
  {
    match e
    case FindsNoLead(job) => Due(s, job) && job.lead !in s.leads && s' == FindNoLead(s, job)
    case Releases(job) => Due(s, job) && job.lead in s.leads && !Eligible(s, job) && s' == Release(s, job)
    case StopsDead(job) => FirstEmailStarts(s, job) && s' == StopDead(s, job)
    case AsksAgain(job, retryAt) =>
      && FirstEmailStarts(s, job)
      && s.now + UNKNOWN_RETRY_MIN_MS <= retryAt < s.now + UNKNOWN_RETRY_MIN_MS + UNKNOWN_RETRY_RANGE_MS
      && s' == AskAgain(s, job, retryAt)
    case Dispatches(job) => Due(s, job) && job.lead in s.leads && Eligible(s, job) && s' == Dispatch(s, job)
  }

  ghost predicate GateStep(s: State, e: Event, s': State)
    requires WellFormed(s) && Gates(e)
  {
    && AtGate(s)
    && match e
       case EndsSequence => FlyingLead(s).stepsSent > 0 && s' == EndSequence(s)
       case Refuses => s' == Refuse(s)
       case RefusesBlocked =>
         SenderAllowed(s, s.flight.value.job) && s.flight.value.email in s.blocked && s' == RefuseBlocked(s)
       case Transports =>
         SenderAllowed(s, s.flight.value.job) && s.flight.value.email !in s.blocked && s' == Transport(s)
  }

  ghost predicate LandStep(s: State, e: Event, s': State)
    requires WellFormed(s) && Lands(e)
  {
    match e
    case Bounces => AtTransport(s) && s' == Bounce(s)
    case FailsSoftly(jitter, deferral) =>
      && AtTransport(s) && 0.0 <= jitter < 1.0
      && s' == FailSoftly(s, RetryAt(s.now, FlyingLead(s).retryCount, jitter), deferral)
    case Delivers => AtTransport(s) && s' == Deliver(s)
    case Abandons => s.flight.Some? && s' == Abandon(s)
  }

  ghost predicate AnswerStep(s: State, e: Event, s': State)
    requires Answers(e)
  {
    && e.r.lead in s.leads && !Known(s.replies, e.r)
    && if e.StoresReply? then e.r.tag == Unclassified && !e.r.labelled && s' == StoreReply(s, e.r)
       else e.r.tag == BounceReport && e.r.labelled && s' == StoreBounce(s, e.r)
  }

  ghost predicate SuppressStep(s: State, e: Event, s': State)
    requires Suppresses(e)
  {
    match e
    case Blocks(email, entry) => s' == Block(s, email, entry)
    case Unblocks(email) => s' == s.(blocked := s.blocked - {email})
  }

  ghost predicate OtherStep(s: State, e: Event, s': State)
    requires WellFormed(s)
  {
    match e
    case Pass(to) => s.now <= to && s' == s.(now := to)
    case Books(b) => BookOk(s, b) && s' == Book(s, b)
    case Requeues(l) => Stuck(s, l) && s' == Requeue(s, l)
    case Forgets(job) => s' == s.(waiting := s.waiting - {job}, kept := s.kept - {job})
    case Imports(l, c, email, zone) =>
      l !in s.leads && c in s.campaigns && s' == s.(leads := s.leads[l := NewLead(c, email, zone)])
    case Erases(l, nobody) => l in s.leads && s' == Erase(s, l, nobody)
    case Edits(l, email, zone) => l in s.leads && s.leads[l].status == Untouched && s' == Edit(s, l, email, zone)
    case SetsCampaign(c, status, paused, senders) =>
      c in s.campaigns && s' == SetCampaign(s, c, status, paused, senders)
    case SetsMailbox(m, usable) => m in s.mailboxes && s' == SetUsable(s, m, usable)
    case _ => false
  }

  // One handler runs: its guard holds, and its effect is the next state.
  ghost predicate Steps(s: State, e: Event, s': State) {
    && WellFormed(s)
    && if Starts(e) then StartStep(s, e, s')
       else if Gates(e) then GateStep(s, e, s')
       else if Lands(e) then LandStep(s, e, s')
       else if Answers(e) then AnswerStep(s, e, s')
       else if e.Labels? then CanLabel(s, e.i) && s' == GiveLabel(s, e.i, e.tag)
       else if Suppresses(e) then SuppressStep(s, e, s')
       else OtherStep(s, e, s')
  }

  ghost predicate FirstEmailStarts(s: State, job: JobId)
    requires WellFormed(s)
  {
    Due(s, job) && job.lead in s.leads && Eligible(s, job) && s.leads[job.lead].stepsSent == 0
  }

  // A fresh install: campaigns and mailboxes, and nothing sent, queued or received.
  ghost predicate Fresh(s: State) {
    && WellFormed(s)
    && s.leads == map[] && s.reservations == map[] && s.waiting == {} && s.kept == {}
    && s.flight.None? && s.log == [] && s.replies == []
    && s.hist == History(map[], [], {}, {})
    && forall m :: m in s.mailboxes ==> s.mailboxes[m].lastSentAt.None?
  }

  // A run from a fresh install: the states passed through, one event between each two.
  ghost predicate IsRun(ss: seq<State>, es: seq<Event>) {
    && |ss| == |es| + 1
    && Fresh(ss[0])
    && forall i :: 0 <= i < |es| ==> StepAt(ss, es, i)
  }

  ghost predicate StepAt(ss: seq<State>, es: seq<Event>, i: nat)
    requires |ss| == |es| + 1 && i < |es|
  {
    Steps(ss[i], es[i], ss[i + 1])
  }
}

// What every handler keeps, whatever the others do in between.
module Invariants {
  import opened Basics
  import opened SlotTiming
  import opened Sequence
  import opened Model
  import opened ReplyOutcome
  import opened Protocol

  // Longest wait a QUEUED lead is ever given before it is due again: the third try of a first email,
  // two hours and a tenth more, 2 h 12 min.
  const LONGEST_RETRY_MS := 132 * MINUTE_MS

  // A row's own consistency. A QUEUED lead has sent nothing and has either a retry time and no job,
  // or a job and no retry time; a job always has its slot; a follow-up is due a day or more after
  // the email before it.
  ghost predicate LeadOk(id: LeadId, lead: Lead, now: Time) {
    && (lead.queuedJobId.Some? <==> lead.queuedSlotAt.Some?)
    && (lead.queuedJobId.Some? ==>
          lead.queuedJobId.value.lead == id && lead.queuedSlotAt == Some(lead.queuedJobId.value.slot))
    && (lead.status == Untouched || lead.status == Queued ==> lead.stepsSent == 0)
    && (lead.status == Untouched ==> lead.queuedJobId.None?)
    && (lead.status == Queued ==> (lead.nextRetryAt.Some? <==> lead.queuedJobId.None?))
    && (lead.status == Queued && lead.nextRetryAt.Some? ==> lead.nextRetryAt.value <= now + LONGEST_RETRY_MS)
    && (lead.stepsSent > 0 ==> lead.lastStepAt.Some? && lead.lastStepAt.value <= now)
    && (lead.nextStepAt.Some? ==>
          lead.stepsSent > 0 && lead.lastStepAt.value + DAY_MS <= lead.nextStepAt.value)
  }

  // With an ending reply stored, a lead that looks running is not queued.
  ghost predicate AnswerOk(id: LeadId, lead: Lead, replies: seq<Reply>) {
    HasEndingReply(replies, id) && Running(lead.status) ==> lead.queuedJobId.None?
  }

  // The row a live job belongs to: it names the job, or a bounce report or opt-out took the name off.
  predicate PointsAt(lead: Lead, job: JobId) {
    lead.queuedJobId == Some(job) ||
    (lead.queuedJobId.None? && (lead.status == Bounced || lead.status == Suppressed))
  }

  ghost predicate JobsOk(s: State) {
    && (forall j :: j in Live(s) ==> j.lead in s.leads && PointsAt(s.leads[j.lead], j))
    && (forall j, k :: j in Live(s) && k in Live(s) && j.lead == k.lead ==> j == k)
  }

  ghost predicate FlightOk(s: State) {
    s.flight.Some? ==>
      var f := s.flight.value;
      && f.job !in s.waiting && f.job.lead in s.leads && f.job.slot <= s.now && f.checkedAt <= s.now
      && (f.followUp <==> s.leads[f.job.lead].stepsSent > 0)
      && (f.followUp ==>
            s.leads[f.job.lead].lastStepAt.Some? && s.leads[f.job.lead].lastStepAt.value + DAY_MS <= s.now)
  }

  ghost predicate RowsOk(s: State) {
    forall l :: l in s.leads ==> LeadOk(l, s.leads[l], s.now) && AnswerOk(l, s.leads[l], s.replies)
  }

  ghost predicate Inv(s: State) {
    WellFormed(s) && RowsOk(s) && JobsOk(s) && FlightOk(s)
  }

  // ----- One row changes -----

  // What a handler that rewrites one lead's row and runs or ends its jobs has to show.
  ghost predicate RowChange(s: State, s': State, l: LeadId, row: Lead) {
    && l in s.leads && s'.leads == s.leads[l := row]
    && s'.now == s.now && s'.zones == s.zones && s'.campaigns == s.campaigns && s'.replies == s.replies
    && row.campaign == s.leads[l].campaign
  }

  lemma RowChangeKeeps(s: State, s': State, l: LeadId, row: Lead)
    requires Inv(s) && RowChange(s, s', l, row)
    requires LeadOk(l, row, s.now) && AnswerOk(l, row, s.replies)
    requires forall j :: j in Live(s') && j.lead != l ==> j in Live(s)
    requires forall j :: j in Live(s') && j.lead == l ==> PointsAt(row, j)
    requires forall j, k :: j in Live(s') && k in Live(s') && j.lead == k.lead == l ==> j == k
    requires FlightOk(s')
    ensures Inv(s')
  {
  }

  // A live job's row: nothing else is live for that lead.
  lemma LiveJobRow(s: State, job: JobId)
    requires Inv(s) && job in Live(s)
    ensures job.lead in s.leads && PointsAt(s.leads[job.lead], job)
    ensures forall j :: j in Live(s) && j.lead == job.lead ==> j == job
  {
  }

  // No live job for a lead the enqueuer may pick, or whose named job is gone.
  lemma NoLiveJob(s: State, l: LeadId)
    requires Inv(s) && l in s.leads
    requires s.leads[l].queuedJobId.Some? ==> s.leads[l].queuedJobId.value !in Live(s)
    requires s.leads[l].queuedJobId.None? ==> s.leads[l].status != Bounced && s.leads[l].status != Suppressed
    ensures forall j :: j in Live(s) ==> j.lead != l
  {
  }

  // ----- Rows -----

  lemma BookedRow(id: LeadId, lead: Lead, job: JobId, followUp: bool, now: Time)
    requires LeadOk(id, lead, now) && job.lead == id
    requires if followUp then Running(lead.status) else FirstEmailDue(lead, now)
    ensures LeadOk(id, BookedLead(lead, job, followUp), now)
  {
  }

  lemma UnqueuedRows(id: LeadId, lead: Lead, retryAt: Time, now: Time)
    requires LeadOk(id, lead, now) && now <= retryAt <= now + LONGEST_RETRY_MS
    ensures LeadOk(id, Released(lead, lead.stepsSent > 0), now)
    ensures LeadOk(id, StoppedDead(lead), now)
    ensures LeadOk(id, AskedAgainLater(lead, retryAt), now)
    ensures LeadOk(id, BouncedAtSend(lead), now)
    ensures LeadOk(id, BouncedByReport(lead), now)
    ensures LeadOk(id, SuppressedLead(lead), now)
    ensures LeadOk(id, SuppressedAtGate(lead), now)
    ensures LeadOk(id, Stopped(lead), now)
  {
  }

  // A flight that ends in failure: a follow-up's row was due, so a day had passed.
  lemma FailedRows(id: LeadId, lead: Lead, followUp: bool, retryAt: Time, now: Time)
    requires LeadOk(id, lead, now) && (followUp <==> lead.stepsSent > 0)
    requires followUp ==> lead.lastStepAt.Some? && lead.lastStepAt.value + DAY_MS <= now
    requires now <= retryAt && (lead.retryCount + 1 < MAX_RETRY_ATTEMPTS ==> retryAt <= now + LONGEST_RETRY_MS)
    ensures LeadOk(id, DispatchFailed(lead, followUp, now), now)
    ensures LeadOk(id, SoftFailed(lead, retryAt), now)
  {
  }

  lemma SentRow(id: LeadId, lead: Lead, steps: seq<Step>, m: MailboxId, now: Time)
    requires LeadOk(id, lead, now) && ValidSteps(steps)
    ensures LeadOk(id, SentLead(lead, steps, m, now), now)
  {
    FollowUpWaitsADay(steps, lead.stepsSent + 1, now);
  }

  lemma LabelledRow(id: LeadId, lead: Lead, tag: Label, replies: seq<Reply>, steps: seq<Step>, opens: bool, now: Time)
    requires LeadOk(id, lead, now) && ValidSteps(steps)
    ensures LeadOk(id, ApplyOutcome(id, lead, tag, replies, steps, opens), now)
  {
    if lead.stepsSent > 0 {
      FollowUpWaitsADay(steps, lead.stepsSent, lead.lastStepAt.value);
    }
  }

  // 48 hours bound every wait; the waits of a lead that is tried again, with two tries behind it at
  // most, stay under 2 h 12 min.
  lemma RetryIsBounded(now: Time, retries: nat, jitter: real)
    requires 0.0 <= jitter < 1.0
    ensures now <= RetryAt(now, retries, jitter) <= now + 2 * DAY_MS
    ensures retries + 1 < MAX_RETRY_ATTEMPTS ==> RetryAt(now, retries, jitter) <= now + LONGEST_RETRY_MS
  {
    if retries + 1 < MAX_RETRY_ATTEMPTS {
      ThreeWaits(jitter);
    }
  }

  lemma ThreeWaits(jitter: real)
    requires 0.0 <= jitter < 1.0
    ensures 1620.0 <= RetryDelaySeconds(0, jitter) < 1980.0
    ensures 3240.0 <= RetryDelaySeconds(1, jitter) < 3960.0
    ensures 6480.0 <= RetryDelaySeconds(2, jitter) < 7920.0
  {
    assert Doubled(BASE_RETRY_DELAY_SECONDS, 0) == 1800.0;
    assert Doubled(BASE_RETRY_DELAY_SECONDS, 1) == Doubled(3600.0, 0) == 3600.0;
    assert Doubled(BASE_RETRY_DELAY_SECONDS, 2) == Doubled(3600.0, 1) == Doubled(7200.0, 0) == 7200.0;
  }

  // ----- Events -----

  lemma FreshOk(s: State)
    requires Fresh(s)
    ensures Inv(s)
  {
  }

  lemma PassKeeps(s: State, to: Time)
    requires Inv(s) && s.now <= to
    ensures Inv(s.(now := to))
  {
  }

  lemma BookKeeps(s: State, b: Booking)
    requires Inv(s) && b.lead in s.leads
    requires if b.followUp then DueFollowUp(s, b.lead) else FirstEmailDue(s.leads[b.lead], s.now)
    ensures Inv(Book(s, b))
  {
    var lead, s' := s.leads[b.lead], Book(s, b);
    if b.crash != BeforeRow {
      var row := BookedLead(lead, JobOf(b), b.followUp);
      BookedRow(b.lead, lead, JobOf(b), b.followUp, s.now);
      NoLiveJob(s, b.lead);
      RowChangeKeeps(s, s', b.lead, row);
    }
  }

  // A waiting job that ends before it dispatches.
  lemma UndispatchedKeeps(s: State, s': State, job: JobId, row: Lead)
    requires Inv(s) && Due(s, job) && RowChange(s, s', job.lead, row)
    requires LeadOk(job.lead, row, s.now) && AnswerOk(job.lead, row, s.replies)
    requires s'.waiting == s.waiting - {job} && s'.flight.None?
    ensures Inv(s')
  {
    LiveJobRow(s, job);
    RowChangeKeeps(s, s', job.lead, row);
  }

  lemma ReleaseKeeps(s: State, job: JobId)
    requires Inv(s) && Due(s, job)
    ensures job.lead in s.leads
    ensures Inv(Release(s, job)) && Inv(StopDead(s, job))
  {
    hide LeadOk, AnswerOk, FlightOk;
    LiveJobRow(s, job);
    var lead := s.leads[job.lead];
    UnqueuedRows(job.lead, lead, s.now, s.now);
    UndispatchedKeeps(s, Release(s, job), job, Released(lead, lead.stepsSent > 0));
    UndispatchedKeeps(s, StopDead(s, job), job, StoppedDead(lead));
  }

  lemma AskAgainKeeps(s: State, job: JobId, retryAt: Time)
    requires Inv(s) && Due(s, job) && job.lead in s.leads
    requires s.now <= retryAt <= s.now + LONGEST_RETRY_MS
    ensures Inv(AskAgain(s, job, retryAt))
  {
    LiveJobRow(s, job);
    UnqueuedRows(job.lead, s.leads[job.lead], retryAt, s.now);
    UndispatchedKeeps(s, AskAgain(s, job, retryAt), job, AskedAgainLater(s.leads[job.lead], retryAt));
  }

  lemma DispatchKeeps(s: State, job: JobId)
    requires Inv(s) && Due(s, job) && job.lead in s.leads
    requires s.leads[job.lead].stepsSent > 0 ==>
      s.leads[job.lead].nextStepAt.Some? && s.leads[job.lead].nextStepAt.value <= s.now
    ensures Inv(Dispatch(s, job))
  {
    var s' := Dispatch(s, job);
    assert Live(s') == Live(s);
    LiveJobRow(s, job);
    assert LeadOk(job.lead, s.leads[job.lead], s.now);
  }

  // A flight that lands, whatever row it leaves.
  lemma LandKeeps(s: State, s': State, row: Lead)
    requires Inv(s) && s.flight.Some? && RowChange(s, s', s.flight.value.job.lead, row)
    requires LeadOk(s.flight.value.job.lead, row, s.now) && AnswerOk(s.flight.value.job.lead, row, s.replies)
    requires s'.waiting == s.waiting && s'.flight.None?
    ensures Inv(s')
  {
    var job := s.flight.value.job;
    LiveJobRow(s, job);
    assert job !in s.waiting;
    RowChangeKeeps(s, s', job.lead, row);
  }

  lemma RefusalKeeps(s: State)
    requires Inv(s) && AtGate(s)
    ensures Inv(Refuse(s))
  {
    var f, lead := s.flight.value, FlyingLead(s);
    assert AnswerOk(f.job.lead, lead, s.replies);
    FailedRows(f.job.lead, lead, f.followUp, s.now, s.now);
    LandKeeps(s, Refuse(s), DispatchFailed(lead, f.followUp, s.now));
  }

  lemma EndSequenceKeeps(s: State)
    requires Inv(s) && AtGate(s) && FlyingLead(s).stepsSent > 0
    ensures Inv(EndSequence(s))
  {
    var f, lead := s.flight.value, FlyingLead(s);
    assert LeadOk(f.job.lead, lead, s.now);
    LandKeeps(s, EndSequence(s), lead.(nextStepAt := None, queuedJobId := None, queuedSlotAt := None));
  }

  lemma BlockedRow(id: LeadId, lead: Lead, followUp: bool, now: Time, replies: seq<Reply>)
    requires LeadOk(id, lead, now) && (followUp <==> lead.stepsSent > 0)
    requires followUp ==> lead.lastStepAt.Some? && lead.lastStepAt.value + DAY_MS <= now
    ensures var row := DispatchFailed(SuppressedAtGate(lead), followUp, now);
            LeadOk(id, row, now) && AnswerOk(id, row, replies) && row.campaign == lead.campaign
  {
    UnqueuedRows(id, lead, now, now);
    FailedRows(id, SuppressedAtGate(lead), followUp, now, now);
  }

  lemma BlockedRefusalKeeps(s: State)
    requires Inv(s) && AtGate(s)
    ensures Inv(RefuseBlocked(s))
  {
    var f, lead := s.flight.value, FlyingLead(s);
    BlockedRow(f.job.lead, lead, f.followUp, s.now, s.replies);
    LandKeeps(s, RefuseBlocked(s), DispatchFailed(SuppressedAtGate(lead), f.followUp, s.now));
  }

  lemma TransportKeeps(s: State)
    requires Inv(s) && AtGate(s)
    ensures Inv(Transport(s))
  {
    assert Live(Transport(s)) == Live(s);
  }

  lemma BounceKeeps(s: State)
    requires Inv(s) && AtTransport(s)
    ensures Inv(Bounce(s))
  {
    var l, lead := s.flight.value.job.lead, FlyingLead(s);
    UnqueuedRows(l, lead, s.now, s.now);
    LandKeeps(s, Bounce(s), BouncedAtSend(lead));
  }

  lemma FailSoftlyKeeps(s: State, retryAt: Time, deferral: bool)
    requires Inv(s) && AtTransport(s) && s.now <= retryAt
    requires FlyingLead(s).retryCount + 1 < MAX_RETRY_ATTEMPTS ==> retryAt <= s.now + LONGEST_RETRY_MS
    ensures Inv(FailSoftly(s, retryAt, deferral))
  {
    hide JobsOk, RetryAt;
    var f, lead := s.flight.value, FlyingLead(s);
    FailedRows(f.job.lead, lead, f.followUp, retryAt, s.now);
    LandKeeps(s, FailSoftly(s, retryAt, deferral), SoftFailed(lead, retryAt));
  }

  lemma DeliverKeeps(s: State)
    requires Inv(s) && AtTransport(s)
    ensures Inv(Deliver(s))
  {
    var l, lead, m := s.flight.value.job.lead, FlyingLead(s), s.flight.value.job.mailbox;
    var steps := CampaignOf(s, l).steps;
    assert ValidCampaign(s.zones, CampaignOf(s, l));
    SentRow(l, lead, steps, m, s.now);
    LandKeeps(s, Deliver(s), SentLead(lead, steps, m, s.now));
  }

  lemma AbandonKeeps(s: State)
    requires Inv(s) && s.flight.Some?
    ensures Inv(Abandon(s))
  {
  }

  // A handler that rewrites one lead's row and its replies, and leaves the queue alone.
  lemma ReplyChangeKeeps(s: State, s': State, l: LeadId, row: Lead)
    requires Inv(s) && l in s.leads && s'.leads == s.leads[l := row]
    requires s'.now == s.now && s'.zones == s.zones && s'.campaigns == s.campaigns
    requires s'.waiting == s.waiting && s'.flight == s.flight
    requires row.campaign == s.leads[l].campaign
    requires row.stepsSent == s.leads[l].stepsSent && row.lastStepAt == s.leads[l].lastStepAt
    requires forall k :: k != l ==> (HasEndingReply(s'.replies, k) ==> HasEndingReply(s.replies, k))
    requires LeadOk(l, row, s.now) && AnswerOk(l, row, s'.replies)
    requires forall j :: PointsAt(s.leads[l], j) ==> PointsAt(row, j)
    ensures Inv(s')
  {
    assert Live(s') == Live(s);
  }

  lemma StoreReplyKeeps(s: State, r: Reply)
    requires Inv(s) && r.lead in s.leads
    ensures Inv(StoreReply(s, r))
  {
    EndingRepliesOfOthers(s.replies, r);
    UnqueuedRows(r.lead, s.leads[r.lead], s.now, s.now);
    ReplyChangeKeeps(s, StoreReply(s, r), r.lead, Stopped(s.leads[r.lead]));
  }

  lemma StoreBounceKeeps(s: State, r: Reply)
    requires Inv(s) && r.lead in s.leads
    ensures Inv(StoreBounce(s, r))
  {
    EndingRepliesOfOthers(s.replies, r);
    UnqueuedRows(r.lead, s.leads[r.lead], s.now, s.now);
    ReplyChangeKeeps(s, StoreBounce(s, r), r.lead, BouncedByReport(s.leads[r.lead]));
  }

  lemma EndingRepliesOfOthers(replies: seq<Reply>, r: Reply)
    ensures forall k :: k != r.lead ==> (HasEndingReply(replies + [r], k) ==> HasEndingReply(replies, k))
  {
    forall k | k != r.lead && HasEndingReply(replies + [r], k) ensures HasEndingReply(replies, k) {
      var i :| 0 <= i < |replies + [r]| && Ends((replies + [r])[i], k);
      assert Ends(replies[i], k);
    }
  }

  lemma GiveLabelKeeps(s: State, i: nat, tag: Label)
    requires Inv(s) && CanLabel(s, i)
    ensures Inv(GiveLabel(s, i, tag))
  {
    hide EverOpened, JobsOk, FlightOk, LeadOk, AnswerOk;
    var l := s.replies[i].lead;
    var lead, steps, replies := s.leads[l], CampaignOf(s, l).steps, Labelled(s.replies, i, tag);
    forall k | k != l && HasEndingReply(replies, k) ensures HasEndingReply(s.replies, k) {
      var n :| 0 <= n < |replies| && Ends(replies[n], k);
      assert Ends(s.replies[n], k);
    }
    assert ValidCampaign(s.zones, CampaignOf(s, l));
    LabelledRow(l, lead, tag, replies, steps, EverOpened(s, l), s.now);
    LabelAnswerOk(s, i, tag);
    ReplyChangeKeeps(s, GiveLabel(s, i, tag), l, ApplyOutcome(l, lead, tag, replies, steps, EverOpened(s, l)));
  }

  lemma LabelAnswerOk(s: State, i: nat, tag: Label)
    requires Inv(s) && CanLabel(s, i)
    ensures var l := s.replies[i].lead;
            var replies := Labelled(s.replies, i, tag);
            AnswerOk(l, ApplyOutcome(l, s.leads[l], tag, replies, CampaignOf(s, l).steps, EverOpened(s, l)), replies)
  {
    var l := s.replies[i].lead;
    var replies := Labelled(s.replies, i, tag);
    assert AnswerOk(l, s.leads[l], s.replies);
    if KeepsSequence(tag) && HasEndingReply(replies, l) {
      var n :| 0 <= n < |replies| && Ends(replies[n], l);
      assert Ends(s.replies[n], l);
    }
  }

  lemma BlockKeepsRows(s: State, email: Email, entry: Entry)
    requires Inv(s)
    ensures RowsOk(Block(s, email, entry)) && WellFormed(Block(s, email, entry))
  {
    forall l | l in s.leads
      ensures LeadOk(l, SuppressedLead(s.leads[l]), s.now) && AnswerOk(l, SuppressedLead(s.leads[l]), s.replies)
    {
      UnqueuedRows(l, s.leads[l], s.now, s.now);
    }
  }

  lemma BlockKeeps(s: State, email: Email, entry: Entry)
    requires Inv(s)
    ensures Inv(Block(s, email, entry))
  {
    hide RowsOk, WellFormed;
    BlockKeepsRows(s, email, entry);
    assert Live(Block(s, email, entry)) == Live(s);
  }

  lemma UnblockKeeps(s: State, email: Email)
    requires Inv(s)
    ensures Inv(s.(blocked := s.blocked - {email}))
  {
    assert Live(s.(blocked := s.blocked - {email})) == Live(s);
  }

  lemma RequeueKeeps(s: State, l: LeadId)
    requires Inv(s) && Stuck(s, l)
    ensures Inv(Requeue(s, l))
  {
    var job := RequeueJob(s, l);
    var row := s.leads[l].(queuedJobId := Some(job), queuedSlotAt := Some(job.slot));
    assert s.leads[l].queuedJobId.value !in Live(s);
    NoLiveJob(s, l);
    assert AnswerOk(l, s.leads[l], s.replies);
    RowChangeKeeps(s, Requeue(s, l), l, row);
  }

  lemma ForgetKeeps(s: State, job: JobId)
    requires Inv(s)
    ensures Inv(s.(waiting := s.waiting - {job}, kept := s.kept - {job}))
  {
  }

  // No reply is stored for a lead that does not exist.
  lemma ImportKeeps(s: State, l: LeadId, c: CampaignId, email: Email, zone: Option<string>)
    requires Inv(s) && l !in s.leads && c in s.campaigns
    ensures Inv(s.(leads := s.leads[l := NewLead(c, email, zone)]))
  {
    hide RowsOk, WellFormed, PointsAt;
    ImportKeepsRows(s, l, c, email, zone);
    var s' := s.(leads := s.leads[l := NewLead(c, email, zone)]);
    assert Live(s') == Live(s);
  }

  lemma ImportKeepsRows(s: State, l: LeadId, c: CampaignId, email: Email, zone: Option<string>)
    requires WellFormed(s) && RowsOk(s) && l !in s.leads && c in s.campaigns
    ensures var s' := s.(leads := s.leads[l := NewLead(c, email, zone)]); WellFormed(s') && RowsOk(s')
  {
  }

  lemma EraseKeeps(s: State, l: LeadId, nobody: Email)
    requires Inv(s) && l in s.leads
    ensures Inv(Erase(s, l, nobody))
  {
    hide WellFormed, HasEndingReply;
    assert LeadOk(l, s.leads[l], s.now) && AnswerOk(l, s.leads[l], s.replies);
    assert Live(Erase(s, l, nobody)) == Live(s);
    ReplyChangeKeeps(s, Erase(s, l, nobody), l, s.leads[l].(email := nobody, zone := None, nextStepAt := None));
  }

  lemma EditKeeps(s: State, l: LeadId, email: Email, zone: Option<string>)
    requires Inv(s) && l in s.leads
    ensures Inv(Edit(s, l, email, zone))
  {
    hide WellFormed, HasEndingReply;
    assert LeadOk(l, s.leads[l], s.now) && AnswerOk(l, s.leads[l], s.replies);
    ReplyChangeKeeps(s, Edit(s, l, email, zone), l, s.leads[l].(email := email, zone := zone));
  }

  lemma SettingsKeep(s: State, c: CampaignId, status: CampaignStatus, paused: bool, senders: set<MailboxId>,
                     m: MailboxId, usable: bool)
    requires Inv(s)
    ensures c in s.campaigns ==> Inv(SetCampaign(s, c, status, paused, senders))
    ensures m in s.mailboxes ==> Inv(SetUsable(s, m, usable))
  {
    if c in s.campaigns {
      assert ValidCampaign(s.zones, s.campaigns[c]);
      assert Live(SetCampaign(s, c, status, paused, senders)) == Live(s);
    }
    if m in s.mailboxes {
      assert Live(SetUsable(s, m, usable)) == Live(s);
    }
  }

  // ----- Booked slots -----

  // What a chosen slot clears.
  lemma SlotClears(s: State, b: Booking)
    requires WellFormed(s) && b.lead in s.leads && b.mailbox in s.mailboxes && SlotChosen(s, b)
    ensures b.pace == 1 || b.pace == 2
    ensures s.mailboxes[b.mailbox].lastSentAt.Some? ==>
      b.slot >= s.mailboxes[b.mailbox].lastSentAt.value + PaceGap(b.pace) + LEAST_JITTER_MS
    ensures Pending(s, b.mailbox).Some? ==>
      b.slot >= Pending(s, b.mailbox).value + PaceGap(b.pace) + LEAST_JITTER_MS
    ensures b.slot >= s.now + MIN_DELAY_SECONDS * 1000
  {
    var d :| ValidDraws(d) &&
      b.slot == s.now + NextSlotSeconds(s.mailboxes[b.mailbox].lastSentAt, s.now, Pending(s, b.mailbox),
                                        SpreadFor(s, b.lead, b.mailbox), b.pace, d) * 1000;
    SlotClearsAnchor(s.mailboxes[b.mailbox].lastSentAt, s.now, Pending(s, b.mailbox),
                     SpreadFor(s, b.lead, b.mailbox), b.pace, d);
  }

  // ----- Every step, every run -----

  lemma StartSteps(s: State, e: Event, s': State)
    requires Inv(s) && Starts(e) && StartStep(s, e, s')
    ensures Inv(s')
  {
    hide RowsOk, JobsOk, FlightOk, WellFormed, Eligible;
    match e
    case FindsNoLead(job) => LiveJobRow(s, job);
    case Releases(job) => ReleaseKeeps(s, job);
    case StopsDead(job) => ReleaseKeeps(s, job);
    case AsksAgain(job, retryAt) => AskAgainKeeps(s, job, retryAt);
    case Dispatches(job) =>
      FitsWhenDue(s, job);
      DispatchKeeps(s, job);
  }

  lemma FitsWhenDue(s: State, job: JobId)
    requires WellFormed(s) && job.lead in s.leads && Eligible(s, job)
    ensures s.leads[job.lead].stepsSent > 0 ==>
      s.leads[job.lead].nextStepAt.Some? && s.leads[job.lead].nextStepAt.value <= s.now
  {
  }

  lemma GateSteps(s: State, e: Event, s': State)
    requires Inv(s) && Gates(e) && GateStep(s, e, s')
    ensures Inv(s')
  {
    match e
    case EndsSequence => EndSequenceKeeps(s);
    case Refuses => RefusalKeeps(s);
    case RefusesBlocked => BlockedRefusalKeeps(s);
    case Transports => TransportKeeps(s);
  }

  lemma LandSteps(s: State, e: Event, s': State)
    requires Inv(s) && Lands(e) && LandStep(s, e, s')
    ensures Inv(s')
  {
    hide RowsOk, JobsOk, FlightOk, WellFormed;
    match e
    case Bounces => BounceKeeps(s);
    case FailsSoftly(jitter, deferral) =>
      RetryIsBounded(s.now, FlyingLead(s).retryCount, jitter);
      FailSoftlyKeeps(s, RetryAt(s.now, FlyingLead(s).retryCount, jitter), deferral);
    case Delivers => DeliverKeeps(s);
    case Abandons => AbandonKeeps(s);
  }

  lemma AnswerSteps(s: State, e: Event, s': State)
    requires Inv(s) && Answers(e) && AnswerStep(s, e, s')
    ensures Inv(s')
  {
    hide RowsOk, JobsOk, FlightOk, WellFormed, Known;
    match e
    case StoresReply(r) => StoreReplyKeeps(s, r);
    case StoresBounce(r) => StoreBounceKeeps(s, r);
  }

  lemma LabelStep(s: State, e: Event, s': State)
    requires Inv(s) && Steps(s, e, s') && e.Labels?
    ensures Inv(s')
  {
    GiveLabelKeeps(s, e.i, e.tag);
  }

  lemma SuppressSteps(s: State, e: Event, s': State)
    requires Inv(s) && Suppresses(e) && SuppressStep(s, e, s')
    ensures Inv(s')
  {
    match e
    case Blocks(email, entry) => BlockKeeps(s, email, entry);
    case Unblocks(email) => UnblockKeeps(s, email);
  }

  lemma OtherSteps(s: State, e: Event, s': State)
    requires Inv(s) && WellFormed(s) && OtherStep(s, e, s')
    ensures Inv(s')
  {
    hide RowsOk, JobsOk, FlightOk, SlotChosen, InPool, RoomForNewLead, Live, PointsAt, WellFormed;
    match e
    case Pass(to) => PassKeeps(s, to);
    case Books(b) => BookKeeps(s, b);
    case Requeues(l) => RequeueKeeps(s, l);
    case Forgets(job) => ForgetKeeps(s, job);
    case Imports(l, c, email, zone) => ImportKeeps(s, l, c, email, zone);
    case Erases(l, nobody) => EraseKeeps(s, l, nobody);
    case Edits(l, email, zone) => EditKeeps(s, l, email, zone);
    case SetsCampaign(c, status, paused, senders) => SettingsKeep(s, c, status, paused, senders, "", false);
    case SetsMailbox(m, usable) => SettingsKeep(s, "", Halted, false, {}, m, usable);
  }

  lemma StepKeeps(s: State, e: Event, s': State)
    requires Inv(s) && Steps(s, e, s')
    ensures Inv(s')
  {
    hide RowsOk, JobsOk, FlightOk, WellFormed;
    if Starts(e) {
      StartSteps(s, e, s');
    } else if Gates(e) {
      GateSteps(s, e, s');
    } else if Lands(e) {
      LandSteps(s, e, s');
    } else if Answers(e) {
      AnswerSteps(s, e, s');
    } else if e.Labels? {
      LabelStep(s, e, s');
    } else if Suppresses(e) {
      SuppressSteps(s, e, s');
    } else {
      OtherSteps(s, e, s');
    }
  }

  // Every state a run passes through.
  lemma {:induction false} RunKeeps(ss: seq<State>, es: seq<Event>, i: nat)
    requires IsRun(ss, es) && i < |ss|
    ensures Inv(ss[i])
  {
    hide RowsOk, JobsOk, FlightOk, WellFormed, Steps, Fresh;
    if i == 0 {
      FreshOk(ss[0]);
    } else {
      RunKeeps(ss, es, i - 1);
      assert StepAt(ss, es, i - 1);
      StepKeeps(ss[i - 1], es[i - 1], ss[i]);
    }
  }
}

// What each step leaves alone: settings never change their limits, replies and the block list are
// only added to, relabelled or unblocked, and only a delivery makes a send.
module Frames {
  import opened Basics
  import opened Model
  import opened Protocol
  import opened Invariants

  ghost predicate SameLimits(s: State, s': State) {
    && s.now <= s'.now
    && s'.mailboxes.Keys == s.mailboxes.Keys && s'.campaigns.Keys == s.campaigns.Keys
    && (forall m :: m in s.mailboxes ==>
          && s'.mailboxes[m].dailyCap == s.mailboxes[m].dailyCap
          && s'.mailboxes[m].graduatedAt == s.mailboxes[m].graduatedAt)
    && (forall c :: c in s.campaigns ==>
          s'.campaigns[c].maxNewLeadsPerDay == s.campaigns[c].maxNewLeadsPerDay)
  }

  ghost predicate RepliesGrow(s: State, e: Event, s': State) {
    && |s.replies| <= |s'.replies|
    && (forall n :: 0 <= n < |s.replies| ==>
          s'.replies[n] == if e.Labels? && e.i == n then s.replies[n].(tag := e.tag, labelled := true)
                           else s.replies[n])
  }

  ghost predicate BlocksGrow(s: State, e: Event, s': State) {
    forall email :: email in s.blocked && e != Unblocks(email) ==>
      email in s'.blocked && s'.blocked[email] == s.blocked[email]
  }

  // Nothing about a mailbox's own sends changes unless one is delivered.
  ghost predicate SendsGrow(s: State, e: Event, s': State) {
    !e.Delivers? ==>
      && s'.hist.sends == s.hist.sends
      && forall m :: m in s.mailboxes && m in s'.mailboxes ==>
           s'.mailboxes[m].lastSentAt == s.mailboxes[m].lastSentAt
  }

  ghost predicate Frame(s: State, e: Event, s': State) {
    SameLimits(s, s') && RepliesGrow(s, e, s') && BlocksGrow(s, e, s') && SendsGrow(s, e, s')
  }

  lemma StartFrame(s: State, e: Event, s': State)
    requires WellFormed(s) && Starts(e) && StartStep(s, e, s')
    ensures Frame(s, e, s')
  {
    hide WellFormed, Eligible, FirstEmailStarts, Due, Released, StoppedDead, AskedAgainLater, FreeSlot;
  }

  lemma GateFrame(s: State, e: Event, s': State)
    requires WellFormed(s) && Gates(e) && GateStep(s, e, s')
    ensures Frame(s, e, s')
  {
    hide WellFormed, SenderAllowed, DispatchFailed, SuppressedAtGate;
  }

  lemma LandFrame(s: State, e: Event, s': State)
    requires WellFormed(s) && Lands(e) && LandStep(s, e, s')
    ensures Frame(s, e, s')
  {
    hide WellFormed, SentLead, SoftFailed, BouncedAtSend, RetryAt, PaceOf, CampaignOf, FlightRow;
  }

  lemma AnswerFrame(s: State, e: Event, s': State)
    requires WellFormed(s) && Answers(e) && AnswerStep(s, e, s')
    ensures Frame(s, e, s')
  {
    hide WellFormed, Known, MarkBounced, BouncedByReport;
  }

  lemma SuppressFrame(s: State, e: Event, s': State)
    requires WellFormed(s) && Suppresses(e) && SuppressStep(s, e, s')
    ensures Frame(s, e, s')
  {
    hide WellFormed, SuppressWhere;
  }

  lemma LabelFrame(s: State, e: Event, s': State)
    requires Steps(s, e, s') && e.Labels?
    ensures Frame(s, e, s')
  {
    hide WellFormed, EverOpened, CampaignOf;
  }

  lemma OtherFrame(s: State, e: Event, s': State)
    requires WellFormed(s) && OtherStep(s, e, s')
    ensures Frame(s, e, s')
  {
    hide WellFormed, BookOk, Stuck, BookedLead, JobOf;
  }

  lemma StepFrame(s: State, e: Event, s': State)
    requires Steps(s, e, s')
    ensures Frame(s, e, s')
  {
    if Starts(e) {
      StartFrame(s, e, s');
    } else if Gates(e) {
      GateFrame(s, e, s');
    } else if Lands(e) {
      LandFrame(s, e, s');
    } else if Answers(e) {
      AnswerFrame(s, e, s');
    } else if Suppresses(e) {
      SuppressFrame(s, e, s');
    } else if e.Labels? {
      LabelFrame(s, e, s');
    } else {
      OtherFrame(s, e, s');
    }
  }

  lemma RunFrame(ss: seq<State>, es: seq<Event>, i: nat)
    requires IsRun(ss, es) && i < |es|
    ensures Frame(ss[i], es[i], ss[i + 1]) && Inv(ss[i]) && Inv(ss[i + 1])
  {
    RunKeeps(ss, es, i);
    RunKeeps(ss, es, i + 1);
    assert StepAt(ss, es, i);
    StepFrame(ss[i], es[i], ss[i + 1]);
  }

  // A lead's campaign never changes, and what it has been sent changes only by a delivery.
  ghost predicate StepsKept(s: State, s': State) {
    forall l :: l in s.leads ==> l in s'.leads && SameSteps(s.leads[l], s'.leads[l])
  }

  predicate SameSteps(was: Lead, row: Lead) {
    row.campaign == was.campaign && row.stepsSent == was.stepsSent && row.lastStepAt == was.lastStepAt
  }

  lemma StartKeepsSteps(s: State, e: Event, s': State)
    requires WellFormed(s) && Starts(e) && StartStep(s, e, s')
    ensures StepsKept(s, s')
  {
    hide WellFormed, Eligible, FirstEmailStarts, Due, FreeSlot;
  }

  lemma GateKeepsSteps(s: State, e: Event, s': State)
    requires WellFormed(s) && Gates(e) && GateStep(s, e, s')
    ensures StepsKept(s, s')
  {
    hide WellFormed, SenderAllowed;
  }

  lemma LandKeepsSteps(s: State, e: Event, s': State)
    requires WellFormed(s) && Lands(e) && LandStep(s, e, s') && !e.Delivers?
    ensures StepsKept(s, s')
  {
    hide WellFormed, RetryAt, PaceOf, CampaignOf, FlightRow, Deliver;
  }

  lemma AnswerKeepsSteps(s: State, e: Event, s': State)
    requires WellFormed(s) && Answers(e) && AnswerStep(s, e, s')
    ensures StepsKept(s, s')
  {
    hide WellFormed, Known, MarkBounced;
  }

  lemma SuppressKeepsSteps(s: State, e: Event, s': State)
    requires WellFormed(s) && Suppresses(e) && SuppressStep(s, e, s')
    ensures StepsKept(s, s')
  {
    hide WellFormed;
  }

  lemma LabelKeepsSteps(s: State, e: Event, s': State)
    requires Steps(s, e, s') && e.Labels?
    ensures StepsKept(s, s')
  {
    hide WellFormed, EverOpened, CampaignOf;
  }

  lemma OtherKeepsSteps(s: State, e: Event, s': State)
    requires WellFormed(s) && OtherStep(s, e, s')
    ensures StepsKept(s, s')
  {
    hide WellFormed, BookOk, JobOf;
  }

  lemma StepKeepsSteps(s: State, e: Event, s': State)
    requires Steps(s, e, s') && !e.Delivers?
    ensures StepsKept(s, s')
  {
    if Starts(e) {
      StartKeepsSteps(s, e, s');
    } else if Gates(e) {
      GateKeepsSteps(s, e, s');
    } else if Lands(e) {
      LandKeepsSteps(s, e, s');
    } else if Answers(e) {
      AnswerKeepsSteps(s, e, s');
    } else if Suppresses(e) {
      SuppressKeepsSteps(s, e, s');
    } else if e.Labels? {
      LabelKeepsSteps(s, e, s');
    } else {
      OtherKeepsSteps(s, e, s');
    }
  }
}

