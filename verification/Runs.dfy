// The rolling daily limit over whole runs: the worker looks back from its own moment only, and with
// one dispatch at a time that is enough for every 24-hour window.
module RollingRun {
  import opened Basics
  import opened CampaignCap
  import opened Model
  import opened Protocol
  import opened Invariants
  import opened Frames

  // ----- Counting sends -----

  lemma {:induction false} EarlierCountsMore(log: seq<LogRow>, m: MailboxId, since: Time, later: Time)
    requires since <= later
    ensures CountSends(log, m, later) <= CountSends(log, m, since)
  {
    if |log| > 0 {
      EarlierCountsMore(log[..|log| - 1], m, since, later);
    }
  }

  // Rows that count the same for every mailbox.
  predicate CountAlike(a: LogRow, b: LogRow) {
    a.mailbox == b.mailbox && a.at == b.at && (a.status == LogFailed <==> b.status == LogFailed)
  }

  lemma {:induction false} SameCounts(log: seq<LogRow>, log': seq<LogRow>, m: MailboxId, since: Time)
    requires |log| == |log'| && forall i :: 0 <= i < |log| ==> CountAlike(log[i], log'[i])
    ensures CountSends(log, m, since) == CountSends(log', m, since)
  {
    if |log| > 0 {
      SameCounts(log[..|log| - 1], log'[..|log'| - 1], m, since);
    }
  }

  // Sends of `m` in the window (from, to].
  function SendsWithin(log: seq<LogRow>, m: MailboxId, from: Time, to: Time): nat {
    if |log| == 0 then 0
    else
      var row := log[|log| - 1];
      SendsWithin(log[..|log| - 1], m, from, to) + if CountedSend(row, m) && from < row.at <= to then 1 else 0
  }

  // ----- The invariant -----

  ghost predicate Chronological(log: seq<LogRow>, now: Time) {
    && (forall i, j :: 0 <= i < j < |log| ==> log[i].at <= log[j].at)
    && (forall i :: 0 <= i < |log| ==> log[i].at <= now)
  }

  function CapAt(s: State, m: MailboxId, t: Time): nat
    requires m in s.mailboxes
  {
    CampaignCapToday(s.mailboxes[m].dailyCap, s.mailboxes[m].graduatedAt, t)
  }

  // As of each send, the day up to it holds no more sends than that day's limit.
  ghost predicate SendWithinCap(s: State, i: nat)
    requires i < |s.log|
  {
    var row := s.log[i];
    row.status != LogFailed ==>
      && row.mailbox in s.mailboxes
      && CountSends(s.log[..i + 1], row.mailbox, row.at - DAY_MS) <= CapAt(s, row.mailbox, row.at)
  }

  // The send in the air had room when its mailbox was looked at.
  ghost predicate FlightHasRoom(s: State) {
    s.flight.Some? ==>
      var f := s.flight.value;
      && f.checkedAt <= s.now
      && f.job.mailbox in s.mailboxes
      && CountSends(s.log, f.job.mailbox, f.checkedAt - DAY_MS) < CapAt(s, f.job.mailbox, f.checkedAt)
  }

  ghost predicate RollingOk(s: State) {
    && Chronological(s.log, s.now)
    && (forall i :: 0 <= i < |s.log| ==> SendWithinCap(s, i))
    && FlightHasRoom(s)
  }

  // ----- Steps -----

  // What a step does to the log and the flight, as far as the limit is concerned.
  ghost predicate LogAlike(s: State, s': State) {
    |s'.log| == |s.log| && forall i :: 0 <= i < |s.log| ==> CountAlike(s.log[i], s'.log[i])
  }

  lemma AlikeKeeps(s: State, s': State)
    requires RollingOk(s) && SameLimits(s, s') && LogAlike(s, s')
    requires s'.flight.None? || (s.flight.Some? && s'.flight.value.job == s.flight.value.job
                                 && s'.flight.value.checkedAt == s.flight.value.checkedAt)
    ensures RollingOk(s')
  {
    hide CountSends;
    forall i | 0 <= i < |s'.log| ensures SendWithinCap(s', i) {
      assert SendWithinCap(s, i);
      SameCounts(s.log[..i + 1], s'.log[..i + 1], s.log[i].mailbox, s.log[i].at - DAY_MS);
    }
    if s'.flight.Some? {
      var f := s.flight.value;
      SameCounts(s.log, s'.log, f.job.mailbox, f.checkedAt - DAY_MS);
    }
  }

  // The send just made had room: its day now ends later than the day the worker looked back over.
  lemma LastWithinCap(s: State, s': State, row: LogRow)
    requires RollingOk(s) && SameLimits(s, s') && s'.log == s.log + [row] && row.at == s'.now
    requires row.status != LogFailed && s.flight.Some? && row.mailbox == s.flight.value.job.mailbox
    ensures row.mailbox in s'.mailboxes
    ensures CountSends(s'.log, row.mailbox, row.at - DAY_MS) <= CapAt(s', row.mailbox, row.at)
  {
    var m, t := row.mailbox, s.flight.value.checkedAt;
    assert s'.log[..|s.log|] == s.log;
    EarlierCountsMore(s.log, m, t - DAY_MS, row.at - DAY_MS);
    CapGrows(s.mailboxes[m].dailyCap, s.mailboxes[m].graduatedAt, t, row.at);
  }

  lemma AppendKeeps(s: State, s': State, row: LogRow)
    requires RollingOk(s) && SameLimits(s, s') && s'.log == s.log + [row] && row.at == s'.now
    requires s'.flight.None?
    requires row.status != LogFailed ==> s.flight.Some? && row.mailbox == s.flight.value.job.mailbox
    ensures RollingOk(s')
  {
    hide CountSends, CampaignCapToday;
    forall i | 0 <= i < |s'.log| ensures SendWithinCap(s', i) {
      if i < |s.log| {
        assert SendWithinCap(s, i);
        assert s'.log[..i + 1] == s.log[..i + 1];
      } else if row.status != LogFailed {
        assert s'.log[..i + 1] == s'.log;
        LastWithinCap(s, s', row);
      }
    }
  }

  lemma DispatchHasRoom(s: State, job: JobId)
    requires RollingOk(s) && MailboxCanSend(s, job.mailbox) && job.lead in s.leads
    ensures RollingOk(Dispatch(s, job))
  {
    var s' := Dispatch(s, job);
    forall i | 0 <= i < |s'.log| ensures SendWithinCap(s', i) {
      assert SendWithinCap(s, i);
    }
  }

  lemma StartRolls(s: State, e: Event, s': State)
    requires RollingOk(s) && SameLimits(s, s') && WellFormed(s) && Starts(e) && StartStep(s, e, s')
    ensures RollingOk(s')
  {
    hide WellFormed, FreeSlot, Released, LeadFits, WindowOf;
    if e.StopsDead? {
      StopDeadRolls(s, e.job);
    } else if e.Dispatches? {
      DispatchHasRoom(s, e.job);
    } else {
      AlikeKeeps(s, s');
    }
  }

  lemma StopDeadRolls(s: State, job: JobId)
    requires RollingOk(s) && s.flight.None? && job.lead in s.leads
    ensures RollingOk(StopDead(s, job))
  {
    var s' := StopDead(s, job);
    AppendKeeps(s, s', s'.log[|s.log|]);
  }

  lemma LandRolls(s: State, e: Event, s': State)
    requires RollingOk(s) && SameLimits(s, s') && WellFormed(s) && Lands(e) && LandStep(s, e, s')
    ensures RollingOk(s')
  {
    hide WellFormed, RollingOk, SentLead, SoftFailed, RetryAt;
    if e.Abandons? {
      AlikeKeeps(s, s');
    } else {
      AppendKeeps(s, s', s'.log[|s.log|]);
    }
  }

  lemma GateRolls(s: State, e: Event, s': State)
    requires RollingOk(s) && SameLimits(s, s') && WellFormed(s) && Gates(e) && GateStep(s, e, s')
    ensures RollingOk(s')
  {
    hide WellFormed, RollingOk;
    AlikeKeeps(s, s');
  }

  lemma AnswerRolls(s: State, e: Event, s': State)
    requires RollingOk(s) && SameLimits(s, s') && WellFormed(s) && Answers(e) && AnswerStep(s, e, s')
    ensures RollingOk(s')
  {
    hide WellFormed, RollingOk;
    AlikeKeeps(s, s');
  }

  lemma OtherRolls(s: State, e: Event, s': State)
    requires RollingOk(s) && SameLimits(s, s') && Steps(s, e, s')
    requires !Starts(e) && !Lands(e) && !Gates(e) && !Answers(e)
    ensures RollingOk(s')
  {
    hide WellFormed, BookOk, Stuck, SuppressWhere, EverOpened, RollingOk, CampaignOf;
    AlikeKeeps(s, s');
  }

  lemma FreshRolls(s: State)
    requires Fresh(s)
    ensures RollingOk(s)
  {
  }

  lemma {:induction false} RollingKeeps(ss: seq<State>, es: seq<Event>, i: nat)
    requires IsRun(ss, es) && i < |ss|
    ensures RollingOk(ss[i])
  {
    hide WellFormed, RollingOk, SameLimits, StartStep, GateStep, LandStep, AnswerStep, OtherStep, SuppressStep, Inv;
    if i == 0 {
      FreshRolls(ss[0]);
    } else {
      RollingKeeps(ss, es, i - 1);
      RunFrame(ss, es, i - 1);
      var s, e, s' := ss[i - 1], es[i - 1], ss[i];
      assert StepAt(ss, es, i - 1);
      if Starts(e) {
        StartRolls(s, e, s');
      } else if Gates(e) {
        GateRolls(s, e, s');
      } else if Lands(e) {
        LandRolls(s, e, s');
      } else if Answers(e) {
        AnswerRolls(s, e, s');
      } else {
        OtherRolls(s, e, s');
      }
    }
  }

  // ----- Every window -----

  // The last counted row at or before `to`: nothing past it is in the window, nothing before it is late.
  lemma {:induction false} LastWithin(log: seq<LogRow>, m: MailboxId, from: Time, to: Time) returns (k: nat)
    requires forall i, j :: 0 <= i < j < |log| ==> log[i].at <= log[j].at
    ensures k <= |log|
    ensures SendsWithin(log, m, from, to) == CountSends(log[..k], m, from)
    ensures k > 0 ==> CountedSend(log[k - 1], m) && log[k - 1].at <= to
    ensures forall j :: k <= j < |log| ==> !(CountedSend(log[j], m) && log[j].at <= to)
  {
    if |log| == 0 {
      k := 0;
    } else {
      var last := |log| - 1;
      var row, init := log[last], log[..last];
      if CountedSend(row, m) && row.at <= to {
        k := |log|;
        assert log[..k] == log;
        AllWithin(log, m, from, to);
      } else {
        k := LastWithin(init, m, from, to);
        assert init[..k] == log[..k];
        assert forall j :: k <= j < last ==> init[j] == log[j];
      }
    }
  }

  lemma {:induction false} AllWithin(log: seq<LogRow>, m: MailboxId, from: Time, to: Time)
    requires forall i :: 0 <= i < |log| ==> log[i].at <= to
    ensures SendsWithin(log, m, from, to) == CountSends(log, m, from)
  {
    if |log| > 0 {
      AllWithin(log[..|log| - 1], m, from, to);
    }
  }

  // Every 24-hour window of a mailbox holds at most its limit as of the window's last send, so
  // never more than its full daily limit.
  lemma RollingLimit(ss: seq<State>, es: seq<Event>, i: nat, m: MailboxId, from: Time) returns (last: Time)
    requires IsRun(ss, es) && i < |ss| && m in ss[i].mailboxes
    ensures SendsWithin(ss[i].log, m, from, from + DAY_MS) > 0 ==>
      && last <= from + DAY_MS
      && (exists k :: 0 <= k < |ss[i].log| && CountedSend(ss[i].log[k], m) && ss[i].log[k].at == last)
      && (forall k :: 0 <= k < |ss[i].log| && CountedSend(ss[i].log[k], m) && ss[i].log[k].at <= from + DAY_MS ==>
            ss[i].log[k].at <= last)
      && SendsWithin(ss[i].log, m, from, from + DAY_MS) <= CapAt(ss[i], m, last)
    ensures SendsWithin(ss[i].log, m, from, from + DAY_MS) <= ss[i].mailboxes[m].dailyCap
  {
    hide IsRun, WellFormed;
    RollingKeeps(ss, es, i);
    var s := ss[i];
    var k := LastWithin(s.log, m, from, from + DAY_MS);
    last := from;
    if SendsWithin(s.log, m, from, from + DAY_MS) > 0 {
      last := s.log[k - 1].at;
      assert SendWithinCap(s, k - 1);
      EarlierCountsMore(s.log[..k], m, last - DAY_MS, from);
      CapGrows(s.mailboxes[m].dailyCap, s.mailboxes[m].graduatedAt, last, last);
    }
  }
}

// The gap between two sends of one mailbox over whole runs. A slot is booked past the last send and
// past the slot before it, but what is booked is only known while its reservation lasts, 120 s past
// the slot. That is enough because the least jitter is more than those 120 s.
module CadenceRun {
  import opened Basics
  import opened SlotTiming
  import opened Model
  import opened Protocol
  import opened Invariants
  import opened Frames

  const GRACE_MS := RESERVATION_TTL_PADDING_SECONDS * SECOND_MS

  // A send is recorded within the reservation's grace of its slot or not at all, and reconcile, which
  // books without a reservation, does not re-queue.
  ghost predicate OnTime(s: State, e: Event) {
    && !e.Requeues?
    && (e.Delivers? && s.flight.Some? ==> s.now < s.flight.value.job.slot + GRACE_MS)
  }

  // A job that can still be sent on time.
  predicate InTime(s: State, j: JobId) {
    j in Live(s) && s.now < j.slot + GRACE_MS
  }

  // Job `j` is over, grace included, before `k` may be sent.
  predicate Before(s: State, j: JobId, k: JobId) {
    j.slot + GRACE_MS + PaceGap(PaceOf(s, k)) <= k.slot
  }

  // ----- The invariant -----

  ghost predicate ReservationsOk(s: State) {
    forall m :: m in s.reservations ==> s.reservations[m] == ReservationFor(s.reservations[m].slot)
  }

  // A job that can still be sent is past its mailbox's last send, and its slot is remembered.
  ghost predicate JobSpaced(s: State, j: JobId) {
    InTime(s, j) ==>
      && (j.mailbox in s.mailboxes && s.mailboxes[j.mailbox].lastSentAt.Some? ==>
            s.mailboxes[j.mailbox].lastSentAt.value + PaceGap(PaceOf(s, j)) <= j.slot)
      && j.mailbox in s.reservations && j.slot <= s.reservations[j.mailbox].slot
  }

  // Two jobs of one mailbox that can both still be sent.
  predicate Rivals(s: State, j: JobId, k: JobId) {
    j != k && j.mailbox == k.mailbox && InTime(s, j) && InTime(s, k)
  }

  ghost predicate JobsSpaced(s: State) {
    && (forall j :: j in Live(s) ==> JobSpaced(s, j))
    && (forall j, k :: j in Live(s) && k in Live(s) && Rivals(s, j, k) ==> Before(s, j, k) || Before(s, k, j))
  }

  ghost predicate SendKnown(s: State, r: SendRecord) {
    r.mailbox in s.mailboxes && s.mailboxes[r.mailbox].lastSentAt.Some?
      && r.at <= s.mailboxes[r.mailbox].lastSentAt.value
  }

  ghost predicate SendsSpaced(sends: seq<SendRecord>) {
    forall a, b :: 0 <= a < b < |sends| && sends[a].mailbox == sends[b].mailbox ==>
      sends[a].at + PaceGap(sends[b].pace) <= sends[b].at
  }

  ghost predicate CadenceOk(s: State) {
    && ReservationsOk(s) && JobsSpaced(s)
    && (forall k :: 0 <= k < |s.hist.sends| ==> SendKnown(s, s.hist.sends[k]))
    && SendsSpaced(s.hist.sends)
  }

  // ----- Steps that book nothing -----

  // Nothing new in the queue, and no reservation given up.
  ghost predicate QueueShrinks(s: State, s': State) {
    && Live(s') <= Live(s) && s'.reservations == s.reservations && s'.hist.paces == s.hist.paces
    && s'.hist.sends == s.hist.sends
  }

  ghost predicate SameLastSends(s: State, s': State) {
    && s.now <= s'.now && s'.mailboxes.Keys == s.mailboxes.Keys
    && forall m :: m in s.mailboxes ==> s'.mailboxes[m].lastSentAt == s.mailboxes[m].lastSentAt
  }

  lemma FrameLastSends(s: State, e: Event, s': State)
    requires Frame(s, e, s') && !e.Delivers?
    ensures SameLastSends(s, s')
  {
  }

  lemma ShrinkingKeeps(s: State, s': State)
    requires CadenceOk(s) && QueueShrinks(s, s') && SameLastSends(s, s')
    ensures CadenceOk(s')
  {
    forall j | j in Live(s') ensures JobSpaced(s', j) {
      assert JobSpaced(s, j);
    }
    forall j, k | j in Live(s') && k in Live(s') && Rivals(s', j, k)
      ensures Before(s', j, k) || Before(s', k, j)
    {
      assert Rivals(s, j, k);
    }
    forall k | 0 <= k < |s'.hist.sends| ensures SendKnown(s', s'.hist.sends[k]) {
      assert SendKnown(s, s.hist.sends[k]);
    }
  }

  // The running job gives its reservation up only if nothing else of its mailbox can still be sent.
  lemma FreeingKeeps(s: State, s': State, job: JobId, slot: Option<Time>)
    requires CadenceOk(s) && SameLastSends(s, s') && job in Live(s) && job.slot <= s.now && s'.now == s.now
    requires slot.Some? ==> slot.value == job.slot
    requires Live(s') <= Live(s) - {job}
    requires s'.reservations == FreeSlot(s, job.mailbox, slot)
    requires s'.hist.paces == s.hist.paces && s'.hist.sends == s.hist.sends
    ensures CadenceOk(s')
  {
    forall j | j in Live(s') ensures JobSpaced(s', j) {
      assert JobSpaced(s, j);
      assert Rivals(s, j, job) ==> Before(s, j, job) || Before(s, job, j);
    }
    forall j, k | j in Live(s') && k in Live(s') && Rivals(s', j, k)
      ensures Before(s', j, k) || Before(s', k, j)
    {
      assert Rivals(s, j, k);
    }
    forall k | 0 <= k < |s'.hist.sends| ensures SendKnown(s', s'.hist.sends[k]) {
      assert SendKnown(s, s.hist.sends[k]);
    }
  }

  lemma StartCadence(s: State, e: Event, s': State)
    requires Inv(s) && CadenceOk(s) && Starts(e) && StartStep(s, e, s') && SameLastSends(s, s')
    ensures CadenceOk(s')
  {
    hide WellFormed, Eligible, CadenceOk, FlightOk, AnswerOk, FreeSlot;
    if e.StopsDead? || e.AsksAgain? {
      LiveJobRow(s, e.job);
      assert LeadOk(e.job.lead, s.leads[e.job.lead], s.now);
      FreeingKeeps(s, s', e.job, s.leads[e.job.lead].queuedSlotAt);
    } else {
      ShrinkingKeeps(s, s');
    }
  }

  lemma GateCadence(s: State, e: Event, s': State)
    requires Inv(s) && CadenceOk(s) && Gates(e) && GateStep(s, e, s') && SameLastSends(s, s')
    ensures CadenceOk(s')
  {
    hide WellFormed, RowsOk, JobsOk, FlightOk, SenderAllowed, CadenceOk;
    ShrinkingKeeps(s, s');
  }

  lemma LandCadence(s: State, e: Event, s': State)
    requires Inv(s) && CadenceOk(s) && Lands(e) && LandStep(s, e, s') && !e.Delivers? && SameLastSends(s, s')
    ensures CadenceOk(s')
  {
    hide WellFormed, RowsOk, JobsOk, FlightOk, CadenceOk, SentLead, SoftFailed;
    ShrinkingKeeps(s, s');
  }

  lemma AnswerCadence(s: State, e: Event, s': State)
    requires CadenceOk(s) && Answers(e) && AnswerStep(s, e, s') && SameLastSends(s, s')
    ensures CadenceOk(s')
  {
    ShrinkingKeeps(s, s');
  }

  lemma LabelCadence(s: State, i: nat, tag: Label)
    requires CadenceOk(s) && WellFormed(s) && CanLabel(s, i)
    ensures CadenceOk(GiveLabel(s, i, tag))
  {
    ShrinkingKeeps(s, GiveLabel(s, i, tag));
  }

  lemma SuppressCadence(s: State, e: Event, s': State)
    requires CadenceOk(s) && Suppresses(e) && SuppressStep(s, e, s') && SameLastSends(s, s')
    ensures CadenceOk(s')
  {
    ShrinkingKeeps(s, s');
  }

  lemma OtherCadence(s: State, e: Event, s': State)
    requires Inv(s) && CadenceOk(s) && OtherStep(s, e, s') && !e.Books? && !e.Requeues? && SameLastSends(s, s')
    ensures CadenceOk(s')
  {
    ShrinkingKeeps(s, s');
  }

  // ----- Booking -----

  // Every job of the mailbox that can still be sent is over before the new slot.
  lemma EarlierJobs(s: State, b: Booking, j: JobId)
    requires CadenceOk(s) && WellFormed(s) && b.lead in s.leads && b.mailbox in s.mailboxes
    requires SlotChosen(s, b) && InTime(s, j) && j.mailbox == b.mailbox
    ensures j.slot + GRACE_MS + PaceGap(b.pace) <= b.slot
  {
    assert JobSpaced(s, j);
    SlotClears(s, b);
  }

  lemma BookCadence(s: State, b: Booking)
    requires Inv(s) && CadenceOk(s) && b.lead in s.leads && b.mailbox in s.mailboxes && SlotChosen(s, b)
    requires forall j :: j in Live(s) ==> j.lead != b.lead
    ensures CadenceOk(Book(s, b))
  {
    hide RowsOk, JobsOk, FlightOk, SlotChosen, SendsSpaced;
    var s' := Book(s, b);
    SlotClears(s, b);
    assert Live(s') <= Live(s) + {JobOf(b)};
    forall j | j in Live(s) ensures PaceOf(s', j) == PaceOf(s, j) {
      assert j.lead != b.lead;
    }
    forall j | j in Live(s') ensures JobSpaced(s', j) {
      if j != JobOf(b) {
        assert JobSpaced(s, j);
        if InTime(s, j) && j.mailbox == b.mailbox {
          EarlierJobs(s, b, j);
        }
      }
    }
    forall j, k | j in Live(s') && k in Live(s') && Rivals(s', j, k)
      ensures Before(s', j, k) || Before(s', k, j)
    {
      BookedApart(s, b, j, k);
    }
    forall k | 0 <= k < |s'.hist.sends| ensures SendKnown(s', s'.hist.sends[k]) {
      assert SendKnown(s, s.hist.sends[k]);
    }
  }

  lemma BookedApart(s: State, b: Booking, j: JobId, k: JobId)
    requires CadenceOk(s) && WellFormed(s) && b.lead in s.leads && b.mailbox in s.mailboxes && SlotChosen(s, b)
    requires forall j :: j in Live(s) ==> j.lead != b.lead
    requires j in Live(s) + {JobOf(b)} && k in Live(s) + {JobOf(b)} && j != k && j.mailbox == k.mailbox
    requires s.now < j.slot + GRACE_MS && s.now < k.slot + GRACE_MS
    ensures Before(Book(s, b), j, k) || Before(Book(s, b), k, j)
  {
    if j == JobOf(b) {
      EarlierJobs(s, b, k);
    } else if k == JobOf(b) {
      EarlierJobs(s, b, j);
    } else {
      assert Rivals(s, j, k);
      assert j.lead != b.lead && k.lead != b.lead;
    }
  }

  lemma BooksCadence(s: State, e: Event, s': State)
    requires Inv(s) && CadenceOk(s) && OtherStep(s, e, s') && e.Books?
    ensures CadenceOk(s')
  {
    hide CadenceOk, FlightOk;
    NoLiveJob(s, e.b.lead);
    BookCadence(s, e.b);
  }

  // ----- Delivery -----

  lemma DeliverCadence(s: State)
    requires Inv(s) && CadenceOk(s) && AtTransport(s) && OnTime(s, Delivers)
    ensures CadenceOk(Deliver(s))
  {
    hide RowsOk, JobsOk, JobsSpaced, ReservationsOk, Deliver, SendsSpaced, SendKnown;
    DeliveryChanges(s);
    DeliverySpaced(s);
    DeliveredJobsSpaced(s, Deliver(s), s.flight.value.job);
  }

  // What a delivery does to the queue and the mailboxes.
  lemma DeliveryChanges(s: State)
    requires Inv(s) && AtTransport(s)
    ensures var s', job := Deliver(s), s.flight.value.job;
            && Delivered(s, s', job) && job in Live(s)
            && s'.hist.sends ==
                 s.hist.sends + [SendRecord(FlyingLead(s).campaign, job.lead, job.mailbox,
                                            FlyingLead(s).stepsSent == 0, PaceOf(s, job), BookedAt(s, job), s.now)]
  {
    hide RowsOk, JobsOk, SentLead, FlightRow;
  }

  ghost predicate Delivered(s: State, s': State, job: JobId) {
    && Live(s') <= Live(s) - {job} && s'.now == s.now && s'.reservations == s.reservations
    && s'.hist.paces == s.hist.paces
    && job.mailbox in s.mailboxes
    && s'.mailboxes == s.mailboxes[job.mailbox := s.mailboxes[job.mailbox].(lastSentAt := Some(s.now))]
  }

  // The jobs left are past this send as they were past this job.
  lemma DeliveredJobsSpaced(s: State, s': State, job: JobId)
    requires ReservationsOk(s) && JobsSpaced(s) && Delivered(s, s', job)
    requires InTime(s, job) && job.slot <= s.now
    ensures ReservationsOk(s') && JobsSpaced(s')
  {
    forall j | j in Live(s') ensures JobSpaced(s', j) {
      assert JobSpaced(s, j);
      assert Rivals(s, j, job) ==> Before(s, j, job) || Before(s, job, j);
    }
    forall j, k | j in Live(s') && k in Live(s') && Rivals(s', j, k)
      ensures Before(s', j, k) || Before(s', k, j)
    {
      assert Rivals(s, j, k);
    }
  }

  lemma DeliverySpaced(s: State)
    requires Inv(s) && CadenceOk(s) && AtTransport(s) && OnTime(s, Delivers)
    ensures var s' := Deliver(s);
            && (forall k :: 0 <= k < |s'.hist.sends| ==> SendKnown(s', s'.hist.sends[k]))
            && SendsSpaced(s'.hist.sends)
  {
    hide RowsOk, JobsOk, JobsSpaced, ReservationsOk, Deliver;
    DeliveryChanges(s);
    var s', job := Deliver(s), s.flight.value.job;
    JobPastSends(s, job);
    forall k | 0 <= k < |s.hist.sends| ensures SendKnown(s', s.hist.sends[k]) {
      assert SendKnown(s, s.hist.sends[k]);
    }
  }

  // Every send of the mailbox of a job that can still be sent is its gap before the job's slot.
  lemma JobPastSends(s: State, job: JobId)
    requires CadenceOk(s) && InTime(s, job) && job.mailbox in s.mailboxes
    ensures forall k :: 0 <= k < |s.hist.sends| && s.hist.sends[k].mailbox == job.mailbox ==>
      s.hist.sends[k].at + PaceGap(PaceOf(s, job)) <= job.slot
  {
    assert JobSpaced(s, job);
    forall k | 0 <= k < |s.hist.sends| && s.hist.sends[k].mailbox == job.mailbox
      ensures s.hist.sends[k].at + PaceGap(PaceOf(s, job)) <= job.slot
    {
      assert SendKnown(s, s.hist.sends[k]);
    }
  }

  // ----- Runs -----

  lemma StepCadence(s: State, e: Event, s': State)
    requires Inv(s) && CadenceOk(s) && Steps(s, e, s') && Frame(s, e, s') && OnTime(s, e)
    ensures CadenceOk(s')
  {
    hide Inv, CadenceOk, WellFormed;
    if e.Delivers? {
      DeliverCadence(s);
    } else if e.Books? {
      BooksCadence(s, e, s');
    } else {
      FrameLastSends(s, e, s');
      if Starts(e) {
        StartCadence(s, e, s');
      } else if Gates(e) {
        GateCadence(s, e, s');
      } else if Lands(e) {
        LandCadence(s, e, s');
      } else if Answers(e) {
        AnswerCadence(s, e, s');
      } else if e.Labels? {
        LabelCadence(s, e.i, e.tag);
      } else if Suppresses(e) {
        SuppressCadence(s, e, s');
      } else {
        OtherCadence(s, e, s');
      }
    }
  }

  ghost predicate OnTimeAt(ss: seq<State>, es: seq<Event>, k: nat)
    requires |ss| == |es| + 1 && k < |es|
  {
    OnTime(ss[k], es[k])
  }

  lemma StepCadenceAt(ss: seq<State>, es: seq<Event>, i: nat)
    requires IsRun(ss, es) && i < |es| && CadenceOk(ss[i]) && OnTimeAt(ss, es, i)
    ensures CadenceOk(ss[i + 1])
  {
    hide Inv, CadenceOk, WellFormed, Steps, Frame;
    RunFrame(ss, es, i);
    assert StepAt(ss, es, i);
    StepCadence(ss[i], es[i], ss[i + 1]);
  }

  lemma {:induction false} CadenceKeeps(ss: seq<State>, es: seq<Event>, i: nat)
    requires IsRun(ss, es) && i < |ss|
    requires forall k :: 0 <= k < i ==> OnTimeAt(ss, es, k)
    ensures CadenceOk(ss[i])
  {
    if i > 0 {
      CadenceKeeps(ss, es, i - 1);
      StepCadenceAt(ss, es, i - 1);
    }
  }

  // ----- What the log said -----

  // A provider's deferral of a send of `m`, logged between the two times.
  predicate DeferredBetween(row: LogRow, m: MailboxId, from: Time, to: Time) {
    row.mailbox == m && row.status == LogFailed && row.deferral && from < row.at < to
  }

  // A booking at half pace if a deferral was on record from the day before it.
  ghost predicate PaceOk(log: seq<LogRow>, m: MailboxId, p: Paced) {
    && (p.pace == 1 || p.pace == 2)
    && ((exists i :: 0 <= i < |log| && DeferredBetween(log[i], m, p.at - DAY_MS, p.at)) ==> p.pace == 2)
  }

  ghost predicate PacesOk(s: State) {
    && (forall j :: j in Live(s) ==> j in s.hist.paces)
    && (forall j :: j in s.hist.paces ==> s.hist.paces[j].at <= s.now && PaceOk(s.log, j.mailbox, s.hist.paces[j]))
    && (forall k :: 0 <= k < |s.hist.sends| ==>
          var r := s.hist.sends[k]; r.bookedAt <= s.now && PaceOk(s.log, r.mailbox, Paced(r.pace, r.bookedAt)))
  }

  // Rows are only added, now, or marked bounced.
  ghost predicate LogGrows(s: State, s': State) {
    && s.now <= s'.now && |s.log| <= |s'.log|
    && (forall i :: 0 <= i < |s.log| ==>
          s'.log[i] == s.log[i] || (s.log[i].status == LogSent && s'.log[i] == s.log[i].(status := LogBounced)))
    && (forall i :: |s.log| <= i < |s'.log| ==> s'.log[i].at == s'.now)
  }

  ghost predicate NothingBooked(s: State, s': State) {
    LogGrows(s, s') && Live(s') <= Live(s) && s'.hist.paces == s.hist.paces
  }

  lemma StartBooksNothing(s: State, e: Event, s': State)
    requires WellFormed(s) && Starts(e) && StartStep(s, e, s')
    ensures NothingBooked(s, s')
  {
    hide WellFormed, Eligible, Released, StoppedDead, AskedAgainLater, FreeSlot;
  }

  lemma GateBooksNothing(s: State, e: Event, s': State)
    requires WellFormed(s) && Gates(e) && GateStep(s, e, s')
    ensures NothingBooked(s, s')
  {
    hide WellFormed, SenderAllowed, DispatchFailed, SuppressedAtGate;
  }

  lemma LandBooksNothing(s: State, e: Event, s': State)
    requires WellFormed(s) && Lands(e) && LandStep(s, e, s')
    ensures NothingBooked(s, s')
  {
    hide WellFormed, SentLead, SoftFailed, BouncedAtSend, RetryAt, CampaignOf;
  }

  lemma AnswerBooksNothing(s: State, e: Event, s': State)
    requires WellFormed(s) && Answers(e) && AnswerStep(s, e, s')
    ensures NothingBooked(s, s')
  {
    hide WellFormed, Known, BouncedByReport;
  }

  lemma OtherBooksNothing(s: State, e: Event, s': State)
    requires Steps(s, e, s') && !Starts(e) && !Gates(e) && !Lands(e) && !Answers(e) && !e.Books? && !e.Requeues?
    ensures NothingBooked(s, s')
  {
    hide WellFormed, SuppressWhere, EverOpened, CampaignOf;
  }

  lemma StepBooksNothing(s: State, e: Event, s': State)
    requires Steps(s, e, s') && !e.Books? && !e.Requeues?
    ensures NothingBooked(s, s')
  {
    hide NothingBooked;
    if Starts(e) {
      StartBooksNothing(s, e, s');
    } else if Gates(e) {
      GateBooksNothing(s, e, s');
    } else if Lands(e) {
      LandBooksNothing(s, e, s');
    } else if Answers(e) {
      AnswerBooksNothing(s, e, s');
    } else {
      OtherBooksNothing(s, e, s');
    }
  }

  // What is logged later says nothing about the day before an earlier booking.
  lemma PaceStaysOk(s: State, s': State, m: MailboxId, p: Paced)
    requires LogGrows(s, s') && p.at <= s.now && PaceOk(s.log, m, p)
    ensures PaceOk(s'.log, m, p)
  {
    if i :| 0 <= i < |s'.log| && DeferredBetween(s'.log[i], m, p.at - DAY_MS, p.at) {
      assert s'.log[i] == s.log[i];
    }
  }

  lemma PacesStayOk(s: State, s': State)
    requires PacesOk(s) && LogGrows(s, s')
    ensures forall j :: j in s.hist.paces ==>
      s.hist.paces[j].at <= s'.now && PaceOk(s'.log, j.mailbox, s.hist.paces[j])
    ensures forall k :: 0 <= k < |s.hist.sends| ==>
      var r := s.hist.sends[k]; r.bookedAt <= s'.now && PaceOk(s'.log, r.mailbox, Paced(r.pace, r.bookedAt))
  {
    hide PaceOk;
    forall j | j in s.hist.paces ensures PaceOk(s'.log, j.mailbox, s.hist.paces[j]) {
      PaceStaysOk(s, s', j.mailbox, s.hist.paces[j]);
    }
    forall k | 0 <= k < |s.hist.sends|
      ensures PaceOk(s'.log, s.hist.sends[k].mailbox, Paced(s.hist.sends[k].pace, s.hist.sends[k].bookedAt))
    {
      PaceStaysOk(s, s', s.hist.sends[k].mailbox, Paced(s.hist.sends[k].pace, s.hist.sends[k].bookedAt));
    }
  }

  lemma BookPacesOk(s: State, b: Booking)
    requires WellFormed(s) && PacesOk(s) && BookOk(s, b)
    ensures PacesOk(Book(s, b))
  {
    hide WellFormed, PaceOk, BookOk;
    BookedPaceOk(s, b);
  }

  lemma BookedPaceOk(s: State, b: Booking)
    requires WellFormed(s) && BookOk(s, b)
    ensures PaceOk(s.log, b.mailbox, Paced(b.pace, s.now)) && b.lead in s.leads
  {
    hide WellFormed, InPool, DueFollowUp, RoomForNewLead, WindowOf, NextSlotSeconds;
    if i :| 0 <= i < |s.log| && DeferredBetween(s.log[i], b.mailbox, s.now - DAY_MS, s.now) {
      assert Slowed(s, b.mailbox);
    }
  }

  lemma StepPacesOk(s: State, e: Event, s': State)
    requires Inv(s) && PacesOk(s) && Steps(s, e, s') && Frame(s, e, s') && !e.Requeues?
    ensures PacesOk(s')
  {
    hide Inv, PacesOk, WellFormed;
    if e.Books? {
      BookPacesOk(s, e.b);
    } else {
      StepBooksNothing(s, e, s');
      PacesStayOk(s, s');
      UnbookedPacesOk(s, e, s');
    }
  }

  lemma UnbookedPacesOk(s: State, e: Event, s': State)
    requires WellFormed(s) && PacesOk(s) && Steps(s, e, s') && SendsGrow(s, e, s') && NothingBooked(s, s')
    requires forall j :: j in s.hist.paces ==>
      s.hist.paces[j].at <= s'.now && PaceOk(s'.log, j.mailbox, s.hist.paces[j])
    requires forall k :: 0 <= k < |s.hist.sends| ==>
      var r := s.hist.sends[k]; r.bookedAt <= s'.now && PaceOk(s'.log, r.mailbox, Paced(r.pace, r.bookedAt))
    ensures PacesOk(s')
  {
    hide WellFormed, PaceOk, StartStep, GateStep, AnswerStep, SuppressStep, OtherStep, GiveLabel, SentLead;
    if e.Delivers? {
      var job, r := s.flight.value.job, s'.hist.sends[|s.hist.sends|];
      assert job in Live(s);
      assert r.mailbox == job.mailbox && Paced(r.pace, r.bookedAt) == s.hist.paces[job];
    }
  }

  lemma {:induction false} PacesKept(ss: seq<State>, es: seq<Event>, i: nat)
    requires IsRun(ss, es) && i < |ss|
    requires forall k :: 0 <= k < i ==> OnTimeAt(ss, es, k)
    ensures PacesOk(ss[i])
  {
    hide Inv, WellFormed, Steps, Frame;
    if i > 0 {
      PacesKept(ss, es, i - 1);
      RunFrame(ss, es, i - 1);
      assert StepAt(ss, es, i - 1) && OnTimeAt(ss, es, i - 1);
      StepPacesOk(ss[i - 1], es[i - 1], ss[i]);
    }
  }

  // Any two sends of one mailbox are at least 8 minutes apart; and at least 16 when the provider had
  // deferred a send of that mailbox in the day before the later one was booked.
  lemma Cadence(ss: seq<State>, es: seq<Event>, i: nat, a: nat, b: nat)
    requires IsRun(ss, es) && i < |ss|
    requires forall k :: 0 <= k < i ==> OnTimeAt(ss, es, k)
    requires a < b < |ss[i].hist.sends| && ss[i].hist.sends[a].mailbox == ss[i].hist.sends[b].mailbox
    ensures var s, early, late := ss[i], ss[i].hist.sends[a], ss[i].hist.sends[b];
            && early.at + 8 * MINUTE_MS <= late.at
            && ((exists k :: 0 <= k < |s.log| && s.log[k].mailbox == late.mailbox
                             && s.log[k].status == LogFailed && s.log[k].deferral
                             && late.bookedAt - DAY_MS < s.log[k].at < late.bookedAt) ==>
                  early.at + 16 * MINUTE_MS <= late.at)
  {
    hide IsRun, OnTimeAt, ReservationsOk, JobsSpaced;
    CadenceKeeps(ss, es, i);
    PacesKept(ss, es, i);
    var s, late := ss[i], ss[i].hist.sends[b];
    assert PaceOk(s.log, late.mailbox, Paced(late.pace, late.bookedAt));
    assert forall k :: 0 <= k < |s.log| && s.log[k].mailbox == late.mailbox && s.log[k].status == LogFailed
                       && s.log[k].deferral && late.bookedAt - DAY_MS < s.log[k].at < late.bookedAt ==>
      DeferredBetween(s.log[k], late.mailbox, late.bookedAt - DAY_MS, late.bookedAt);
  }

  // ----- The booking a send goes back to -----

  // Event `k` of the run booked that lead on that mailbox at that time.
  ghost predicate BookedIn(ss: seq<State>, es: seq<Event>, k: nat, l: LeadId, m: MailboxId, at: Time)
    requires |ss| == |es| + 1 && k < |es|
  {
    es[k].Books? && es[k].b.lead == l && es[k].b.mailbox == m && ss[k].now == at
  }

  ghost predicate BookedBefore(ss: seq<State>, es: seq<Event>, i: nat, l: LeadId, m: MailboxId, at: Time)
    requires |ss| == |es| + 1 && i <= |es|
  {
    exists k :: 0 <= k < i && BookedIn(ss, es, k, l, m, at)
  }

  ghost predicate JobsBooked(ss: seq<State>, es: seq<Event>, i: nat)
    requires |ss| == |es| + 1 && i <= |es|
  {
    forall j :: j in ss[i].hist.paces ==> BookedBefore(ss, es, i, j.lead, j.mailbox, ss[i].hist.paces[j].at)
  }

  ghost predicate SendsBooked(ss: seq<State>, es: seq<Event>, i: nat)
    requires |ss| == |es| + 1 && i <= |es|
  {
    forall n :: 0 <= n < |ss[i].hist.sends| ==>
      var r := ss[i].hist.sends[n]; BookedBefore(ss, es, i, r.lead, r.mailbox, r.bookedAt)
  }

  lemma StillBooked(ss: seq<State>, es: seq<Event>, i: nat, l: LeadId, m: MailboxId, at: Time)
    requires |ss| == |es| + 1 && i < |es| && BookedBefore(ss, es, i, l, m, at)
    ensures BookedBefore(ss, es, i + 1, l, m, at)
  {
  }

  lemma StepBooked(ss: seq<State>, es: seq<Event>, i: nat)
    requires |ss| == |es| + 1 && i < |es| && Steps(ss[i], es[i], ss[i + 1]) && SendsGrow(ss[i], es[i], ss[i + 1])
    requires JobsBooked(ss, es, i) && SendsBooked(ss, es, i) && PacesOk(ss[i]) && !es[i].Requeues?
    ensures JobsBooked(ss, es, i + 1) && SendsBooked(ss, es, i + 1)
  {
    hide Steps, JobsBooked, SendsBooked, NothingBooked, PacesOk, SendsGrow, PacesFrom, SendsFrom;
    var s, e, s' := ss[i], es[i], ss[i + 1];
    if !e.Books? {
      StepBooksNothing(s, e, s');
    }
    PacesComeFrom(s, e, s');
    JobsStayBooked(ss, es, i);
    SendsStayBooked(ss, es, i);
  }

  lemma JobsStayBooked(ss: seq<State>, es: seq<Event>, i: nat)
    requires |ss| == |es| + 1 && i < |es| && JobsBooked(ss, es, i) && PacesFrom(ss[i], es[i], ss[i + 1])
    ensures JobsBooked(ss, es, i + 1)
  {
    hide BookedBefore;
    var s, s' := ss[i], ss[i + 1];
    forall j | j in s'.hist.paces ensures BookedBefore(ss, es, i + 1, j.lead, j.mailbox, s'.hist.paces[j].at) {
      if j in s.hist.paces && s'.hist.paces[j] == s.hist.paces[j] {
        StillBooked(ss, es, i, j.lead, j.mailbox, s.hist.paces[j].at);
      } else {
        BookedNow(ss, es, i, j.lead, j.mailbox);
      }
    }
  }

  lemma SendsStayBooked(ss: seq<State>, es: seq<Event>, i: nat)
    requires |ss| == |es| + 1 && i < |es| && JobsBooked(ss, es, i) && SendsBooked(ss, es, i)
    requires SendsFrom(ss[i], ss[i + 1])
    ensures SendsBooked(ss, es, i + 1)
  {
    hide BookedBefore;
    var s, s' := ss[i], ss[i + 1];
    forall n | 0 <= n < |s'.hist.sends|
      ensures var r := s'.hist.sends[n]; BookedBefore(ss, es, i + 1, r.lead, r.mailbox, r.bookedAt)
    {
      var r := s'.hist.sends[n];
      if n < |s.hist.sends| {
        assert r == s.hist.sends[n];
        StillBooked(ss, es, i, r.lead, r.mailbox, r.bookedAt);
      } else {
        assert FromPaces(s, r);
        var j :| j in s.hist.paces && r.lead == j.lead && r.mailbox == j.mailbox && r.bookedAt == s.hist.paces[j].at;
        StillBooked(ss, es, i, j.lead, j.mailbox, s.hist.paces[j].at);
      }
    }
  }

  lemma BookedNow(ss: seq<State>, es: seq<Event>, i: nat, l: LeadId, m: MailboxId)
    requires |ss| == |es| + 1 && i < |es| && es[i].Books? && es[i].b.lead == l && es[i].b.mailbox == m
    ensures BookedBefore(ss, es, i + 1, l, m, ss[i].now)
  {
    assert BookedIn(ss, es, i, l, m, ss[i].now);
  }

  // A job on record is one booked now or recorded before; a send is one of the jobs recorded before.
  ghost predicate PacesFrom(s: State, e: Event, s': State) {
    forall j :: j in s'.hist.paces ==>
      || (j in s.hist.paces && s'.hist.paces[j] == s.hist.paces[j])
      || (e.Books? && e.b.lead == j.lead && e.b.mailbox == j.mailbox && s'.hist.paces[j].at == s.now)
  }

  ghost predicate FromPaces(s: State, r: SendRecord) {
    exists j :: j in s.hist.paces && r.lead == j.lead && r.mailbox == j.mailbox && r.bookedAt == s.hist.paces[j].at
  }

  ghost predicate SendsFrom(s: State, s': State) {
    && |s.hist.sends| <= |s'.hist.sends|
    && (forall n :: 0 <= n < |s.hist.sends| ==> s'.hist.sends[n] == s.hist.sends[n])
    && (forall n :: |s.hist.sends| <= n < |s'.hist.sends| ==> FromPaces(s, s'.hist.sends[n]))
  }

  lemma PacesComeFrom(s: State, e: Event, s': State)
    requires Steps(s, e, s') && SendsGrow(s, e, s') && PacesOk(s) && !e.Requeues?
    requires !e.Books? ==> NothingBooked(s, s')
    ensures PacesFrom(s, e, s') && SendsFrom(s, s')
  {
    hide WellFormed, PaceOk, StartStep, GateStep, AnswerStep, SuppressStep, GiveLabel, SentLead, BookOk;
    if e.Delivers? {
      var job, r := s.flight.value.job, s'.hist.sends[|s.hist.sends|];
      assert job in Live(s) && job in s.hist.paces;
      assert r.lead == job.lead && r.mailbox == job.mailbox && r.bookedAt == s.hist.paces[job].at;
      assert FromPaces(s, r);
    }
  }

  // `bookedAt` is what it says: an event of the run booked that lead on that mailbox at that time.
  lemma {:induction false} SentAsBooked(ss: seq<State>, es: seq<Event>, i: nat)
    requires IsRun(ss, es) && i < |ss|
    requires forall k :: 0 <= k < i ==> OnTimeAt(ss, es, k)
    ensures JobsBooked(ss, es, i) && SendsBooked(ss, es, i)
  {
    hide Inv, WellFormed, Steps, PacesOk, SendsGrow, JobsBooked, SendsBooked;
    if i == 0 {
      NothingBookedYet(ss, es);
    } else {
      SentAsBooked(ss, es, i - 1);
      PacesKept(ss, es, i - 1);
      RunFrame(ss, es, i - 1);
      assert StepAt(ss, es, i - 1) && OnTimeAt(ss, es, i - 1);
      StepBooked(ss, es, i - 1);
    }
  }

  lemma NothingBookedYet(ss: seq<State>, es: seq<Event>)
    requires IsRun(ss, es)
    ensures JobsBooked(ss, es, 0) && SendsBooked(ss, es, 0)
  {
  }
}

// The daily limit in terms of the emails delivered, whatever the log's rows have been marked since.
module DeliveryRun {
  import opened Basics
  import opened Model
  import opened Protocol
  import opened Invariants
  import opened Frames
  import opened RollingRun
  import opened CadenceRun

  // Emails of `m` delivered in the window (from, to].
  function DeliveredWithin(sends: seq<SendRecord>, m: MailboxId, from: Time, to: Time): nat {
    if |sends| == 0 then 0
    else
      var r := sends[|sends| - 1];
      DeliveredWithin(sends[..|sends| - 1], m, from, to) + if r.mailbox == m && from < r.at <= to then 1 else 0
  }

  ghost predicate AllLogged(s: State) {
    forall m, from, to :: DeliveredWithin(s.hist.sends, m, from, to) <= SendsWithin(s.log, m, from, to)
  }

  // Rows added or marked bounced never take a send off the count.
  lemma {:induction false} GrownCountsMore(log: seq<LogRow>, log': seq<LogRow>, m: MailboxId, from: Time, to: Time)
    requires |log| <= |log'|
    requires forall i :: 0 <= i < |log| ==>
      log'[i].mailbox == log[i].mailbox && log'[i].at == log[i].at
      && (log[i].status != LogFailed ==> log'[i].status != LogFailed)
    ensures SendsWithin(log, m, from, to) <= SendsWithin(log', m, from, to)
    decreases |log'|
  {
    if |log'| > |log| {
      GrownCountsMore(log, log'[..|log'| - 1], m, from, to);
    } else if |log| > 0 {
      GrownCountsMore(log[..|log| - 1], log'[..|log'| - 1], m, from, to);
    }
  }

  lemma DeliveryIsLogged(s: State, s': State, m: MailboxId, from: Time, to: Time)
    requires Steps(s, Delivers, s') && DeliveredWithin(s.hist.sends, m, from, to) <= SendsWithin(s.log, m, from, to)
    ensures DeliveredWithin(s'.hist.sends, m, from, to) <= SendsWithin(s'.log, m, from, to)
  {
    hide Steps, DeliveredWithin, SendsWithin;
    var row, r := DeliveryAppends(s, s');
    BothMore(s.log, row, s.hist.sends, r, m, from, to);
  }

  lemma DeliveryAppends(s: State, s': State) returns (row: LogRow, r: SendRecord)
    requires Steps(s, Delivers, s')
    ensures s'.log == s.log + [row] && s'.hist.sends == s.hist.sends + [r]
    ensures row.mailbox == r.mailbox && row.at == r.at && row.status == LogSent
  {
    hide WellFormed, SentLead, PaceOf, BookedAt;
    row, r := s'.log[|s.log|], s'.hist.sends[|s.hist.sends|];
  }

  lemma BothMore(log: seq<LogRow>, row: LogRow, sends: seq<SendRecord>, r: SendRecord, m: MailboxId, from: Time, to: Time)
    requires row.mailbox == r.mailbox && row.at == r.at && row.status == LogSent
    requires DeliveredWithin(sends, m, from, to) <= SendsWithin(log, m, from, to)
    ensures DeliveredWithin(sends + [r], m, from, to) <= SendsWithin(log + [row], m, from, to)
  {
    assert (log + [row])[..|log|] == log && (sends + [r])[..|sends|] == sends;
  }

  lemma RowsStay(s: State, e: Event, s': State)
    requires Steps(s, e, s')
    ensures |s.log| <= |s'.log|
    ensures forall i :: 0 <= i < |s.log| ==>
      s'.log[i].mailbox == s.log[i].mailbox && s'.log[i].at == s.log[i].at
      && (s.log[i].status != LogFailed ==> s'.log[i].status != LogFailed)
  {
    hide WellFormed, StartStep, GateStep, LandStep, SuppressStep, GiveLabel, BookOk;
    if !e.Books? && !e.Requeues? {
      StepBooksNothing(s, e, s');
    }
  }

  lemma StepLogged(s: State, e: Event, s': State)
    requires Steps(s, e, s') && SendsGrow(s, e, s') && AllLogged(s)
    ensures AllLogged(s')
  {
    RowsStay(s, e, s');
    hide Steps, SendsWithin, DeliveredWithin;
    forall m, from, to ensures DeliveredWithin(s'.hist.sends, m, from, to) <= SendsWithin(s'.log, m, from, to) {
      if e.Delivers? {
        DeliveryIsLogged(s, s', m, from, to);
      } else {
        GrownCountsMore(s.log, s'.log, m, from, to);
      }
    }
  }

  lemma {:induction false} DeliveriesLogged(ss: seq<State>, es: seq<Event>, i: nat)
    requires IsRun(ss, es) && i < |ss|
    ensures AllLogged(ss[i])
  {
    hide Inv, WellFormed, Steps, SendsGrow, AllLogged;
    if i == 0 {
      NothingDelivered(ss[0]);
    } else {
      DeliveriesLogged(ss, es, i - 1);
      RunFrame(ss, es, i - 1);
      assert StepAt(ss, es, i - 1);
      StepLogged(ss[i - 1], es[i - 1], ss[i]);
    }
  }

  lemma NothingDelivered(s: State)
    requires Fresh(s)
    ensures AllLogged(s)
  {
  }

  // No mailbox delivers more than its daily limit in any 24 hours.
  lemma DeliveredLimit(ss: seq<State>, es: seq<Event>, i: nat, m: MailboxId, from: Time)
    requires IsRun(ss, es) && i < |ss| && m in ss[i].mailboxes
    ensures DeliveredWithin(ss[i].hist.sends, m, from, from + DAY_MS) <= ss[i].mailboxes[m].dailyCap
  {
    hide IsRun, SendsWithin, DeliveredWithin;
    DeliveriesLogged(ss, es, i);
    var last := RollingLimit(ss, es, i, m, from);
  }
}

// No follow-up goes to someone who answered, and no blocked address is ever sent to.
module AnswerRun {
  import opened Basics
  import opened Model
  import opened ReplyOutcome
  import opened Protocol
  import opened Invariants
  import opened Frames

  // A follow-up is never dispatched to a lead with a stored reply that ends its sequence, whatever
  // status a send that finished late has written back.
  lemma NoFollowUpToAnswered(s: State, job: JobId)
    requires Inv(s) && Due(s, job) && job.lead in s.leads && Eligible(s, job)
    requires s.leads[job.lead].stepsSent > 0
    ensures !HasEndingReply(s.replies, job.lead)
  {
    LiveJobRow(s, job);
    assert AnswerOk(job.lead, s.leads[job.lead], s.replies);
  }

  // Gives reply `n` a label that lets the sequence go on.
  predicate LetsGo(e: Event, n: nat) {
    e.Labels? && e.i == n && KeepsSequence(e.tag)
  }

  lemma AnswerStays(s: State, e: Event, s': State, n: nat, l: LeadId)
    requires Frame(s, e, s') && n < |s.replies| && Ends(s.replies[n], l) && !LetsGo(e, n)
    ensures n < |s'.replies| && Ends(s'.replies[n], l)
  {
  }

  lemma DispatchOfAnswered(s: State, e: Event, s': State)
    requires Inv(s) && Steps(s, e, s') && e.Dispatches?
    ensures e.job.lead in s.leads
    ensures s.leads[e.job.lead].stepsSent > 0 ==> !HasEndingReply(s.replies, e.job.lead)
  {
    if s.leads[e.job.lead].stepsSent > 0 {
      NoFollowUpToAnswered(s, e.job);
    }
  }

  // Once an answer is stored, and until it is labelled an away notice or an auto-reply, no follow-up
  // for its lead is dispatched. One not labelled yet is an answer.
  lemma NoFollowUpAfterAnswer(ss: seq<State>, es: seq<Event>, i: nat, j: nat, n: nat, l: LeadId)
    requires IsRun(ss, es) && i <= j < |es|
    requires n < |ss[i].replies| && ss[i].replies[n].lead == l
    requires ss[i].replies[n].tag != OutOfOffice && ss[i].replies[n].tag != AutoReply
    requires forall k :: i <= k < j && es[k].Labels? && es[k].i == n ==> es[k].tag != OutOfOffice && es[k].tag != AutoReply
    ensures n < |ss[j].replies| && ss[j].replies[n].lead == l
    ensures ss[j].replies[n].tag != OutOfOffice && ss[j].replies[n].tag != AutoReply
    ensures es[j].Dispatches? && es[j].job.lead == l ==> l in ss[j].leads && ss[j].leads[l].stepsSent == 0
  {
    AnswerHolds(ss, es, i, j, n, l);
  }

  lemma {:induction false} AnswerHolds(ss: seq<State>, es: seq<Event>, i: nat, j: nat, n: nat, l: LeadId)
    requires IsRun(ss, es) && i <= j < |es|
    requires n < |ss[i].replies| && Ends(ss[i].replies[n], l)
    requires forall k :: i <= k < j ==> !LetsGo(es[k], n)
    ensures n < |ss[j].replies| && Ends(ss[j].replies[n], l)
    ensures es[j].Dispatches? && es[j].job.lead == l ==> l in ss[j].leads && ss[j].leads[l].stepsSent == 0
    decreases j - i
  {
    hide Inv, Frame, Steps;
    if i < j {
      AnswerHolds(ss, es, i, j - 1, n, l);
      RunFrame(ss, es, j - 1);
      AnswerStays(ss[j - 1], es[j - 1], ss[j], n, l);
    }
    if es[j].Dispatches? {
      RunKeeps(ss, es, j);
      assert StepAt(ss, es, j);
      DispatchOfAnswered(ss[j], es[j], ss[j + 1]);
    }
  }

  // ----- The suppression floor -----

  lemma TransportIsAllowed(s: State, e: Event, s': State)
    requires Steps(s, e, s') && e.Transports?
    ensures s.flight.Some? && s.flight.value.email !in s.blocked
  {
  }

  // Once an address is listed, and until it is unblocked, no send to it passes the gate, whatever
  // the statuses of the leads that carry it.
  lemma {:induction false} SuppressionFloor(ss: seq<State>, es: seq<Event>, i: nat, j: nat, email: Email)
    requires IsRun(ss, es) && i <= j < |es| && email in ss[i].blocked
    requires forall k :: i <= k < j ==> es[k] != Unblocks(email)
    ensures email in ss[j].blocked && ss[j].blocked[email] == ss[i].blocked[email]
    ensures es[j].Transports? ==> ss[j].flight.Some? && ss[j].flight.value.email != email
    decreases j - i
  {
    if i < j {
      SuppressionFloor(ss, es, i, j - 1, email);
      RunFrame(ss, es, j - 1);
    }
    if es[j].Transports? {
      assert StepAt(ss, es, j);
      TransportIsAllowed(ss[j], es[j], ss[j + 1]);
    }
  }

  // A status of SUPPRESSED is not what protects the address: a send already past the gate when the
  // address is listed still finishes, and writes CONTACTED over it.
  lemma SuppressedIsOverwritten(s: State, entry: Entry)
    requires Inv(s) && AtTransport(s)
    ensures var l := s.flight.value.job.lead;
            var listed := Block(s, FlyingLead(s).email, entry);
            && listed.leads[l].status == Suppressed
            && AtTransport(listed) && Steps(listed, Delivers, Deliver(listed))
            && Deliver(listed).leads[l].status == Contacted
  {
    hide JobsOk, FlightOk, RowsOk, Steps, Deliver, ValidCampaign;
    var listed := Block(s, FlyingLead(s).email, entry);
    BlockKeeps(s, FlyingLead(s).email, entry);
    DeliveryIsOneStep(listed);
  }

  lemma DeliveryIsOneStep(s: State)
    requires WellFormed(s) && AtTransport(s)
    ensures Steps(s, Delivers, Deliver(s))
    ensures Deliver(s).leads[s.flight.value.job.lead].status == if FlyingLead(s).status == Opened then Opened else Contacted
  {
    hide WellFormed;
  }
}

// While an away notice holds a lead, nothing goes out to it, unless an email was on its way when the
// notice was labelled: what that one's end writes comes over the hold.
module AwayRun {
  import opened Basics
  import opened Sequence
  import opened Model
  import opened ReplyOutcome
  import opened Protocol
  import opened Invariants
  import opened Frames
  import AnswerRun

  // Reply `n` is an away notice of `l`, who is away until `until` by it.
  predicate Notice(s: State, n: nat, l: LeadId, until: Time) {
    && n < |s.replies| && s.replies[n].lead == l && s.replies[n].tag == OutOfOffice
    && until == if s.replies[n].returnDate.Some? then s.replies[n].returnDate.value + DAY_MS
                else s.replies[n].repliedAt + 7 * DAY_MS
  }

  predicate InTheAir(s: State, l: LeadId) {
    s.flight.Some? && s.flight.value.job.lead == l
  }

  // The lead's next email is not due before.
  predicate HeldBack(lead: Lead, replies: seq<Reply>, l: LeadId, until: Time) {
    Running(lead.status) && lead.nextStepAt.Some? && !HasEndingReply(replies, l) ==> lead.nextStepAt.value >= until
  }

  ghost predicate Away(s: State, n: nat, l: LeadId, until: Time) {
    && Notice(s, n, l, until) && l in s.leads && s.leads[l].stepsSent > 0
    && (s.now >= until || (!InTheAir(s, l) && HeldBack(s.leads[l], s.replies, l, until)))
  }

  // ----- Steps -----

  // A row that is left held back as it was.
  predicate KeepsHold(was: Lead, row: Lead) {
    && row.stepsSent == was.stepsSent
    && (Running(row.status) ==> Running(was.status))
    && (row.nextStepAt.Some? ==> row.nextStepAt == was.nextStepAt)
  }

  lemma HoldGoesOn(s: State, s': State, n: nat, l: LeadId, until: Time)
    requires Away(s, n, l, until) && s.now <= s'.now && l in s'.leads && KeepsHold(s.leads[l], s'.leads[l])
    requires s'.replies == s.replies && (InTheAir(s', l) ==> InTheAir(s, l) || s'.now >= until)
    ensures Away(s', n, l, until)
  {
  }

  lemma StartHolds(s: State, e: Event, s': State, n: nat, l: LeadId, until: Time)
    requires Inv(s) && Away(s, n, l, until) && Starts(e) && StartStep(s, e, s')
    ensures Away(s', n, l, until)
  {
    hide JobsOk, FlightOk, Eligible, WellFormed, HasEndingReply, Away, HeldBack;
    if e.Dispatches? && e.job.lead == l {
      DispatchIsLate(s, e.job, n, l, until);
    }
    assert l in s.leads && s.leads[l].stepsSent > 0 && Notice(s, n, l, until) by { AwayRow(s, n, l, until); }
    HoldGoesOn(s, s', n, l, until);
  }

  lemma AwayRow(s: State, n: nat, l: LeadId, until: Time)
    requires Away(s, n, l, until)
    ensures l in s.leads && s.leads[l].stepsSent > 0 && Notice(s, n, l, until)
  {
  }

  // A follow-up that is dispatched is due, and so the hold is over.
  lemma DispatchIsLate(s: State, job: JobId, n: nat, l: LeadId, until: Time)
    requires Inv(s) && Away(s, n, l, until) && Due(s, job) && job.lead == l && Eligible(s, job)
    ensures s.now >= until
  {
    hide JobsOk, FlightOk, WellFormed, HasEndingReply;
    AnswerRun.NoFollowUpToAnswered(s, job);
  }

  lemma GateHolds(s: State, e: Event, s': State, n: nat, l: LeadId, until: Time)
    requires WellFormed(s) && Away(s, n, l, until) && Gates(e) && GateStep(s, e, s')
    ensures Away(s', n, l, until)
  {
    hide WellFormed, SenderAllowed, HasEndingReply, DispatchFailed;
    if s.flight.value.job.lead == l {
      GateKeepsAway(s, e, s', n, l, until);
    }
  }

  lemma GateKeepsAway(s: State, e: Event, s': State, n: nat, l: LeadId, until: Time)
    requires WellFormed(s) && Away(s, n, l, until) && Gates(e) && GateStep(s, e, s') && InTheAir(s, l)
    ensures Away(s', n, l, until)
  {
    hide WellFormed, SenderAllowed, HasEndingReply;
  }

  lemma LandHolds(s: State, e: Event, s': State, n: nat, l: LeadId, until: Time)
    requires WellFormed(s) && Away(s, n, l, until) && Lands(e) && LandStep(s, e, s')
    ensures Away(s', n, l, until)
  {
    hide WellFormed, RetryAt, HasEndingReply, CampaignOf, PaceOf, BookedAt, FlightRow, NextStepAtAfter;
  }

  lemma AnswerHolds(s: State, e: Event, s': State, n: nat, l: LeadId, until: Time)
    requires WellFormed(s) && Away(s, n, l, until) && Answers(e) && AnswerStep(s, e, s')
    ensures Away(s', n, l, until)
  {
    hide WellFormed, Known, MarkBounced;
    if HasEndingReply(s.replies, l) {
      var i :| 0 <= i < |s.replies| && Ends(s.replies[i], l);
      assert Ends(s'.replies[i], l);
    }
  }

  lemma LabelHolds(s: State, e: Event, s': State, n: nat, l: LeadId, until: Time)
    requires Steps(s, e, s') && e.Labels? && e.i != n && Away(s, n, l, until)
    ensures Away(s', n, l, until)
  {
    hide WellFormed, EverOpened, CampaignOf;
    var own := s.replies[e.i].lead;
    if own == l {
      LabelledIsHeld(s, e.i, e.tag, n, l, until);
    } else if HasEndingReply(s.replies, l) {
      var i :| 0 <= i < |s.replies| && Ends(s.replies[i], l);
      assert Ends(s'.replies[i], l);
    }
  }

  // Whatever the label, the lead it is about is held back as the notices say.
  lemma LabelledIsHeld(s: State, i: nat, tag: Label, n: nat, l: LeadId, until: Time)
    requires WellFormed(s) && CanLabel(s, i) && s.replies[i].lead == l && l in s.leads
    requires Notice(GiveLabel(s, i, tag), n, l, until)
    ensures var after := GiveLabel(s, i, tag); l in after.leads && HeldBack(after.leads[l], after.replies, l, until)
  {
    hide EverOpened, HeldUntil;
    var after := Labelled(s.replies, i, tag);
    var scheduled := Scheduled(s.leads[l], CampaignOf(s, l).steps);
    if scheduled.Some? {
      HeldIsHold(after, l, scheduled.value);
      assert after[n].lead == l && after[n].tag == OutOfOffice;
    }
    if !KeepsSequence(tag) {
      assert Ends(after[i], l);
    }
  }

  lemma OtherHolds(s: State, e: Event, s': State, n: nat, l: LeadId, until: Time)
    requires Inv(s) && WellFormed(s) && OtherStep(s, e, s') && Away(s, n, l, until)
    ensures Away(s', n, l, until)
  {
    hide JobsOk, FlightOk, WellFormed, HasEndingReply, SlotChosen, InPool, RoomForNewLead, CampaignOf;
    assert LeadOk(l, s.leads[l], s.now);
    hide RowsOk;
  }

  lemma SuppressHolds(s: State, e: Event, s': State, n: nat, l: LeadId, until: Time)
    requires WellFormed(s) && Suppresses(e) && SuppressStep(s, e, s') && Away(s, n, l, until)
    ensures Away(s', n, l, until)
  {
    hide WellFormed, HasEndingReply;
  }

  lemma StepHolds(s: State, e: Event, s': State, n: nat, l: LeadId, until: Time)
    requires Inv(s) && Steps(s, e, s') && Away(s, n, l, until) && !(e.Labels? && e.i == n)
    ensures Away(s', n, l, until)
  {
    hide Inv, Away, WellFormed;
    assert WellFormed(s);
    if Starts(e) {
      StartHolds(s, e, s', n, l, until);
    } else if Gates(e) {
      GateHolds(s, e, s', n, l, until);
    } else if Lands(e) {
      LandHolds(s, e, s', n, l, until);
    } else if Answers(e) {
      AnswerHolds(s, e, s', n, l, until);
    } else if e.Labels? {
      LabelHolds(s, e, s', n, l, until);
    } else if Suppresses(e) {
      SuppressHolds(s, e, s', n, l, until);
    } else {
      OtherHolds(s, e, s', n, l, until);
    }
  }

  // ----- Runs -----

  lemma {:induction false} StaysAway(ss: seq<State>, es: seq<Event>, i: nat, j: nat, n: nat, l: LeadId, until: Time)
    requires IsRun(ss, es) && i <= j < |ss| && Away(ss[i], n, l, until)
    requires forall k :: i <= k < j && es[k].Labels? ==> es[k].i != n
    ensures Away(ss[j], n, l, until)
    decreases j - i
  {
    hide Inv, Steps, Away;
    if i < j {
      StaysAway(ss, es, i, j - 1, n, l, until);
      RunKeeps(ss, es, j - 1);
      assert StepAt(ss, es, j - 1);
      StepHolds(ss[j - 1], es[j - 1], ss[j], n, l, until);
    }
  }

  // A reply labelled an away notice, with no email to its lead on the way, holds the follow-ups until
  // the day after the date it names, or a week after it came: until it is relabelled none is dispatched
  // before, whatever else arrives, fails, is relabelled or recovered meanwhile.
  lemma NoFollowUpWhileAway(ss: seq<State>, es: seq<Event>, i: nat, j: nat, n: nat)
    requires IsRun(ss, es) && i < j < |es|
    requires es[i] == Labels(n, OutOfOffice) && n < |ss[i].replies|
    requires var l := ss[i].replies[n].lead;
             && l in ss[i].leads && ss[i].leads[l].stepsSent > 0
             && (ss[i].flight.Some? ==> ss[i].flight.value.job.lead != l)
    requires forall k :: i < k < j && es[k].Labels? ==> es[k].i != n
    requires es[j].Dispatches? && es[j].job.lead == ss[i].replies[n].lead
    ensures var notice := ss[i].replies[n];
            ss[j].now >= if notice.returnDate.Some? then notice.returnDate.value + DAY_MS
                         else notice.repliedAt + 7 * DAY_MS
  {
    hide Inv, Steps, Away;
    var l, notice := ss[i].replies[n].lead, ss[i].replies[n];
    var until := if notice.returnDate.Some? then notice.returnDate.value + DAY_MS else notice.repliedAt + 7 * DAY_MS;
    assert StepAt(ss, es, i) && StepAt(ss, es, j);
    NoticeGiven(ss[i], es[i], ss[i + 1], l, until);
    StaysAway(ss, es, i + 1, j, n, l, until);
    RunKeeps(ss, es, j);
    DispatchedLate(ss[j], es[j], ss[j + 1], n, l, until);
  }

  lemma NoticeGiven(s: State, e: Event, s': State, l: LeadId, until: Time)
    requires Steps(s, e, s') && e.Labels? && e.tag == OutOfOffice && e.i < |s.replies| && s.replies[e.i].lead == l
    requires l in s.leads && s.leads[l].stepsSent > 0 && !InTheAir(s, l)
    requires until == if s.replies[e.i].returnDate.Some? then s.replies[e.i].returnDate.value + DAY_MS
                      else s.replies[e.i].repliedAt + 7 * DAY_MS
    ensures Away(s', e.i, l, until)
  {
    hide EverOpened, HasEndingReply;
    LabelledIsHeld(s, e.i, e.tag, e.i, l, until);
    hide WellFormed, HeldBack;
  }

  lemma DispatchedLate(s: State, e: Event, s': State, n: nat, l: LeadId, until: Time)
    requires Inv(s) && Steps(s, e, s') && e.Dispatches? && e.job.lead == l && Away(s, n, l, until)
    ensures s.now >= until
  {
    hide RowsOk, JobsOk, FlightOk, WellFormed, Eligible, Away;
    DispatchIsLate(s, e.job, n, l, until);
  }

  // ----- An email on its way -----

  // A follow-up at the checks of a send, to a lead held back meanwhile. Its refusal keeps the hold
  // exactly when the lead was taken off the queue, or is due no more, or the hold is over in an hour.
  lemma RefusalKeepsHoldIff(s: State, l: LeadId, until: Time)
    requires Inv(s) && AtGate(s) && InTheAir(s, l) && s.flight.value.followUp
    requires Running(s.leads[l].status) && !HasEndingReply(s.replies, l) && HeldBack(s.leads[l], s.replies, l, until)
    ensures Steps(s, Refuses, Refuse(s)) && l in Refuse(s).leads
    ensures HeldBack(Refuse(s).leads[l], Refuse(s).replies, l, until) <==>
      s.leads[l].queuedJobId.None? || s.leads[l].nextStepAt.None? || s.now + 60 * MINUTE_MS >= until
  {
    hide RowsOk, JobsOk, FlightOk, WellFormed, HasEndingReply, SenderAllowed;
  }

  // Its delivery keeps the hold exactly when no step is left, or the next one waits as long anyway.
  lemma DeliveryKeepsHoldIff(s: State, l: LeadId, until: Time)
    requires Inv(s) && AtTransport(s) && InTheAir(s, l) && !HasEndingReply(s.replies, l)
    ensures Steps(s, Delivers, Deliver(s)) && l in Deliver(s).leads
    ensures var steps, sent := s.campaigns[s.leads[l].campaign].steps, s.leads[l].stepsSent;
            HeldBack(Deliver(s).leads[l], Deliver(s).replies, l, until) <==>
              sent >= |steps| || s.now + steps[sent].waitDays * DAY_MS >= until
  {
    hide RowsOk, JobsOk, FlightOk, HasEndingReply, PaceOf, BookedAt;
    var campaign := s.campaigns[s.leads[l].campaign];
    assert ValidCampaign(s.zones, campaign);
    FollowUpWaitsADay(campaign.steps, s.leads[l].stepsSent + 1, s.now);
    hide WellFormed, NextStepAtAfter, ValidSteps;
  }

  // Its failure exactly when it was the last one, or its next try is that far.
  lemma FailureKeepsHoldIff(s: State, l: LeadId, until: Time, jitter: real, deferral: bool)
    requires Inv(s) && AtTransport(s) && InTheAir(s, l) && s.flight.value.followUp && 0.0 <= jitter < 1.0
    requires Running(s.leads[l].status) && !HasEndingReply(s.replies, l)
    ensures var retryAt := RetryAt(s.now, s.leads[l].retryCount, jitter);
            var failed := FailSoftly(s, retryAt, deferral);
            && Steps(s, FailsSoftly(jitter, deferral), failed) && l in failed.leads
            && (HeldBack(failed.leads[l], failed.replies, l, until) <==> s.leads[l].retryCount >= 3 || retryAt >= until)
  {
    hide RowsOk, JobsOk, WellFormed, HasEndingReply, RetryAt;
  }

  // So an away notice that comes while a follow-up is on its way is not waited for, when that follow-up
  // is refused: an hour later the lead, who is away, is due for it again.
  lemma HoldIsLost(s: State, n: nat, until: Time)
    requires Inv(s) && AtGate(s) && s.flight.value.followUp && CanLabel(s, n)
    requires s.replies[n].lead == s.flight.value.job.lead
    requires until == if s.replies[n].returnDate.Some? then s.replies[n].returnDate.value + DAY_MS
                      else s.replies[n].repliedAt + 7 * DAY_MS
    requires var lead := FlyingLead(s);
             lead.status == Replied && lead.queuedJobId.Some? && 1 <= lead.stepsSent <= |CampaignOf(s, s.flight.value.job.lead).steps|
    requires forall k :: 0 <= k < |s.replies| && k != n && s.replies[k].lead == s.replies[n].lead ==>
      s.replies[k].tag == OutOfOffice || s.replies[k].tag == AutoReply
    ensures var l, labelled := s.replies[n].lead, GiveLabel(s, n, OutOfOffice);
            && Steps(s, Labels(n, OutOfOffice), labelled)
            && l in labelled.leads && labelled.leads[l].nextStepAt.Some? && labelled.leads[l].nextStepAt.value >= until
            && AtGate(labelled) && Steps(labelled, Refuses, Refuse(labelled))
            && l in Refuse(labelled).leads && Refuse(labelled).leads[l].queuedJobId.None?
            && Refuse(labelled).leads[l].nextStepAt == Some(s.now + 60 * MINUTE_MS)
            && DueFollowUp(Refuse(labelled).(now := s.now + 60 * MINUTE_MS), l)
  {
    hide JobsOk, FlightOk, EverOpened, Refuse, Steps, DueFollowUp;
    var l := s.replies[n].lead;
    var labelled := GiveLabel(s, n, OutOfOffice);
    NoticeRestarts(s, n, until);
    LabelIsStep(s, n);
    RefusedIsDue(labelled, l);
  }

  lemma LabelIsStep(s: State, n: nat)
    requires WellFormed(s) && CanLabel(s, n)
    ensures Steps(s, Labels(n, OutOfOffice), GiveLabel(s, n, OutOfOffice))
  {
    hide WellFormed, GiveLabel;
  }

  lemma NoticeRestarts(s: State, n: nat, until: Time)
    requires Inv(s) && CanLabel(s, n)
    requires until == if s.replies[n].returnDate.Some? then s.replies[n].returnDate.value + DAY_MS
                      else s.replies[n].repliedAt + 7 * DAY_MS
    requires var lead := s.leads[s.replies[n].lead];
             lead.status == Replied && 1 <= lead.stepsSent <= |CampaignOf(s, s.replies[n].lead).steps|
    requires forall k :: 0 <= k < |s.replies| && k != n && s.replies[k].lead == s.replies[n].lead ==>
      s.replies[k].tag == OutOfOffice || s.replies[k].tag == AutoReply
    ensures var l, after := s.replies[n].lead, GiveLabel(s, n, OutOfOffice);
            && WellFormed(after) && l in after.leads && Running(after.leads[l].status)
            && after.leads[l].nextStepAt.Some? && after.leads[l].nextStepAt.value >= until
            && !HasEndingReply(after.replies, l)
            && after.leads[l].queuedJobId == s.leads[l].queuedJobId && after.leads[l].stepsSent == s.leads[l].stepsSent
            && after.flight == s.flight && after.now == s.now
  {
    hide JobsOk, FlightOk, EverOpened, HeldUntil;
    var l := s.replies[n].lead;
    var lead, steps, after := s.leads[l], CampaignOf(s, l).steps, Labelled(s.replies, n, OutOfOffice);
    assert LeadOk(l, lead, s.now) && ValidCampaign(s.zones, CampaignOf(s, l));
    FollowUpWaitsADay(steps, lead.stepsSent, lead.lastStepAt.value);
    forall k | 0 <= k < |after| ensures !Ends(after[k], l) {
      assert k != n ==> after[k] == s.replies[k];
    }
    HeldIsHold(after, l, Scheduled(lead, steps).value);
    assert after[n].lead == l && after[n].tag == OutOfOffice;
    hide RowsOk;
  }

  lemma RefusedIsDue(s: State, l: LeadId)
    requires WellFormed(s) && AtGate(s) && InTheAir(s, l) && s.flight.value.followUp
    requires Running(s.leads[l].status) && s.leads[l].queuedJobId.Some? && s.leads[l].nextStepAt.Some?
    requires !HasEndingReply(s.replies, l)
    ensures Steps(s, Refuses, Refuse(s)) && l in Refuse(s).leads && Refuse(s).leads[l].queuedJobId.None?
    ensures Refuse(s).leads[l].nextStepAt == Some(s.now + 60 * MINUTE_MS)
    ensures DueFollowUp(Refuse(s).(now := s.now + 60 * MINUTE_MS), l)
  {
    hide WellFormed, HasEndingReply, SenderAllowed;
  }
}

// No lead is left where nothing will pick it up again, but for two kinds of job that end without
// letting go of theirs.
module StrandedRun {
  import opened Basics
  import opened SendSchedule
  import opened SlotTiming
  import opened Sequence
  import opened Model
  import opened ReplyOutcome
  import opened Protocol
  import opened Invariants
  import opened Frames

  // ----- A finished job lets go of its lead -----

  // A lead names a finished job only when that job's webhook call never answered, or, for a follow-up,
  // when it was refused while the lead had no next step.
  ghost predicate LetGo(s: State) {
    && (forall j :: j in s.kept ==> j.slot <= s.now)
    && (forall l :: l in s.leads ==> LetGoRow(s.leads[l], s.kept, s.hist))
  }

  // A lead that is sent to, or may be again once its replies are read.
  predicate InSequence(lead: Lead) {
    lead.stepsSent > 0 && (Running(lead.status) || lead.status == Replied)
  }

  predicate LetGoRow(lead: Lead, kept: set<JobId>, hist: History) {
    lead.queuedJobId.Some? && lead.queuedJobId.value in kept ==>
      && (lead.status == Queued ==> lead.queuedJobId.value in hist.abandoned)
      && (InSequence(lead) ==> lead.queuedJobId.value in hist.abandoned + hist.unmoved)
  }

  // A handler that ends `job` and leaves its lead's row as `row`.
  lemma EndedJobLetsGo(s: State, s': State, job: JobId, row: Lead)
    requires Inv(s) && LetGo(s) && job.lead in s.leads && job.slot <= s.now
    requires s'.leads == s.leads[job.lead := row] && s'.now == s.now
    requires s'.kept == s.kept + {job}
    requires s.hist.abandoned <= s'.hist.abandoned && s.hist.unmoved <= s'.hist.unmoved
    requires LetGoRow(row, s'.kept, s'.hist)
    ensures LetGo(s')
  {
    forall l | l in s.leads ensures s.leads[l].queuedJobId == Some(job) ==> l == job.lead {
      assert LeadOk(l, s.leads[l], s.now);
    }
    assert forall l :: l in s.leads ==> LetGoRow(s.leads[l], s.kept, s.hist);
  }

  lemma ReleaseLetsGo(s: State, job: JobId)
    requires Inv(s) && LetGo(s) && Due(s, job) && job.lead in s.leads
    ensures LetGo(Release(s, job))
  {
    hide JobsOk, FlightOk, LetGo;
    var lead := s.leads[job.lead];
    assert LeadOk(job.lead, lead, s.now);
    EndedJobLetsGo(s, Release(s, job), job, Released(lead, lead.stepsSent > 0));
  }

  lemma FirstEmailLetsGo(s: State, job: JobId, retryAt: Time)
    requires Inv(s) && LetGo(s) && Due(s, job) && job.lead in s.leads && s.leads[job.lead].stepsSent == 0
    ensures LetGo(StopDead(s, job)) && LetGo(AskAgain(s, job, retryAt))
  {
    hide JobsOk, FlightOk, LetGo;
    var lead := s.leads[job.lead];
    assert LeadOk(job.lead, lead, s.now);
    EndedJobLetsGo(s, StopDead(s, job), job, StoppedDead(lead));
    EndedJobLetsGo(s, AskAgain(s, job, retryAt), job, AskedAgainLater(lead, retryAt));
  }

  lemma DispatchLetsGo(s: State, job: JobId)
    requires LetGo(s) && job.lead in s.leads
    ensures LetGo(Dispatch(s, job))
  {
  }

  lemma StartLetsGo(s: State, e: Event, s': State)
    requires Inv(s) && LetGo(s) && Starts(e) && StartStep(s, e, s')
    ensures LetGo(s')
  {
    hide RowsOk, JobsOk, FlightOk, WellFormed, Eligible, LetGo;
    match e
    case FindsNoLead(job) => LiveJobRow(s, job);
    case Releases(job) => ReleaseLetsGo(s, job);
    case StopsDead(job) => FirstEmailLetsGo(s, job, s.now);
    case AsksAgain(job, retryAt) => FirstEmailLetsGo(s, job, retryAt);
    case Dispatches(job) => DispatchLetsGo(s, job);
  }

  lemma EndSequenceLetsGo(s: State)
    requires Inv(s) && LetGo(s) && AtGate(s)
    ensures LetGo(EndSequence(s))
  {
    hide RowsOk, JobsOk, LetGo, WellFormed;
    EndedJobLetsGo(s, EndSequence(s), s.flight.value.job, EndSequence(s).leads[s.flight.value.job.lead]);
  }

  lemma RefusalLetsGo(s: State)
    requires Inv(s) && LetGo(s) && AtGate(s)
    ensures LetGo(Refuse(s))
  {
    hide JobsOk, LetGo, WellFormed;
    var job := s.flight.value.job;
    assert LeadOk(job.lead, s.leads[job.lead], s.now);
    LiveJobRow(s, job);
    EndedJobLetsGo(s, Refuse(s), job, Refuse(s).leads[job.lead]);
  }

  lemma BlockedRefusalLetsGo(s: State)
    requires Inv(s) && LetGo(s) && AtGate(s)
    ensures LetGo(RefuseBlocked(s))
  {
    hide RowsOk, JobsOk, LetGo, WellFormed;
    var job := s.flight.value.job;
    EndedJobLetsGo(s, RefuseBlocked(s), job, RefuseBlocked(s).leads[job.lead]);
  }

  lemma GateLetsGo(s: State, e: Event, s': State)
    requires Inv(s) && LetGo(s) && Gates(e) && GateStep(s, e, s')
    ensures LetGo(s')
  {
    hide RowsOk, JobsOk, FlightOk, WellFormed, LetGo, Refuse, RefuseBlocked, EndSequence, SenderAllowed;
    match e
    case EndsSequence => EndSequenceLetsGo(s);
    case Refuses => RefusalLetsGo(s);
    case RefusesBlocked => BlockedRefusalLetsGo(s);
    case Transports => TransportLetsGo(s);
  }

  lemma TransportLetsGo(s: State)
    requires LetGo(s) && AtGate(s)
    ensures LetGo(Transport(s))
  {
  }

  lemma LandingLetsGo(s: State, e: Event, s': State)
    requires Inv(s) && LetGo(s) && Lands(e) && LandStep(s, e, s')
    ensures LetGo(s')
  {
    hide JobsOk, LetGo, RetryAt, CampaignOf, FlightRow, WellFormed;
    if !e.Abandons? {
      var job := s.flight.value.job;
      assert LeadOk(job.lead, s.leads[job.lead], s.now);
      EndedJobLetsGo(s, s', job, s'.leads[job.lead]);
    } else {
      AbandonLetsGo(s);
    }
  }

  lemma AbandonLetsGo(s: State)
    requires Inv(s) && LetGo(s) && s.flight.Some?
    ensures LetGo(Abandon(s))
  {
  }

  // A handler that leaves the queue alone, and rewrites rows only so that none starts to count.
  ghost predicate RowsLetGo(s: State, s': State) {
    && s'.now == s.now && s'.kept == s.kept && s'.hist == s.hist && s'.leads.Keys == s.leads.Keys
    && forall l :: l in s.leads ==> NoNewName(s.leads[l], s'.leads[l])
  }

  predicate NoNewName(was: Lead, row: Lead) {
    && (row.queuedJobId.None? || row.queuedJobId == was.queuedJobId)
    && (row.status == Queued ==> was.status == Queued)
    && (InSequence(row) ==> InSequence(was))
  }

  lemma RowsLetGoKeeps(s: State, s': State)
    requires LetGo(s) && RowsLetGo(s, s')
    ensures LetGo(s')
  {
    forall l | l in s'.leads ensures LetGoRow(s'.leads[l], s'.kept, s'.hist) {
      assert LetGoRow(s.leads[l], s.kept, s.hist) && NoNewName(s.leads[l], s'.leads[l]);
    }
  }

  lemma AnswerLetsGo(s: State, e: Event, s': State)
    requires Inv(s) && LetGo(s) && Answers(e) && AnswerStep(s, e, s')
    ensures LetGo(s')
  {
    hide JobsOk, FlightOk, LetGo, WellFormed, Known, MarkBounced;
    assert LeadOk(e.r.lead, s.leads[e.r.lead], s.now);
    RowsLetGoKeeps(s, s');
  }

  lemma SuppressionLetsGo(s: State, e: Event, s': State)
    requires LetGo(s) && WellFormed(s) && Suppresses(e) && SuppressStep(s, e, s')
    ensures LetGo(s')
  {
    hide LetGo, WellFormed;
    RowsLetGoKeeps(s, s');
  }

  lemma LabelLetsGo(s: State, i: nat, tag: Label)
    requires Inv(s) && LetGo(s) && CanLabel(s, i)
    ensures LetGo(GiveLabel(s, i, tag))
  {
    hide JobsOk, FlightOk, LetGo, EverOpened, HasEndingReply;
    assert LeadOk(s.replies[i].lead, s.leads[s.replies[i].lead], s.now);
    RowsLetGoKeeps(s, GiveLabel(s, i, tag));
  }

  lemma BookingLetsGo(s: State, b: Booking)
    requires Inv(s) && LetGo(s) && BookOk(s, b)
    ensures LetGo(Book(s, b))
  {
    hide JobsOk, FlightOk, RowsOk, SlotChosen;
    SlotClears(s, b);
  }

  lemma OtherLetsGo(s: State, e: Event, s': State)
    requires Inv(s) && LetGo(s) && OtherStep(s, e, s')
    ensures LetGo(s')
  {
    hide RowsOk, JobsOk, FlightOk, WellFormed, SlotChosen, InPool, DueFollowUp;
    if e.Books? {
      BookingLetsGo(s, e.b);
    }
  }

  lemma {:induction false} FinishedJobsLetGo(ss: seq<State>, es: seq<Event>, i: nat)
    requires IsRun(ss, es) && i < |ss|
    ensures LetGo(ss[i])
  {
    hide RowsOk, JobsOk, FlightOk, WellFormed, LetGo;
    if i == 0 {
      FreshLetsGo(ss[0]);
    } else {
      FinishedJobsLetGo(ss, es, i - 1);
      RunKeeps(ss, es, i - 1);
      var s, e, s' := ss[i - 1], es[i - 1], ss[i];
      assert StepAt(ss, es, i - 1);
      if Starts(e) {
        StartLetsGo(s, e, s');
      } else if Gates(e) {
        GateLetsGo(s, e, s');
      } else if Lands(e) {
        LandingLetsGo(s, e, s');
      } else if Answers(e) {
        AnswerLetsGo(s, e, s');
      } else if Suppresses(e) {
        SuppressionLetsGo(s, e, s');
      } else if e.Labels? {
        LabelLetsGo(s, e.i, e.tag);
      } else {
        OtherLetsGo(s, e, s');
      }
    }
  }

  lemma FreshLetsGo(s: State)
    requires Fresh(s)
    ensures LetGo(s)
  {
  }

  // ----- Somebody takes every lead up -----

  // The lead's job is still to run; or it is over, named by the lead, and one of those that do not let
  // go; or it is gone from the queue, and reconcile takes the lead as soon as it is overdue.
  ghost predicate JobOrReconcile(s: State, l: LeadId, t: Time, keepers: set<JobId>)
    requires l in s.leads && s.leads[l].queuedJobId.Some?
  {
    var job := s.leads[l].queuedJobId.value;
    || job in Live(s)
    || (job in s.kept && job in keepers)
    || (job !in InQueue(s) && (t > job.slot + RECONCILE_OVERDUE_GRACE_MS ==> Stuck(s.(now := t), l)))
  }

  // A QUEUED lead has sent nothing. With no job it waits for a retry, 2 h 12 min at most, and then the
  // enqueuer takes it; with one, the job or reconcile does, but for a job whose call never answered.
  lemma NoLeadStranded(ss: seq<State>, es: seq<Event>, i: nat, l: LeadId, t: Time)
    requires IsRun(ss, es) && i < |ss| && l in ss[i].leads && ss[i].leads[l].status == Queued
    ensures var s, lead := ss[i], ss[i].leads[l];
            && lead.stepsSent == 0
            && (lead.queuedJobId.None? && t >= s.now + LONGEST_RETRY_MS ==> FirstEmailDue(lead, t))
            && (lead.queuedJobId.Some? ==> JobOrReconcile(s, l, t, s.hist.abandoned))
  {
    RunKeeps(ss, es, i);
    FinishedJobsLetGo(ss, es, i);
    NamedJob(ss[i], l, t);
  }

  // A follow-up still to send is due when its time comes, and picked up; or it is queued, and its job
  // or reconcile sends it, but for a job that did not let go.
  lemma NoFollowUpStranded(ss: seq<State>, es: seq<Event>, i: nat, l: LeadId, t: Time)
    requires IsRun(ss, es) && i < |ss| && l in ss[i].leads
    requires Running(ss[i].leads[l].status) && ss[i].leads[l].nextStepAt.Some?
    ensures var s, lead := ss[i], ss[i].leads[l];
            && lead.stepsSent > 0
            && (lead.queuedJobId.None? && !HasEndingReply(s.replies, l) && t >= lead.nextStepAt.value ==>
                  DueFollowUp(s.(now := t), l))
            && (lead.queuedJobId.Some? ==>
                  !HasEndingReply(s.replies, l) && JobOrReconcile(s, l, t, s.hist.abandoned + s.hist.unmoved))
  {
    RunKeeps(ss, es, i);
    FinishedJobsLetGo(ss, es, i);
    NamedJob(ss[i], l, t);
  }

  lemma NamedJob(s: State, l: LeadId, t: Time)
    requires Inv(s) && LetGo(s) && l in s.leads && (s.leads[l].status == Queued || Running(s.leads[l].status))
    ensures LeadOk(l, s.leads[l], s.now) && AnswerOk(l, s.leads[l], s.replies)
    ensures s.leads[l].queuedJobId.Some? && s.leads[l].status == Queued ==> JobOrReconcile(s, l, t, s.hist.abandoned)
    ensures s.leads[l].queuedJobId.Some? && s.leads[l].stepsSent > 0 ==>
      JobOrReconcile(s, l, t, s.hist.abandoned + s.hist.unmoved)
  {
    hide JobsOk, FlightOk, WellFormed, HasEndingReply;
    assert LeadOk(l, s.leads[l], s.now) && AnswerOk(l, s.leads[l], s.replies);
    assert LetGoRow(s.leads[l], s.kept, s.hist);
    assert InQueue(s.(now := t)) == InQueue(s);
  }

  // ----- No slot is far away -----

  // The schedules are as the API accepts them, in zones at most 16 hours from UTC.
  ghost predicate SchedulesOk(s: State) {
    && (forall c :: c in s.campaigns && s.campaigns[c].schedule.Some? ==> ValidSchedule(s.campaigns[c].schedule.value))
    && (forall name :: name in s.zones ==> Bounded(s.zones[name]))
  }

  ghost predicate SlotsNear(s: State) {
    && (forall m :: m in s.mailboxes && s.mailboxes[m].lastSentAt.Some? ==> s.mailboxes[m].lastSentAt.value <= s.now)
    && (forall l :: l in s.leads ==> NearSlot(s.leads[l], s.now))
  }

  predicate NearSlot(lead: Lead, now: Time) {
    lead.queuedSlotAt.Some? ==> lead.queuedSlotAt.value <= now + LONGEST_OPEN_MS
  }

  // A handler that books nothing.
  ghost predicate SlotsKept(s: State, s': State) {
    && s.now <= s'.now && s'.mailboxes.Keys == s.mailboxes.Keys
    && (forall m :: m in s.mailboxes ==>
          s'.mailboxes[m].lastSentAt == s.mailboxes[m].lastSentAt || s'.mailboxes[m].lastSentAt == Some(s'.now))
    && (forall l :: l in s'.leads ==>
          s'.leads[l].queuedSlotAt.None? || (l in s.leads && s'.leads[l].queuedSlotAt == s.leads[l].queuedSlotAt))
  }

  ghost predicate SchedulesKept(s: State, s': State) {
    && s'.zones == s.zones && s'.campaigns.Keys == s.campaigns.Keys
    && forall c :: c in s.campaigns ==> s'.campaigns[c].schedule == s.campaigns[c].schedule
  }

  lemma KeptStaysNear(s: State, s': State)
    requires SlotsNear(s) && SlotsKept(s, s')
    ensures SlotsNear(s')
  {
    forall l | l in s'.leads ensures NearSlot(s'.leads[l], s'.now) {
      assert l in s.leads ==> NearSlot(s.leads[l], s.now);
    }
  }

  lemma StartKeepsSlots(s: State, e: Event, s': State)
    requires WellFormed(s) && Starts(e) && StartStep(s, e, s')
    ensures SlotsKept(s, s') && SchedulesKept(s, s')
  {
    hide WellFormed, Eligible, FreeSlot;
  }

  lemma GateKeepsSlots(s: State, e: Event, s': State)
    requires WellFormed(s) && Gates(e) && GateStep(s, e, s')
    ensures SlotsKept(s, s') && SchedulesKept(s, s')
  {
    hide WellFormed, SenderAllowed;
  }

  lemma LandKeepsSlots(s: State, e: Event, s': State)
    requires WellFormed(s) && Lands(e) && LandStep(s, e, s')
    ensures SlotsKept(s, s') && SchedulesKept(s, s')
  {
    hide WellFormed, RetryAt, PaceOf, CampaignOf, FlightRow;
  }

  lemma AnswerKeepsSlots(s: State, e: Event, s': State)
    requires WellFormed(s) && Answers(e) && AnswerStep(s, e, s')
    ensures SlotsKept(s, s') && SchedulesKept(s, s')
  {
    hide WellFormed, Known, MarkBounced;
  }

  lemma LabelKeepsSlots(s: State, i: nat, tag: Label)
    requires WellFormed(s) && CanLabel(s, i)
    ensures SlotsKept(s, GiveLabel(s, i, tag)) && SchedulesKept(s, GiveLabel(s, i, tag))
  {
    hide WellFormed, EverOpened, CampaignOf, HasEndingReply;
  }

  lemma SuppressKeepsSlots(s: State, e: Event, s': State)
    requires WellFormed(s) && Suppresses(e) && SuppressStep(s, e, s')
    ensures SlotsKept(s, s') && SchedulesKept(s, s')
  {
    hide WellFormed;
  }

  lemma OtherKeepsSlots(s: State, e: Event, s': State)
    requires WellFormed(s) && OtherStep(s, e, s')
    ensures SchedulesKept(s, s') && (!e.Books? && !e.Requeues? ==> SlotsKept(s, s'))
  {
    hide WellFormed, BookOk, Stuck;
  }

  lemma RequeueStaysNear(s: State, l: LeadId)
    requires SlotsNear(s) && Stuck(s, l)
    ensures SlotsNear(Requeue(s, l))
  {
    hide Stuck;
  }

  // A slot is booked inside the window, or within 34 minutes without one.
  lemma BookedIsNear(s: State, b: Booking)
    requires WellFormed(s) && SchedulesOk(s) && SlotsNear(s) && BookOk(s, b)
    ensures b.slot <= s.now + LONGEST_OPEN_MS
  {
    hide RoomForNewLead, RecentSends, TickCap, Bounded, WalkFrom, NextSlotSeconds;
    var c := CampaignOf(s, b.lead);
    if c.schedule.Some? {
      var own := s.leads[b.lead].zone;
      var z := if c.useLeadZone && own.Some? && own.value in s.zones
               then s.zones[own.value] else s.zones[c.schedule.value.timezone];
      ReadInZone(s.zones, c.schedule.value, c.useLeadZone, own, z, s.now);
      OpenSpan(z, c.schedule.value, s.now, 0);
    } else {
      assert SpreadFor(s, b.lead, b.mailbox) == 0.0;
      var d :| ValidDraws(d) &&
        b.slot == s.now + NextSlotSeconds(s.mailboxes[b.mailbox].lastSentAt, s.now, Pending(s, b.mailbox),
                                          SpreadFor(s, b.lead, b.mailbox), b.pace, d) * 1000;
      UnspreadSlotIsSoon(s.mailboxes[b.mailbox].lastSentAt, s.now, Pending(s, b.mailbox), b.pace, d);
    }
  }

  lemma BookStaysNear(s: State, b: Booking)
    requires WellFormed(s) && SchedulesOk(s) && SlotsNear(s) && BookOk(s, b)
    ensures SlotsNear(Book(s, b))
  {
    BookedIsNear(s, b);
    hide SlotChosen, InPool, RoomForNewLead, WellFormed, SchedulesOk;
  }

  lemma StepStaysNear(s: State, e: Event, s': State)
    requires Steps(s, e, s') && SchedulesOk(s) && SlotsNear(s)
    ensures SchedulesOk(s') && SlotsNear(s')
  {
    hide WellFormed, SlotsNear, SlotsKept, StartStep, GateStep, LandStep, AnswerStep, SuppressStep, GiveLabel;
    if Starts(e) {
      StartKeepsSlots(s, e, s');
    } else if Gates(e) {
      GateKeepsSlots(s, e, s');
    } else if Lands(e) {
      LandKeepsSlots(s, e, s');
    } else if Answers(e) {
      AnswerKeepsSlots(s, e, s');
    } else if e.Labels? {
      LabelKeepsSlots(s, e.i, e.tag);
    } else if Suppresses(e) {
      SuppressKeepsSlots(s, e, s');
    } else {
      OtherKeepsSlots(s, e, s');
    }
    if e.Books? {
      BookStaysNear(s, e.b);
    } else if e.Requeues? {
      RequeueStaysNear(s, e.l);
    } else {
      KeptStaysNear(s, s');
    }
  }

  lemma {:induction false} RunStaysNear(ss: seq<State>, es: seq<Event>, i: nat)
    requires IsRun(ss, es) && i < |ss| && SchedulesOk(ss[0])
    ensures SchedulesOk(ss[i]) && SlotsNear(ss[i])
  {
    hide Steps, SchedulesOk;
    if i > 0 {
      RunStaysNear(ss, es, i - 1);
      assert StepAt(ss, es, i - 1);
      StepStaysNear(ss[i - 1], es[i - 1], ss[i]);
    }
  }

  // So every wait is bounded: within 56 hours and a quarter of an hour from now the enqueuer's filter
  // or reconcile's takes a QUEUED lead, if its job, due by then, has not.
  lemma WaitIsBounded(ss: seq<State>, es: seq<Event>, i: nat, l: LeadId, t: Time)
    requires IsRun(ss, es) && i < |ss| && l in ss[i].leads && ss[i].leads[l].status == Queued && SchedulesOk(ss[0])
    requires t > ss[i].now + LONGEST_OPEN_MS + RECONCILE_OVERDUE_GRACE_MS
    ensures var s, lead := ss[i], ss[i].leads[l];
            || FirstEmailDue(lead, t)
            || Stuck(s.(now := t), l)
            || (lead.queuedJobId.Some? && lead.queuedJobId.value.slot <= t
                && (lead.queuedJobId.value in Live(s)
                    || (lead.queuedJobId.value in s.kept && lead.queuedJobId.value in s.hist.abandoned)))
  {
    RunKeeps(ss, es, i);
    RunStaysNear(ss, es, i);
    NoLeadStranded(ss, es, i, l, t);
    NearByRow(ss[i], l);
  }

  lemma NearByRow(s: State, l: LeadId)
    requires Inv(s) && SlotsNear(s) && l in s.leads
    ensures s.leads[l].queuedJobId.Some? ==> s.leads[l].queuedJobId.value.slot <= s.now + LONGEST_OPEN_MS
  {
    hide JobsOk, FlightOk, WellFormed;
    assert LeadOk(l, s.leads[l], s.now) && NearSlot(s.leads[l], s.now);
  }

  // ----- Jobs that do not let go -----

  // A refused dispatch leaves its lead naming the finished job exactly when it was a follow-up whose
  // lead has no next step, or a first email whose lead is not QUEUED any more.
  lemma RefusalLetsGoIff(s: State)
    requires Inv(s) && AtGate(s)
    ensures var job, lead := s.flight.value.job, FlyingLead(s);
            Refuse(s).leads[job.lead].queuedJobId == Some(job) <==>
              lead.queuedJobId.Some? && if lead.stepsSent > 0 then lead.nextStepAt.None? else lead.status != Queued
    ensures var row := Refuse(s).leads[s.flight.value.job.lead];
            row.queuedJobId.Some? ==> row.queuedJobId == Some(s.flight.value.job)
  {
    LiveJobRow(s, s.flight.value.job);
  }

  // A follow-up at the checks, to a lead still in its sequence, and a reply that has not been read.
  ghost predicate AnsweredInFlight(s: State, r: Reply) {
    && Inv(s) && AtGate(s) && s.flight.value.followUp
    && r.lead == s.flight.value.job.lead && r.tag == Unclassified && !r.labelled && !Known(s.replies, r)
    && var lead := FlyingLead(s);
       Running(lead.status) && lead.queuedJobId.Some? && lead.stepsSent <= |CampaignOf(s, r.lead).steps|
  }

  // The reply is stored, the follow-up refused, and the reply turns out to be an auto-reply.
  lemma RefusedAnswer(s: State, r: Reply)
    requires AnsweredInFlight(s, r)
    ensures var answered, refused := StoreReply(s, r), Refuse(StoreReply(s, r));
            && Inv(refused) && Steps(s, StoresReply(r), answered) && Steps(answered, Refuses, refused)
            && refused.leads == s.leads[r.lead := Stopped(s.leads[r.lead])] && refused.replies == s.replies + [r]
            && refused.campaigns == s.campaigns && refused.flight.None? && refused.waiting == s.waiting
            && refused.kept == s.kept + {s.flight.value.job}
  {
    hide RowsOk, JobsOk, WellFormed, Steps;
    StoreReplyKeeps(s, r);
    IsAnswer(s, StoresReply(r), StoreReply(s, r));
    RefusalKeeps(StoreReply(s, r));
    IsRefusal(StoreReply(s, r));
  }

  lemma IsAnswer(s: State, e: Event, s': State)
    requires WellFormed(s) && Answers(e) && AnswerStep(s, e, s')
    ensures Steps(s, e, s')
  {
    hide WellFormed, AnswerStep;
  }

  lemma IsRefusal(s: State)
    requires WellFormed(s) && AtGate(s)
    ensures Steps(s, Refuses, Refuse(s))
  {
    hide WellFormed, Refuse;
  }

  lemma IsLabel(s: State, i: nat, tag: Label)
    requires WellFormed(s) && CanLabel(s, i)
    ensures Steps(s, Labels(i, tag), GiveLabel(s, i, tag))
  {
    hide WellFormed, GiveLabel;
  }

  // An auto-reply starts a stopped lead again, whatever job its row still names.
  lemma AutoReplyRestarts(s: State, i: nat)
    requires WellFormed(s) && CanLabel(s, i)
    requires forall n :: 0 <= n < |s.replies| && n != i ==> !Ends(s.replies[n], s.replies[i].lead)
    requires var lead := s.leads[s.replies[i].lead];
             && lead.status == Replied && lead.stepsSent > 0 && lead.lastStepAt.Some?
             && lead.stepsSent <= |CampaignOf(s, s.replies[i].lead).steps|
    ensures var l, after := s.replies[i].lead, GiveLabel(s, i, AutoReply);
            && l in after.leads && Running(after.leads[l].status) && after.leads[l].nextStepAt.Some?
            && after.leads[l].queuedJobId == s.leads[l].queuedJobId
            && after.waiting == s.waiting && after.kept == s.kept && after.flight == s.flight
  {
    hide EverOpened;
    var l := s.replies[i].lead;
    var lead, steps := s.leads[l], CampaignOf(s, l).steps;
    assert ValidCampaign(s.zones, CampaignOf(s, l));
    FollowUpWaitsADay(steps, lead.stepsSent, lead.lastStepAt.value);
    forall n | 0 <= n < |s.replies| ensures !Ends(Labelled(s.replies, i, AutoReply)[n], l) {
    }
  }

  // Pass 1 or reconcile would take the lead at `t`, everything else as it is.
  ghost predicate TakenAt(s: State, l: LeadId, t: Time) {
    DueFollowUp(s.(now := t), l) || Stuck(s.(now := t), l)
  }

  // Then a follow-up is due to the lead, its job is over, and neither pass 1 nor reconcile takes it
  // for as long as the queue remembers that job.
  lemma RefusedAfterAnswerStays(s: State, r: Reply)
    requires AnsweredInFlight(s, r)
    ensures var job, answered, refused := s.flight.value.job, StoreReply(s, r), Refuse(StoreReply(s, r));
            && Steps(s, StoresReply(r), answered) && Steps(answered, Refuses, refused)
            && WellFormed(refused) && CanLabel(refused, |s.replies|)
            && var after := GiveLabel(refused, |s.replies|, AutoReply);
               && Steps(refused, Labels(|s.replies|, AutoReply), after)
               && r.lead in after.leads
               && Running(after.leads[r.lead].status) && after.leads[r.lead].nextStepAt.Some?
               && after.leads[r.lead].queuedJobId == Some(job) && job !in Live(after) && job in after.kept
               && forall t :: !TakenAt(after, r.lead, t)
  {
    hide Steps, Refuse, GiveLabel, WellFormed, JobsOk, TakenAt;
    var job, refused := s.flight.value.job, Refuse(StoreReply(s, r));
    RefusedAnswer(s, r);
    LiveJobRow(s, job);
    assert AnswerOk(r.lead, s.leads[r.lead], s.replies) && LeadOk(r.lead, s.leads[r.lead], s.now);
    NoneEndsBefore(s.replies, r);
    IsLabel(refused, |s.replies|, AutoReply);
    AutoReplyRestarts(refused, |s.replies|);
    NamedJobStays(GiveLabel(refused, |s.replies|, AutoReply), r.lead);
  }

  // A lead that names a job the queue still knows is taken by nobody.
  lemma NamedJobStays(s: State, l: LeadId)
    requires l in s.leads && s.leads[l].queuedJobId.Some? && s.leads[l].queuedJobId.value in s.kept
    ensures forall t :: !TakenAt(s, l, t)
  {
    forall t ensures !TakenAt(s, l, t) {
      assert s.leads[l].queuedJobId.value in InQueue(s.(now := t));
    }
  }

  lemma NoneEndsBefore(replies: seq<Reply>, r: Reply)
    requires !HasEndingReply(replies, r.lead)
    ensures forall n :: 0 <= n < |replies + [r]| && n != |replies| ==> !Ends((replies + [r])[n], r.lead)
  {
  }
}

// "Max new leads per day" over whole runs. The enqueuer counts booked first emails and first emails
// sent in the last day, so a first email already in the air whose lead leaves the queue (an opt-out
// or a reply arrives meanwhile) is counted by nobody until it is delivered. Without such a
// delivery the limit holds over every 24 hours; each one can add at most one.
module NewLeadRun {
  import opened Basics
  import opened Model
  import opened Protocol
  import opened Invariants
  import opened Frames

  // A first email delivered for a lead the limit no longer counted: it has left the queue since.
  ghost predicate UncountedDelivery(s: State, e: Event, c: CampaignId) {
    && e.Delivers? && s.flight.Some? && s.flight.value.job.lead in s.leads
    && var lead := s.leads[s.flight.value.job.lead];
       lead.campaign == c && lead.stepsSent == 0 && !(lead.status == Queued && lead.queuedJobId.Some?)
  }

  ghost function Uncounted(ss: seq<State>, es: seq<Event>, c: CampaignId): nat
    requires |ss| >= |es|
    decreases |es|
  {
    if |es| == 0 then 0
    else
      var k := |es| - 1;
      Uncounted(ss, es[..k], c) + if UncountedDelivery(ss[k], es[k], c) then 1 else 0
  }

  // ----- One row -----

  // A row that starts to count only when a booking or a first delivery makes it.
  predicate CountsNoMore(was: Lead, row: Lead) {
    && row.campaign == was.campaign
    && ((row.stepsSent == was.stepsSent && row.lastStepAt == was.lastStepAt) || row.stepsSent > 1)
    && (row.status == Queued && row.queuedJobId.Some? ==> was.status == Queued && was.queuedJobId.Some?)
  }

  lemma RowCountsNoMore(s: State, s': State, l: LeadId, c: CampaignId)
    requires l in s.leads && l in s'.leads && CountsNoMore(s.leads[l], s'.leads[l])
    requires s'.leads == s.leads[l := s'.leads[l]] && s.now == s'.now
    requires s'.leads[l].stepsSent > 1 ==> s'.leads[l].status != Queued
    ensures NewLeadsUsed(s', c) <= NewLeadsUsed(s, c)
  {
  }

  lemma SameRowsCount(s: State, s': State, c: CampaignId)
    requires s'.leads == s.leads && s'.now == s.now
    ensures NewLeadsUsed(s', c) == NewLeadsUsed(s, c)
  {
  }

  // Nothing is counted, and nothing was sent, before the first step.
  lemma FreshCounts(s: State, c: CampaignId, max: nat)
    requires Fresh(s)
    ensures NewLeadsUsed(s, c) == {} && FirstRows(s) && FirstsCapped(s.hist.sends, c, max)
  {
  }

  // ----- Steps -----

  lemma BookCounts(s: State, b: Booking, c: CampaignId)
    requires Inv(s) && BookOk(s, b) && c in s.campaigns && s.campaigns[c].maxNewLeadsPerDay.Some?
    ensures NewLeadsUsed(Book(s, b), c) <= NewLeadsUsed(s, c)
            || |NewLeadsUsed(Book(s, b), c)| <= s.campaigns[c].maxNewLeadsPerDay.value
  {
    var s' := Book(s, b);
    var used, used' := NewLeadsUsed(s, c), NewLeadsUsed(s', c);
    if b.followUp || s.leads[b.lead].campaign != c {
      assert used' <= used;
    } else {
      assert used' <= used + {b.lead};
      SubsetCardinality(used', used + {b.lead});
    }
  }

  lemma DeliverCounts(s: State, c: CampaignId)
    requires Inv(s) && AtTransport(s)
    ensures NewLeadsUsed(Deliver(s), c) <=
      NewLeadsUsed(s, c) + if UncountedDelivery(s, Delivers, c) then {s.flight.value.job.lead} else {}
    ensures UncountedDelivery(s, Delivers, c) ==>
      s.flight.value.job.lead in NewLeadsUsed(Deliver(s), c) - NewLeadsUsed(s, c)
  {
  }

  lemma StartCounts(s: State, e: Event, s': State, c: CampaignId)
    requires Inv(s) && Starts(e) && StartStep(s, e, s')
    ensures NewLeadsUsed(s', c) <= NewLeadsUsed(s, c)
  {
    hide JobsOk, FlightOk, AnswerOk, Eligible, WellFormed;
    if !e.FindsNoLead? && !e.Dispatches? {
      RowCountsNoMore(s, s', e.job.lead, c);
    }
  }

  lemma GateCounts(s: State, e: Event, s': State, c: CampaignId)
    requires Inv(s) && Gates(e) && GateStep(s, e, s')
    ensures NewLeadsUsed(s', c) <= NewLeadsUsed(s, c)
  {
    hide JobsOk, FlightOk, AnswerOk, SenderAllowed, WellFormed, NewLeadsUsed;
    if !e.Transports? {
      RowCountsNoMore(s, s', s.flight.value.job.lead, c);
    } else {
      SameRowsCount(s, s', c);
    }
  }

  lemma LandCounts(s: State, e: Event, s': State, c: CampaignId)
    requires Inv(s) && Lands(e) && LandStep(s, e, s') && !e.Delivers?
    ensures NewLeadsUsed(s', c) <= NewLeadsUsed(s, c)
  {
    hide JobsOk, FlightOk, AnswerOk, RetryAt, NewLeadsUsed;
    if !e.Abandons? {
      RowCountsNoMore(s, s', s.flight.value.job.lead, c);
    } else {
      SameRowsCount(s, s', c);
    }
  }

  lemma AnswerCounts(s: State, e: Event, s': State, c: CampaignId)
    requires Inv(s) && Answers(e) && AnswerStep(s, e, s')
    ensures NewLeadsUsed(s', c) <= NewLeadsUsed(s, c)
  {
    hide JobsOk, FlightOk, AnswerOk, Known, MarkBounced, NewLeadsUsed;
    RowCountsNoMore(s, s', e.r.lead, c);
  }

  lemma LabelCounts(s: State, e: Event, s': State, c: CampaignId)
    requires Inv(s) && Steps(s, e, s') && e.Labels?
    ensures NewLeadsUsed(s', c) <= NewLeadsUsed(s, c)
  {
    hide JobsOk, FlightOk, AnswerOk, EverOpened, NewLeadsUsed;
    RowCountsNoMore(s, s', s.replies[e.i].lead, c);
  }

  lemma SuppressCounts(s: State, e: Event, s': State, c: CampaignId)
    requires Inv(s) && Suppresses(e) && SuppressStep(s, e, s')
    ensures NewLeadsUsed(s', c) <= NewLeadsUsed(s, c)
  {
  }

  lemma OtherCounts(s: State, e: Event, s': State, c: CampaignId)
    requires Inv(s) && OtherStep(s, e, s') && !e.Books?
    ensures NewLeadsUsed(s', c) <= NewLeadsUsed(s, c)
  {
  }

  // ----- The count over a run -----

  lemma StepCounts(s: State, e: Event, s': State, c: CampaignId)
    requires Inv(s) && Steps(s, e, s') && !e.Books? && !e.Delivers?
    ensures NewLeadsUsed(s', c) <= NewLeadsUsed(s, c)
  {
    if Starts(e) {
      StartCounts(s, e, s', c);
    } else if Gates(e) {
      GateCounts(s, e, s', c);
    } else if Lands(e) {
      LandCounts(s, e, s', c);
    } else if Answers(e) {
      AnswerCounts(s, e, s', c);
    } else if e.Labels? {
      LabelCounts(s, e, s', c);
    } else if Suppresses(e) {
      SuppressCounts(s, e, s', c);
    } else {
      OtherCounts(s, e, s', c);
    }
  }

  // One step adds to the count past the limit only by an uncounted delivery.
  lemma StepCap(s: State, e: Event, s': State, c: CampaignId, excess: nat)
    requires Inv(s) && Steps(s, e, s') && c in s.campaigns && s.campaigns[c].maxNewLeadsPerDay.Some?
    requires |NewLeadsUsed(s, c)| <= s.campaigns[c].maxNewLeadsPerDay.value + excess
    ensures |NewLeadsUsed(s', c)| <=
      s.campaigns[c].maxNewLeadsPerDay.value + excess + if UncountedDelivery(s, e, c) then 1 else 0
  {
    var used, used' := NewLeadsUsed(s, c), NewLeadsUsed(s', c);
    if e.Books? {
      BookStepCounts(s, e, s', c);
      if used' <= used {
        SubsetCardinality(used', used);
      }
    } else if e.Delivers? {
      DeliverStepCounts(s, e, s', c);
    } else {
      StepCounts(s, e, s', c);
      SubsetCardinality(used', used);
    }
  }

  lemma BookStepCounts(s: State, e: Event, s': State, c: CampaignId)
    requires Inv(s) && Steps(s, e, s') && e.Books? && c in s.campaigns && s.campaigns[c].maxNewLeadsPerDay.Some?
    ensures NewLeadsUsed(s', c) <= NewLeadsUsed(s, c)
            || |NewLeadsUsed(s', c)| <= s.campaigns[c].maxNewLeadsPerDay.value
  {
    hide RowsOk, JobsOk, FlightOk, NewLeadsUsed;
    BookCounts(s, e.b, c);
  }

  lemma DeliverStepCounts(s: State, e: Event, s': State, c: CampaignId)
    requires Inv(s) && Steps(s, e, s') && e.Delivers?
    ensures |NewLeadsUsed(s', c)| <= |NewLeadsUsed(s, c)| + if UncountedDelivery(s, e, c) then 1 else 0
  {
    DeliverCounts(s, c);
    var more := if UncountedDelivery(s, Delivers, c) then {s.flight.value.job.lead} else {};
    SubsetCardinality(NewLeadsUsed(s', c), NewLeadsUsed(s, c) + more);
  }

  lemma UncountedGrows(ss: seq<State>, es: seq<Event>, i: nat, c: CampaignId)
    requires |ss| == |es| + 1 && i < |es|
    ensures Uncounted(ss, es[..i + 1], c) ==
      Uncounted(ss, es[..i], c) + if UncountedDelivery(ss[i], es[i], c) then 1 else 0
  {
    assert es[..i + 1][..i] == es[..i];
  }

  lemma {:induction false} UsedWithinCap(ss: seq<State>, es: seq<Event>, i: nat, c: CampaignId)
    requires IsRun(ss, es) && i < |ss| && c in ss[i].campaigns && ss[i].campaigns[c].maxNewLeadsPerDay.Some?
    ensures |NewLeadsUsed(ss[i], c)| <= ss[i].campaigns[c].maxNewLeadsPerDay.value + Uncounted(ss, es[..i], c)
  {
    hide Inv, NewLeadsUsed, UncountedDelivery, Steps;
    if i == 0 {
      FreshCounts(ss[0], c, 0);
    } else {
      RunFrame(ss, es, i - 1);
      UsedWithinCap(ss, es, i - 1, c);
      assert StepAt(ss, es, i - 1);
      StepCap(ss[i - 1], es[i - 1], ss[i], c, Uncounted(ss, es[..i - 1], c));
      UncountedGrows(ss, es, i - 1, c);
    }
  }

  // Leads with a first email booked, and leads first emailed in the last 24 hours, never pass the limit
  // by more than the deliveries nobody counted.
  lemma NewLeadCap(ss: seq<State>, es: seq<Event>, i: nat, c: CampaignId)
    requires IsRun(ss, es) && i < |ss| && c in ss[i].campaigns && ss[i].campaigns[c].maxNewLeadsPerDay.Some?
    ensures var s := ss[i];
            |set l | l in s.leads && s.leads[l].campaign == c
               && ((s.leads[l].status == Queued && s.leads[l].queuedJobId.Some?)
                   || (s.leads[l].stepsSent == 1 && s.leads[l].lastStepAt.Some?
                       && s.leads[l].lastStepAt.value > s.now - DAY_MS))|
            <= s.campaigns[c].maxNewLeadsPerDay.value + Uncounted(ss, es[..i], c)
  {
    UsedWithinCap(ss, es, i, c);
    var s := ss[i];
    assert NewLeadsUsed(s, c) ==
      set l | l in s.leads && s.leads[l].campaign == c
         && ((s.leads[l].status == Queued && s.leads[l].queuedJobId.Some?)
             || (s.leads[l].stepsSent == 1 && s.leads[l].lastStepAt.Some?
                 && s.leads[l].lastStepAt.value > s.now - DAY_MS));
  }

  // When a first email is delivered with the count inside the limit, it stays inside exactly when
  // the lead was still on the queue, and so counted, or there was room for one more.
  lemma DeliveryKeepsCapIff(s: State, c: CampaignId, max: nat)
    requires Inv(s) && AtTransport(s) && FlyingLead(s).stepsSent == 0 && FlyingLead(s).campaign == c
    requires |NewLeadsUsed(s, c)| <= max
    ensures |NewLeadsUsed(Deliver(s), c)| <= max <==>
            (FlyingLead(s).status == Queued && FlyingLead(s).queuedJobId.Some?) || |NewLeadsUsed(s, c)| < max
  {
    DeliverCounts(s, c);
    var l, used, used' := s.flight.value.job.lead, NewLeadsUsed(s, c), NewLeadsUsed(Deliver(s), c);
    if CountsAsNew(FlyingLead(s), c, s.now) {
      SubsetCardinality(used', used);
    } else {
      DeliveryForgetsNobody(s, c);
      assert used' == used + {l};
    }
  }

  lemma DeliveryForgetsNobody(s: State, c: CampaignId)
    requires Inv(s) && AtTransport(s) && FlyingLead(s).stepsSent == 0 && FlyingLead(s).campaign == c
    ensures NewLeadsUsed(s, c) <= NewLeadsUsed(Deliver(s), c)
  {
  }

  // ----- Every 24 hours -----

  // First emails of a campaign sent after `since`, by their place in the send history.
  function FirstsAfter(sends: seq<SendRecord>, c: CampaignId, since: Time): set<int> {
    set k | 0 <= k < |sends| && sends[k].first && sends[k].campaign == c && sends[k].at > since
  }

  function FirstsWithin(sends: seq<SendRecord>, c: CampaignId, from: Time, to: Time): set<int> {
    set k | k in FirstsAfter(sends, c, from) && sends[k].at <= to
  }

  // A first send's lead has moved on only if a day has passed since.
  ghost predicate FirstRow(s: State, r: SendRecord) {
    r.first ==>
      && r.lead in s.leads
      && var lead := s.leads[r.lead];
         && lead.campaign == r.campaign && lead.stepsSent >= 1
         && (lead.stepsSent == 1 ==> lead.lastStepAt == Some(r.at))
         && (lead.stepsSent > 1 ==> r.at + DAY_MS <= s.now)
  }

  ghost predicate FirstRows(s: State) {
    && (forall k :: 0 <= k < |s.hist.sends| ==> FirstRow(s, s.hist.sends[k]))
    && (forall j, k :: 0 <= j < k < |s.hist.sends| && s.hist.sends[j].first && s.hist.sends[k].first ==>
          s.hist.sends[j].lead != s.hist.sends[k].lead)
  }

  // As of each first send, the day up to it holds at most `max`.
  ghost predicate FirstsCapped(sends: seq<SendRecord>, c: CampaignId, max: nat) {
    forall k :: 0 <= k < |sends| && sends[k].first && sends[k].campaign == c ==>
      |FirstsAfter(sends[..k + 1], c, sends[k].at - DAY_MS)| <= max
  }

  lemma DeliverFirstRows(s: State)
    requires Inv(s) && FirstRows(s) && AtTransport(s)
    ensures FirstRows(Deliver(s))
  {
    var s' := Deliver(s);
    forall k | 0 <= k < |s'.hist.sends| ensures FirstRow(s', s'.hist.sends[k]) {
      if k < |s.hist.sends| {
        assert FirstRow(s, s.hist.sends[k]);
      }
    }
    assert forall k :: 0 <= k < |s.hist.sends| ==> FirstRow(s, s.hist.sends[k]);
  }

  lemma OtherFirstRows(s: State, e: Event, s': State)
    requires FirstRows(s) && SameLimits(s, s') && StepsKept(s, s') && s'.hist.sends == s.hist.sends
    ensures FirstRows(s')
  {
    forall k | 0 <= k < |s'.hist.sends| ensures FirstRow(s', s'.hist.sends[k]) {
      assert FirstRow(s, s.hist.sends[k]);
    }
  }

  lemma StepFirstRows(s: State, e: Event, s': State)
    requires Inv(s) && FirstRows(s) && Steps(s, e, s') && Frame(s, e, s')
    ensures FirstRows(s')
  {
    if e.Delivers? {
      DeliverFirstRows(s);
    } else {
      StepKeepsSteps(s, e, s');
      OtherFirstRows(s, e, s');
    }
  }

  lemma {:induction false} FirstRowsKept(ss: seq<State>, es: seq<Event>, i: nat)
    requires IsRun(ss, es) && i < |ss|
    ensures FirstRows(ss[i])
  {
    hide Inv, FirstRows, WellFormed, Steps;
    if i == 0 {
      FreshCounts(ss[0], "", 0);
    } else {
      FirstRowsKept(ss, es, i - 1);
      RunFrame(ss, es, i - 1);
      assert StepAt(ss, es, i - 1);
      StepFirstRows(ss[i - 1], es[i - 1], ss[i]);
    }
  }

  lemma {:induction false} OneLeadEach(sends: seq<SendRecord>, ks: set<int>)
    requires forall k :: k in ks ==> 0 <= k < |sends|
    requires forall j, k :: j in ks && k in ks && j < k ==> sends[j].lead != sends[k].lead
    ensures |ks| == |set k | k in ks :: sends[k].lead|
  {
    if |ks| > 0 {
      var k := SomeMember(ks);
      var rest := set j | j in ks - {k} :: sends[j].lead;
      OneLeadEach(sends, ks - {k});
      assert (set j | j in ks :: sends[j].lead) == rest + {sends[k].lead};
      forall j | j in ks - {k} ensures sends[j].lead != sends[k].lead {
        assert j < k || k < j;
      }
    }
  }

  // Recent first sends are all counted, each by its own lead.
  lemma RecentFirstsCounted(s: State, c: CampaignId)
    requires FirstRows(s)
    ensures |FirstsAfter(s.hist.sends, c, s.now - DAY_MS)| <= |NewLeadsUsed(s, c)|
  {
    var ks := FirstsAfter(s.hist.sends, c, s.now - DAY_MS);
    OneLeadEach(s.hist.sends, ks);
    forall k | k in ks ensures s.hist.sends[k].lead in NewLeadsUsed(s, c) {
      assert FirstRow(s, s.hist.sends[k]);
    }
    SubsetCardinality(set k | k in ks :: s.hist.sends[k].lead, NewLeadsUsed(s, c));
  }

  lemma AppendFirst(sends: seq<SendRecord>, r: SendRecord, c: CampaignId, max: nat)
    requires FirstsCapped(sends, c, max)
    requires |FirstsAfter(sends + [r], c, r.at - DAY_MS)| <= max
    ensures FirstsCapped(sends + [r], c, max)
  {
    hide FirstsAfter;
    var sends' := sends + [r];
    forall k | 0 <= k < |sends'| && sends'[k].first && sends'[k].campaign == c
      ensures |FirstsAfter(sends'[..k + 1], c, sends'[k].at - DAY_MS)| <= max
    {
      if k < |sends| {
        assert sends'[..k + 1] == sends[..k + 1];
      } else {
        assert sends'[..k + 1] == sends';
      }
    }
  }

  lemma FirstSendCapped(s: State, s': State, c: CampaignId, max: nat)
    requires WellFormed(s) && Lands(Delivers) && LandStep(s, Delivers, s') && FirstRows(s')
    requires FirstsCapped(s.hist.sends, c, max) && |NewLeadsUsed(s', c)| <= max
    ensures FirstsCapped(s'.hist.sends, c, max)
  {
    RecentFirstsCounted(s', c);
    AppendFirst(s.hist.sends, s'.hist.sends[|s.hist.sends|], c, max);
  }

  lemma StepFirstsCapped(s: State, e: Event, s': State, c: CampaignId, max: nat)
    requires Steps(s, e, s') && SendsGrow(s, e, s') && FirstRows(s')
    requires FirstsCapped(s.hist.sends, c, max) && |NewLeadsUsed(s', c)| <= max
    ensures FirstsCapped(s'.hist.sends, c, max)
  {
    if e.Delivers? {
      FirstSendCapped(s, s', c, max);
    }
  }

  lemma CappedMore(sends: seq<SendRecord>, c: CampaignId, max: nat, more: nat)
    requires FirstsCapped(sends, c, max) && max <= more
    ensures FirstsCapped(sends, c, more)
  {
  }

  lemma OneMoreCapped(s: State, e: Event, s': State, c: CampaignId, before: nat, after: nat)
    requires Steps(s, e, s') && Frame(s, e, s') && FirstRows(s') && before <= after
    requires c in s.campaigns && s.campaigns[c].maxNewLeadsPerDay.Some?
    requires FirstsCapped(s.hist.sends, c, s.campaigns[c].maxNewLeadsPerDay.value + before)
    requires |NewLeadsUsed(s', c)| <= s.campaigns[c].maxNewLeadsPerDay.value + after
    ensures FirstsCapped(s'.hist.sends, c, s.campaigns[c].maxNewLeadsPerDay.value + after)
  {
    hide Steps, FirstRows, FirstsCapped, NewLeadsUsed;
    var max := s.campaigns[c].maxNewLeadsPerDay.value + after;
    CappedMore(s.hist.sends, c, s.campaigns[c].maxNewLeadsPerDay.value + before, max);
    StepFirstsCapped(s, e, s', c, max);
  }

  lemma {:induction false} FirstsStayCapped(ss: seq<State>, es: seq<Event>, i: nat, c: CampaignId)
    requires IsRun(ss, es) && i < |ss| && c in ss[i].campaigns && ss[i].campaigns[c].maxNewLeadsPerDay.Some?
    ensures FirstsCapped(ss[i].hist.sends, c,
                         ss[i].campaigns[c].maxNewLeadsPerDay.value + Uncounted(ss, es[..i], c))
  {
    hide Inv, FirstRows, FirstsCapped, NewLeadsUsed, UncountedDelivery, Steps, Uncounted;
    if i == 0 {
      FreshCounts(ss[0], c, ss[0].campaigns[c].maxNewLeadsPerDay.value + Uncounted(ss, es[..0], c));
    } else {
      RunFrame(ss, es, i - 1);
      FirstsStayCapped(ss, es, i - 1, c);
      UncountedGrows(ss, es, i - 1, c);
      UsedWithinCap(ss, es, i, c);
      FirstRowsKept(ss, es, i);
      assert StepAt(ss, es, i - 1);
      OneMoreCapped(ss[i - 1], es[i - 1], ss[i], c, Uncounted(ss, es[..i - 1], c), Uncounted(ss, es[..i], c));
    }
  }

  // Every 24 hours hold at most the limit, plus the deliveries nobody counted.
  lemma NewLeadWindow(ss: seq<State>, es: seq<Event>, i: nat, c: CampaignId, from: Time)
    requires IsRun(ss, es) && i < |ss| && c in ss[i].campaigns && ss[i].campaigns[c].maxNewLeadsPerDay.Some?
    ensures |FirstsWithin(ss[i].hist.sends, c, from, from + DAY_MS)|
            <= ss[i].campaigns[c].maxNewLeadsPerDay.value + Uncounted(ss, es[..i], c)
  {
    FirstsStayCapped(ss, es, i, c);
    var sends := ss[i].hist.sends;
    var ks := FirstsWithin(sends, c, from, from + DAY_MS);
    if |ks| > 0 {
      var some := SomeMember(ks);
      var k := Greatest(ks, some);
      SubsetCardinality(ks, FirstsAfter(sends[..k + 1], c, sends[k].at - DAY_MS));
    }
  }

  lemma {:induction false} Greatest(ks: set<int>, some: int) returns (k: int)
    requires some in ks
    ensures k in ks && forall j :: j in ks ==> j <= k
  {
    k := some;
    if j :| j in ks && j > some {
      k := Greatest(ks - {some}, j);
      assert forall i :: i in ks && i != some ==> i in ks - {some};
    }
  }
}

// A run in which a campaign limited to one new lead a day emails two: the first lead opts out while
// its email is already with the mail server, so nobody counts it when the second is booked.
module NewLeadExample {
  import opened Basics
  import opened SendSchedule
  import opened SlotTiming
  import opened Sequence
  import opened Model
  import opened Protocol
  import opened Invariants
  import opened NewLeadRun

  const CAMPAIGN := Campaign(Sending, false, Some(1), None, false, {"m1", "m2"}, [])
  const MAILBOX := Mailbox(true, 10, None, None)
  const ENTRY := Entry(UnsubscribeLink, "")

  // Four minutes: the wait with nothing booked and the middle of every draw.
  const WAIT := 240_000
  const DRAWS := Draws(0.0, 0.5, 0.0)

  const JOB_A := JobId("a", "m1", WAIT)
  const JOB_B := JobId("b", "m2", 2 * WAIT)
  const BOOKING_A := Booking("a", "m1", false, WAIT, 1, NoCrash)
  const BOOKING_B := Booking("b", "m2", false, 2 * WAIT, 1, NoCrash)
  const FLIGHT_A := Flight(JOB_A, "a@x", false, WAIT, false)
  const FLIGHT_B := Flight(JOB_B, "b@x", false, 2 * WAIT, false)

  const START := State(0, map[], map["c" := CAMPAIGN], map["m1" := MAILBOX, "m2" := MAILBOX], map[], map[], {}, {},
                       None, [], [], map[], History(map[], [], {}, {}))

  // ----- What is known of a state of the run -----

  datatype Look = Look(
    now: Time, a: Lead, b: Lead, waiting: set<JobId>, flight: Option<Flight>, reserved: set<MailboxId>,
    blocked: set<Email>, sentA: bool, sends: nat)

  predicate Looks(s: State, v: Look) {
    && s.now == v.now && s.campaigns == map["c" := CAMPAIGN]
    && s.leads.Keys == {"a", "b"} && s.leads["a"] == v.a && s.leads["b"] == v.b
    && s.mailboxes.Keys == {"m1", "m2"} && s.mailboxes["m2"] == MAILBOX
    && (if v.sentA then s.log == [LogRow("c", "a", "m1", LogSent, WAIT, false)] && s.mailboxes["m1"].lastSentAt.Some?
        else s.log == [] && s.mailboxes["m1"] == MAILBOX)
    && s.waiting == v.waiting && s.flight == v.flight && s.reservations.Keys == v.reserved && s.blocked.Keys == v.blocked
    && (forall k :: 0 <= k < |s.hist.sends| ==> s.hist.sends[k].first && s.hist.sends[k].campaign == "c")
    && |s.hist.sends| == v.sends && (forall k :: 0 <= k < v.sends ==> 0 < s.hist.sends[k].at <= s.now)
  }

  // ----- The steps -----

  // The drawn slot, four minutes from now, for a mailbox that never sent.
  lemma MiddleSlot(now: Time)
    ensures ValidDraws(DRAWS) && now + NextSlotSeconds(None, now, None, 0.0, 1, DRAWS) * 1000 == now + WAIT
  {
  }

  // A first email that may be booked: nothing sent or booked from its mailbox, no window.
  lemma MayBook(s: State, b: Booking)
    requires WellFormed(s) && b.lead in s.leads && s.leads[b.lead].campaign in s.campaigns
    requires CampaignOf(s, b.lead) == CAMPAIGN && s.leads[b.lead].status == Untouched
    requires b.mailbox in s.mailboxes && b.mailbox in CAMPAIGN.senders && s.mailboxes[b.mailbox] == MAILBOX
    requires b.mailbox !in s.reservations && s.log == [] && NewLeadsUsed(s, s.leads[b.lead].campaign) == {}
    requires b == Booking(b.lead, b.mailbox, false, s.now + WAIT, 1, NoCrash)
    ensures BookOk(s, b)
  {
    MiddleSlot(s.now);
    assert SpreadFor(s, b.lead, b.mailbox) == 0.0;
    assert SlotChosen(s, b);
  }

  lemma IsOther(s: State, e: Event, s': State)
    requires WellFormed(s) && (e.Pass? || e.Books? || e.Imports?) && OtherStep(s, e, s')
    ensures Steps(s, e, s')
  {
    hide WellFormed, OtherStep;
  }

  lemma IsStart(s: State, e: Event, s': State)
    requires WellFormed(s) && Starts(e) && StartStep(s, e, s')
    ensures Steps(s, e, s')
  {
    hide WellFormed, StartStep;
  }

  lemma IsGate(s: State, e: Event, s': State)
    requires WellFormed(s) && Gates(e) && GateStep(s, e, s')
    ensures Steps(s, e, s')
  {
    hide WellFormed, GateStep;
  }

  lemma IsLanding(s: State, e: Event, s': State)
    requires WellFormed(s) && Lands(e) && LandStep(s, e, s')
    ensures Steps(s, e, s')
  {
    hide WellFormed, LandStep;
  }

  lemma IsOptOut(s: State, email: Email, entry: Entry)
    requires WellFormed(s)
    ensures Steps(s, Blocks(email, entry), Block(s, email, entry))
  {
    hide WellFormed, Block;
  }

  lemma Begins()
    ensures Fresh(START) && Inv(START)
    ensures var s := START.(leads := map["a" := NewLead("c", "a@x", None)]);
            Inv(s) && Steps(START, Imports("a", "c", "a@x", None), s)
  {
    hide Inv, Steps;
    FreshOk(START);
    ImportKeeps(START, "a", "c", "a@x", None);
    assert START.leads["a" := NewLead("c", "a@x", None)] == map["a" := NewLead("c", "a@x", None)];
    IsOther(START, Imports("a", "c", "a@x", None), START.(leads := map["a" := NewLead("c", "a@x", None)]));
  }

  lemma SecondLead(s: State, s': State)
    requires Inv(s) && s == START.(leads := map["a" := NewLead("c", "a@x", None)])
    requires s' == s.(leads := s.leads["b" := NewLead("c", "b@x", None)])
    ensures Inv(s') && Steps(s, Imports("b", "c", "b@x", None), s')
    ensures Looks(s', Look(0, NewLead("c", "a@x", None), NewLead("c", "b@x", None), {}, None, {}, {}, false, 0))
  {
    hide RowsOk, JobsOk, FlightOk, WellFormed, Steps;
    ImportKeeps(s, "b", "c", "b@x", None);
    IsOther(s, Imports("b", "c", "b@x", None), s');
  }

  lemma Passes(s: State, v: Look, to: Time)
    requires Inv(s) && Looks(s, v) && v.now <= to
    ensures Inv(s.(now := to)) && Steps(s, Pass(to), s.(now := to)) && Looks(s.(now := to), v.(now := to))
  {
    hide RowsOk, JobsOk, FlightOk, WellFormed, Steps;
    PassKeeps(s, to);
    IsOther(s, Pass(to), s.(now := to));
  }

  // What a booking makes of what is known.
  function AfterBooking(v: Look, b: Booking): Look {
    v.(a := if b.lead == "a" then BookedLead(v.a, JobOf(b), false) else v.a,
       b := if b.lead == "b" then BookedLead(v.b, JobOf(b), false) else v.b,
       waiting := v.waiting + {JobOf(b)}, reserved := v.reserved + {b.mailbox})
  }

  predicate Uncounted(lead: Lead) {
    lead.campaign == "c" && lead.stepsSent == 0 && lead.status != Queued
  }

  lemma NobodyCounted(s: State, v: Look)
    requires Looks(s, v) && Uncounted(v.a) && Uncounted(v.b)
    ensures NewLeadsUsed(s, "c") == {}
  {
  }

  lemma BooksFirst(s: State, v: Look, b: Booking)
    requires Inv(s) && Looks(s, v) && Uncounted(v.a) && Uncounted(v.b) && !v.sentA
    requires b.lead == "a" || b.lead == "b"
    requires (if b.lead == "a" then v.a else v.b).status == Untouched
    requires (b.mailbox == "m1" || b.mailbox == "m2") && b.mailbox !in v.reserved
    requires b == Booking(b.lead, b.mailbox, false, v.now + WAIT, 1, NoCrash)
    ensures b.lead in s.leads && Inv(Book(s, b)) && Steps(s, Books(b), Book(s, b)) && Looks(Book(s, b), AfterBooking(v, b))
  {
    hide RowsOk, JobsOk, FlightOk, BookOk, NewLeadsUsed, Steps;
    NobodyCounted(s, v);
    MayBook(s, b);
    BookKeeps(s, b);
    BookingLooks(s, v, b);
    hide WellFormed, Looks, AfterBooking;
    IsOther(s, Books(b), Book(s, b));
  }

  lemma BookingLooks(s: State, v: Look, b: Booking)
    requires Looks(s, v) && (b.lead == "a" || b.lead == "b") && (b.mailbox == "m1" || b.mailbox == "m2")
    requires !b.followUp && b.crash == NoCrash
    ensures Looks(Book(s, b), AfterBooking(v, b))
  {
  }

  lemma FewSends(log: seq<LogRow>, m: MailboxId, since: Time)
    requires |log| <= 1
    ensures CountSends(log, m, since) <= 1
  {
  }

  lemma MayStart(s: State, v: Look, job: JobId)
    requires Inv(s) && Looks(s, v) && job in v.waiting && v.flight.None? && job.slot == v.now
    requires job.lead in s.leads && s.leads[job.lead].campaign == "c" && s.leads[job.lead].status == Queued
    requires s.leads[job.lead].stepsSent == 0
    requires job.mailbox in CAMPAIGN.senders && job.mailbox in s.mailboxes && s.mailboxes[job.mailbox] == MAILBOX
    ensures Due(s, job) && Eligible(s, job)
  {
    hide RowsOk, JobsOk, FlightOk;
    FewSends(s.log, job.mailbox, s.now - DAY_MS);
  }

  lemma StartsJob(s: State, v: Look, job: JobId)
    requires Inv(s) && Looks(s, v) && job in v.waiting && v.flight.None? && job.slot == v.now
    requires job.lead in s.leads && s.leads[job.lead].campaign == "c" && s.leads[job.lead].status == Queued
    requires s.leads[job.lead].stepsSent == 0
    requires job.mailbox in CAMPAIGN.senders && job.mailbox in s.mailboxes && s.mailboxes[job.mailbox] == MAILBOX
    ensures Inv(Dispatch(s, job)) && Steps(s, Dispatches(job), Dispatch(s, job))
    ensures Looks(Dispatch(s, job),
                  v.(waiting := v.waiting - {job}, flight := Some(Flight(job, s.leads[job.lead].email, false, v.now, false))))
  {
    MayStart(s, v, job);
    hide RowsOk, JobsOk, FlightOk, WellFormed, Eligible, Steps;
    DispatchKeeps(s, job);
    IsStart(s, Dispatches(job), Dispatch(s, job));
  }

  lemma Sends(s: State, v: Look)
    requires Inv(s) && Looks(s, v) && v.flight.Some? && !v.flight.value.atTransport
    requires v.flight.value.job.lead in s.leads && v.flight.value.email !in v.blocked
    requires s.leads[v.flight.value.job.lead].campaign == "c" && s.leads[v.flight.value.job.lead].stepsSent == 0
    requires v.flight.value.job.mailbox in CAMPAIGN.senders
    ensures AtGate(s) && Inv(Transport(s)) && Steps(s, Transports, Transport(s))
    ensures Looks(Transport(s), v.(flight := Some(v.flight.value.(atTransport := true))))
  {
    hide RowsOk, JobsOk, FlightOk, Steps;
    assert SenderAllowed(s, s.flight.value.job);
    hide WellFormed;
    TransportKeeps(s);
    IsGate(s, Transports, Transport(s));
  }

  lemma OptsOut(s: State, v: Look)
    requires Inv(s) && Looks(s, v) && v.a.email == "a@x" && v.b.email == "b@x"
    ensures Inv(Block(s, "a@x", ENTRY)) && Steps(s, Blocks("a@x", ENTRY), Block(s, "a@x", ENTRY))
    ensures Looks(Block(s, "a@x", ENTRY), v.(a := SuppressedLead(v.a), blocked := v.blocked + {"a@x"}))
  {
    hide RowsOk, JobsOk, FlightOk, WellFormed, Steps;
    BlockKeeps(s, "a@x", ENTRY);
    IsOptOut(s, "a@x", ENTRY);
  }

  // Delivering the first lead's email.
  lemma DeliversA(s: State, v: Look)
    requires Inv(s) && Looks(s, v) && v.flight == Some(FLIGHT_A.(atTransport := true)) && v.now == WAIT && !v.sentA
    requires v.a.campaign == "c" && v.a.stepsSent == 0
    ensures WellFormed(s) && AtTransport(s) && Inv(Deliver(s)) && Steps(s, Delivers, Deliver(s))
    ensures Looks(Deliver(s), v.(a := SentLead(v.a, [], "m1", v.now), flight := None, sentA := true, sends := v.sends + 1))
  {
    hide RowsOk, JobsOk, FlightOk, WellFormed, Steps, SentLead;
    DeliverKeeps(s);
    IsLanding(s, Delivers, Deliver(s));
  }

  // Delivering the second's.
  lemma DeliversB(s: State, v: Look)
    requires Inv(s) && Looks(s, v) && v.flight == Some(FLIGHT_B.(atTransport := true)) && 0 < v.now
    requires v.b.campaign == "c" && v.b.stepsSent == 0
    ensures WellFormed(s) && AtTransport(s) && Steps(s, Delivers, Deliver(s)) && |Deliver(s).hist.sends| == v.sends + 1
    ensures Deliver(s).campaigns == map["c" := CAMPAIGN]
    ensures forall k :: 0 <= k < v.sends + 1 ==>
      var r := Deliver(s).hist.sends[k]; r.first && r.campaign == "c" && 0 < r.at <= v.now
  {
    hide RowsOk, JobsOk, FlightOk, WellFormed, Steps, SentLead;
    IsLanding(s, Delivers, Deliver(s));
  }

  // ----- The run -----

  ghost predicate RunTo(ss: seq<State>, es: seq<Event>, s: State) {
    IsRun(ss, es) && ss[|es|] == s
  }

  lemma OneMoreStep(ss: seq<State>, es: seq<Event>, s: State, e: Event, s': State)
    returns (ss': seq<State>, es': seq<Event>)
    requires RunTo(ss, es, s) && Steps(s, e, s')
    ensures RunTo(ss', es', s') && es' == es + [e]
  {
    hide Steps, Fresh;
    ss', es' := ss + [s'], es + [e];
    forall i | 0 <= i < |es'| ensures StepAt(ss', es', i) {
      assert i < |es| ==> StepAt(ss, es, i);
    }
  }

  // Two leads, the first one booked.
  lemma UntilBooked() returns (ss: seq<State>, es: seq<Event>, s: State, v: Look)
    ensures RunTo(ss, es, s) && Inv(s) && Looks(s, v)
    ensures v == AfterBooking(Look(0, NewLead("c", "a@x", None), NewLead("c", "b@x", None), {}, None, {}, {}, false, 0),
                              BOOKING_A)
  {
    hide Inv, Steps, Fresh, Looks, AfterBooking;
    Begins();
    var s1 := START.(leads := map["a" := NewLead("c", "a@x", None)]);
    assert RunTo([START], [], START);
    ss, es := OneMoreStep([START], [], START, Imports("a", "c", "a@x", None), s1);
    var s2 := s1.(leads := s1.leads["b" := NewLead("c", "b@x", None)]);
    SecondLead(s1, s2);
    ss, es := OneMoreStep(ss, es, s1, Imports("b", "c", "b@x", None), s2);
    var v2 := Look(0, NewLead("c", "a@x", None), NewLead("c", "b@x", None), {}, None, {}, {}, false, 0);
    BooksFirst(s2, v2, BOOKING_A);
    s, v := Book(s2, BOOKING_A), AfterBooking(v2, BOOKING_A);
    ss, es := OneMoreStep(ss, es, s2, Books(BOOKING_A), s);
  }

  // A booked email, once its time has come, is handed to the mail server.
  lemma UntilSent(ss: seq<State>, es: seq<Event>, s: State, v: Look, job: JobId)
    returns (ss': seq<State>, es': seq<Event>, s': State, v': Look)
    requires RunTo(ss, es, s) && Inv(s) && Looks(s, v) && job in v.waiting && v.flight.None? && v.now <= job.slot
    requires job.lead in s.leads && s.leads[job.lead].campaign == "c" && s.leads[job.lead].status == Queued
    requires s.leads[job.lead].stepsSent == 0 && s.leads[job.lead].email !in v.blocked
    requires job.mailbox in CAMPAIGN.senders && job.mailbox in s.mailboxes && s.mailboxes[job.mailbox] == MAILBOX
    ensures RunTo(ss', es', s') && Inv(s') && Looks(s', v')
    ensures v' == v.(now := job.slot, waiting := v.waiting - {job},
                     flight := Some(Flight(job, s.leads[job.lead].email, false, job.slot, true)))
  {
    hide Inv, Steps, RunTo;
    Passes(s, v, job.slot);
    var due, dueLook := s.(now := job.slot), v.(now := job.slot);
    ss', es' := OneMoreStep(ss, es, s, Pass(job.slot), due);
    StartsJob(due, dueLook, job);
    var flight := Flight(job, s.leads[job.lead].email, false, job.slot, false);
    var started, startedLook := Dispatch(due, job), dueLook.(waiting := v.waiting - {job}, flight := Some(flight));
    ss', es' := OneMoreStep(ss', es', due, Dispatches(job), started);
    Sends(started, startedLook);
    s', v' := Transport(started), startedLook.(flight := Some(flight.(atTransport := true)));
    ss', es' := OneMoreStep(ss', es', started, Transports, s');
  }

  // The first lead opts out with its email at the mail server.
  lemma UntilOptOut() returns (ss: seq<State>, es: seq<Event>, s: State, v: Look)
    ensures RunTo(ss, es, s) && Inv(s) && Looks(s, v)
    ensures Uncounted(v.a) && Uncounted(v.b) && v.b == NewLead("c", "b@x", None) && !v.sentA && v.sends == 0
    ensures v.now == WAIT && v.flight == Some(FLIGHT_A.(atTransport := true)) && v.waiting == {} && v.reserved == {"m1"}
    ensures v.blocked == {"a@x"}
  {
    hide Inv, Steps, RunTo;
    var was, look;
    ss, es, was, look := UntilBooked();
    ss, es, was, look := UntilSent(ss, es, was, look, JOB_A);
    OptsOut(was, look);
    s, v := Block(was, "a@x", ENTRY), look.(a := SuppressedLead(look.a), blocked := look.blocked + {"a@x"});
    ss, es := OneMoreStep(ss, es, was, Blocks("a@x", ENTRY), s);
  }

  // The second is booked, and then the first one's email is delivered.
  lemma UntilDelivered() returns (ss: seq<State>, es: seq<Event>, s: State, v: Look)
    ensures RunTo(ss, es, s) && Inv(s) && Looks(s, v)
    ensures v.now == WAIT && v.flight.None? && v.waiting == {JOB_B} && v.blocked == {"a@x"} && v.sends == 1
    ensures v.b == BookedLead(NewLead("c", "b@x", None), JOB_B, false)
  {
    hide Inv, Steps, RunTo, Looks;
    var out, look;
    ss, es, out, look := UntilOptOut();
    BooksFirst(out, look, BOOKING_B);
    var mid, midLook := Book(out, BOOKING_B), AfterBooking(look, BOOKING_B);
    ss, es := OneMoreStep(ss, es, out, Books(BOOKING_B), mid);
    DeliversA(mid, midLook);
    s, v := Deliver(mid), midLook.(a := SentLead(midLook.a, [], "m1", WAIT), flight := None, sentA := true, sends := 1);
    ss, es := OneMoreStep(ss, es, mid, Delivers, s);
  }

  // One new lead a day at most, and two first emails within eight minutes.
  lemma LimitOfOneSendsTwo() returns (ss: seq<State>, es: seq<Event>)
    ensures IsRun(ss, es) && "c" in ss[|es|].campaigns && ss[|es|].campaigns["c"].maxNewLeadsPerDay == Some(1)
    ensures |FirstsWithin(ss[|es|].hist.sends, "c", 0, DAY_MS)| == 2
  {
    hide Inv, Steps;
    var s, v;
    ss, es, s, v := UntilDelivered();
    ss, es, s, v := UntilSent(ss, es, s, v, JOB_B);
    DeliversB(s, v);
    ss, es := OneMoreStep(ss, es, s, Delivers, Deliver(s));
    assert FirstsWithin(Deliver(s).hist.sends, "c", 0, DAY_MS) == {0, 1};
  }
}


// The same in a run: the first email of a sequence goes out, its follow-up is refused after a reply,
// and the reply turns out to be an auto-reply.
module StrandedExample {
  import opened Basics
  import opened SendSchedule
  import opened SlotTiming
  import opened Sequence
  import opened Model
  import opened ReplyOutcome
  import opened Protocol
  import opened Invariants
  import opened StrandedRun
  import opened NewLeadExample

  const STEPS := [Step(1, 1, "", false)]
  const SEQUENCE := Campaign(Sending, false, None, None, false, {"m"}, STEPS)
  const ANSWER := Reply("a", "m", "away", WAIT + DAY_MS, None, Unclassified, false)

  const EMPTY := State(0, map[], map["c" := SEQUENCE], map["m" := MAILBOX], map[], map[], {}, {},
                       None, [], [], map[], History(map[], [], {}, {}))

  // ----- What is known of a state of the run -----

  datatype View = View(
    now: Time, lead: Lead, waiting: set<JobId>, flight: Option<Flight>, lastSentAt: Option<Time>, slots: set<Time>)

  predicate Shows(s: State, v: View) {
    && s.now == v.now && s.campaigns == map["c" := SEQUENCE]
    && s.leads == map["a" := v.lead] && v.lead.campaign == "c"
    && s.mailboxes == map["m" := MAILBOX.(lastSentAt := v.lastSentAt)]
    && s.waiting == v.waiting && s.flight == v.flight && |s.log| <= 1
    && (forall i :: 0 <= i < |s.log| ==> s.log[i].status == LogSent) && (v.lastSentAt.None? ==> s.log == [])
    && (forall m :: m in s.reservations ==>
          s.reservations[m].slot in v.slots && s.reservations[m] == ReservationFor(s.reservations[m].slot))
    && s.replies == [] && s.blocked == map[]
  }

  lemma FirstSteps() returns (ss: seq<State>, es: seq<Event>, s: State, v: View)
    ensures RunTo(ss, es, s) && Inv(s) && Shows(s, v)
    ensures v == View(0, NewLead("c", "a@x", None), {}, None, None, {})
  {
    hide Inv, Steps;
    FreshOk(EMPTY);
    ImportKeeps(EMPTY, "a", "c", "a@x", None);
    s := EMPTY.(leads := map["a" := NewLead("c", "a@x", None)]);
    assert EMPTY.leads["a" := NewLead("c", "a@x", None)] == map["a" := NewLead("c", "a@x", None)];
    IsOther(EMPTY, Imports("a", "c", "a@x", None), s);
    assert RunTo([EMPTY], [], EMPTY);
    ss, es := OneMoreStep([EMPTY], [], EMPTY, Imports("a", "c", "a@x", None), s);
    v := View(0, NewLead("c", "a@x", None), {}, None, None, {});
  }

  lemma Waits(ss: seq<State>, es: seq<Event>, s: State, v: View, to: Time) returns (ss': seq<State>, es': seq<Event>)
    requires RunTo(ss, es, s) && Inv(s) && Shows(s, v) && v.now <= to
    ensures RunTo(ss', es', s.(now := to)) && Inv(s.(now := to)) && Shows(s.(now := to), v.(now := to))
  {
    hide RowsOk, JobsOk, FlightOk, WellFormed, Steps, RunTo;
    PassKeeps(s, to);
    IsOther(s, Pass(to), s.(now := to));
    ss', es' := OneMoreStep(ss, es, s, Pass(to), s.(now := to));
  }

  // Four minutes from now, for a mailbox whose last send and slot are at least eight minutes old.
  lemma SlotAfterRest(lastSentAt: Option<Time>, now: Time)
    requires lastSentAt.Some? ==> lastSentAt.value + CADENCE_FLOOR_MS <= now
    ensures now + NextSlotSeconds(lastSentAt, now, None, 0.0, 1, DRAWS) * 1000 == now + WAIT
  {
  }

  lemma MayBookNow(s: State, v: View, b: Booking)
    requires Inv(s) && Shows(s, v) && v.now >= 0 && Pending(s, "m") == None
    requires v.lastSentAt.Some? ==> v.lastSentAt.value + CADENCE_FLOOR_MS <= v.now
    requires b == Booking("a", "m", b.followUp, v.now + WAIT, 1, NoCrash)
    requires if b.followUp
             then Running(v.lead.status) && v.lead.nextStepAt.Some? && v.lead.nextStepAt.value <= v.now
                  && v.lead.queuedJobId.None? && v.lead.mailbox == Some("m")
             else v.lead.status == Untouched
    ensures BookOk(s, b)
  {
    hide RowsOk, JobsOk, FlightOk;
    SlotAfterRest(v.lastSentAt, v.now);
    FewSends(s.log, "m", v.now - DAY_MS);
    assert CampaignOf(s, "a") == SEQUENCE && SpreadFor(s, "a", "m") == 0.0;
    assert SlotChosen(s, b);
  }

  lemma Booked(ss: seq<State>, es: seq<Event>, s: State, v: View, b: Booking)
    returns (ss': seq<State>, es': seq<Event>, v': View)
    requires RunTo(ss, es, s) && Inv(s) && Shows(s, v) && b.lead == "a" && b.mailbox == "m" && b.crash == NoCrash
    requires BookOk(s, b) && "a" in s.leads
    ensures RunTo(ss', es', Book(s, b)) && Inv(Book(s, b)) && Shows(Book(s, b), v')
    ensures v' == v.(lead := BookedLead(v.lead, JobOf(b), b.followUp), waiting := v.waiting + {JobOf(b)},
                     slots := v.slots + {b.slot})
  {
    hide RowsOk, JobsOk, FlightOk, Steps, RunTo, SlotChosen, InPool;
    BookKeeps(s, b);
    IsOther(s, Books(b), Book(s, b));
    ss', es' := OneMoreStep(ss, es, s, Books(b), Book(s, b));
    v' := v.(lead := BookedLead(v.lead, JobOf(b), b.followUp), waiting := v.waiting + {JobOf(b)},
             slots := v.slots + {b.slot});
  }

  lemma Started(ss: seq<State>, es: seq<Event>, s: State, v: View, job: JobId)
    returns (ss': seq<State>, es': seq<Event>, v': View)
    requires RunTo(ss, es, s) && Inv(s) && Shows(s, v) && job in v.waiting && v.flight.None?
    requires job.lead == "a" && job.mailbox == "m" && job.slot <= v.now
    requires if v.lead.stepsSent > 0
             then Running(v.lead.status) && v.lead.mailbox == Some("m")
                  && v.lead.nextStepAt.Some? && v.lead.nextStepAt.value <= v.now
             else v.lead.status == Queued
    ensures "a" in s.leads && RunTo(ss', es', Dispatch(s, job)) && Inv(Dispatch(s, job)) && Shows(Dispatch(s, job), v')
    ensures v' == v.(waiting := v.waiting - {job},
                     flight := Some(Flight(job, v.lead.email, v.lead.stepsSent > 0, v.now, false)))
  {
    hide RowsOk, JobsOk, FlightOk, Steps, RunTo;
    FewSends(s.log, "m", v.now - DAY_MS);
    assert Due(s, job) && Eligible(s, job);
    hide Eligible, WellFormed;
    DispatchKeeps(s, job);
    IsStart(s, Dispatches(job), Dispatch(s, job));
    ss', es' := OneMoreStep(ss, es, s, Dispatches(job), Dispatch(s, job));
    v' := v.(waiting := v.waiting - {job},
             flight := Some(Flight(job, v.lead.email, v.lead.stepsSent > 0, v.now, false)));
  }

  // The first email leaves the checks and is delivered at once; a follow-up is due a day later.
  lemma Delivered(ss: seq<State>, es: seq<Event>, s: State, v: View, job: JobId)
    returns (ss': seq<State>, es': seq<Event>, s': State, v': View)
    requires RunTo(ss, es, s) && Inv(s) && Shows(s, v) && job.lead == "a" && job.mailbox == "m"
    requires v.flight == Some(Flight(job, v.lead.email, false, v.now, false)) && v.lead.stepsSent == 0
    requires v.lastSentAt.None?
    ensures RunTo(ss', es', s') && Inv(s') && Shows(s', v')
    ensures v' == v.(lead := SentLead(v.lead, STEPS, "m", v.now), flight := None, lastSentAt := Some(v.now))
  {
    hide RowsOk, JobsOk, FlightOk, Steps, RunTo;
    assert SenderAllowed(s, job);
    TransportKeeps(s);
    IsGate(s, Transports, Transport(s));
    ss', es' := OneMoreStep(ss, es, s, Transports, Transport(s));
    DeliverKeeps(Transport(s));
    IsLanding(Transport(s), Delivers, Deliver(Transport(s)));
    s' := Deliver(Transport(s));
    ss', es' := OneMoreStep(ss', es', Transport(s), Delivers, s');
    v' := v.(lead := SentLead(v.lead, STEPS, "m", v.now), flight := None, lastSentAt := Some(v.now));
    assert s'.leads == map["a" := v'.lead];
    assert s'.mailboxes == map["m" := MAILBOX.(lastSentAt := v'.lastSentAt)];
  }

  const FIRST := Booking("a", "m", false, WAIT, 1, NoCrash)
  const SECOND := Booking("a", "m", true, WAIT + DAY_MS + WAIT, 1, NoCrash)

  // Four minutes in, the first email is out.
  lemma UntilFirstSent() returns (ss: seq<State>, es: seq<Event>, s: State, v: View)
    ensures RunTo(ss, es, s) && Inv(s) && Shows(s, v) && v.now == WAIT && v.flight.None? && v.waiting == {}
    ensures v.lead == SentLead(BookedLead(NewLead("c", "a@x", None), JobOf(FIRST), false), STEPS, "m", WAIT)
    ensures v.lastSentAt == Some(WAIT) && v.slots == {WAIT}
  {
    hide Inv, Steps, RunTo, BookOk;
    ss, es, s, v := FirstSteps();
    assert "a" in s.leads && Pending(s, "m") == None;
    MayBookNow(s, v, FIRST);
    ss, es, v := Booked(ss, es, s, v, FIRST);
    s := Book(s, FIRST);
    ss, es := Waits(ss, es, s, v, WAIT);
    s, v := s.(now := WAIT), v.(now := WAIT);
    ss, es, v := Started(ss, es, s, v, JobOf(FIRST));
    s := Dispatch(s, JobOf(FIRST));
    ss, es, s, v := Delivered(ss, es, s, v, JobOf(FIRST));
  }

  // A day and four minutes on, the follow-up is at the checks.
  lemma UntilFollowUp() returns (ss: seq<State>, es: seq<Event>, s: State)
    ensures RunTo(ss, es, s) && AnsweredInFlight(s, ANSWER)
  {
    hide Inv, Steps, RunTo, BookOk;
    var v;
    ss, es, s, v := UntilFirstSent();
    ss, es := Waits(ss, es, s, v, WAIT + DAY_MS);
    s, v := s.(now := WAIT + DAY_MS), v.(now := WAIT + DAY_MS);
    assert "a" in s.leads && Pending(s, "m") == None;
    MayBookNow(s, v, SECOND);
    ss, es, v := Booked(ss, es, s, v, SECOND);
    s := Book(s, SECOND);
    ss, es := Waits(ss, es, s, v, SECOND.slot);
    s, v := s.(now := SECOND.slot), v.(now := SECOND.slot);
    ss, es, v := Started(ss, es, s, v, JobOf(SECOND));
    s := Dispatch(s, JobOf(SECOND));
    InvIsWellFormed(s);
  }

  lemma InvIsWellFormed(s: State)
    requires Inv(s)
    ensures WellFormed(s)
  {
  }

  // At the end of this run the lead is running, a follow-up is due to it, no job of it is live, and
  // neither pass 1 nor reconcile takes it at any later time.
  lemma FollowUpNobodyTakes() returns (ss: seq<State>, es: seq<Event>)
    ensures IsRun(ss, es)
    ensures var s := ss[|es|];
            && "a" in s.leads && Running(s.leads["a"].status) && s.leads["a"].nextStepAt.Some?
            && s.leads["a"].queuedJobId.Some? && s.leads["a"].queuedJobId.value !in Live(s)
            && forall t :: !TakenAt(s, "a", t)
  {
    hide Steps, RowsOk, JobsOk, FlightOk, WellFormed, Refuse, GiveLabel, TakenAt;
    var s;
    ss, es, s := UntilFollowUp();
    RefusedAfterAnswerStays(s, ANSWER);
    var answered, refused := StoreReply(s, ANSWER), Refuse(StoreReply(s, ANSWER));
    var after := GiveLabel(refused, |s.replies|, AutoReply);
    ss, es := OneMoreStep(ss, es, s, StoresReply(ANSWER), answered);
    ss, es := OneMoreStep(ss, es, answered, Refuses, refused);
    ss, es := OneMoreStep(ss, es, refused, Labels(|s.replies|, AutoReply), after);
  }
}
