// Expected campaign sends for the days ahead (apps/api/src/lib/sendForecast.ts): the enqueuer's rules
// played forward a day at a time. Days are numbered from 1 January 1970, in UTC.
module SendForecast {
  import opened Basics
  import opened SendSchedule
  import opened CampaignCap
  import opened Model

  datatype ForecastMailbox = ForecastMailbox(id: MailboxId, dailyCap: nat, graduatedAt: Option<Time>)

  // `waitDays` is the wait before each follow-up, by step position.
  datatype ForecastCampaign = ForecastCampaign(
    id: CampaignId,
    maxNewLeadsPerDay: Option<nat>,
    schedule: Option<Schedule>,
    mailboxIds: seq<MailboxId>,
    waitDays: map<nat, int>,
    firstEmailsLeft: nat)

  datatype FollowUp = FollowUp(campaign: CampaignId, mailbox: MailboxId, stepsSent: nat, dueAt: Time)

  // ----- Sends, and counting them -----

  // One expected send, a first email or a follow-up.
  datatype Play = Play(day: int, mailbox: MailboxId, campaign: CampaignId, first: bool)

  function Count(sends: seq<Play>, p: Play -> bool): nat {
    if |sends| == 0 then 0
    else Count(sends[..|sends| - 1], p) + if p(sends[|sends| - 1]) then 1 else 0
  }

  function On(day: int): Play -> bool {
    (x: Play) => x.day == day
  }

  function From(day: int, m: MailboxId): Play -> bool {
    (x: Play) => x.day == day && x.mailbox == m
  }

  function FirstOf(c: CampaignId): Play -> bool {
    (x: Play) => x.campaign == c && x.first
  }

  function FirstOn(day: int, c: CampaignId): Play -> bool {
    (x: Play) => x.day == day && x.campaign == c && x.first
  }

  lemma CountMore(sends: seq<Play>, x: Play, p: Play -> bool)
    ensures Count(sends + [x], p) == Count(sends, p) + if p(x) then 1 else 0
  {
    assert (sends + [x])[..|sends|] == sends;
  }

  lemma {:induction false} CountNone(sends: seq<Play>, p: Play -> bool)
    requires forall x :: x in sends ==> !p(x)
    ensures Count(sends, p) == 0
  {
    if |sends| > 0 {
      CountNone(sends[..|sends| - 1], p);
    }
  }

  // ----- The board of one day -----

  // What `send` updates: room left per mailbox today, today's count, the tallies, tomorrow's list.
  datatype Board = Board(
    capLeft: map<MailboxId, int>, count: nat, byMailbox: map<MailboxId, map<int, nat>>, next: seq<FollowUp>)

  function Tally(byMailbox: map<MailboxId, map<int, nat>>, m: MailboxId, day: int): nat {
    if m in byMailbox && day in byMailbox[m] then byMailbox[m][day] else 0
  }

  function Room(b: Board, m: MailboxId): int {
    if m in b.capLeft then b.capLeft[m] else 0
  }

  // The follow-up a send books, if its campaign has one at that step.
  function Following(c: ForecastCampaign, m: MailboxId, step: nat, sentAt: Time): seq<FollowUp> {
    if step in c.waitDays then [FollowUp(c.id, m, step, sentAt + c.waitDays[step] * DAY_MS)] else []
  }

  function Send(b: Board, day: int, sentAt: Time, m: MailboxId, c: ForecastCampaign, step: nat): Board {
    var perDay := if m in b.byMailbox then b.byMailbox[m] else map[];
    Board(b.capLeft[m := Room(b, m) - 1],
          b.count + 1,
          b.byMailbox[m := perDay[day := Tally(b.byMailbox, m, day) + 1]],
          b.next + Following(c, m, step, sentAt))
  }

  // One send takes one of its mailbox's room and no other's, counts once, on that day for that mailbox,
  // and books the campaign's next follow-up, if it has one after this step: from the same mailbox, as
  // many days ahead as that follow-up waits. Nothing else is booked.
  lemma SendBooks(b: Board, day: int, sentAt: Time, m: MailboxId, c: ForecastCampaign, step: nat)
    ensures var b' := Send(b, day, sentAt, m, c, step);
            && (step in c.waitDays ==>
                  b'.next == b.next + [FollowUp(c.id, m, step, sentAt + c.waitDays[step] * DAY_MS)])
            && (step !in c.waitDays ==> b'.next == b.next)
            && b'.count == b.count + 1
            && (forall k :: Room(b', k) == Room(b, k) - if k == m then 1 else 0)
            && (forall k, d ::
                  (Tally(b'.byMailbox, k, d) == Tally(b.byMailbox, k, d) + if d == day && k == m then 1 else 0))
  {
    TallySent(b, day, sentAt, m, c, step);
  }

  // The board says what was sent: `room` is what each mailbox could send at the start of the day.
  ghost predicate BoardOk(b: Board, room: map<MailboxId, int>, day: int, sends: seq<Play>) {
    && b.capLeft.Keys == room.Keys
    && (forall m :: m in room ==> b.capLeft[m] == room[m] - Count(sends, From(day, m)))
    && (forall m :: m in room ==> Count(sends, From(day, m)) <= Max(0, room[m]))
    && (forall i :: 0 <= i < |sends| ==> sends[i].mailbox in room)
    && b.count == Count(sends, On(day))
    && (forall m, d :: Tally(b.byMailbox, m, d) == Count(sends, From(d, m)))
  }

  lemma SendKeeps(b: Board, room: map<MailboxId, int>, day: int, sends: seq<Play>, sentAt: Time,
                  m: MailboxId, c: ForecastCampaign, step: nat, first: bool)
    requires BoardOk(b, room, day, sends) && Room(b, m) > 0
    ensures BoardOk(Send(b, day, sentAt, m, c, step), room, day, sends + [Play(day, m, c.id, first)])
  {
    hide Count, Tally;
    CountMore(sends, Play(day, m, c.id, first), On(day));
    CountsMove(sends, day, m, c.id, first);
    TallySent(b, day, sentAt, m, c, step);
  }

  lemma CountsMove(sends: seq<Play>, day: int, m: MailboxId, c: CampaignId, first: bool)
    ensures forall k, d ::
      (Count(sends + [Play(day, m, c, first)], From(d, k))
       == Count(sends, From(d, k)) + if d == day && k == m then 1 else 0)
  {
    var x := Play(day, m, c, first);
    forall k, d ensures Count(sends + [x], From(d, k)) == Count(sends, From(d, k)) + if d == day && k == m then 1 else 0 {
      CountMore(sends, x, From(d, k));
    }
  }

  // Carrying one over says nothing about what was sent.
  lemma CarryKeeps(b: Board, room: map<MailboxId, int>, day: int, sends: seq<Play>, f: FollowUp)
    requires BoardOk(b, room, day, sends)
    ensures BoardOk(b.(next := b.next + [f]), room, day, sends)
  {
  }

  lemma TallySent(b: Board, day: int, sentAt: Time, m: MailboxId, c: ForecastCampaign, step: nat)
    ensures forall k, d ::
      (Tally(Send(b, day, sentAt, m, c, step).byMailbox, k, d)
       == Tally(b.byMailbox, k, d) + if d == day && k == m then 1 else 0)
  {
  }

  // ----- Follow-ups -----

  predicate DueSorted(fs: seq<FollowUp>) {
    forall i, j :: 0 <= i < j < |fs| ==> fs[i].dueAt <= fs[j].dueAt
  }

  // Those due at one time, in their order.
  function AtDue(fs: seq<FollowUp>, due: Time): seq<FollowUp> {
    if |fs| == 0 then []
    else AtDue(fs[..|fs| - 1], due) + if fs[|fs| - 1].dueAt == due then [fs[|fs| - 1]] else []
  }

  // The same follow-ups, those due together in the order they came in.
  ghost predicate StableFor(sorted: seq<FollowUp>, fs: seq<FollowUp>) {
    multiset(sorted) == multiset(fs) && forall due :: AtDue(sorted, due) == AtDue(fs, due)
  }

  lemma {:induction false} AtDueSum(a: seq<FollowUp>, b: seq<FollowUp>, due: Time)
    ensures AtDue(a + b, due) == AtDue(a, due) + AtDue(b, due)
    decreases |b|
  {
    if |b| == 0 {
      assert a + b == a;
      assert AtDue(a, due) + [] == AtDue(a, due);
    } else {
      var init, last := b[..|b| - 1], b[|b| - 1];
      AtDueSum(a, init, due);
      assert (a + b)[..|a + b| - 1] == a + init && (a + b)[|a + b| - 1] == last;
      AtDueLast(a + b, due);
      AtDueLast(b, due);
    }
  }

  lemma AtDueLast(fs: seq<FollowUp>, due: Time)
    requires |fs| > 0
    ensures AtDue(fs, due) ==
      var init, last := fs[..|fs| - 1], fs[|fs| - 1];
      if last.dueAt == due then AtDue(init, due) + [last] else AtDue(init, due)
  {
  }

  lemma {:induction false} NoneAtDue(fs: seq<FollowUp>, due: Time)
    requires forall i :: 0 <= i < |fs| ==> fs[i].dueAt != due
    ensures AtDue(fs, due) == []
  {
    if |fs| > 0 {
      NoneAtDue(fs[..|fs| - 1], due);
    }
  }

  // A follow-up put in before the later ones stands behind those due together with it.
  lemma InsertedAt(fs: seq<FollowUp>, f: FollowUp, k: nat)
    requires DueSorted(fs) && k <= |fs|
    requires forall j :: k <= j < |fs| ==> fs[j].dueAt > f.dueAt
    requires k > 0 ==> fs[k - 1].dueAt <= f.dueAt
    ensures DueSorted(fs[..k] + [f] + fs[k..]) && StableFor(fs[..k] + [f] + fs[k..], fs + [f])
  {
    hide AtDue, DueSorted;
    var a, b := fs[..k], fs[k..];
    assert fs == a + b;
    SortedAround(fs, f, k);
    SumsAgree(a, b, f);
    forall due ensures AtDue(a + [f] + b, due) == AtDue(fs + [f], due) {
      InsertedAtDue(a, b, f, due);
    }
  }

  lemma SortedAround(fs: seq<FollowUp>, f: FollowUp, k: nat)
    requires DueSorted(fs) && k <= |fs|
    requires forall j :: k <= j < |fs| ==> fs[j].dueAt > f.dueAt
    requires k > 0 ==> fs[k - 1].dueAt <= f.dueAt
    ensures DueSorted(fs[..k] + [f] + fs[k..])
  {
  }

  lemma SumsAgree(a: seq<FollowUp>, b: seq<FollowUp>, f: FollowUp)
    ensures multiset(a + [f] + b) == multiset(a + b + [f])
  {
    assert multiset(a + [f] + b) == multiset(a) + multiset{f} + multiset(b);
  }

  lemma InsertedAtDue(a: seq<FollowUp>, b: seq<FollowUp>, f: FollowUp, due: Time)
    requires forall j :: 0 <= j < |b| ==> b[j].dueAt > f.dueAt
    ensures AtDue(a + [f] + b, due) == AtDue(a + b + [f], due)
  {
    hide AtDue;
    AtDueSum(a + [f], b, due);
    AtDueSum(a, [f], due);
    AtDueSum(a + b, [f], due);
    AtDueSum(a, b, due);
    if due == f.dueAt {
      NoneAtDue(b, due);
    } else {
      NoneAtDue([f], due);
    }
  }

  lemma StableThrough(a: seq<FollowUp>, b: seq<FollowUp>, c: seq<FollowUp>, f: FollowUp)
    requires StableFor(a, b + [f]) && StableFor(b, c)
    ensures StableFor(a, c + [f])
  {
    hide AtDue;
    forall due ensures AtDue(a, due) == AtDue(c + [f], due) {
      AtDueSum(b, [f], due);
      AtDueSum(c, [f], due);
    }
  }

  // A stable sort by due time.
  method SortByDue(fs: seq<FollowUp>) returns (sorted: seq<FollowUp>)
    ensures DueSorted(sorted) && StableFor(sorted, fs)
  {
    hide StableFor, DueSorted;
    sorted := [];
    NothingSorted();
    for i := 0 to |fs|
      invariant DueSorted(sorted) && StableFor(sorted, fs[..i])
    {
      assert fs[..i + 1] == fs[..i] + [fs[i]];
      var more := InsertByDue(sorted, fs[i]);
      StableThrough(more, sorted, fs[..i], fs[i]);
      sorted := more;
    }
    assert fs[..|fs|] == fs;
  }

  lemma NothingSorted()
    ensures DueSorted([]) && forall fs :: fs == [] ==> StableFor([], fs)
  {
  }

  method InsertByDue(fs: seq<FollowUp>, f: FollowUp) returns (sorted: seq<FollowUp>)
    requires DueSorted(fs)
    ensures DueSorted(sorted) && StableFor(sorted, fs + [f])
  {
    hide DueSorted, StableFor;
    var k := |fs|;
    while k > 0 && fs[k - 1].dueAt > f.dueAt
      invariant 0 <= k <= |fs|
      invariant forall j :: k <= j < |fs| ==> fs[j].dueAt > f.dueAt
    {
      k := k - 1;
    }
    InsertedAt(fs, f, k);
    sorted := fs[..k] + [f] + fs[k..];
  }

  // The day being played: its number, its end, when its sends count as sent, the campaigns that send.
  datatype Today = Today(
    day: int, dayEnd: Time, sentAt: Time, openIds: set<CampaignId>, byId: map<CampaignId, ForecastCampaign>)

  ghost predicate TodayOk(t: Today) {
    t.openIds <= t.byId.Keys && forall c :: c in t.byId ==> t.byId[c].id == c
  }

  // Due today, for a campaign that sends today.
  predicate DueToday(f: FollowUp, t: Today) {
    f.dueAt < t.dayEnd && f.campaign in t.openIds
  }

  // What sending a follow-up books.
  function AfterIt(f: FollowUp, t: Today): seq<FollowUp> {
    if f.campaign in t.byId then Following(t.byId[f.campaign], f.mailbox, f.stepsSent + 1, t.sentAt) else []
  }

  // The follow-ups of the queue that were sent, or that were not.
  function Picked(queue: seq<FollowUp>, sent: seq<bool>, which: bool): seq<FollowUp>
    requires |queue| == |sent|
  {
    if |queue| == 0 then []
    else
      var k := |queue| - 1;
      Picked(queue[..k], sent[..k], which) + if sent[k] == which then [queue[k]] else []
  }

  lemma PickedMore(queue: seq<FollowUp>, sent: seq<bool>, f: FollowUp, s: bool, which: bool)
    requires |queue| == |sent|
    ensures Picked(queue + [f], sent + [s], which) == Picked(queue, sent, which) + if s == which then [f] else []
  {
    assert (queue + [f])[..|queue|] == queue && (sent + [s])[..|sent|] == sent;
  }

  ghost predicate Parted(queue: seq<FollowUp>, sent: seq<bool>)
    requires |queue| == |sent|
  {
    multiset(queue) == multiset(Picked(queue, sent, true)) + multiset(Picked(queue, sent, false))
  }

  lemma PartsMore(queue: seq<FollowUp>, sent: seq<bool>, f: FollowUp, s: bool)
    requires |queue| == |sent| && Parted(queue, sent)
    ensures Parted(queue + [f], sent + [s])
  {
    PickedMore(queue, sent, f, s, true);
    PickedMore(queue, sent, f, s, false);
    var other, same := Picked(queue, sent, !s), Picked(queue, sent, s);
    assert other + [] == other;
    assert multiset(same + [f]) == multiset(same) + multiset{f};
  }

  // Each follow-up is sent or carried over, once.
  lemma {:induction false} PickedParts(queue: seq<FollowUp>, sent: seq<bool>)
    requires |queue| == |sent|
    ensures Parted(queue, sent)
  {
    if |queue| > 0 {
      hide Parted;
      var k := |queue| - 1;
      PickedParts(queue[..k], sent[..k]);
      PartsMore(queue[..k], sent[..k], queue[k], sent[k]);
      assert queue == queue[..k] + [queue[k]] && sent == sent[..k] + [sent[k]];
    }
  }

  // What the sent follow-ups book, in order.
  function NextSteps(queue: seq<FollowUp>, sent: seq<bool>, t: Today): seq<FollowUp>
    requires |queue| == |sent|
  {
    if |queue| == 0 then []
    else
      var k := |queue| - 1;
      NextSteps(queue[..k], sent[..k], t) + if sent[k] then AfterIt(queue[k], t) else []
  }

  lemma NextStepsMore(queue: seq<FollowUp>, sent: seq<bool>, t: Today, f: FollowUp, s: bool)
    requires |queue| == |sent|
    ensures NextSteps(queue + [f], sent + [s], t) == NextSteps(queue, sent, t) + if s then AfterIt(f, t) else []
  {
    assert (queue + [f])[..|queue|] == queue && (sent + [s])[..|sent|] == sent;
  }

  // Each send books at most one.
  lemma {:induction false} OneNextStepEach(queue: seq<FollowUp>, sent: seq<bool>, t: Today)
    requires |queue| == |sent|
    ensures |NextSteps(queue, sent, t)| <= |Picked(queue, sent, true)|
  {
    if |queue| > 0 {
      OneNextStepEach(queue[..|queue| - 1], sent[..|queue| - 1], t);
    }
  }

  // The sends the sent follow-ups are, each from its own mailbox.
  function PlaysOf(queue: seq<FollowUp>, sent: seq<bool>, day: int): seq<Play>
    requires |queue| == |sent|
  {
    if |queue| == 0 then []
    else
      var k := |queue| - 1;
      PlaysOf(queue[..k], sent[..k], day)
      + if sent[k] then [Play(day, queue[k].mailbox, queue[k].campaign, false)] else []
  }

  lemma PlaysMore(queue: seq<FollowUp>, sent: seq<bool>, day: int, f: FollowUp, s: bool)
    requires |queue| == |sent|
    ensures PlaysOf(queue + [f], sent + [s], day) ==
      PlaysOf(queue, sent, day) + if s then [Play(day, f.mailbox, f.campaign, false)] else []
  {
    assert (queue + [f])[..|queue|] == queue && (sent + [s])[..|sent|] == sent;
  }

  // Only due ones of open campaigns are sent, and none that is due is carried over while one after it
  // in line gets a slot of the same mailbox.
  ghost predicate InOrder(queue: seq<FollowUp>, sent: seq<bool>, t: Today) {
    && |sent| <= |queue|
    && (forall i :: 0 <= i < |sent| && sent[i] ==> DueToday(queue[i], t))
    && (forall i, j :: 0 <= i < j < |sent| && DueToday(queue[i], t) && !sent[i] && sent[j] ==>
          queue[i].mailbox != queue[j].mailbox)
  }

  // What is due and carried over has no room left in its mailbox.
  ghost predicate CarriedForRoom(queue: seq<FollowUp>, sent: seq<bool>, t: Today, b: Board) {
    && |sent| <= |queue|
    && forall i :: 0 <= i < |sent| && DueToday(queue[i], t) && !sent[i] ==> Room(b, queue[i].mailbox) <= 0
  }

  // Tomorrow's list is what was carried over and what the sent ones booked.
  ghost predicate Conserved(queue: seq<FollowUp>, sent: seq<bool>, t: Today, next: seq<FollowUp>)
    requires |queue| == |sent|
  {
    multiset(next) == multiset(Picked(queue, sent, false)) + multiset(NextSteps(queue, sent, t))
  }

  lemma ConservedMore(queue: seq<FollowUp>, sent: seq<bool>, t: Today, next: seq<FollowUp>, f: FollowUp, fits: bool)
    requires |queue| == |sent| && Conserved(queue, sent, t, next)
    ensures Conserved(queue + [f], sent + [fits], t, next + if fits then AfterIt(f, t) else [f])
    ensures |Picked(queue + [f], sent + [fits], true)| == |Picked(queue, sent, true)| + if fits then 1 else 0
  {
    PickedMore(queue, sent, f, fits, true);
    PickedMore(queue, sent, f, fits, false);
    NextStepsMore(queue, sent, t, f, fits);
    var carried, booked := Picked(queue, sent, false), NextSteps(queue, sent, t);
    if fits {
      assert carried + [] == carried;
      assert multiset(next + AfterIt(f, t)) == multiset(next) + multiset(AfterIt(f, t));
      assert multiset(booked + AfterIt(f, t)) == multiset(booked) + multiset(AfterIt(f, t));
    } else {
      assert booked + [] == booked;
      assert multiset(next + [f]) == multiset(next) + multiset{f};
      assert multiset(carried + [f]) == multiset(carried) + multiset{f};
    }
  }

  // The first `n` of the queue have been played.
  ghost predicate FollowUpsPlayed(
    queue: seq<FollowUp>, n: nat, t: Today, b: Board, sent: seq<bool>, before: seq<Play>, sends: seq<Play>)
  {
    && |sent| == n <= |queue|
    && InOrder(queue, sent, t) && CarriedForRoom(queue, sent, t, b) && Conserved(queue[..n], sent, t, b.next)
    && before <= sends && |sends| == |before| + |Picked(queue[..n], sent, true)|
    && (forall i :: |before| <= i < |sends| ==> !sends[i].first && sends[i].day == t.day)
    && sends == before + PlaysOf(queue[..n], sent, t.day)
  }

  lemma FollowUpSent(queue: seq<FollowUp>, n: nat, t: Today, b: Board, b': Board,
                     sent: seq<bool>, before: seq<Play>, sends: seq<Play>, x: Play)
    requires n < |queue| && FollowUpsPlayed(queue, n, t, b, sent, before, sends)
    requires DueToday(queue[n], t) && Room(b, queue[n].mailbox) > 0
    requires forall m :: Room(b', m) <= Room(b, m)
    requires b'.next == b.next + AfterIt(queue[n], t)
    requires x == Play(t.day, queue[n].mailbox, queue[n].campaign, false)
    ensures FollowUpsPlayed(queue, n + 1, t, b', sent + [true], before, sends + [x])
  {
    hide Conserved, Picked, InOrder, CarriedForRoom, Room, DueToday, PlaysOf;
    assert queue[..n + 1] == queue[..n] + [queue[n]];
    PlaysMore(queue[..n], sent, t.day, queue[n], true);
    ConservedMore(queue[..n], sent, t, b.next, queue[n], true);
    SentInOrder(queue, n, t, b, b', sent);
  }

  // What was carried over had no room, so the one that has comes from another mailbox.
  lemma SentInOrder(queue: seq<FollowUp>, n: nat, t: Today, b: Board, b': Board, sent: seq<bool>)
    requires n < |queue| && |sent| == n && InOrder(queue, sent, t) && CarriedForRoom(queue, sent, t, b)
    requires DueToday(queue[n], t) && Room(b, queue[n].mailbox) > 0
    requires forall m :: Room(b', m) <= Room(b, m)
    ensures InOrder(queue, sent + [true], t) && CarriedForRoom(queue, sent + [true], t, b')
  {
    hide Room, DueToday;
  }

  lemma FollowUpCarried(queue: seq<FollowUp>, n: nat, t: Today, b: Board, b': Board,
                        sent: seq<bool>, before: seq<Play>, sends: seq<Play>)
    requires n < |queue| && FollowUpsPlayed(queue, n, t, b, sent, before, sends)
    requires DueToday(queue[n], t) ==> Room(b, queue[n].mailbox) <= 0
    requires b' == b.(next := b.next + [queue[n]])
    ensures FollowUpsPlayed(queue, n + 1, t, b', sent + [false], before, sends)
  {
    hide Conserved, Picked, DueToday, PlaysOf;
    assert queue[..n + 1] == queue[..n] + [queue[n]];
    PlaysMore(queue[..n], sent, t.day, queue[n], false);
    ConservedMore(queue[..n], sent, t, b.next, queue[n], false);
  }

  method FollowUpTurn(b: Board, f: FollowUp, t: Today, ghost room: map<MailboxId, int>, ghost sends: seq<Play>)
    returns (b': Board, fits: bool)
    requires BoardOk(b, room, t.day, sends) && TodayOk(t)
    ensures fits <==> DueToday(f, t) && Room(b, f.mailbox) > 0
    ensures BoardOk(b', room, t.day, if fits then sends + [Play(t.day, f.mailbox, f.campaign, false)] else sends)
    ensures forall m :: Room(b', m) <= Room(b, m)
    ensures b'.next == b.next + if fits then AfterIt(f, t) else [f]
    ensures !fits ==> b' == b.(next := b.next + [f])
  {
    hide BoardOk, Tally;
    fits := f.dueAt < t.dayEnd && f.campaign in t.openIds && Room(b, f.mailbox) > 0;
    if fits {
      var c := t.byId[f.campaign];
      SendKeeps(b, room, t.day, sends, t.sentAt, f.mailbox, c, f.stepsSent + 1, false);
      b' := Send(b, t.day, t.sentAt, f.mailbox, c, f.stepsSent + 1);
    } else {
      CarryKeeps(b, room, t.day, sends, f);
      b' := b.(next := b.next + [f]);
    }
  }

  // Due follow-ups first, soonest first, each from its own mailbox.
  method PlayFollowUps(start: Board, queue: seq<FollowUp>, t: Today, ghost room: map<MailboxId, int>, ghost before: seq<Play>)
    returns (b: Board, ghost sent: seq<bool>, ghost sends: seq<Play>)
    requires BoardOk(start, room, t.day, before) && start.next == [] && TodayOk(t)
    ensures BoardOk(b, room, t.day, sends)
    ensures FollowUpsPlayed(queue, |queue|, t, b, sent, before, sends)
  {
    b, sent, sends := start, [], before;
    for i := 0 to |queue|
      invariant BoardOk(b, room, t.day, sends)
      invariant FollowUpsPlayed(queue, i, t, b, sent, before, sends)
    {
      var after, fits := FollowUpTurn(b, queue[i], t, room, sends);
      if fits {
        ghost var x := Play(t.day, queue[i].mailbox, queue[i].campaign, false);
        FollowUpSent(queue, i, t, b, after, sent, before, sends, x);
        sends := sends + [x];
      } else {
        FollowUpCarried(queue, i, t, b, after, sent, before, sends);
      }
      b, sent := after, sent + [fits];
    }
  }

  // ----- First emails -----

  // How many first emails a campaign may send today.
  function Allowance(c: ForecastCampaign, firstEmailsLeft: int): int {
    if c.maxNewLeadsPerDay.Some? then Min(firstEmailsLeft, c.maxNewLeadsPerDay.value) else firstEmailsLeft
  }

  predicate NoRoom(b: Board, ids: seq<MailboxId>) {
    forall i :: 0 <= i < |ids| ==> Room(b, ids[i]) <= 0
  }

  // The mailbox with the most room, the first of them on a tie.
  method MostRoom(b: Board, ids: seq<MailboxId>) returns (target: Option<MailboxId>)
    ensures target.None? <==> NoRoom(b, ids)
    ensures target.Some? ==> target.value in ids && Room(b, target.value) > 0
    ensures target.Some? ==> forall i :: 0 <= i < |ids| ==> Room(b, ids[i]) <= Room(b, target.value)
  {
    target := None;
    for i := 0 to |ids|
      invariant target.None? <==> forall k :: 0 <= k < i ==> Room(b, ids[k]) <= 0
      invariant target.Some? ==> target.value in ids && Room(b, target.value) > 0
      invariant target.Some? ==> forall k :: 0 <= k < i ==> Room(b, ids[k]) <= Room(b, target.value)
    {
      if Room(b, ids[i]) > 0 && (target.None? || Room(b, ids[i]) > Room(b, target.value)) {
        target := Some(ids[i]);
      }
    }
  }

  // Where one campaign stands after `n` first emails today, having started the day with `start` left.
  ghost predicate CampaignOk(c: ForecastCampaign, b: Board, newLeft: int, firstLeft: int, start: int, n: nat) {
    && firstLeft == start - n && n <= Allowance(c, start) && newLeft >= 0
    && (newLeft == Allowance(c, start) - n || (newLeft == 0 && NoRoom(b, c.mailboxIds)))
  }

  ghost predicate OpenOk(sending: seq<ForecastCampaign>, t: Today, start: map<CampaignId, int>) {
    && TodayOk(t)
    && (forall i :: 0 <= i < |sending| ==>
          sending[i].id in t.openIds && sending[i].id in t.byId && t.byId[sending[i].id] == sending[i])
    && (forall i :: 0 <= i < |sending| ==> sending[i].id in start && start[sending[i].id] >= 0)
    && (forall i, j :: 0 <= i < j < |sending| ==> sending[i].id != sending[j].id)
  }

  ghost predicate FirstsOk(sending: seq<ForecastCampaign>, t: Today, b: Board, newLeft: map<CampaignId, int>,
                           firstLeft: map<CampaignId, int>, start: map<CampaignId, int>, sends: seq<Play>) {
    && firstLeft.Keys == start.Keys
    && (forall i :: 0 <= i < |sending| ==>
          var id := sending[i].id;
          id in newLeft && id in start &&
          CampaignOk(sending[i], b, newLeft[id], firstLeft[id], start[id], Count(sends, FirstOn(t.day, id))))
    && (forall c :: c in start && (forall i :: 0 <= i < |sending| ==> sending[i].id != c) ==> firstLeft[c] == start[c])
  }

  function Sum(sending: seq<ForecastCampaign>, left: map<CampaignId, int>): int {
    if |sending| == 0 then 0
    else
      var id := sending[|sending| - 1].id;
      Sum(sending[..|sending| - 1], left) + if id in left then left[id] else 0
  }

  lemma {:induction false} SumUpdate(sending: seq<ForecastCampaign>, left: map<CampaignId, int>, k: nat, v: int)
    requires k < |sending| && sending[k].id in left
    requires forall i, j :: 0 <= i < j < |sending| ==> sending[i].id != sending[j].id
    ensures Sum(sending, left[sending[k].id := v]) == Sum(sending, left) - left[sending[k].id] + v
  {
    var last := |sending| - 1;
    if k < last {
      SumUpdate(sending[..last], left, k, v);
    } else {
      SumElsewhere(sending[..last], left, sending[k].id, v);
    }
  }

  lemma {:induction false} SumElsewhere(sending: seq<ForecastCampaign>, left: map<CampaignId, int>, id: CampaignId, v: int)
    requires forall i :: 0 <= i < |sending| ==> sending[i].id != id
    ensures Sum(sending, left[id := v]) == Sum(sending, left)
  {
    if |sending| > 0 {
      SumElsewhere(sending[..|sending| - 1], left, id, v);
    }
  }

  lemma {:induction false} SumNotNegative(sending: seq<ForecastCampaign>, left: map<CampaignId, int>)
    requires forall i :: 0 <= i < |sending| && sending[i].id in left ==> left[sending[i].id] >= 0
    ensures Sum(sending, left) >= 0
  {
    if |sending| > 0 {
      SumNotNegative(sending[..|sending| - 1], left);
    }
  }

  // What the first emails of the day book.
  function FirstSteps(plays: seq<Play>, t: Today): seq<FollowUp> {
    if |plays| == 0 then []
    else
      var x := plays[|plays| - 1];
      FirstSteps(plays[..|plays| - 1], t) +
      if x.campaign in t.byId then Following(t.byId[x.campaign], x.mailbox, 1, t.sentAt) else []
  }

  // The sends of pass 2 so far, and what they booked.
  ghost predicate FirstSends(before: seq<Play>, sends: seq<Play>, t: Today, start: Board, b: Board) {
    && before <= sends
    && (forall i :: |before| <= i < |sends| ==>
          sends[i].first && sends[i].day == t.day && sends[i].campaign in t.openIds)
    && b.next == start.next + FirstSteps(sends[|before|..], t)
  }

  lemma FirstSendsMore(before: seq<Play>, sends: seq<Play>, t: Today, start: Board, b: Board, b': Board, x: Play)
    requires FirstSends(before, sends, t, start, b)
    requires x.first && x.day == t.day && x.campaign in t.openIds && x.campaign in t.byId
    requires b'.next == b.next + Following(t.byId[x.campaign], x.mailbox, 1, t.sentAt)
    ensures FirstSends(before, sends + [x], t, start, b')
  {
    var plays := sends[|before|..];
    assert (sends + [x])[|before|..] == plays + [x];
    assert (plays + [x])[..|plays|] == plays;
  }

  // A first email of campaign `k` changes that campaign's numbers by one and no other's.
  lemma FirstSent(sending: seq<ForecastCampaign>, t: Today, b: Board, b': Board, newLeft: map<CampaignId, int>,
                  firstLeft: map<CampaignId, int>, start: map<CampaignId, int>, sends: seq<Play>, k: nat, m: MailboxId)
    requires OpenOk(sending, t, start) && FirstsOk(sending, t, b, newLeft, firstLeft, start, sends)
    requires k < |sending| && newLeft[sending[k].id] > 0 && !NoRoom(b, sending[k].mailboxIds)
    requires forall m :: Room(b', m) <= Room(b, m)
    ensures var id := sending[k].id;
            FirstsOk(sending, t, b', newLeft[id := newLeft[id] - 1], firstLeft[id := firstLeft[id] - 1], start,
                     sends + [Play(t.day, m, id, true)])
  {
    var id := sending[k].id;
    var x := Play(t.day, m, id, true);
    forall i | 0 <= i < |sending|
      ensures Count(sends + [x], FirstOn(t.day, sending[i].id)) ==
              Count(sends, FirstOn(t.day, sending[i].id)) + if i == k then 1 else 0
    {
      CountMore(sends, x, FirstOn(t.day, sending[i].id));
      assert i != k ==> sending[i].id != id;
    }
  }

  lemma FirstGivenUp(sending: seq<ForecastCampaign>, t: Today, b: Board, newLeft: map<CampaignId, int>,
                     firstLeft: map<CampaignId, int>, start: map<CampaignId, int>, sends: seq<Play>, k: nat)
    requires OpenOk(sending, t, start) && FirstsOk(sending, t, b, newLeft, firstLeft, start, sends)
    requires k < |sending| && NoRoom(b, sending[k].mailboxIds)
    ensures FirstsOk(sending, t, b, newLeft[sending[k].id := 0], firstLeft, start, sends)
  {
    forall i | 0 <= i < |sending| && i != k ensures sending[i].id != sending[k].id {
    }
  }

  lemma RoomShrinks(b: Board, day: int, sentAt: Time, m: MailboxId, c: ForecastCampaign, step: nat)
    ensures forall k :: Room(Send(b, day, sentAt, m, c, step), k) <= Room(b, k)
  {
  }

  // Everything pass 2 keeps.
  ghost predicate Pass2(sending: seq<ForecastCampaign>, t: Today, board: Board, b: Board, newLeft: map<CampaignId, int>,
                        firstLeft: map<CampaignId, int>, start: map<CampaignId, int>, room: map<MailboxId, int>,
                        before: seq<Play>, sends: seq<Play>)
  {
    && BoardOk(b, room, t.day, sends) && FirstSends(before, sends, t, board, b)
    && FirstsOk(sending, t, b, newLeft, firstLeft, start, sends)
    && (forall m :: Room(b, m) <= Room(board, m))
  }

  lemma Pass2Sent(sending: seq<ForecastCampaign>, k: nat, t: Today, board: Board, b: Board,
                  newLeft: map<CampaignId, int>, firstLeft: map<CampaignId, int>, start: map<CampaignId, int>,
                  room: map<MailboxId, int>, before: seq<Play>, sends: seq<Play>, m: MailboxId)
    requires k < |sending| && OpenOk(sending, t, start)
    requires Pass2(sending, t, board, b, newLeft, firstLeft, start, room, before, sends)
    requires newLeft[sending[k].id] > 0 && m in sending[k].mailboxIds && Room(b, m) > 0
    ensures var c := sending[k];
            Pass2(sending, t, board, Send(b, t.day, t.sentAt, m, c, 1), newLeft[c.id := newLeft[c.id] - 1],
                  firstLeft[c.id := firstLeft[c.id] - 1], start, room, before, sends + [Play(t.day, m, c.id, true)])
  {
    var c := sending[k];
    var b' := Send(b, t.day, t.sentAt, m, c, 1);
    RoomShrinks(b, t.day, t.sentAt, m, c, 1);
    SendKeeps(b, room, t.day, sends, t.sentAt, m, c, 1, true);
    FirstSendsMore(before, sends, t, board, b, b', Play(t.day, m, c.id, true));
    FirstSent(sending, t, b, b', newLeft, firstLeft, start, sends, k, m);
  }

  lemma Pass2GivenUp(sending: seq<ForecastCampaign>, k: nat, t: Today, board: Board, b: Board,
                     newLeft: map<CampaignId, int>, firstLeft: map<CampaignId, int>, start: map<CampaignId, int>,
                     room: map<MailboxId, int>, before: seq<Play>, sends: seq<Play>)
    requires k < |sending| && OpenOk(sending, t, start) && NoRoom(b, sending[k].mailboxIds)
    requires Pass2(sending, t, board, b, newLeft, firstLeft, start, room, before, sends)
    ensures Pass2(sending, t, board, b, newLeft[sending[k].id := 0], firstLeft, start, room, before, sends)
  {
    FirstGivenUp(sending, t, b, newLeft, firstLeft, start, sends, k);
  }

  // One campaign's turn: one first email, to its mailbox with the most room, or none ever again today.
  method FirstTurn(sending: seq<ForecastCampaign>, k: nat, t: Today, ghost board: Board, b: Board,
                   newLeft: map<CampaignId, int>, firstLeft: map<CampaignId, int>, ghost start: map<CampaignId, int>,
                   ghost room: map<MailboxId, int>, ghost before: seq<Play>, ghost sends: seq<Play>)
    returns (sent: bool, b': Board, newLeft': map<CampaignId, int>, firstLeft': map<CampaignId, int>,
             ghost sends': seq<Play>)
    requires k < |sending| && OpenOk(sending, t, start)
    requires Pass2(sending, t, board, b, newLeft, firstLeft, start, room, before, sends)
    requires newLeft[sending[k].id] > 0
    ensures Pass2(sending, t, board, b', newLeft', firstLeft', start, room, before, sends')
    ensures newLeft' == newLeft[sending[k].id := if sent then newLeft[sending[k].id] - 1 else 0]
  {
    var target := MostRoom(b, sending[k].mailboxIds);
    sent := target.Some?;
    if sent {
      b', newLeft', firstLeft', sends' :=
        SendFirst(sending, k, t, board, b, newLeft, firstLeft, start, room, before, sends, target.value);
    } else {
      Pass2GivenUp(sending, k, t, board, b, newLeft, firstLeft, start, room, before, sends);
      b', newLeft', firstLeft', sends' := b, newLeft[sending[k].id := 0], firstLeft, sends;
    }
  }

  method SendFirst(sending: seq<ForecastCampaign>, k: nat, t: Today, ghost board: Board, b: Board,
                   newLeft: map<CampaignId, int>, firstLeft: map<CampaignId, int>, ghost start: map<CampaignId, int>,
                   ghost room: map<MailboxId, int>, ghost before: seq<Play>, ghost sends: seq<Play>, m: MailboxId)
    returns (b': Board, newLeft': map<CampaignId, int>, firstLeft': map<CampaignId, int>, ghost sends': seq<Play>)
    requires k < |sending| && OpenOk(sending, t, start)
    requires Pass2(sending, t, board, b, newLeft, firstLeft, start, room, before, sends)
    requires newLeft[sending[k].id] > 0 && m in sending[k].mailboxIds && Room(b, m) > 0
    ensures Pass2(sending, t, board, b', newLeft', firstLeft', start, room, before, sends')
    ensures newLeft' == newLeft[sending[k].id := newLeft[sending[k].id] - 1]
  {
    var c := sending[k];
    Pass2Sent(sending, k, t, board, b, newLeft, firstLeft, start, room, before, sends, m);
    b' := Send(b, t.day, t.sentAt, m, c, 1);
    newLeft', firstLeft' := newLeft[c.id := newLeft[c.id] - 1], firstLeft[c.id := firstLeft[c.id] - 1];
    sends' := sends + [Play(t.day, m, c.id, true)];
  }

  // The campaign's turn in a round.
  method RoundTurn(sending: seq<ForecastCampaign>, k: nat, t: Today, ghost board: Board, b: Board,
                   newLeft: map<CampaignId, int>, firstLeft: map<CampaignId, int>, ghost start: map<CampaignId, int>,
                   ghost room: map<MailboxId, int>, ghost before: seq<Play>, ghost sends: seq<Play>)
    returns (sent: bool, b': Board, newLeft': map<CampaignId, int>, firstLeft': map<CampaignId, int>,
             ghost sends': seq<Play>)
    requires k < |sending| && OpenOk(sending, t, start)
    requires Pass2(sending, t, board, b, newLeft, firstLeft, start, room, before, sends)
    ensures Pass2(sending, t, board, b', newLeft', firstLeft', start, room, before, sends')
    ensures Sum(sending, newLeft') <= Sum(sending, newLeft) - if sent then 1 else 0
    ensures !sent && SpentUpTo(sending, k, newLeft) ==> SpentUpTo(sending, k + 1, newLeft')
  {
    if newLeft[sending[k].id] > 0 {
      sent, b', newLeft', firstLeft', sends' :=
        FirstTurn(sending, k, t, board, b, newLeft, firstLeft, start, room, before, sends);
      SumUpdate(sending, newLeft, k, newLeft'[sending[k].id]);
    } else {
      sent, b', newLeft', firstLeft', sends' := false, b, newLeft, firstLeft, sends;
    }
  }

  // The first `n` campaigns have nothing left to send today.
  ghost predicate SpentUpTo(sending: seq<ForecastCampaign>, n: nat, newLeft: map<CampaignId, int>)
    requires n <= |sending|
  {
    forall i :: 0 <= i < n ==> sending[i].id in newLeft && newLeft[sending[i].id] == 0
  }

  // A round over the campaigns: `progressed` is whether anything was sent.
  method FirstRound(sending: seq<ForecastCampaign>, t: Today, ghost board: Board, b0: Board,
                    newLeft0: map<CampaignId, int>, firstLeft0: map<CampaignId, int>, ghost start: map<CampaignId, int>,
                    ghost room: map<MailboxId, int>, ghost before: seq<Play>, ghost sends0: seq<Play>)
    returns (progressed: bool, b: Board, newLeft: map<CampaignId, int>, firstLeft: map<CampaignId, int>,
             ghost sends: seq<Play>)
    requires OpenOk(sending, t, start)
    requires Pass2(sending, t, board, b0, newLeft0, firstLeft0, start, room, before, sends0)
    ensures Pass2(sending, t, board, b, newLeft, firstLeft, start, room, before, sends)
    ensures 0 <= Sum(sending, newLeft) <= Sum(sending, newLeft0) - if progressed then 1 else 0
    ensures !progressed ==> SpentUpTo(sending, |sending|, newLeft)
  {
    progressed, b, newLeft, firstLeft, sends := false, b0, newLeft0, firstLeft0, sends0;
    for k := 0 to |sending|
      invariant Pass2(sending, t, board, b, newLeft, firstLeft, start, room, before, sends)
      invariant Sum(sending, newLeft) <= Sum(sending, newLeft0) - if progressed then 1 else 0
      invariant !progressed ==> SpentUpTo(sending, k, newLeft)
    {
      var sent;
      sent, b, newLeft, firstLeft, sends :=
        RoundTurn(sending, k, t, board, b, newLeft, firstLeft, start, room, before, sends);
      progressed := progressed || sent;
    }
    NotNegative(sending, t, board, b, newLeft, firstLeft, start, room, before, sends);
  }

  lemma NotNegative(sending: seq<ForecastCampaign>, t: Today, board: Board, b: Board, newLeft: map<CampaignId, int>,
                    firstLeft: map<CampaignId, int>, start: map<CampaignId, int>, room: map<MailboxId, int>,
                    before: seq<Play>, sends: seq<Play>)
    requires Pass2(sending, t, board, b, newLeft, firstLeft, start, room, before, sends)
    ensures Sum(sending, newLeft) >= 0
  {
    SumNotNegative(sending, newLeft);
  }

  lemma Pass2Starts(sending: seq<ForecastCampaign>, t: Today, board: Board, newLeft: map<CampaignId, int>,
                    start: map<CampaignId, int>, room: map<MailboxId, int>, before: seq<Play>)
    requires OpenOk(sending, t, start) && BoardOk(board, room, t.day, before)
    requires forall i :: 0 <= i < |sending| ==> Count(before, FirstOn(t.day, sending[i].id)) == 0
    requires forall i :: 0 <= i < |sending| ==>
      sending[i].id in newLeft && newLeft[sending[i].id] == Allowance(sending[i], start[sending[i].id])
    ensures Pass2(sending, t, board, board, newLeft, start, start, room, before, before)
  {
    assert before[|before|..] == [];
    assert board.next + [] == board.next;
  }

  // At the end of the day: every campaign that sends has sent its allowance, or has no mailbox left
  // with room.
  ghost predicate FirstsDone(sending: seq<ForecastCampaign>, t: Today, b: Board, firstLeft: map<CampaignId, int>,
                             start: map<CampaignId, int>, sends: seq<Play>)
  {
    && firstLeft.Keys == start.Keys
    && (forall c :: c in start && (forall i :: 0 <= i < |sending| ==> sending[i].id != c) ==> firstLeft[c] == start[c])
    && (forall i :: 0 <= i < |sending| && sending[i].id in start ==>
          var c := sending[i];
          var n := Count(sends, FirstOn(t.day, c.id));
          && firstLeft[c.id] == start[c.id] - n && n <= Allowance(c, start[c.id])
          && (n == Allowance(c, start[c.id]) || NoRoom(b, c.mailboxIds)))
  }

  lemma AllSpent(sending: seq<ForecastCampaign>, t: Today, b: Board, newLeft: map<CampaignId, int>,
                 firstLeft: map<CampaignId, int>, start: map<CampaignId, int>, sends: seq<Play>)
    requires FirstsOk(sending, t, b, newLeft, firstLeft, start, sends)
    requires SpentUpTo(sending, |sending|, newLeft)
    ensures FirstsDone(sending, t, b, firstLeft, start, sends)
  {
  }

  // Rounds until one sends nothing: it ends.
  method FirstRounds(sending: seq<ForecastCampaign>, t: Today, ghost board: Board, b0: Board,
                     newLeft0: map<CampaignId, int>, start: map<CampaignId, int>,
                     ghost room: map<MailboxId, int>, ghost before: seq<Play>)
    returns (b: Board, newLeft: map<CampaignId, int>, firstLeft: map<CampaignId, int>, ghost sends: seq<Play>)
    requires OpenOk(sending, t, start)
    requires Pass2(sending, t, board, b0, newLeft0, start, start, room, before, before)
    ensures Pass2(sending, t, board, b, newLeft, firstLeft, start, room, before, sends)
    ensures SpentUpTo(sending, |sending|, newLeft)
  {
    b, newLeft, firstLeft, sends := b0, newLeft0, start, before;
    var progressed := true;
    NotNegative(sending, t, board, b, newLeft, firstLeft, start, room, before, sends);
    while progressed
      invariant Pass2(sending, t, board, b, newLeft, firstLeft, start, room, before, sends)
      invariant Sum(sending, newLeft) >= 0
      invariant !progressed ==> SpentUpTo(sending, |sending|, newLeft)
      decreases Sum(sending, newLeft), if progressed then 1 else 0
    {
      progressed, b, newLeft, firstLeft, sends :=
        FirstRound(sending, t, board, b, newLeft, firstLeft, start, room, before, sends);
    }
  }

  // Then first emails, a lead per campaign in turn, each to its mailbox with the most room.
  method PlayFirstEmails(sending: seq<ForecastCampaign>, t: Today, board: Board, start: map<CampaignId, int>,
                         ghost room: map<MailboxId, int>, ghost before: seq<Play>)
    returns (b: Board, firstLeft: map<CampaignId, int>, ghost sends: seq<Play>)
    requires OpenOk(sending, t, start) && BoardOk(board, room, t.day, before)
    requires forall i :: 0 <= i < |sending| ==> Count(before, FirstOn(t.day, sending[i].id)) == 0
    ensures BoardOk(b, room, t.day, sends) && FirstSends(before, sends, t, board, b)
    ensures forall m :: Room(b, m) <= Room(board, m)
    ensures FirstsDone(sending, t, b, firstLeft, start, sends)
  {
    var newLeft: map<CampaignId, int> := map[];
    for i := 0 to |sending|
      invariant forall k :: 0 <= k < i ==>
        sending[k].id in newLeft && newLeft[sending[k].id] == Allowance(sending[k], start[sending[k].id])
    {
      newLeft := newLeft[sending[i].id := Allowance(sending[i], start[sending[i].id])];
    }
    Pass2Starts(sending, t, board, newLeft, start, room, before);
    b, newLeft, firstLeft, sends := FirstRounds(sending, t, board, board, newLeft, start, room, before);
    AllSpent(sending, t, b, newLeft, firstLeft, start, sends);
  }

  // ----- The forecast -----

  // `usedToday` is what each mailbox has sent or booked today; without it the forecast starts tomorrow.
  datatype Input = Input(
    now: Time,
    zones: ZoneTable,
    mailboxes: seq<ForecastMailbox>,
    campaigns: seq<ForecastCampaign>,
    usedToday: Option<map<MailboxId, int>>)

  predicate InputOk(inp: Input) {
    && (forall i, j :: 0 <= i < j < |inp.mailboxes| ==> inp.mailboxes[i].id != inp.mailboxes[j].id)
    && (forall i, j :: 0 <= i < j < |inp.campaigns| ==> inp.campaigns[i].id != inp.campaigns[j].id)
    && (forall i :: 0 <= i < |inp.campaigns| && inp.campaigns[i].schedule.Some? ==>
          inp.campaigns[i].schedule.value.timezone in inp.zones)
  }

  function UtcDay(at: Time): int {
    at / DAY_MS
  }

  // A campaign sends on the UTC day, read at midday in its zone.
  predicate SendsOn(zones: ZoneTable, schedule: Option<Schedule>, day: int)
    requires schedule.Some? ==> schedule.value.timezone in zones
  {
    schedule.Some? ==>
      Weekday(LocalDay(zones[schedule.value.timezone], day * DAY_MS + DAY_MS / 2)) in schedule.value.days
  }

  // A ticked day whose window has not closed yet.
  predicate SendsLaterToday(zones: ZoneTable, schedule: Option<Schedule>, now: Time)
    requires schedule.Some? ==> schedule.value.timezone in zones
  {
    schedule.Some? ==>
      var z := zones[schedule.value.timezone];
      Weekday(LocalDay(z, now)) in schedule.value.days && LocalMinute(z, now) < schedule.value.endMinute
  }

  predicate SendsThen(inp: Input, c: ForecastCampaign, offset: nat)
    requires c.schedule.Some? ==> c.schedule.value.timezone in inp.zones
  {
    if offset == 0 then SendsLaterToday(inp.zones, c.schedule, inp.now)
    else SendsOn(inp.zones, c.schedule, UtcDay(inp.now) + offset)
  }

  function UsedToday(inp: Input, m: MailboxId): int {
    if inp.usedToday.Some? && m in inp.usedToday.value then inp.usedToday.value[m] else 0
  }

  // What a mailbox may send on a day: that day's cap, less what today has used already.
  function CapOn(inp: Input, m: ForecastMailbox, offset: nat): int {
    CampaignCapToday(m.dailyCap, m.graduatedAt, inp.now + offset * DAY_MS)
    - if offset == 0 then UsedToday(inp, m.id) else 0
  }

  ghost predicate RoomIs(inp: Input, offset: nat, room: map<MailboxId, int>) {
    && (forall i :: 0 <= i < |inp.mailboxes| ==>
          inp.mailboxes[i].id in room && room[inp.mailboxes[i].id] == CapOn(inp, inp.mailboxes[i], offset))
    && (forall m :: m in room ==> exists i :: 0 <= i < |inp.mailboxes| && inp.mailboxes[i].id == m)
  }

  method MakeRoom(inp: Input, offset: nat) returns (room: map<MailboxId, int>)
    requires InputOk(inp)
    ensures RoomIs(inp, offset, room)
  {
    room := map[];
    for i := 0 to |inp.mailboxes|
      invariant forall k :: 0 <= k < i ==>
        inp.mailboxes[k].id in room && room[inp.mailboxes[k].id] == CapOn(inp, inp.mailboxes[k], offset)
      invariant forall m :: m in room ==> exists k :: 0 <= k < i && inp.mailboxes[k].id == m
    {
      room := room[inp.mailboxes[i].id := CapOn(inp, inp.mailboxes[i], offset)];
    }
  }

  // One of the first `n` campaigns, and it sends that day.
  ghost predicate SendsAmong(inp: Input, n: nat, offset: nat, c: ForecastCampaign)
    requires InputOk(inp) && n <= |inp.campaigns|
  {
    exists k :: 0 <= k < n && c == inp.campaigns[k] && SendsThen(inp, inp.campaigns[k], offset)
  }

  // The campaigns that send that day, in order.
  function SendingOn(inp: Input, n: nat, offset: nat): (r: seq<ForecastCampaign>)
    requires InputOk(inp) && n <= |inp.campaigns|
    ensures forall c :: c in r <==> SendsAmong(inp, n, offset, c)
    ensures forall i, j :: 0 <= i < j < |r| ==> r[i].id != r[j].id
  {
    if n == 0 then []
    else
      var before := SendingOn(inp, n - 1, offset);
      SendingMore(inp, n, offset, before);
      if SendsThen(inp, inp.campaigns[n - 1], offset) then before + [inp.campaigns[n - 1]] else before
  }

  lemma AmongMore(inp: Input, n: nat, offset: nat, c: ForecastCampaign)
    requires InputOk(inp) && 0 < n <= |inp.campaigns|
    ensures SendsAmong(inp, n, offset, c) <==>
      SendsAmong(inp, n - 1, offset, c) || (c == inp.campaigns[n - 1] && SendsThen(inp, c, offset))
    ensures SendsAmong(inp, n - 1, offset, c) ==> c.id != inp.campaigns[n - 1].id
  {
    hide SendsThen;
  }

  lemma SendingMore(inp: Input, n: nat, offset: nat, before: seq<ForecastCampaign>)
    requires InputOk(inp) && 0 < n <= |inp.campaigns|
    requires forall c :: c in before <==> SendsAmong(inp, n - 1, offset, c)
    requires forall i, j :: 0 <= i < j < |before| ==> before[i].id != before[j].id
    ensures var c := inp.campaigns[n - 1];
            var r := if SendsThen(inp, c, offset) then before + [c] else before;
            && (forall c :: c in r <==> SendsAmong(inp, n, offset, c))
            && (forall i, j :: 0 <= i < j < |r| ==> r[i].id != r[j].id)
  {
    hide SendsThen, SendsAmong;
    forall c ensures SendsAmong(inp, n, offset, c) <==>
      SendsAmong(inp, n - 1, offset, c) || (c == inp.campaigns[n - 1] && SendsThen(inp, inp.campaigns[n - 1], offset))
    {
      AmongMore(inp, n, offset, c);
    }
    forall i | 0 <= i < |before| ensures before[i].id != inp.campaigns[n - 1].id {
      assert before[i] in before;
      AmongMore(inp, n, offset, before[i]);
    }
  }

  method MakeById(inp: Input) returns (byId: map<CampaignId, ForecastCampaign>, left: map<CampaignId, int>)
    requires InputOk(inp)
    ensures byId.Keys == left.Keys
    ensures forall i :: 0 <= i < |inp.campaigns| ==>
      var c := inp.campaigns[i]; c.id in byId && byId[c.id] == c && left[c.id] == c.firstEmailsLeft
    ensures forall c :: c in byId ==> byId[c].id == c && left[c] == byId[c].firstEmailsLeft
  {
    byId, left := map[], map[];
    for i := 0 to |inp.campaigns|
      invariant byId.Keys == left.Keys
      invariant forall k :: 0 <= k < i ==>
        var c := inp.campaigns[k]; c.id in byId && byId[c.id] == c && left[c.id] == c.firstEmailsLeft
      invariant forall c :: c in byId ==> byId[c].id == c && left[c] == byId[c].firstEmailsLeft
    {
      var c := inp.campaigns[i];
      byId, left := byId[c.id := c], left[c.id := c.firstEmailsLeft];
    }
  }

  ghost predicate ByIdOk(inp: Input, byId: map<CampaignId, ForecastCampaign>) {
    && (forall i :: 0 <= i < |inp.campaigns| ==>
          inp.campaigns[i].id in byId && byId[inp.campaigns[i].id] == inp.campaigns[i])
    && (forall c :: c in byId ==> byId[c].id == c)
  }

  lemma OneOfTheCampaigns(inp: Input, byId: map<CampaignId, ForecastCampaign>, offset: nat)
    requires InputOk(inp) && ByIdOk(inp, byId)
    ensures forall i :: 0 <= i < |SendingOn(inp, |inp.campaigns|, offset)| ==>
      var c := SendingOn(inp, |inp.campaigns|, offset)[i]; c.id in byId && byId[c.id] == c
  {
    hide SendsThen;
    var sending := SendingOn(inp, |inp.campaigns|, offset);
    forall i | 0 <= i < |sending| ensures sending[i].id in byId && byId[sending[i].id] == sending[i] {
      assert sending[i] in sending;
      var k :| 0 <= k < |inp.campaigns| && sending[i] == inp.campaigns[k] && SendsThen(inp, inp.campaigns[k], offset);
    }
  }

  // One day as it was played: what was pending, and first emails left, at its start; the queue in due
  // order and which of it was sent; the board after the follow-ups and at the end; first emails left
  // then; the sends before, between and after.
  datatype DayReport = DayReport(
    offset: nat, t: Today, room: map<MailboxId, int>, sending: seq<ForecastCampaign>,
    pending: seq<FollowUp>, start: map<CampaignId, int>,
    queue: seq<FollowUp>, sent: seq<bool>, middle: Board, end: Board, left: map<CampaignId, int>,
    before: seq<Play>, between: seq<Play>, after: seq<Play>)

  // Which day it is, what each mailbox may send, and which campaigns send.
  ghost predicate DaySet(inp: Input, offset: nat, t: Today, room: map<MailboxId, int>, sending: seq<ForecastCampaign>)
    requires InputOk(inp)
  {
    && t.day == UtcDay(inp.now) + offset && t.dayEnd == (t.day + 1) * DAY_MS
    && t.sentAt == Max(inp.now, t.day * DAY_MS + DAY_MS / 2)
    && RoomIs(inp, offset, room) && sending == SendingOn(inp, |inp.campaigns|, offset)
    && t.openIds == (set i | 0 <= i < |sending| :: sending[i].id)
    && ByIdOk(inp, t.byId)
  }

  // How it went.
  ghost predicate DayPlayed(r: DayReport) {
    && DueSorted(r.queue) && StableFor(r.queue, r.pending)
    && FollowUpsPlayed(r.queue, |r.queue|, r.t, r.middle, r.sent, r.before, r.between)
    && FirstSends(r.between, r.after, r.t, r.middle, r.end)
    && FirstsDone(r.sending, r.t, r.end, r.left, r.start, r.after)
    && BoardOk(r.end, r.room, r.t.day, r.after)
    && (forall m :: Room(r.end, m) <= Room(r.middle, m))
  }

  method PlayPasses(offset: nat, t: Today, sending: seq<ForecastCampaign>, board: Board, pending: seq<FollowUp>,
                    start: map<CampaignId, int>, ghost room: map<MailboxId, int>, ghost before: seq<Play>)
    returns (b: Board, firstLeft: map<CampaignId, int>, ghost r: DayReport)
    requires OpenOk(sending, t, start) && BoardOk(board, room, t.day, before) && board.next == []
    requires forall x :: x in before ==> x.day < t.day
    ensures DayPlayed(r) && r.before == before && r.pending == pending && r.start == start
    ensures r.end == b && r.left == firstLeft
    ensures r.offset == offset && r.t == t && r.room == room && r.sending == sending
  {
    var queue := SortByDue(pending);
    ghost var sent, between, after;
    var middle;
    middle, sent, between := PlayFollowUps(board, queue, t, room, before);
    forall i | 0 <= i < |sending| ensures Count(between, FirstOn(t.day, sending[i].id)) == 0 {
      NoFirstYet(before, between, t.day, sending[i].id);
    }
    b, firstLeft, after := PlayFirstEmails(sending, t, middle, start, room, between);
    r := DayReport(offset, t, room, sending, pending, start, queue, sent, middle, b, firstLeft, before, between, after);
  }

  method SetDay(inp: Input, offset: nat, byId: map<CampaignId, ForecastCampaign>, ghost start: map<CampaignId, int>)
    returns (t: Today, room: map<MailboxId, int>, sending: seq<ForecastCampaign>)
    requires InputOk(inp) && byId.Keys == start.Keys
    requires ByIdOk(inp, byId) && forall c :: c in start ==> start[c] >= 0
    ensures DaySet(inp, offset, t, room, sending) && OpenOk(sending, t, start) && t.byId == byId
  {
    var day := UtcDay(inp.now) + offset;
    room := MakeRoom(inp, offset);
    sending := SendingOn(inp, |inp.campaigns|, offset);
    OneOfTheCampaigns(inp, byId, offset);
    t := Today(day, (day + 1) * DAY_MS, Max(inp.now, day * DAY_MS + DAY_MS / 2),
               set i | 0 <= i < |sending| :: sending[i].id, byId);
  }

  // Sends so far, and what they left: every tally is the sends, all of them before today.
  ghost predicate SoFar(inp: Input, day: int, byMailbox: map<MailboxId, map<int, nat>>, before: seq<Play>) {
    && (forall m, d :: Tally(byMailbox, m, d) == Count(before, From(d, m)))
    && (forall x :: x in before ==> x.day < day)
    && (forall i :: 0 <= i < |before| ==> exists k :: 0 <= k < |inp.mailboxes| && inp.mailboxes[k].id == before[i].mailbox)
  }

  method PlayDay(inp: Input, offset: nat, byId: map<CampaignId, ForecastCampaign>, pending: seq<FollowUp>,
                 start: map<CampaignId, int>, byMailbox: map<MailboxId, map<int, nat>>, ghost before: seq<Play>)
    returns (b: Board, firstLeft: map<CampaignId, int>, ghost r: DayReport)
    requires InputOk(inp) && byId.Keys == start.Keys
    requires ByIdOk(inp, byId) && forall c :: c in start ==> start[c] >= 0
    requires SoFar(inp, UtcDay(inp.now) + offset, byMailbox, before)
    ensures DaySet(inp, offset, r.t, r.room, r.sending) && DayPlayed(r)
    ensures r.before == before && r.pending == pending && r.start == start && r.end == b && r.left == firstLeft
    ensures r.offset == offset && r.t.byId == byId
  {
    var t, room, sending := SetDay(inp, offset, byId, start);
    var board := Board(room, 0, byMailbox, []);
    NewBoard(board, room, t.day, before);
    b, firstLeft, r := PlayPasses(offset, t, sending, board, pending, start, room, before);
  }

  lemma NewBoard(b: Board, room: map<MailboxId, int>, day: int, before: seq<Play>)
    requires b.capLeft == room && b.count == 0
    requires forall m, d :: Tally(b.byMailbox, m, d) == Count(before, From(d, m))
    requires forall x :: x in before ==> x.day < day
    requires forall i :: 0 <= i < |before| ==> before[i].mailbox in room
    ensures BoardOk(b, room, day, before)
  {
    CountNone(before, On(day));
    forall m ensures Count(before, From(day, m)) == 0 {
      CountNone(before, From(day, m));
    }
  }

  lemma NoFirstYet(before: seq<Play>, between: seq<Play>, day: int, c: CampaignId)
    requires before <= between && forall x :: x in before ==> x.day < day
    requires forall i :: |before| <= i < |between| ==> !between[i].first
    ensures Count(between, FirstOn(day, c)) == 0
  {
    forall x | x in between ensures !FirstOn(day, c)(x) {
      var i :| 0 <= i < |between| && between[i] == x;
      assert i < |before| ==> x in before;
    }
    CountNone(between, FirstOn(day, c));
  }

  // Campaigns none of which sends that day; with no campaigns nothing is off.
  predicate OffDay(inp: Input, day: int)
    requires InputOk(inp)
  {
    |inp.campaigns| > 0 &&
    forall i :: 0 <= i < |inp.campaigns| ==> !SendsOn(inp.zones, inp.campaigns[i].schedule, day)
  }

  method OffDays(inp: Input, firstDay: int, count: nat) returns (off: seq<int>)
    requires InputOk(inp)
    ensures forall d :: d in off <==> firstDay <= d < firstDay + count && OffDay(inp, d)
    ensures forall i, j :: 0 <= i < j < |off| ==> off[i] < off[j]
  {
    off := [];
    if |inp.campaigns| == 0 {
      return;
    }
    for n := 0 to count
      invariant forall d :: d in off <==> firstDay <= d < firstDay + n && OffDay(inp, d)
      invariant forall i, j :: 0 <= i < j < |off| ==> off[i] < off[j]
    {
      var some := false;
      for i := 0 to |inp.campaigns|
        invariant some <==> exists k :: 0 <= k < i && SendsOn(inp.zones, inp.campaigns[k].schedule, firstDay + n)
      {
        some := some || SendsOn(inp.zones, inp.campaigns[i].schedule, firstDay + n);
      }
      if !some {
        assert forall i :: 0 <= i < |off| ==> off[i] in off;
        off := off + [firstDay + n];
      }
    }
  }

  function FirstOffset(inp: Input): nat {
    if inp.usedToday.Some? then 0 else 1
  }

  // The days played so far, each starting where the one before it ended.
  ghost predicate Chained(inp: Input, reports: seq<DayReport>, pending: seq<FollowUp>, start: map<CampaignId, int>)
    requires InputOk(inp)
  {
    |reports| > 0 ==>
      && Chained(inp, reports[..|reports| - 1], pending, start)
      && Follows(inp, reports[..|reports| - 1], reports[|reports| - 1], pending, start)
  }

  // `r` is the day after `reports`.
  ghost predicate Follows(inp: Input, reports: seq<DayReport>, r: DayReport, pending: seq<FollowUp>,
                          start: map<CampaignId, int>)
    requires InputOk(inp)
  {
    && r.offset == FirstOffset(inp) + |reports| && DaySet(inp, r.offset, r.t, r.room, r.sending) && DayPlayed(r)
    && r.pending == PendingAfter(reports, pending) && r.start == LeftAfter(reports, start)
    && r.before == SendsOf(reports)
  }

  function PendingAfter(reports: seq<DayReport>, pending: seq<FollowUp>): seq<FollowUp> {
    if |reports| == 0 then pending else reports[|reports| - 1].end.next
  }

  function LeftAfter(reports: seq<DayReport>, start: map<CampaignId, int>): map<CampaignId, int> {
    if |reports| == 0 then start else reports[|reports| - 1].left
  }

  function SendsOf(reports: seq<DayReport>): seq<Play> {
    if |reports| == 0 then [] else reports[|reports| - 1].after
  }

  // Follow-ups of a campaign and a mailbox the forecast knows.
  predicate KnownTo(inp: Input, f: FollowUp) {
    && (exists i :: 0 <= i < |inp.campaigns| && inp.campaigns[i].id == f.campaign)
    && (exists i :: 0 <= i < |inp.mailboxes| && inp.mailboxes[i].id == f.mailbox)
  }

  function Known(inp: Input, followUps: seq<FollowUp>): (r: seq<FollowUp>)
    ensures forall f :: f in r <==> f in followUps && KnownTo(inp, f)
    ensures |r| <= |followUps|
  {
    if |followUps| == 0 then []
    else (if KnownTo(inp, followUps[0]) then [followUps[0]] else []) + Known(inp, followUps[1..])
  }

  lemma {:induction false} KnownCounts(inp: Input, followUps: seq<FollowUp>, f: FollowUp)
    ensures multiset(Known(inp, followUps))[f] == if KnownTo(inp, f) then multiset(followUps)[f] else 0
  {
    hide KnownTo;
    if |followUps| > 0 {
      var first, rest := followUps[0], followUps[1..];
      var kept := if KnownTo(inp, first) then [first] else [];
      KnownCounts(inp, rest, f);
      assert followUps == [first] + rest;
      assert multiset([first] + rest) == multiset{first} + multiset(rest);
      assert multiset(kept + Known(inp, rest)) == multiset(kept) + multiset(Known(inp, rest));
    }
  }

  // Nothing pending is lost or doubled on the way in, but what belongs to a campaign or a mailbox the
  // forecast is not about.
  lemma KnownKeeps(inp: Input, followUps: seq<FollowUp>, f: FollowUp)
    ensures multiset(Known(inp, followUps))[f] ==
      if (exists i :: 0 <= i < |inp.campaigns| && inp.campaigns[i].id == f.campaign)
         && (exists i :: 0 <= i < |inp.mailboxes| && inp.mailboxes[i].id == f.mailbox)
      then multiset(followUps)[f] else 0
  {
    KnownCounts(inp, followUps, f);
  }

  lemma DaysSoFar(r: DayReport)
    requires DayPlayed(r) && forall x :: x in r.before ==> x.day < r.t.day
    ensures forall x :: x in r.after ==> x.day < r.t.day + 1
  {
    forall x | x in r.after ensures x.day < r.t.day + 1 {
      var i :| 0 <= i < |r.after| && r.after[i] == x;
      if i < |r.before| {
        assert r.before[i] == r.between[i] == r.after[i];
        assert r.before[i] in r.before;
      } else if i < |r.between| {
        assert r.between[i] == r.after[i];
      }
    }
  }

  lemma DaySetIs(inp: Input, r: DayReport)
    requires InputOk(inp) && DaySet(inp, r.offset, r.t, r.room, r.sending)
    ensures r.t.day == UtcDay(inp.now) + r.offset && RoomIs(inp, r.offset, r.room)
  {
  }

  lemma SoFarDays(inp: Input, day: int, byMailbox: map<MailboxId, map<int, nat>>, before: seq<Play>)
    requires SoFar(inp, day, byMailbox, before)
    ensures forall x :: x in before ==> x.day < day
  {
  }

  lemma DayGoesOn(inp: Input, r: DayReport)
    requires InputOk(inp) && DayPlayed(r) && RoomIs(inp, r.offset, r.room)
    requires forall x :: x in r.before ==> x.day < r.t.day
    ensures SoFar(inp, r.t.day + 1, r.end.byMailbox, r.after)
  {
    DaysSoFar(r);
    assert BoardOk(r.end, r.room, r.t.day, r.after);
  }

  lemma LeftGoesOn(r: DayReport)
    requires DayPlayed(r) && forall c :: c in r.start ==> r.start[c] >= 0
    requires forall i :: 0 <= i < |r.sending| ==> r.sending[i].id in r.start
    ensures r.left.Keys == r.start.Keys && forall c :: c in r.left ==> r.left[c] >= 0
  {
    hide DueSorted, StableFor, FollowUpsPlayed, FirstSends, BoardOk, Count, NoRoom;
    FirstsLeft(r.sending, r.t, r.end, r.left, r.start, r.after);
  }

  lemma FirstsLeft(sending: seq<ForecastCampaign>, t: Today, b: Board, left: map<CampaignId, int>,
                   start: map<CampaignId, int>, sends: seq<Play>)
    requires FirstsDone(sending, t, b, left, start, sends) && forall c :: c in start ==> start[c] >= 0
    requires forall i :: 0 <= i < |sending| ==> sending[i].id in start
    ensures left.Keys == start.Keys && forall c :: c in left ==> left[c] >= 0
  {
    hide Count, NoRoom;
    forall c | c in left ensures left[c] >= 0 {
      if i :| 0 <= i < |sending| && sending[i].id == c {
        assert left[c] == start[c] - Count(sends, FirstOn(t.day, sending[i].id));
      }
    }
  }

  // What the run of days has left to the next.
  ghost predicate Playing(inp: Input, byId: map<CampaignId, ForecastCampaign>, byMailbox: map<MailboxId, map<int, nat>>,
                          reports: seq<DayReport>, pending: seq<FollowUp>, start: map<CampaignId, int>)
    requires InputOk(inp)
  {
    && Chained(inp, reports, pending, start)
    && SoFar(inp, UtcDay(inp.now) + FirstOffset(inp) + |reports|, byMailbox, SendsOf(reports))
    && LeftAfter(reports, start).Keys == byId.Keys
    && (forall c :: c in byId ==> LeftAfter(reports, start)[c] >= 0)
  }

  lemma ChainedMore(inp: Input, reports: seq<DayReport>, r: DayReport, pending: seq<FollowUp>, start: map<CampaignId, int>)
    requires InputOk(inp) && Chained(inp, reports, pending, start) && Follows(inp, reports, r, pending, start)
    ensures Chained(inp, reports + [r], pending, start)
  {
    hide Follows;
    assert (reports + [r])[..|reports|] == reports;
  }

  // Day `k` of a run follows the days before it.
  lemma {:induction false} DayOf(inp: Input, reports: seq<DayReport>, k: nat, pending: seq<FollowUp>,
                                 start: map<CampaignId, int>)
    requires InputOk(inp) && Chained(inp, reports, pending, start) && k < |reports|
    ensures Follows(inp, reports[..k], reports[k], pending, start) && Chained(inp, reports[..k], pending, start)
  {
    hide Follows;
    var last := |reports| - 1;
    if k < last {
      DayOf(inp, reports[..last], k, pending, start);
      assert reports[..last][..k] == reports[..k];
    }
  }

  lemma SendingIsKnown(inp: Input, byId: map<CampaignId, ForecastCampaign>, r: DayReport)
    requires InputOk(inp) && ByIdOk(inp, byId) && DaySet(inp, r.offset, r.t, r.room, r.sending)
    ensures forall i :: 0 <= i < |r.sending| ==> r.sending[i].id in byId
  {
    OneOfTheCampaigns(inp, byId, r.offset);
  }

  method PlayNextDay(inp: Input, n: nat, byId: map<CampaignId, ForecastCampaign>, pending: seq<FollowUp>,
                     left: map<CampaignId, int>, byMailbox: map<MailboxId, map<int, nat>>,
                     ghost reports: seq<DayReport>, ghost pending0: seq<FollowUp>, ghost left0: map<CampaignId, int>)
    returns (b: Board, left': map<CampaignId, int>, ghost r: DayReport)
    requires InputOk(inp) && ByIdOk(inp, byId) && |reports| == n
    requires Playing(inp, byId, byMailbox, reports, pending0, left0)
    requires pending == PendingAfter(reports, pending0) && left == LeftAfter(reports, left0)
    ensures Playing(inp, byId, b.byMailbox, reports + [r], pending0, left0)
    ensures r.end == b && r.left == left' && r.t.day == UtcDay(inp.now) + FirstOffset(inp) + n
    ensures PendingAfter(reports + [r], pending0) == b.next && LeftAfter(reports + [r], left0) == left'
  {
    hide DayPlayed, DaySet, Chained, ByIdOk, SoFar;
    b, left', r := PlayDay(inp, FirstOffset(inp) + n, byId, pending, left, byMailbox, SendsOf(reports));
    DaySetIs(inp, r);
    SoFarDays(inp, r.t.day, byMailbox, SendsOf(reports));
    ChainedMore(inp, reports, r, pending0, left0);
    DayGoesOn(inp, r);
    SendingIsKnown(inp, byId, r);
    LeftGoesOn(r);
  }

  lemma NothingYet(inp: Input, byId: map<CampaignId, ForecastCampaign>, left: map<CampaignId, int>, pending: seq<FollowUp>)
    requires InputOk(inp) && left.Keys == byId.Keys && forall c :: c in left ==> left[c] >= 0
    ensures Playing(inp, byId, map[], [], pending, left)
    ensures PendingAfter([], pending) == pending && LeftAfter([], left) == left
  {
  }

  lemma PlayingTells(inp: Input, byId: map<CampaignId, ForecastCampaign>, byMailbox: map<MailboxId, map<int, nat>>,
                     reports: seq<DayReport>, pending: seq<FollowUp>, start: map<CampaignId, int>)
    requires InputOk(inp) && Playing(inp, byId, byMailbox, reports, pending, start)
    ensures Chained(inp, reports, pending, start)
    ensures forall m, d :: Tally(byMailbox, m, d) == Count(SendsOf(reports), From(d, m))
  {
    hide Chained;
  }

  method ForecastSends(inp: Input, days: nat, followUps: seq<FollowUp>)
    returns (byDay: seq<(int, nat)>, byMailbox: map<MailboxId, map<int, nat>>, off: seq<int>,
             ghost reports: seq<DayReport>, ghost campaigns: map<CampaignId, ForecastCampaign>,
             ghost left0: map<CampaignId, int>)
    requires InputOk(inp)
    ensures ByIdOk(inp, campaigns) && Leads(campaigns, left0)
    ensures |byDay| == |reports| == days + 1 - FirstOffset(inp)
    ensures Chained(inp, reports, Known(inp, followUps), left0)
    ensures forall i :: 0 <= i < |inp.campaigns| ==>
      inp.campaigns[i].id in left0 && left0[inp.campaigns[i].id] == inp.campaigns[i].firstEmailsLeft
    ensures forall k :: 0 <= k < |byDay| ==> byDay[k] == (reports[k].t.day, reports[k].end.count)
    ensures forall m, d :: Tally(byMailbox, m, d) == Count(SendsOf(reports), From(d, m))
    ensures forall d :: d in off <==>
      UtcDay(inp.now) + FirstOffset(inp) <= d < UtcDay(inp.now) + FirstOffset(inp) + |byDay| && OffDay(inp, d)
  {
    hide Chained, Playing, PendingAfter, LeftAfter;
    var byId, left := MakeById(inp);
    NothingYet(inp, byId, left, Known(inp, followUps));
    campaigns, left0, reports := byId, left, [];
    var pending := Known(inp, followUps);
    byDay, byMailbox := [], map[];
    ghost var pending0 := pending;
    var n := 0;
    var offset := FirstOffset(inp);
    while offset <= days
      invariant offset == FirstOffset(inp) + n && n <= days + 1 - FirstOffset(inp) && |byDay| == n
      invariant |reports| == n && Playing(inp, byId, byMailbox, reports, pending0, left0)
      invariant pending == PendingAfter(reports, pending0) && left == LeftAfter(reports, left0)
      invariant forall k :: 0 <= k < n ==> byDay[k] == (reports[k].t.day, reports[k].end.count)
    {
      var b;
      ghost var r;
      b, left, r := PlayNextDay(inp, n, byId, pending, left, byMailbox, reports, pending0, left0);
      reports := reports + [r];
      byDay := byDay + [(UtcDay(inp.now) + offset, b.count)];
      pending, byMailbox := b.next, b.byMailbox;
      n, offset := n + 1, offset + 1;
    }
    PlayingTells(inp, byId, byMailbox, reports, pending0, left0);
    off := OffDays(inp, UtcDay(inp.now) + FirstOffset(inp), |byDay|);
  }

  // ----- What a forecast keeps -----

  lemma NewSendsToday(r: DayReport)
    requires DayPlayed(r)
    ensures r.before <= r.after && forall i :: |r.before| <= i < |r.after| ==> r.after[i].day == r.t.day
  {
    forall i | |r.before| <= i < |r.after| ensures r.after[i].day == r.t.day {
      assert i < |r.between| ==> r.between[i] == r.after[i];
    }
  }

  lemma {:induction false} CountPrefix(before: seq<Play>, after: seq<Play>, p: Play -> bool)
    requires before <= after && forall i :: |before| <= i < |after| ==> !p(after[i])
    ensures Count(after, p) == Count(before, p)
    decreases |after|
  {
    if |after| > |before| {
      CountPrefix(before, after[..|after| - 1], p);
    } else {
      assert before == after;
    }
  }

  // Later days change nothing about day `k`.
  lemma {:induction false} DayStands(inp: Input, reports: seq<DayReport>, k: nat, pending: seq<FollowUp>,
                                     start: map<CampaignId, int>, p: Play -> bool)
    requires InputOk(inp) && Chained(inp, reports, pending, start) && k < |reports|
    requires forall x :: p(x) ==> x.day == UtcDay(inp.now) + FirstOffset(inp) + k
    ensures Count(SendsOf(reports), p) == Count(reports[k].after, p)
  {
    hide DayPlayed, DaySet;
    var last := |reports| - 1;
    if k < last {
      DayStands(inp, reports[..last], k, pending, start, p);
      DaySetIs(inp, reports[last]);
      NewSendsToday(reports[last]);
      CountPrefix(reports[last].before, reports[last].after, p);
    }
  }

  lemma BoardSays(r: DayReport)
    requires DayPlayed(r)
    ensures r.end.count == Count(r.after, On(r.t.day))
    ensures forall m :: m in r.room ==> Count(r.after, From(r.t.day, m)) <= Max(0, r.room[m])
    ensures forall i :: 0 <= i < |r.after| ==> r.after[i].mailbox in r.room
  {
  }

  lemma RoomIsWhat(inp: Input, offset: nat, room: map<MailboxId, int>, i: nat)
    requires RoomIs(inp, offset, room) && i < |inp.mailboxes|
    ensures var m := inp.mailboxes[i];
            var cap := CampaignCapToday(m.dailyCap, m.graduatedAt, inp.now + offset * DAY_MS);
            var used := if offset == 0 && inp.usedToday.Some? && m.id in inp.usedToday.value then inp.usedToday.value[m.id] else 0;
            m.id in room && room[m.id] == cap - used
  {
    hide CampaignCapToday;
  }

  // No mailbox sends more on a day than that day's cap, less what today has used.
  lemma NoMailboxOver(inp: Input, reports: seq<DayReport>, k: nat, pending: seq<FollowUp>, start: map<CampaignId, int>,
                      i: nat)
    requires InputOk(inp) && Chained(inp, reports, pending, start) && k < |reports| && i < |inp.mailboxes|
    ensures var m, today := inp.mailboxes[i], FirstOffset(inp) + k == 0;
            var cap := CampaignCapToday(m.dailyCap, m.graduatedAt, inp.now + (FirstOffset(inp) + k) * DAY_MS);
            var used := if today && inp.usedToday.Some? && m.id in inp.usedToday.value then inp.usedToday.value[m.id] else 0;
            Count(SendsOf(reports), From(reports[k].t.day, m.id)) <= Max(0, cap - used)
  {
    hide DayPlayed, DaySet, Chained, RoomIs, CampaignCapToday, Count;
    DayOf(inp, reports, k, pending, start);
    DaySetIs(inp, reports[k]);
    RoomIsWhat(inp, reports[k].offset, reports[k].room, i);
    BoardSays(reports[k]);
    DayStands(inp, reports, k, pending, start, From(reports[k].t.day, inp.mailboxes[i].id));
  }

  predicate Named(ids: seq<ForecastMailbox>, m: MailboxId) {
    exists i :: 0 <= i < |ids| && ids[i].id == m
  }

  function SumOver(ids: seq<ForecastMailbox>, sends: seq<Play>, day: int): nat {
    if |ids| == 0 then 0
    else SumOver(ids[..|ids| - 1], sends, day) + Count(sends, From(day, ids[|ids| - 1].id))
  }

  lemma {:induction false} SumOverMore(ids: seq<ForecastMailbox>, sends: seq<Play>, x: Play, day: int)
    requires forall i, j :: 0 <= i < j < |ids| ==> ids[i].id != ids[j].id
    ensures SumOver(ids, sends + [x], day) == SumOver(ids, sends, day) +
      if x.day == day && Named(ids, x.mailbox) then 1 else 0
  {
    if |ids| > 0 {
      var last := |ids| - 1;
      SumOverMore(ids[..last], sends, x, day);
      CountMore(sends, x, From(day, ids[last].id));
      if i :| 0 <= i < last && ids[i].id == x.mailbox {
        assert ids[..last][i].id == x.mailbox;
      }
    }
  }

  lemma {:induction false} SumOverNone(ids: seq<ForecastMailbox>, day: int)
    ensures SumOver(ids, [], day) == 0
  {
    if |ids| > 0 {
      SumOverNone(ids[..|ids| - 1], day);
    }
  }

  // A day's sends are the sum of its mailboxes' sends.
  lemma {:induction false} SumIsCount(ids: seq<ForecastMailbox>, sends: seq<Play>, day: int)
    requires forall i, j :: 0 <= i < j < |ids| ==> ids[i].id != ids[j].id
    requires forall k :: 0 <= k < |sends| ==> Named(ids, sends[k].mailbox)
    ensures SumOver(ids, sends, day) == Count(sends, On(day))
  {
    if |sends| == 0 {
      SumOverNone(ids, day);
    } else {
      var last := |sends| - 1;
      SumIsCount(ids, sends[..last], day);
      SumOverMore(ids, sends[..last], sends[last], day);
      assert sends[..last] + [sends[last]] == sends;
      assert Named(ids, sends[last].mailbox);
    }
  }

  lemma RoomNames(inp: Input, offset: nat, room: map<MailboxId, int>, sends: seq<Play>)
    requires RoomIs(inp, offset, room) && forall i :: 0 <= i < |sends| ==> sends[i].mailbox in room
    ensures forall k :: 0 <= k < |sends| ==> Named(inp.mailboxes, sends[k].mailbox)
  {
    forall k | 0 <= k < |sends| ensures Named(inp.mailboxes, sends[k].mailbox) {
      var m := sends[k].mailbox;
      assert m in room;
    }
  }

  // A day's count is what was sent that day, and the sum over the mailboxes.
  lemma DayTotals(inp: Input, reports: seq<DayReport>, k: nat, pending: seq<FollowUp>, start: map<CampaignId, int>)
    requires InputOk(inp) && Chained(inp, reports, pending, start) && k < |reports|
    ensures reports[k].end.count == Count(SendsOf(reports), On(reports[k].t.day))
    ensures reports[k].end.count == SumOver(inp.mailboxes, SendsOf(reports), reports[k].t.day)
  {
    hide DayPlayed, DaySet, Chained, BoardOk;
    DayOf(inp, reports, k, pending, start);
    DaySetIs(inp, reports[k]);
    BoardSays(reports[k]);
    DayStands(inp, reports, k, pending, start, On(reports[k].t.day));
    var last := reports[|reports| - 1];
    DayOf(inp, reports, |reports| - 1, pending, start);
    DaySetIs(inp, last);
    BoardSays(last);
    RoomNames(inp, last.offset, last.room, last.after);
    SumIsCount(inp.mailboxes, last.after, reports[k].t.day);
  }

  // ----- First emails over the whole forecast -----

  // What a day takes from a campaign's first emails is what it sent of them.
  lemma DayFirsts(r: DayReport, c: CampaignId)
    requires DayPlayed(r) && c in r.start && (forall x :: x in r.before ==> x.day < r.t.day)
    requires forall i :: 0 <= i < |r.sending| ==> r.sending[i].id in r.start
    requires r.t.openIds == (set i | 0 <= i < |r.sending| :: r.sending[i].id)
    ensures c in r.left && Count(r.after, FirstOf(c)) - Count(r.before, FirstOf(c)) == r.start[c] - r.left[c]
  {
    NewSendsToday(r);
    CountSplit(r.before, r.after, r.t.day, c);
    if c !in r.t.openIds {
      forall i | |r.before| <= i < |r.after| ensures !FirstOn(r.t.day, c)(r.after[i]) {
        assert i < |r.between| ==> r.between[i] == r.after[i];
      }
      OldFirsts(r.before, r.t.day, c);
      CountPrefix(r.before, r.after, FirstOn(r.t.day, c));
    }
  }

  lemma OldFirsts(before: seq<Play>, day: int, c: CampaignId)
    requires forall x :: x in before ==> x.day < day
    ensures Count(before, FirstOn(day, c)) == 0
  {
    CountNone(before, FirstOn(day, c));
  }

  // The new first emails of a campaign are those of the day.
  lemma {:induction false} CountSplit(before: seq<Play>, after: seq<Play>, day: int, c: CampaignId)
    requires before <= after && (forall x :: x in before ==> x.day < day)
    requires forall i :: |before| <= i < |after| ==> after[i].day == day
    ensures Count(after, FirstOf(c)) == Count(before, FirstOf(c)) + Count(after, FirstOn(day, c))
    decreases |after|
  {
    if |after| > |before| {
      CountSplit(before, after[..|after| - 1], day, c);
    } else {
      assert before == after;
      OldFirsts(before, day, c);
    }
  }

  ghost predicate Leads(byId: map<CampaignId, ForecastCampaign>, left: map<CampaignId, int>) {
    left.Keys == byId.Keys && forall c :: c in left ==> left[c] >= 0
  }

  lemma DayLeads(inp: Input, byId: map<CampaignId, ForecastCampaign>, r: DayReport)
    requires InputOk(inp) && ByIdOk(inp, byId) && DaySet(inp, r.offset, r.t, r.room, r.sending) && DayPlayed(r)
    requires Leads(byId, r.start) && forall x :: x in r.before ==> x.day < r.t.day
    ensures Leads(byId, r.left)
    ensures forall c :: c in byId ==>
      Count(r.after, FirstOf(c)) - Count(r.before, FirstOf(c)) == r.start[c] - r.left[c]
  {
    SendingIsKnown(inp, byId, r);
    LeftGoesOn(r);
    forall c | c in byId
      ensures Count(r.after, FirstOf(c)) - Count(r.before, FirstOf(c)) == r.start[c] - r.left[c]
    {
      DayFirsts(r, c);
    }
  }

  // Over all the days, a campaign's first emails are its leads waiting less those still waiting.
  lemma {:induction false} FirstsAddUp(inp: Input, byId: map<CampaignId, ForecastCampaign>, reports: seq<DayReport>,
                                       pending: seq<FollowUp>, start: map<CampaignId, int>)
    requires InputOk(inp) && ByIdOk(inp, byId) && Chained(inp, reports, pending, start) && Leads(byId, start)
    ensures Leads(byId, LeftAfter(reports, start))
    ensures forall x :: x in SendsOf(reports) ==> x.day < UtcDay(inp.now) + FirstOffset(inp) + |reports|
    ensures forall c :: c in byId ==>
      Count(SendsOf(reports), FirstOf(c)) == start[c] - LeftAfter(reports, start)[c]
  {
    hide DaySet, DayPlayed, ByIdOk, Leads;
    if |reports| > 0 {
      var r := reports[|reports| - 1];
      FirstsAddUp(inp, byId, reports[..|reports| - 1], pending, start);
      DaySetIs(inp, r);
      DayLeads(inp, byId, r);
      DaysSoFar(r);
    }
  }

  // Never more first emails than leads waiting.
  lemma FirstsWithinLeads(inp: Input, byId: map<CampaignId, ForecastCampaign>, reports: seq<DayReport>,
                          pending: seq<FollowUp>, start: map<CampaignId, int>, i: nat)
    requires InputOk(inp) && ByIdOk(inp, byId) && Chained(inp, reports, pending, start) && Leads(byId, start)
    requires i < |inp.campaigns| && start[inp.campaigns[i].id] == inp.campaigns[i].firstEmailsLeft
    ensures Count(SendsOf(reports), FirstOf(inp.campaigns[i].id)) <= inp.campaigns[i].firstEmailsLeft
  {
    hide Chained;
    FirstsAddUp(inp, byId, reports, pending, start);
    assert inp.campaigns[i].id in byId;
  }

  lemma DayAllowance(r: DayReport, i: nat)
    requires DayPlayed(r) && i < |r.sending| && r.sending[i].id in r.start
    ensures var c := r.sending[i];
            var n := Count(r.after, FirstOn(r.t.day, c.id));
            && n <= Allowance(c, r.start[c.id])
            && (n == Allowance(c, r.start[c.id]) || NoRoom(r.end, c.mailboxIds))
  {
  }

  lemma NoRoomIsFull(r: DayReport, ids: seq<MailboxId>, m: MailboxId)
    requires DayPlayed(r) && NoRoom(r.end, ids) && m in ids && m in r.room
    ensures Count(r.after, From(r.t.day, m)) >= r.room[m]
  {
    hide Count;
    var i :| 0 <= i < |ids| && ids[i] == m;
    assert Room(r.end, ids[i]) <= 0;
  }

  // What is left of a campaign at the start of a day is what the days before did not send.
  lemma LeftAtStart(inp: Input, byId: map<CampaignId, ForecastCampaign>, reports: seq<DayReport>, k: nat,
                    pending: seq<FollowUp>, start: map<CampaignId, int>, c: CampaignId)
    requires InputOk(inp) && ByIdOk(inp, byId) && Chained(inp, reports, pending, start) && Leads(byId, start)
    requires k < |reports| && c in byId
    ensures c in reports[k].start && reports[k].start[c] == start[c] - Count(reports[k].before, FirstOf(c))
    ensures reports[k].start[c] >= 0
  {
    hide Chained, DaySet, DayPlayed;
    DayOf(inp, reports, k, pending, start);
    FirstsAddUp(inp, byId, reports[..k], pending, start);
  }

  lemma SendsToday(inp: Input, r: DayReport, i: nat) returns (n: nat)
    requires InputOk(inp) && DaySet(inp, r.offset, r.t, r.room, r.sending) && i < |inp.campaigns|
    requires SendsThen(inp, inp.campaigns[i], r.offset)
    ensures n < |r.sending| && r.sending[n] == inp.campaigns[i]
  {
    hide SendsThen;
    assert inp.campaigns[i] in r.sending;
    n :| 0 <= n < |r.sending| && r.sending[n] == inp.campaigns[i];
  }

  // A campaign that sends on a day sends as many first emails as it has leads left and its maximum for
  // a day allows, and no more; or each of its mailboxes has sent all its cap lets it send that day.
  lemma DayIsMaximal(inp: Input, byId: map<CampaignId, ForecastCampaign>, reports: seq<DayReport>, k: nat,
                     pending: seq<FollowUp>, start: map<CampaignId, int>, i: nat, q: nat)
    requires InputOk(inp) && ByIdOk(inp, byId) && Chained(inp, reports, pending, start) && Leads(byId, start)
    requires k < |reports| && i < |inp.campaigns| && q < |inp.mailboxes|
    requires start[inp.campaigns[i].id] == inp.campaigns[i].firstEmailsLeft
    requires SendsThen(inp, inp.campaigns[i], FirstOffset(inp) + k)
    ensures var r, c, m := reports[k], inp.campaigns[i], inp.mailboxes[q];
            var n := Count(SendsOf(reports), FirstOn(r.t.day, c.id));
            var left := c.firstEmailsLeft - Count(r.before, FirstOf(c.id));
            var today := FirstOffset(inp) + k == 0;
            var cap := CampaignCapToday(m.dailyCap, m.graduatedAt, inp.now + (FirstOffset(inp) + k) * DAY_MS);
            var used := if today && inp.usedToday.Some? && m.id in inp.usedToday.value then inp.usedToday.value[m.id] else 0;
            && n <= left && (c.maxNewLeadsPerDay.Some? ==> n <= c.maxNewLeadsPerDay.value)
            && (n < left && (c.maxNewLeadsPerDay.Some? ==> n < c.maxNewLeadsPerDay.value) && m.id in c.mailboxIds ==>
                  Count(SendsOf(reports), From(r.t.day, m.id)) >= cap - used)
  {
    hide DayPlayed, ByIdOk, Chained, SendsThen, CampaignCapToday, Count, DaySet, RoomIs, DayIsFull;
    var r, c, m := reports[k], inp.campaigns[i], inp.mailboxes[q];
    DayOf(inp, reports, k, pending, start);
    CampaignIsKnown(inp, byId, i);
    LeftAtStart(inp, byId, reports, k, pending, start, c.id);
    DaySetIs(inp, r);
    RoomIsWhat(inp, r.offset, r.room, q);
    FullDay(inp, r, i, m.id);
    DayStands(inp, reports, k, pending, start, FirstOn(r.t.day, c.id));
    DayStands(inp, reports, k, pending, start, From(r.t.day, m.id));
    FullMeans(r.after, r.t.day, c, r.start[c.id], m.id, r.room[m.id]);
  }

  // `c` sent its allowance of first emails that day, or mailbox `m` all its room.
  ghost predicate DayIsFull(sends: seq<Play>, day: int, c: ForecastCampaign, left: int, m: MailboxId, room: int) {
    && Count(sends, FirstOn(day, c.id)) <= Allowance(c, left)
    && (Count(sends, FirstOn(day, c.id)) == Allowance(c, left) || m !in c.mailboxIds
        || Count(sends, From(day, m)) >= room)
  }

  lemma FullDay(inp: Input, r: DayReport, i: nat, m: MailboxId)
    requires InputOk(inp) && DaySet(inp, r.offset, r.t, r.room, r.sending) && DayPlayed(r) && i < |inp.campaigns|
    requires SendsThen(inp, inp.campaigns[i], r.offset) && inp.campaigns[i].id in r.start && m in r.room
    ensures DayIsFull(r.after, r.t.day, inp.campaigns[i], r.start[inp.campaigns[i].id], m, r.room[m])
  {
    hide DayPlayed, SendsThen, Count, NoRoom, Allowance;
    var c := inp.campaigns[i];
    var n := SendsToday(inp, r, i);
    hide DaySet;
    DayAllowance(r, n);
    if NoRoom(r.end, c.mailboxIds) && m in c.mailboxIds {
      NoRoomIsFull(r, c.mailboxIds, m);
    }
  }

  lemma FullMeans(sends: seq<Play>, day: int, c: ForecastCampaign, left: int, m: MailboxId, room: int)
    requires DayIsFull(sends, day, c, left, m, room) && left >= 0
    ensures var n := Count(sends, FirstOn(day, c.id));
            && n <= left && (c.maxNewLeadsPerDay.Some? ==> n <= c.maxNewLeadsPerDay.value)
            && (n < left && (c.maxNewLeadsPerDay.Some? ==> n < c.maxNewLeadsPerDay.value) && m in c.mailboxIds ==>
                  Count(sends, From(day, m)) >= room)
  {
    hide Count;
  }

  lemma CampaignIsKnown(inp: Input, byId: map<CampaignId, ForecastCampaign>, i: nat)
    requires ByIdOk(inp, byId) && i < |inp.campaigns|
    ensures inp.campaigns[i].id in byId
  {
  }

  // ----- Follow-ups day by day -----

  // Each follow-up pending at the start of a day is sent once, from its own mailbox, or is in
  // tomorrow's list; the rest of that list is what the day's sends booked, at most one each.
  lemma DayConserves(r: DayReport)
    requires DayPlayed(r)
    ensures var sent, carried := Picked(r.queue, r.sent, true), Picked(r.queue, r.sent, false);
            var firsts := r.after[|r.between|..];
            && multiset(r.pending) == multiset(sent) + multiset(carried)
            && r.between == r.before + PlaysOf(r.queue, r.sent, r.t.day)
            && multiset(r.end.next) ==
                 multiset(carried) + multiset(NextSteps(r.queue, r.sent, r.t)) + multiset(FirstSteps(firsts, r.t))
            && |NextSteps(r.queue, r.sent, r.t)| <= |sent| == |r.between| - |r.before|
            && |FirstSteps(firsts, r.t)| <= |firsts|
  {
    assert r.queue[..|r.queue|] == r.queue;
    PickedParts(r.queue, r.sent);
    OneNextStepEach(r.queue, r.sent, r.t);
    OneFirstStepEach(r.after[|r.between|..], r.t);
  }

  lemma {:induction false} OneFirstStepEach(plays: seq<Play>, t: Today)
    ensures |FirstSteps(plays, t)| <= |plays|
  {
    if |plays| > 0 {
      OneFirstStepEach(plays[..|plays| - 1], t);
    }
  }

  // How many of the sent follow-ups were step `n` of campaign `c`, from mailbox `m`.
  function StepsSent(queue: seq<FollowUp>, sent: seq<bool>, c: CampaignId, m: MailboxId, n: nat): nat
    requires |queue| == |sent|
  {
    if |queue| == 0 then 0
    else
      var k := |queue| - 1;
      var f := queue[k];
      StepsSent(queue[..k], sent[..k], c, m, n)
      + if sent[k] && f.campaign == c && f.mailbox == m && f.stepsSent + 1 == n then 1 else 0
  }

  function SentBy(c: CampaignId, m: MailboxId): Play -> bool {
    (x: Play) => x.campaign == c && x.mailbox == m
  }

  // `f` is what follows step `f.stepsSent` of its campaign, sent at `sentAt`.
  predicate DueAfter(f: FollowUp, c: ForecastCampaign, sentAt: Time) {
    f.stepsSent in c.waitDays && f.dueAt == sentAt + c.waitDays[f.stepsSent] * DAY_MS
  }

  lemma FollowingCount(c: ForecastCampaign, m: MailboxId, step: nat, sentAt: Time, f: FollowUp)
    ensures multiset(Following(c, m, step, sentAt))[f] ==
      if f.campaign == c.id && f.mailbox == m && f.stepsSent == step && DueAfter(f, c, sentAt) then 1 else 0
  {
  }

  lemma {:induction false} NextStepsCount(queue: seq<FollowUp>, sent: seq<bool>, t: Today, f: FollowUp)
    requires |queue| == |sent| && f.campaign in t.byId && forall c :: c in t.byId ==> t.byId[c].id == c
    ensures multiset(NextSteps(queue, sent, t))[f] ==
      if DueAfter(f, t.byId[f.campaign], t.sentAt) then StepsSent(queue, sent, f.campaign, f.mailbox, f.stepsSent) else 0
  {
    if |queue| > 0 {
      hide DueAfter, AfterIt;
      var k := |queue| - 1;
      NextStepsCount(queue[..k], sent[..k], t, f);
      AfterItCount(queue[k], t, f);
      assert multiset(NextSteps(queue[..k], sent[..k], t) + AfterIt(queue[k], t)) ==
        multiset(NextSteps(queue[..k], sent[..k], t)) + multiset(AfterIt(queue[k], t));
      assert NextSteps(queue[..k], sent[..k], t) + [] == NextSteps(queue[..k], sent[..k], t);
    }
  }

  lemma AfterItCount(g: FollowUp, t: Today, f: FollowUp)
    requires f.campaign in t.byId && forall c :: c in t.byId ==> t.byId[c].id == c
    ensures multiset(AfterIt(g, t))[f] ==
      if g.campaign == f.campaign && g.mailbox == f.mailbox && g.stepsSent + 1 == f.stepsSent
         && DueAfter(f, t.byId[f.campaign], t.sentAt)
      then 1 else 0
  {
    if g.campaign in t.byId {
      FollowingCount(t.byId[g.campaign], g.mailbox, g.stepsSent + 1, t.sentAt, f);
    }
    hide DueAfter, Following;
  }

  lemma {:induction false} FirstStepsCount(plays: seq<Play>, t: Today, f: FollowUp)
    requires f.campaign in t.byId && forall c :: c in t.byId ==> t.byId[c].id == c
    ensures multiset(FirstSteps(plays, t))[f] ==
      if f.stepsSent == 1 && DueAfter(f, t.byId[f.campaign], t.sentAt)
      then Count(plays, SentBy(f.campaign, f.mailbox)) else 0
  {
    if |plays| > 0 {
      hide DueAfter, Following;
      var init, x := plays[..|plays| - 1], plays[|plays| - 1];
      FirstStepsCount(init, t, f);
      assert FirstSteps(init, t) + [] == FirstSteps(init, t);
      if x.campaign in t.byId {
        var more := Following(t.byId[x.campaign], x.mailbox, 1, t.sentAt);
        FollowingCount(t.byId[x.campaign], x.mailbox, 1, t.sentAt, f);
        assert multiset(FirstSteps(init, t) + more) == multiset(FirstSteps(init, t)) + multiset(more);
      }
    }
  }

  lemma DayBooks(r: DayReport, f: FollowUp)
    requires DayPlayed(r) && f.campaign in r.t.byId && forall c :: c in r.t.byId ==> r.t.byId[c].id == c
    ensures multiset(r.end.next)[f] == multiset(Picked(r.queue, r.sent, false))[f] +
      if DueAfter(f, r.t.byId[f.campaign], r.t.sentAt)
      then StepsSent(r.queue, r.sent, f.campaign, f.mailbox, f.stepsSent)
           + if f.stepsSent == 1 then Count(r.after[|r.between|..], SentBy(f.campaign, f.mailbox)) else 0
      else 0
  {
    DayConserves(r);
    NextStepsCount(r.queue, r.sent, r.t, f);
    FirstStepsCount(r.after[|r.between|..], r.t, f);
    hide DueAfter;
  }

  // Every send books what follows it, and nothing else is booked: tomorrow's list holds a follow-up as
  // often as it is carried over, and once more for each send today of the step before it, from its
  // mailbox, exactly if the campaign waits for that step and it is due that many days after the send,
  // which counts as made at midday, or now on a day half gone.
  lemma EachSendBooks(inp: Input, reports: seq<DayReport>, k: nat, pending: seq<FollowUp>, start: map<CampaignId, int>,
                      i: nat, f: FollowUp)
    requires InputOk(inp) && Chained(inp, reports, pending, start) && k < |reports|
    requires i < |inp.campaigns| && inp.campaigns[i].id == f.campaign
    ensures var r, waits := reports[k], inp.campaigns[i].waitDays;
            var day := inp.now / DAY_MS + k + if inp.usedToday.Some? then 0 else 1;
            var sentAt := Max(inp.now, day * DAY_MS + DAY_MS / 2);
            && |r.queue| == |r.sent| && |r.between| <= |r.after|
            && multiset(r.end.next)[f] == multiset(Picked(r.queue, r.sent, false))[f] +
                 if f.stepsSent in waits && f.dueAt == sentAt + waits[f.stepsSent] * DAY_MS
                 then StepsSent(r.queue, r.sent, f.campaign, f.mailbox, f.stepsSent)
                      + if f.stepsSent == 1 then Count(r.after[|r.between|..], SentBy(f.campaign, f.mailbox)) else 0
                 else 0
  {
    hide DayPlayed, Chained, Count, StepsSent, Picked;
    DayOf(inp, reports, k, pending, start);
    PlayedShape(reports[k]);
    DayBooks(reports[k], f);
  }

  lemma PlayedShape(r: DayReport)
    requires DayPlayed(r)
    ensures |r.queue| == |r.sent| && |r.between| <= |r.after|
  {
  }

  // A follow-up is sent on a day only if it is due by the day's end and its campaign sends that day;
  // and one that is due then and is carried over has no room left in its mailbox, none of whose
  // later-due follow-ups was sent before it.
  lemma SoonestFirst(inp: Input, reports: seq<DayReport>, k: nat, pending: seq<FollowUp>, start: map<CampaignId, int>,
                     n: nat, i: nat)
    requires InputOk(inp) && Chained(inp, reports, pending, start) && k < |reports|
    requires i < |reports[k].queue| && n < |inp.campaigns| && inp.campaigns[n].id == reports[k].queue[i].campaign
    ensures var r := reports[k];
            var f, day := r.queue[i], inp.now / DAY_MS + FirstOffset(inp) + k;
            var due := f.dueAt < (day + 1) * DAY_MS && SendsThen(inp, inp.campaigns[n], FirstOffset(inp) + k);
            && |r.sent| == |r.queue| && (r.sent[i] ==> due)
            && (due && !r.sent[i] ==>
                  && Room(r.end, f.mailbox) <= 0
                  && forall j :: 0 <= j < |r.queue| && r.queue[j].mailbox == f.mailbox && r.queue[j].dueAt > f.dueAt ==>
                       !r.sent[j])
  {
    hide DayPlayed, Chained, SendsThen;
    DayOf(inp, reports, k, pending, start);
    var r := reports[k];
    OpenIff(inp, r, n);
    DayEndsAt(inp, r);
    QueueInOrder(r, i);
  }

  lemma DayEndsAt(inp: Input, r: DayReport)
    requires InputOk(inp) && DaySet(inp, r.offset, r.t, r.room, r.sending)
    ensures r.t.dayEnd == (inp.now / DAY_MS + r.offset + 1) * DAY_MS
  {
  }

  // Today's campaigns are those that send then.
  lemma OpenIff(inp: Input, r: DayReport, n: nat)
    requires InputOk(inp) && DaySet(inp, r.offset, r.t, r.room, r.sending) && n < |inp.campaigns|
    ensures inp.campaigns[n].id in r.t.openIds <==> SendsThen(inp, inp.campaigns[n], r.offset)
  {
    hide SendsThen, SendingOn, RoomIs, ByIdOk;
    if SendsThen(inp, inp.campaigns[n], r.offset) {
      var k := SendsToday(inp, r, n);
    }
    if inp.campaigns[n].id in r.t.openIds {
      var k :| 0 <= k < |r.sending| && r.sending[k].id == inp.campaigns[n].id;
      SendingSends(inp, r.offset, r.sending, k, n);
    }
  }

  lemma SendingSends(inp: Input, offset: nat, sending: seq<ForecastCampaign>, k: nat, n: nat)
    requires InputOk(inp) && sending == SendingOn(inp, |inp.campaigns|, offset) && k < |sending| && n < |inp.campaigns|
    requires sending[k].id == inp.campaigns[n].id
    ensures SendsThen(inp, inp.campaigns[n], offset)
  {
    hide SendsThen;
    assert sending[k] in sending;
    var m :| 0 <= m < |inp.campaigns| && sending[k] == inp.campaigns[m] && SendsThen(inp, inp.campaigns[m], offset);
    assert m == n;
  }

  lemma QueueInOrder(r: DayReport, i: nat)
    requires DayPlayed(r) && i < |r.queue|
    ensures |r.sent| == |r.queue| && (r.sent[i] ==> DueToday(r.queue[i], r.t))
    ensures DueToday(r.queue[i], r.t) && !r.sent[i] ==>
      && Room(r.end, r.queue[i].mailbox) <= 0
      && forall j :: 0 <= j < |r.queue| && r.queue[j].mailbox == r.queue[i].mailbox ==>
           r.queue[j].dueAt > r.queue[i].dueAt ==> !r.sent[j]
  {
    assert DueSorted(r.queue);
    forall j | 0 <= j < |r.queue| && r.queue[j].dueAt > r.queue[i].dueAt ensures i < j {
    }
  }

  // ----- The days a campaign sends on -----

  // By its zone's calendar: the day's own weekday in a zone within twelve hours of UTC, the next one's
  // further east. A campaign without a schedule sends every day.
  lemma SendsOnItsWeekday(zones: ZoneTable, s: Schedule, day: int)
    requires s.timezone in zones
    ensures SendsOn(zones, None, day)
    ensures var off := zones[s.timezone].off(day * DAY_MS + 12 * HOUR_MS);
            && (-12 * HOUR_MS <= off < 12 * HOUR_MS ==> (SendsOn(zones, Some(s), day) <==> (day + 4) % 7 in s.days))
            && (12 * HOUR_MS <= off < 36 * HOUR_MS ==> (SendsOn(zones, Some(s), day) <==> (day + 5) % 7 in s.days))
  {
    var off := zones[s.timezone].off(day * DAY_MS + 12 * HOUR_MS);
    if -12 * HOUR_MS <= off < 12 * HOUR_MS {
      DayOfMidday(day, 12 * HOUR_MS + off);
    } else if 12 * HOUR_MS <= off < 36 * HOUR_MS {
      DayOfMidday(day + 1, off - 12 * HOUR_MS);
    }
  }

  lemma DayOfMidday(day: int, rest: int)
    requires 0 <= rest < DAY_MS
    ensures (day * DAY_MS + rest) / DAY_MS == day
  {
  }

  // For today: some moment from now on, of the same local date, is inside the window by the clock.
  lemma SendsLaterIff(zones: ZoneTable, s: Schedule, now: Time)
    requires s.timezone in zones && Plain(zones[s.timezone], s)
    ensures SendsLaterToday(zones, None, now)
    ensures var z := zones[s.timezone];
            SendsLaterToday(zones, Some(s), now) <==>
              exists at :: at >= now && LocalDay(z, at) == LocalDay(z, now) && ClockOpen(z, s, at)
  {
    var z := zones[s.timezone];
    if SendsLaterToday(zones, Some(s), now) {
      OpensLaterToday(z, s, now);
    }
    if at :| at >= now && LocalDay(z, at) == LocalDay(z, now) && ClockOpen(z, s, at) {
      StillToClose(z, s, now, at);
    }
  }

  lemma OpensLaterToday(z: Zone, s: Schedule, now: Time)
    requires Plain(z, s) && Weekday(LocalDay(z, now)) in s.days && LocalMinute(z, now) < s.endMinute
    ensures exists at :: at >= now && LocalDay(z, at) == LocalDay(z, now) && ClockOpen(z, s, at)
  {
    hide Regular, EndsHappenOnce, OpensAt, ClosesAt, Weekday;
    var day := LocalDay(z, now);
    DayWindow(z, s, day, now);
    if LocalMinute(z, now) >= s.startMinute {
      assert ClockOpen(z, s, now);
    } else {
      var at := OpensAt(z, s, day);
      assert LocalDay(z, at) == day && LocalMinute(z, at) == s.startMinute;
      assert ClockOpen(z, s, at);
    }
  }

  lemma StillToClose(z: Zone, s: Schedule, now: Time, at: Time)
    requires Plain(z, s) && at >= now && LocalDay(z, at) == LocalDay(z, now) && ClockOpen(z, s, at)
    ensures Weekday(LocalDay(z, now)) in s.days && LocalMinute(z, now) < s.endMinute
  {
    hide Regular, EndsHappenOnce, OpensAt, ClosesAt, Weekday;
    DayWindow(z, s, LocalDay(z, now), now);
    DayWindow(z, s, LocalDay(z, now), at);
  }
}

// The rolling daily limit as the Live Queue reads it (apps/api/src/lib/rollingLimit.ts), and what the
// forecast takes as used today (`usedAtClose` in apps/api/src/lib/sendForecast.ts).
module RollingLimit {
  import opened Basics
  import opened SendSchedule
  import opened SendWindow
  import opened Model
  import opened RollingSends
  import opened SendForecast

  // The sends still inside the 24 hours before `at`.
  function StillCounted(times: seq<Time>, at: Time): nat {
    CountAfter(times, at - DAY_MS)
  }

  function After(times: seq<Time>, since: Time): (r: seq<Time>)
    ensures forall i :: 0 <= i < |r| ==> r[i] > since
  {
    if |times| == 0 then []
    else After(times[..|times| - 1], since) + if times[|times| - 1] > since then [times[|times| - 1]] else []
  }

  predicate Ascending(times: seq<Time>) {
    forall i, j :: 0 <= i < j < |times| ==> times[i] <= times[j]
  }

  function Insert(sorted: seq<Time>, t: Time): (r: seq<Time>)
    requires Ascending(sorted)
    ensures Ascending(r) && |r| == |sorted| + 1
    ensures forall x :: x in r <==> x == t || x in sorted
  {
    if |sorted| == 0 || sorted[|sorted| - 1] <= t then sorted + [t]
    else
      var r := Insert(sorted[..|sorted| - 1], t);
      assert forall i :: 0 <= i < |r| ==> r[i] in r;
      r + [sorted[|sorted| - 1]]
  }

  function Sort(times: seq<Time>): (r: seq<Time>)
    ensures Ascending(r) && |r| == |times|
  {
    if |times| == 0 then [] else Insert(Sort(times[..|times| - 1]), times[|times| - 1])
  }

  // When a mailbox at its limit has room again.
  function LimitFreesAt(times: seq<Time>, cap: int, now: Time): Option<Time> {
    if cap <= 0 then None
    else
      var counted := Sort(After(times, now - DAY_MS));
      if |counted| < cap then None else Some(counted[|counted| - cap] + DAY_MS)
  }

  // ----- Counting survives filtering and sorting -----

  lemma CountOneMore(times: seq<Time>, t: Time, since: Time)
    ensures CountAfter(times + [t], since) == CountAfter(times, since) + if t > since then 1 else 0
  {
    assert (times + [t])[..|times|] == times;
  }

  lemma {:induction false} CountInserted(sorted: seq<Time>, t: Time, since: Time)
    requires Ascending(sorted)
    ensures CountAfter(Insert(sorted, t), since) == CountAfter(sorted, since) + if t > since then 1 else 0
  {
    if |sorted| == 0 || sorted[|sorted| - 1] <= t {
      CountOneMore(sorted, t, since);
    } else {
      var init, last := sorted[..|sorted| - 1], sorted[|sorted| - 1];
      CountInserted(init, t, since);
      CountOneMore(Insert(init, t), last, since);
    }
  }

  lemma {:induction false} CountSorted(times: seq<Time>, since: Time)
    ensures CountAfter(Sort(times), since) == CountAfter(times, since)
  {
    if |times| > 0 {
      var init := times[..|times| - 1];
      CountSorted(init, since);
      CountInserted(Sort(init), times[|times| - 1], since);
    }
  }

  lemma AfterOneMore(init: seq<Time>, last: Time, since: Time)
    ensures After(init + [last], since) == if last > since then After(init, since) + [last] else After(init, since)
  {
    assert (init + [last])[..|init|] == init;
  }

  lemma {:induction false} CountFiltered(times: seq<Time>, since: Time, later: Time)
    requires since <= later
    ensures CountAfter(After(times, since), later) == CountAfter(times, later)
    ensures |After(times, since)| == CountAfter(times, since)
  {
    if |times| > 0 {
      var init, last := times[..|times| - 1], times[|times| - 1];
      CountFiltered(init, since, later);
      assert times == init + [last];
      CountOneMore(init, last, later);
      CountOneMore(init, last, since);
      AfterOneMore(init, last, since);
      CountOneMore(After(init, since), last, later);
    }
  }

  // How many of a sorted list come after `since`: at least `k` when the k-th from the end does, fewer
  // when it does not.
  lemma {:induction false} CountFromEnd(sorted: seq<Time>, k: nat, since: Time)
    requires Ascending(sorted) && 1 <= k <= |sorted|
    ensures sorted[|sorted| - k] > since ==> CountAfter(sorted, since) >= k
    ensures sorted[|sorted| - k] <= since ==> CountAfter(sorted, since) < k
  {
    var init := sorted[..|sorted| - 1];
    if k > 1 {
      CountFromEnd(init, k - 1, since);
    } else if sorted[|sorted| - 1] <= since {
      NoneAfter(init, since);
    }
  }

  lemma {:induction false} NoneAfter(times: seq<Time>, since: Time)
    requires forall i :: 0 <= i < |times| ==> times[i] <= since
    ensures CountAfter(times, since) == 0
  {
    if |times| > 0 {
      NoneAfter(times[..|times| - 1], since);
    }
  }

  // From `now` on, the sorted list of the last day's sends counts as the whole list does.
  lemma CountedFrom(times: seq<Time>, now: Time, at: Time)
    requires now <= at
    ensures StillCounted(times, at) == CountAfter(Sort(After(times, now - DAY_MS)), at - DAY_MS)
  {
    CountFiltered(times, now - DAY_MS, at - DAY_MS);
    CountSorted(After(times, now - DAY_MS), at - DAY_MS);
  }

  lemma CountedNow(times: seq<Time>, now: Time)
    ensures |Sort(After(times, now - DAY_MS))| == StillCounted(times, now)
    ensures var counted := Sort(After(times, now - DAY_MS));
            forall i :: 0 <= i < |counted| ==> counted[i] > now - DAY_MS
  {
    CountFiltered(times, now - DAY_MS, now - DAY_MS);
    SortKeeps(After(times, now - DAY_MS), now - DAY_MS);
  }

  // There is nothing to wait for exactly when there is room now; else the answer is the first moment
  // from now on with room: fewer than the cap count at it, and at least the cap at every earlier one.
  lemma FreesAtFirstRoom(times: seq<Time>, cap: int, now: Time, at: Time)
    requires cap > 0
    ensures LimitFreesAt(times, cap, now).None? <==> StillCounted(times, now) < cap
    ensures LimitFreesAt(times, cap, now).Some? ==>
      var freesAt := LimitFreesAt(times, cap, now).value;
      && freesAt > now
      && StillCounted(times, freesAt) < cap
      && (now <= at < freesAt ==> StillCounted(times, at) >= cap)
  {
    hide Sort, After, CountAfter;
    var counted := Sort(After(times, now - DAY_MS));
    CountedNow(times, now);
    if |counted| >= cap {
      var freesAt := counted[|counted| - cap] + DAY_MS;
      CountedFrom(times, now, freesAt);
      CountFromEnd(counted, cap, freesAt - DAY_MS);
      if now <= at < freesAt {
        CountedFrom(times, now, at);
        CountFromEnd(counted, cap, at - DAY_MS);
      }
    }
  }

  lemma {:induction false} SortKeeps(times: seq<Time>, since: Time)
    requires forall i :: 0 <= i < |times| ==> times[i] > since
    ensures forall i :: 0 <= i < |Sort(times)| ==> Sort(times)[i] > since
  {
    if |times| > 0 {
      SortKeeps(times[..|times| - 1], since);
      assert forall i :: 0 <= i < |Sort(times)| ==> Sort(times)[i] in Sort(times);
    }
  }

  // A cap of 0 is never freed by waiting.
  lemma NothingFreesZero(times: seq<Time>, cap: int, now: Time, at: Time)
    requires cap <= 0
    ensures LimitFreesAt(times, cap, now).None? && StillCounted(times, at) >= cap
  {
  }

  // ----- Today's close -----

  function ClosesToday(zones: ZoneTable, schedule: Option<Schedule>, now: Time): Time
    requires schedule.Some? ==> schedule.value.timezone in zones
  {
    if schedule.None? then (UtcDay(now) + 1) * DAY_MS
    else
      var z := zones[schedule.value.timezone];
      ZonedInstant(z, WallOf(LocalDay(z, now), schedule.value.endMinute))
  }

  // While a window is open, its close today is the close the worker reads.
  lemma ClosesWhenTheWindowDoes(zones: ZoneTable, s: Schedule, now: Time)
    requires s.timezone in zones && Sound(zones[s.timezone], s)
    requires WindowAt(zones, Some(s), now, s.timezone).open
    ensures WindowAt(zones, Some(s), now, s.timezone).closesAt == Some(ClosesToday(zones, Some(s), now))
  {
    OpenMeansToday(zones[s.timezone], s, now);
  }

  // Without a schedule it is the next midnight of UTC.
  lemma ClosesAtMidnight(zones: ZoneTable, now: Time)
    ensures now < ClosesToday(zones, None, now) <= now + DAY_MS && ClosesToday(zones, None, now) % DAY_MS == 0
  {
  }

  predicate UsesToday(inp: Input, c: ForecastCampaign, m: MailboxId)
    requires c.schedule.Some? ==> c.schedule.value.timezone in inp.zones
  {
    m in c.mailboxIds && SendsLaterToday(inp.zones, c.schedule, inp.now)
  }

  // The latest close among a mailbox's campaigns still sending today.
  function LatestClose(inp: Input, n: nat, m: MailboxId): (r: Option<Time>)
    requires InputOk(inp) && n <= |inp.campaigns|
    ensures r.None? <==> forall i :: 0 <= i < n ==> !UsesToday(inp, inp.campaigns[i], m)
    ensures r.Some? ==> forall i :: 0 <= i < n && UsesToday(inp, inp.campaigns[i], m) ==>
      ClosesToday(inp.zones, inp.campaigns[i].schedule, inp.now) <= r.value
    ensures r.Some? && r.value > 0 ==>
      exists i :: (0 <= i < n && UsesToday(inp, inp.campaigns[i], m)
                   && r.value == ClosesToday(inp.zones, inp.campaigns[i].schedule, inp.now))
  {
    if n == 0 then None
    else
      var r := LatestClose(inp, n - 1, m);
      var c := inp.campaigns[n - 1];
      if !UsesToday(inp, c, m) then r
      else Some(Max(if r.Some? then r.value else 0, ClosesToday(inp.zones, c.schedule, inp.now)))
  }

  function Lookup(closes: map<MailboxId, Time>, m: MailboxId): Option<Time> {
    if m in closes then Some(closes[m]) else None
  }

  function Later(close: Option<Time>, closesAt: Time): Option<Time> {
    Some(Max(if close.Some? then close.value else 0, closesAt))
  }

  method RaiseCloses(closes: map<MailboxId, Time>, ids: seq<MailboxId>, closesAt: Time) returns (r: map<MailboxId, Time>)
    ensures forall m :: Lookup(r, m) == if m in ids then Later(Lookup(closes, m), closesAt) else Lookup(closes, m)
  {
    r := closes;
    for k := 0 to |ids|
      invariant forall m :: Lookup(r, m) == if m in ids[..k] then Later(Lookup(closes, m), closesAt) else Lookup(closes, m)
    {
      assert ids[..k + 1] == ids[..k] + [ids[k]];
      r := r[ids[k] := Max(if ids[k] in r then r[ids[k]] else 0, closesAt)];
    }
    assert ids[..|ids|] == ids;
  }

  // Each mailbox's sends that still count when today's sending ends.
  method UsedAtClose(inp: Input, sendTimes: map<MailboxId, seq<Time>>) returns (used: map<MailboxId, int>)
    requires InputOk(inp)
    ensures used.Keys == sendTimes.Keys
    ensures forall m :: m in sendTimes ==>
      var close := LatestClose(inp, |inp.campaigns|, m);
      used[m] == StillCounted(sendTimes[m], if close.Some? then close.value else ClosesToday(inp.zones, None, inp.now))
  {
    hide ClosesToday, SendsLaterToday, StillCounted;
    var closeByMailbox: map<MailboxId, Time> := map[];
    for n := 0 to |inp.campaigns|
      invariant forall m :: LatestClose(inp, n, m) == Lookup(closeByMailbox, m)
    {
      var c := inp.campaigns[n];
      if SendsLaterToday(inp.zones, c.schedule, inp.now) {
        closeByMailbox := RaiseCloses(closeByMailbox, c.mailboxIds, ClosesToday(inp.zones, c.schedule, inp.now));
      }
    }
    var dayEnd := ClosesToday(inp.zones, None, inp.now);
    used := map m | m in sendTimes ::
      StillCounted(sendTimes[m], if m in closeByMailbox then closeByMailbox[m] else dayEnd);
  }
}

