# Campaign send scheduler

WarmHawk sends cold-email campaigns. A worker picks the leads that are due, books a slot for each on
one of the campaign's mailboxes, and sends when the slot comes round; the API records what became of
each send, reads the replies, and keeps the suppression list. These files model that scheduler and
the algorithms it rests on, and prove what its users rely on.

## How it is modelled

**The protocol.** Several programs write the same lead rows: the enqueuer, the dispatch job, the
mail route, the reply, suppression and lead routes, and the reconcile loop. The module `Protocol` is
one state machine over the rows, the queue's jobs, the reservations, the send log, the replies and the
block list. An event is one handler run to its end, except that a dispatch is three events, because
other handlers can run between them: the job starts, the checks of `sendMail`, and the mail server's
answer as it is recorded. A crash inside a booking is part of the booking event. Random draws, the mail
server's answers, address checks and reply labels are arbitrary values of their kind. `Invariants` and
`Frames` (in `Protocol.dfy` with it) say what every event keeps; `RollingRun`, `CadenceRun`,
`DeliveryRun`, `NewLeadRun`, `StrandedRun`, `AnswerRun` and `AwayRun` (in `Runs.dfy`) prove the guarantees
over all runs from a fresh install, of any length and any interleaving, and `NewLeadExample` and
`StrandedExample` are the runs in which one fails. `BookingRules`, `DispatchRules` and `RowRules` (in
`Promises.dfy`) say what each booking, job start, send and answer comes to in the rows' own fields.

**The handlers.** The same rows are fields of a class, `Store`, that the handlers change step by step
as the code does: `Processor`, `MailSender`, `Replies`, `Suppression`, `Reconcile` and `Completion` (in
`Handlers.dfy`), `Enqueuer`, `FirstEmails` and `Tick` (in `Enqueuing.dfy`). Each is proved to do exactly
what one event, or one run of events, of the protocol does, so the run theorems are about them.

**The algorithms.** Time zones are functions from instants to offsets, local dates are day numbers
(`SendSchedule` and `SendWindow`, in `Foundations.dfy`). The forecast's nested loops and the rolling
limit (`Forecast.dfy`), spintax rewriting (`Spintax.dfy`), the warm-up engine (`Warmup.dfy`), the
CAN-SPAM footer and the streaming SMTP reply parser (`Mail.dfy`) follow their sources.

## Where the code does not do what it says

Where a promise fails there is a concrete case, and a condition that says exactly when it holds.

- *Max new leads per day.* A first email already with the mail server is counted by nobody once its
  lead opts out or replies, so the next tick may book one more. `NewLeadExample.LimitOfOneSendsTwo` is
  a run in which a limit of one sends two. `NewLeadRun.DeliveryKeepsCapIff` is the exact condition for
  one delivery, and `NewLeadRun.NewLeadWindow` bounds every 24 hours by the limit plus the number of
  such deliveries.
- *A skipped local time "lands just after the gap".* It does exactly when the UTC clock reading that
  time is at or past the change (`SendSchedule.LandsAfterGapIff`): always east of UTC and never west of
  it (`SendSchedule.GapWestAndEast`, `SendSchedule.NewYorkLandsBeforeGap`).
- *Open until `closesAt`.* A window that ends at midnight, on a night whose midnight the clock shows
  twice east of UTC, closes at the second one (`SendWindow.RepeatedTime`), and is shut from the first
  (`SendWindow.AmmanClosesTwice`). `SendWindow.OpenHoldsIff` and `SendWindow.ClosesOnItsDayIff` say
  exactly when the answer holds.
- *Braces doubled on both sides are merge fields.* The code leaves a group standing when its braces are
  doubled on either side, so `{a|{b|c}}` is never rendered (`SpintaxRender.GroupAtTheEndStays`); a
  balanced template comes out without braces exactly when none of its braces is doubled
  (`SpintaxRender.NoBracesIff`).
- *SUPPRESSED.* The status is overwritten by a send that finishes late
  (`AnswerRun.SuppressedIsOverwritten`); what protects an address is the list itself
  (`AnswerRun.SuppressionFloor`).
- *The follow-ups wait while someone is away.* They do for every notice labelled with no email to its
  lead on the way (`AwayRun.NoFollowUpWhileAway`). A follow-up on its way then writes its own time over
  the hold when it is refused, fails or is delivered: refused, it is due again in an hour
  (`AwayRun.HoldIsLost`). `AwayRun.RefusalKeepsHoldIff`, `AwayRun.FailureKeepsHoldIff` and
  `AwayRun.DeliveryKeepsHoldIff` say exactly when each keeps it.
- *Relabelling an away notice as an auto-reply.* A lead that had already started again keeps the old
  hold (`ReplyOutcome.RelabelledHoldStays`); `ReplyOutcome.LabelFollowsIff` says exactly when a
  relabelling is followed.
- *No lead is left behind.* Two kinds of job end while their lead still names them, and reconcile, whose
  `getJob` finds finished jobs too, does not take such a lead until the queue forgets the job. One is a
  job whose webhook call never answered. The other is a follow-up refused after its lead's next step was
  cleared, by a reply that arrived meanwhile or an erasure: once the reply is labelled an auto-reply the
  lead is running, a follow-up is due to it, and nothing takes it (`StrandedExample.FollowUpNobodyTakes`
  is such a run, `StrandedRun.RefusedAfterAnswerStays` says it of every state).
  `StrandedRun.RefusalLetsGoIff` is the exact condition, and `StrandedRun.FinishedJobsLetGo` says there
  is no third kind.
- *A failed dispatch goes back to UNTOUCHED*, says a comment in the processor; the code gives it a retry
  time instead, and the model follows the code.

## Model

| member | source | states |
|---|---|---|
| `CadenceRun.Cadence` | apps/worker/src/enqueuer.ts:200-241 | In every run in which sends are recorded within 120 s of their slot or not at all and reconcile re-queues nothing, any two sends of one mailbox are at least 8 minutes apart, and at least 16 when the log holds a deferral of that mailbox from the day before the later one was booked |
| `CadenceRun.SentAsBooked` | apps/worker/src/enqueuer.ts:203-241 | Every send goes back to an event of the run that booked that lead on that mailbox at the time recorded with it |
| `CadenceRun.FreeingKeeps` | apps/worker/src/processor.ts:30-50 | The compare-and-delete of a reservation never lets a second job of the mailbox come close |
| `SlotTiming.SlotClearsAnchor` | apps/worker/src/computeNextSlotSeconds.ts:30-59 | Whatever is drawn, a slot clears the last send and the booked slot by the floor plus 149.5 s, more than the 120 s a reservation outlives its slot, and is at least 30 s away |
| `SlotTiming.UnspreadSlotIsSoon` | apps/worker/src/computeNextSlotSeconds.ts:38-58 | With no window to spread over and nothing booked ahead, a slot is at most 2011 s away |
| `SlotTiming.SlotIsSpread` | apps/worker/src/computeNextSlotSeconds.ts:40-59 | In a window a slot is the gap, less a fifth at most, past the last send and past the booked slot, and no later than the gap and a fifth, or the pause and the jitter, make it |
| `SlotTiming.GapsFillTheWindow` | apps/worker/src/enqueuer.ts:97-107 | As many gaps as the mailbox has sends left fill what is left of the window exactly; with no window there is no gap |
| `BookingRules.BookedIff` | apps/worker/src/enqueuer.ts:156-376 | A booking is allowed if and only if its campaign is sending, the lead's window is open until past the slot, the mailbox is usable, under its limit and has no slot to come, and the lead has an unanswered follow-up due from it, or a first email due from a mailbox of the campaign and room for a new lead, row by row |
| `BookingRules.InPoolIff` | apps/worker/src/enqueuer.ts:196-217 | A mailbox is in the pool if and only if it is usable, has no slot to come, and its last day's sends are fewer than its limit, or than half of it, one at least, when a send was deferred in that day |
| `BookingRules.RoomIff` | apps/worker/src/enqueuer.ts:281-303 | A campaign has room for a new lead if and only if fewer leads than its limit were first emailed in the last 24 hours or have a first email booked |
| `BookingRules.SlowedBooking` | apps/worker/src/enqueuer.ts:200-215 | After a deferral in the last day, a slot is at least 16 minutes past the mailbox's last send and its booked slot, and the mailbox sends less than half its limit |
| `BookingRules.FullPaceBooking` | apps/worker/src/enqueuer.ts:200-215 | Without one, at least 8 minutes and inside the whole limit, and with no window no more than 1051 s away |
| `BookingRules.SpreadBooking` | apps/worker/src/enqueuer.ts:222-232 | In a window a booked slot is at least four fifths of the mailbox's share of the time left past its last send |
| `BookingRules.BookingWrites` | apps/worker/src/enqueuer.ts:234-276 | What a booking writes, and what each crash leaves: the reservation to two minutes past the slot, the lead's job and slot, the job |
| `RollingRun.RollingLimit` | apps/worker/src/processor.ts:145-150 | In every run, every 24-hour window of a mailbox holds at most its limit as of the window's last send, hence at most its daily cap |
| `DeliveryRun.DeliveredLimit` | apps/worker/src/processor.ts:145-150 | In every run, no mailbox delivers more emails than its daily limit in any 24 hours |
| `Model.CountSendsIs` | apps/worker/src/rollingSends.ts:13-47 | What is counted is the mailbox's rows sent, opened, replied to or bounced since, and none that failed |
| `RollingRun.LastWithinCap` | apps/worker/src/rollingSends.ts:38-47 | A send recorded later than the worker's look back is still inside the limit of its own moment |
| `CampaignCap.CapGrows` | apps/worker/src/campaignCap.ts:12-20 | The ramp after graduation never turns back and never passes the daily cap |
| `CampaignCap.CapStart` | apps/worker/src/campaignCap.ts:8-20 | The ramp is 5, 6, 8 and 9 on its first four days; a mailbox activated by hand has its own limit |
| `CampaignCap.CapGrowsByAFifth` | apps/worker/src/campaignCap.ts:8-20 | Each day it grows by a fifth, to within the rounding, and four days double it, until it reaches the daily cap |
| `NewLeadRun.NewLeadCap` | apps/worker/src/enqueuer.ts:281-303 | In every run, booked first emails plus first emails of the last day exceed the campaign's limit by no more than the first emails delivered for leads nobody counted |
| `NewLeadRun.NewLeadWindow` | apps/worker/src/enqueuer.ts:348-370 | So does every 24-hour window of first emails sent |
| `NewLeadRun.DeliveryKeepsCapIff` | apps/api/src/lib/mailSender.ts:544-571 | A first delivery keeps the count inside the limit if and only if its lead was still on the queue or there was room for one more |
| `NewLeadRun.FirstRowsKept` | apps/api/src/lib/sequence.ts:84-90 | Because a follow-up waits a day, a lead first emailed within the last 24 hours still has one step sent: the count misses none |
| `NewLeadExample.LimitOfOneSendsTwo` | apps/worker/src/enqueuer.ts:281-303 | A run in which a campaign limited to one new lead a day sends two first emails within a day |
| `StrandedRun.NoLeadStranded` | apps/worker/src/reconcile.ts:41-49 | In every state of every run a QUEUED lead has sent nothing. With no job the enqueuer takes it within 2 h 12 min; with one, that job is live, or it is gone from the queue and reconcile takes the lead a quarter of an hour past its slot, or it is a finished job whose webhook call never answered |
| `StrandedRun.NoFollowUpStranded` | apps/worker/src/reconcile.ts:41-57 | A follow-up still to send is due to pass 1 when its time comes, if nothing is queued and no reply ends the sequence; if queued, its job is live, or gone from the queue and reconcile takes the lead, or one of the two kinds of finished job that do not let go |
| `StrandedRun.FinishedJobsLetGo` | apps/worker/src/processor.ts:263-293 | A QUEUED lead names a finished job only when its webhook call never answered; a lead in its sequence only then or when its follow-up was refused with no next step |
| `StrandedRun.WaitIsBounded` | apps/worker/src/reconcile.ts:35-57 | No QUEUED lead waits longer than 56 hours and a quarter for the enqueuer or reconcile, or else its job is live and due by then, or on record without an answer |
| `StrandedRun.BookedIsNear` | apps/worker/src/enqueuer.ts:222-232 | A booked slot is at most 56 hours away, whatever the window and the draws |
| `StrandedRun.RefusalLetsGoIff` | apps/worker/src/processor.ts:265-287 | A refused dispatch leaves its lead naming the finished job if and only if the row was not taken off the queue meanwhile and is a follow-up with no next step, or a first email no longer QUEUED |
| `StrandedRun.RefusedAfterAnswerStays` | apps/worker/src/processor.ts:269-277 | From any state with a follow-up at the checks: a reply, the refusal and an auto-reply label leave a lead with a follow-up due that neither pass 1 nor reconcile takes at any later time, as long as the job is on record |
| `StrandedExample.FollowUpNobodyTakes` | apps/worker/src/processor.ts:269-277 | A run from a fresh install that ends there |
| `AnswerRun.NoFollowUpAfterAnswer` | apps/worker/src/processor.ts:156-171 | Once a reply is stored that is not labelled an away notice or an auto-reply, one without a label included, and until it is so labelled, no follow-up for its lead is dispatched, whatever a late send writes |
| `AwayRun.NoFollowUpWhileAway` | apps/api/src/lib/replyOutcome.ts:8-12 | In every run, once a reply is labelled an away notice with no email to its lead on the way, and until it is relabelled, no follow-up is dispatched before the day after the return date it names, or a week after it came |
| `AwayRun.RefusalKeepsHoldIff` | apps/worker/src/processor.ts:269-277 | A follow-up on its way that is refused keeps the hold if and only if the lead is off the queue, has no next step, or the hold is over within the hour |
| `AwayRun.DeliveryKeepsHoldIff` | apps/api/src/lib/mailSender.ts:555-571 | One that is delivered, if and only if no step is left or the next one waits as long anyway |
| `AwayRun.FailureKeepsHoldIff` | apps/api/src/lib/mailSender.ts:260-287 | One that fails, if and only if it was the last try or the next is that far |
| `AwayRun.HoldIsLost` | apps/worker/src/processor.ts:269-277 | From any state with a follow-up to a stopped lead at the checks: its reply labelled an away notice, then the refusal, leave the lead due for it an hour later, away or not |
| `AnswerRun.SuppressionFloor` | apps/api/src/lib/mailSender.ts:377-390 | Once an address is listed, and until it is unblocked, no send to it passes the checks, and the first entry stays on record |
| `AnswerRun.SuppressedIsOverwritten` | apps/api/src/lib/mailSender.ts:556-571 | A send past the checks when its address is listed finishes and writes CONTACTED over SUPPRESSED |
| `Invariants.StepKeeps` | apps/worker/src/enqueuer.ts:156-399 | Every handler keeps the rows consistent, each live job pointing at its own lead, one live job per lead, and no queued follow-up for an answered lead |
| `Invariants.RunKeeps` | apps/worker/src/enqueuer.ts:156-399 | So do all states of all runs |
| `Invariants.RetryIsBounded` | apps/api/src/lib/mailSender.ts:198-206 | A retry is between now and 48 hours ahead, and within 2 h 12 min for every lead that is tried again |
| `Frames.StepFrame` | apps/api/src/lib/mailSender.ts:533-537 | Limits are fixed, replies and the block list only grow or are relabelled or unblocked, and only a delivery moves a mailbox's last send |
| `Frames.StepKeepsSteps` | apps/api/src/lib/mailSender.ts:555-571 | Only a delivery changes what a lead has been sent |
| `Processor.ProcessDispatchJob` | apps/worker/src/processor.ts:119-225 | A job that fires leaves the whole store as the event it amounts to leaves the protocol's state |
| `Processor.JobIsOneStep` | apps/worker/src/processor.ts:119-225 | Whatever the checks find, that is exactly one step of the protocol |
| `Processor.ChecksDecide` | apps/worker/src/processor.ts:173-212 | The address check decides about first emails alone: a dead address is stopped, "not now" is asked again, and everything else that may go is dispatched |
| `Processor.CheckEligible` | apps/worker/src/processor.ts:144-164 | Eligible exactly when the mailbox has room, the campaign sends and its window is open, and the lead still fits the job |
| `DispatchRules.JobStartsIff` | apps/worker/src/processor.ts:144-171 | A due job is dispatched only if, and its lead released only unless, the mailbox is usable with room today, the campaign is active and not paused for its bounce rate, the lead's window is open, and the follow-up is still due from the lead's mailbox or the first email still queued from one of the campaign's |
| `DispatchRules.EveryDispatch` | apps/worker/src/processor.ts:144-171 | So in every dispatch of every run; a follow-up's lead has no reply but away notices and auto-replies |
| `DispatchRules.EveryDispatchInHours` | apps/worker/src/processor.ts:151-155 | And by the wall clock of the zone asked for it is a ticked day inside the hours |
| `DispatchRules.EveryTransport` | apps/api/src/lib/mailSender.ts:344-390 | In every run an email reaches the mail server only unlisted, a first one from a mailbox the campaign sends from, a follow-up from the lead's own |
| `RowRules.ReleaseLosesNothing` | apps/worker/src/processor.ts:74-91 | A released first email is UNTOUCHED and due at once, a released follow-up keeps its status and due time, and nothing else changes |
| `RowRules.DeadIsFailed` | apps/worker/src/processor.ts:93-117 | A dead address is FAILED, logged as no send of its mailbox, and gives back its own slot and no other |
| `RowRules.AskedAgainSoon` | apps/worker/src/processor.ts:52-59 | "Not now" leaves the lead QUEUED, in no job, due again in 30 to 60 minutes |
| `Processor.ReleaseLead` | apps/worker/src/processor.ts:76-91 | A lead off the queue is the protocol's released row: a first email back to UNTOUCHED, a follow-up without its job |
| `Processor.FreeBookedSlot` | apps/worker/src/processor.ts:32-50 | A reservation is deleted only while it holds the lead's own slot |
| `Processor.HandleDispatchFailure` | apps/worker/src/processor.ts:265-287 | A dispatch that failed before anything was recorded waits 30 minutes, a follow-up 60 |
| `RowRules.RefusalWaits` | apps/worker/src/processor.ts:265-287 | A refused first email waits 30 minutes and a refused follow-up 60, off the queue, the rest of the row as it was |
| `MailSender.Gate` | apps/api/src/lib/mailSender.ts:344-390 | The checks before a send leave the store as one event of the protocol |
| `MailSender.GateIsOneStep` | apps/api/src/lib/mailSender.ts:344-390 | Whichever check fails, that is exactly one step of the protocol |
| `MailSender.GateOpensIff` | apps/api/src/lib/mailSender.ts:344-390 | An email goes on to the mail server if and only if the mailbox can send, may write to that lead, the address is not listed and the footer is complete |
| `MailSender.RecordSuccess` | apps/api/src/lib/mailSender.ts:533-599 | A delivered email's row, log, mailbox and history are those of the protocol's delivery |
| `RowRules.DeliveryAdvances` | apps/api/src/lib/mailSender.ts:533-599 | A delivery is one step more, the next due after the days of that very step or not at all after the last, the first one tying the lead to its mailbox; it is logged and is the mailbox's last send |
| `MailSender.RecordSendFailure` | apps/api/src/lib/mailSender.ts:212-303 | A hard bounce, a retry, an exhausted first email and an exhausted follow-up each leave the store as the protocol says |
| `RowRules.FollowUpBackoff` | apps/api/src/lib/mailSender.ts:260-287 | A follow-up that fails is tried again in half an hour, one hour, then two, each give or take a tenth, its lead otherwise as it was; the fourth failure ends the sequence |
| `RowRules.FirstEmailBackoff` | apps/api/src/lib/mailSender.ts:271-287 | A first email that fails stays QUEUED for its next try, and is SUPPRESSED at the fourth failure |
| `RowRules.HardBounceEnds` | apps/api/src/lib/mailSender.ts:235-256 | A hard bounce ends the lead as BOUNCED and counts as a send of its mailbox |
| `RowRules.FailureIsLogged` | apps/api/src/lib/mailSender.ts:288-303 | A failure is logged, as a deferral if it was one, and counts as no send |
| `MailSender.BackoffNeverShrinks` | apps/api/src/lib/mailSender.ts:202-206 | Whatever the two jitters, a later retry never waits less than an earlier one |
| `MailSender.BackoffScale` | apps/api/src/lib/mailSender.ts:199-206 | A first email that fails waits half an hour, one hour, then two, each give or take a tenth, and the fourth failure ends it: QUEUED if and only if at most two retries lie behind it |
| `Replies.CreateReply` | apps/api/src/routes/internalReplies.ts:105-170 | Storing a reply or a bounce report leaves the store as the protocol's event, or as it was when the message was known |
| `RowRules.ReplyStops` | apps/api/src/routes/internalReplies.ts:133-141 | A reply stops a lead that waits, as REPLIED with nothing due, and no other |
| `RowRules.NewUnlessStored` | apps/api/src/routes/internalReplies.ts:114-120 | A message is stored unless one of the same lead, mailbox and text is |
| `Replies.ArrivalIsOneStep` | apps/api/src/routes/internalReplies.ts:105-170 | A new message is exactly one step of the protocol |
| `Replies.FoundAgain` | apps/api/src/routes/internalReplies.ts:114-120 | The same message found again changes nothing |
| `Replies.ApplyReplyOutcome` | apps/api/src/lib/replyOutcome.ts:58-119 | The lead follows its reply's label, and each of the four outcomes, unchanged, stopped, held and resumed, is reported if and only if it is what happened |
| `ReplyOutcome.LabelMeans` | apps/api/src/lib/replyOutcome.ts:58-119 | What each label does to the row: stopped; left alone; or running again, OPENED if it ever was, its next step at the latest of the sequence's own time, the day after each named return date and a week after each notice without one |
| `RowRules.RunsAgainAsItWas` | apps/api/src/lib/replyOutcome.ts:109-116 | A lead started again is OPENED if and only if it was, or was stopped and the log shows an open |
| `Replies.LabelReply` | apps/api/src/lib/replyOutcome.ts:58-119 | Labelling a reply is one event of the protocol |
| `Replies.ResumeAutoReplied` | apps/api/src/lib/replyOutcome.ts:126-149 | Exactly the leads only auto-replies stopped are resumed, whatever the order; `found` is how many there are, in a dry run too, which changes nothing |
| `Replies.AutoStoppedIff` | apps/api/src/lib/replyOutcome.ts:129-134 | Those are the REPLIED leads with replies, all of them away notices or auto-replies |
| `Replies.FindLastSend` | apps/api/src/routes/internalReplies.ts:156-166 | The search from the end of the log finds the send a bounce report marks |
| `Replies.OnlyTheLastBounces` | apps/api/src/routes/internalReplies.ts:156-166 | That is the lead's latest send from that mailbox, and no other row changes |
| `ReplyOutcome.OutcomeOnce` | apps/api/src/lib/replyOutcome.ts:55-119 | Applying a reply's label twice leaves the lead as once |
| `ReplyOutcome.OrderFree` | apps/api/src/lib/replyOutcome.ts:79-118 | However replies and labels are interleaved, with no hold dropped by a relabelling, the lead is stopped while a reply ends its sequence and else runs, its next step at the latest of the sequence's own time and every hold |
| `ReplyOutcome.OrderDoesNotMatter` | apps/api/src/lib/replyOutcome.ts:79-118 | Two interleavings that leave the same replies in any order leave the lead the same: both stopped, or both running with the same next step |
| `ReplyOutcome.HoldOnce` | apps/api/src/lib/replyOutcome.ts:96-110 | Holding a lead that is held already holds it no longer |
| `ReplyOutcome.LabelFollowsIff` | apps/api/src/lib/replyOutcome.ts:79-118 | After a label the lead stands where a fresh reading of all its replies puts it, if and only if the label does not turn the latest away notice of a running lead into an auto-reply |
| `ReplyOutcome.RelabelledHoldStays` | apps/api/src/lib/replyOutcome.ts:79-118 | A lead relabelled from away to auto-reply still waits for the return date |
| `Suppression.SuppressEmail` | apps/api/src/lib/suppression.ts:17-34 | One address listed, its leads stopped, the first entry kept: one event of the protocol |
| `RowRules.OptOutStops` | apps/api/src/lib/suppression.ts:17-34 | Every lead that carries the address is stopped, no other changes, and the first entry stays |
| `Suppression.SuppressEmails` | apps/api/src/lib/suppression.ts:39-60 | Chunks of 1000 leave the store as suppressing the addresses one by one, and `added` is the number newly listed |
| `Suppression.ChunkIsOneByOne` | apps/api/src/lib/suppression.ts:44-58 | One bulk update of a chunk is its single updates in turn |
| `Suppression.UnsuppressEmail` | apps/api/src/lib/suppression.ts:65-68 | Removing an address is one event, and says whether it was there |
| `Reconcile.ReconcileStuckLeads` | apps/worker/src/reconcile.ts:35-94 | The candidates are the overdue leads, at most 500; each that no job stands for is re-queued half a minute ahead, and counted |
| `RowRules.RequeuedIff` | apps/worker/src/reconcile.ts:41-57 | A lead is stuck if and only if it is queued with a slot more than 15 minutes past and a job the queue does not know |
| `RowRules.RequeueGivesAJob` | apps/worker/src/reconcile.ts:65-88 | It gets a job on the same mailbox half a minute ahead |
| `Reconcile.NoneLeftStuck` | apps/worker/src/reconcile.ts:53-91 | After the loop no recoverable candidate is stuck, and each has the job it should have |
| `Reconcile.RequeueIsOneStep` | apps/worker/src/reconcile.ts:65-88 | A re-queue is one step of the protocol |
| `JobIds.ReadsBack` | apps/worker/src/reconcile.ts:59-63 | A job id gives its mailbox back if and only if no id in it holds a colon |
| `JobIds.TextIsUnique` | apps/worker/src/enqueuer.ts:240 | Job ids without colons are equal only for the same lead, mailbox and slot |
| `JobIds.SplitAtSep` | apps/worker/src/reconcile.ts:61 | Splitting at a separator takes the text apart there |
| `Completion.SyncCampaignCompletion` | apps/worker/src/campaignCompletion.ts:30-40 | The two bulk updates leave every campaign with the status its own leads give it, and count what they moved |
| `Completion.SyncedOnce` | apps/worker/src/campaignCompletion.ts:30-40 | A second run changes nothing |
| `Completion.SyncedIsRight` | apps/worker/src/campaignCompletion.ts:15-40 | A campaign that was sending or done reads Completed if and only if it owes nobody an email and, if it was sending, has leads; a halted one stays so |
| `Completion.PickedIsSending` | apps/worker/src/campaignCompletion.ts:15-40 | A lead the enqueuer could pick is never in a completed campaign |
| `RollingSends.RecentSendTimes` | apps/worker/src/rollingSends.ts:13-36 | Each mailbox gets its own counted sends of the day, in order |
| `RollingSends.CountOfTimes` | apps/worker/src/rollingSends.ts:13-47 | Counting that list from later on is counting the log from later on |
| `RollingSends.DeferredMailboxes` | apps/worker/src/rollingSends.ts:64-79 | The mailboxes slowed are exactly those deferred in the last day |
| `Enqueuer.BuildPool` | apps/worker/src/enqueuer.ts:196-217 | The pool holds exactly the usable mailboxes with room and no slot to come, each with its numbers |
| `Enqueuer.TakeSlot` | apps/worker/src/enqueuer.ts:220-241 | A slot is refused exactly when it would not come before the window closes |
| `Enqueuer.BookLead` | apps/worker/src/enqueuer.ts:266-276 | A booked lead's row, reservation and job are those of one protocol booking |
| `Enqueuer.FindFollowUps` | apps/worker/src/enqueuer.ts:245-259 | The due follow-ups of the pool's mailboxes: the first 200 in the query's order, all of them when there are fewer |
| `Enqueuer.OpenIsWanted` | apps/worker/src/enqueuer.ts:160-180 | Reading only campaigns whose own window is open, or that use leads' zones, misses no due, unanswered follow-up whose own window is open |
| `Enqueuer.FollowUpPass` | apps/worker/src/enqueuer.ts:260-278 | Pass 1 is a run of bookings the protocol allows; each lead is booked or waits for a stated reason |
| `Enqueuer.SpreadGap` | apps/worker/src/enqueuer.ts:97-107 | The gap spreads what the mailbox has left at the close over what is left of the window |
| `FirstEmails.PickMailbox` | apps/worker/src/enqueuer.ts:354-366 | The least recently used of the campaign's mailboxes, rested ones first for a risky lead; a tired one only when no rested one and no confirmed lead is left |
| `FirstEmails.CountNewLeads` | apps/worker/src/enqueuer.ts:281-302 | What each limited campaign has left |
| `FirstEmails.FindFirstEmails` | apps/worker/src/enqueuer.ts:306-321 | The leads due a first email: the first 200 in the query's order, all of them when there are fewer |
| `FirstEmails.OpenFirstIsWanted` | apps/worker/src/enqueuer.ts:304-321 | It misses no first email that is due, whose campaign has a place and a mailbox left and whose own window is open |
| `FirstEmails.CountConfirmed` | apps/worker/src/enqueuer.ts:342-346 | How many confirmed leads of each campaign could go now |
| `FirstEmails.BookFirstEmail` | apps/worker/src/enqueuer.ts:348-393 | One turn of pass 2: a booking the protocol allows from a good mailbox, or a reason |
| `FirstEmails.FirstEmailPass` | apps/worker/src/enqueuer.ts:348-396 | Pass 2 books each lead in line from the right mailbox, or has a reason to wait that holds of the start of the pass |
| `FirstEmails.FirstBooked` | apps/worker/src/enqueuer.ts:359-376 | The spacing of risky leads holds of every booking of the pass, seen from its end |
| `FirstEmails.LeastRecentlyUsed` | apps/worker/src/enqueuer.ts:364-366 | A first email goes from the mailbox of its campaign quiet for longest, one that never sent first |
| `FirstEmails.RiskyStandsBack` | apps/worker/src/enqueuer.ts:357-363 | A risky lead gets a mailbox that has just had one only after every other mailbox of the campaign left in the pool and every confirmed lead of it in line whose window is open |
| `Tick.RunEnqueuerTick` | apps/worker/src/enqueuer.ts:156-399 | A tick is two runs of protocol bookings, follow-ups first; one slot per mailbox and one email per lead; its queries read the first 200 that match, and nobody they read is passed over without a reason; the invariant holds after it |
| `Tick.TickGoesOnRun` | apps/worker/src/enqueuer.ts:156-399 | A run up to a tick goes on through it: some campaign statuses set, then the follow-ups and the first emails booked, each one event |
| `Tick.OneSlotEach` | apps/worker/src/enqueuer.ts:205-241 | No mailbox and no lead is booked twice in any run of bookings at one instant |
| `Tick.SlotsAreInWindows` | apps/worker/src/enqueuer.ts:222-231 | Every slot booked is inside its lead's window when it comes, with the same close, if the window closes on its own day in the lead's zone, or the schedule's when that is not asked for or not known |
| `Tick.SlotsAreInHours` | apps/worker/src/enqueuer.ts:222-231 | And by the wall clock of that zone both the booking and the slot are on a ticked day inside the hours |
| `SendSchedule.InversionExact` | packages/db/src/sendSchedule.ts:131-143 | With at most one clock change near, the two passes return an instant reading exactly the time asked for if and only if that time happens, repeated hours included |
| `SendSchedule.GapMissesByItsWidth` | packages/db/src/sendSchedule.ts:129-143 | A skipped time is missed by exactly the width of the gap, on the side the UTC reading decides |
| `SendSchedule.LandsAfterGapIff` | packages/db/src/sendSchedule.ts:129-130 | It lands after the gap if and only if the UTC clock reading it is at or past the change |
| `SendSchedule.GapWestAndEast` | packages/db/src/sendSchedule.ts:129-130 | West of UTC it never lands after the gap, east of UTC it always does |
| `SendSchedule.NewYorkLandsBeforeGap` | packages/db/src/sendSchedule.ts:129-143 | New York's skipped 2:30 gives 1:30 |
| `SendSchedule.WalkDays` | packages/db/src/sendSchedule.ts:154-175 | The loop over days gives what the first undecided ticked day gives |
| `SendSchedule.ComputeWindow` | packages/db/src/sendSchedule.ts:149-175 | No schedule is always open; a zone the runtime knows is the one read, another falls back to the schedule's own |
| `SendSchedule.OpenSpan` | packages/db/src/sendSchedule.ts:157-173 | What is left of an open window is at most a day and twice the largest offset |
| `SendSchedule.OpenIsTrue` | packages/db/src/sendSchedule.ts:149-175 | With ends that happen once, open is what the wall clock says: a ticked day, inside the hours |
| `SendSchedule.OpenUntilItCloses` | packages/db/src/sendSchedule.ts:149-175 | And stays so up to `closesAt`, with the same close |
| `SendSchedule.ClosedUntilItOpens` | packages/db/src/sendSchedule.ts:149-175 | Closed, `nextOpenAt` exists and is the first later instant the wall clock has open |
| `SendSchedule.LeadWindowIsTrue` | apps/worker/src/sendWindow.ts:27-35 | A lead's window is open if and only if the wall clock of its own zone says so, when leads' zones are asked for and the runtime knows it, and of the schedule's zone otherwise |
| `SendSchedule.WeekdayIsRight` | packages/db/src/sendSchedule.ts:86-111 | Days are counted from a Thursday, weekdays from Sunday |
| `SendSchedule.SlotInsideWindow` | apps/worker/src/sendWindow.ts:27-35 | A slot before the window runs out is inside it on the clock of the lead's zone, or of the schedule's when that is not asked for or not known |
| `SendWindow.InstantsInOrder` | packages/db/src/sendSchedule.ts:131-143 | Existing times of a day come out in order, even inside a repeated hour |
| `SendWindow.OpenHoldsIff` | packages/db/src/sendSchedule.ts:149-175 | With ends that exist and dates that never go back, open holds up to `closesAt` with the same close if and only if that close falls on the window's own day |
| `SendWindow.ClosesOnItsDayIff` | packages/db/src/sendSchedule.ts:129-143 | It does if and only if the window ends before midnight or at the first time the clock shows that midnight |
| `SendWindow.NextOpenIsFirst` | packages/db/src/sendSchedule.ts:157-175 | Closed, `nextOpenAt` exists within the eight days walked, is open, and nothing before it is |
| `SendWindow.AmmanClosesTwice` | packages/db/src/sendSchedule.ts:149-175 | A window up to a repeated midnight says it is open for an hour it is not |
| `SendWindow.AmmanIsSound` | packages/db/src/sendSchedule.ts:149-175 | That zone is otherwise regular: every time happens and no date comes back |
| `SendWindow.RepeatedTime` | packages/db/src/sendSchedule.ts:131-143 | Of a time shown twice the second is taken if and only if the UTC clock reading it is at or past the change, so the second east of UTC and the first west of it |
| `SendWindow.PlainIsSound` | packages/db/src/sendSchedule.ts:149-175 | Windows whose ends happen once, with dates that never go back, are sound and close on their own day |
| `SendWindow.SlotStaysInside` | apps/worker/src/sendWindow.ts:27-35 | A lead's slot is still inside its window when it comes if and only if its date is the one it was booked on |
| `Sequence.FollowUpWaitsADay` | apps/api/src/lib/sequence.ts:22-39 | There is a next follow-up exactly up to the last step, after that step's own days, never sooner than a day |
| `Sequence.ParseStepsInput` | apps/api/src/lib/sequence.ts:76-99 | A list is accepted if and only if it is short enough and every entry is acceptable, and is numbered in order |
| `SendForecast.ForecastSends` | apps/api/src/lib/sendForecast.ts:102-211 | The loops end; each day's count and tallies are those of the sends actually played, day after day |
| `SendForecast.NoMailboxOver` | apps/api/src/lib/sendForecast.ts:134-145 | No mailbox-day passes the cap less what was used |
| `SendForecast.DayTotals` | apps/api/src/lib/sendForecast.ts:120-205 | Each day's count is the sum over its mailboxes |
| `SendForecast.SendBooks` | apps/api/src/lib/sendForecast.ts:144-159 | One send takes one of its mailbox's room, counts once on its day, and books the campaign's next follow-up that many days ahead, or nothing when there is none |
| `SendForecast.EachSendBooks` | apps/api/src/lib/sendForecast.ts:120-205 | On every day of every forecast, tomorrow's list holds each follow-up as often as it is carried over, and once more for each send of the step before it from its mailbox that day, exactly if the campaign waits for that step and it is due that long after |
| `SendForecast.KnownKeeps` | apps/api/src/lib/sendForecast.ts:114-117 | Pending follow-ups of campaigns and mailboxes the forecast is about come in as often as given, and no others |
| `SendForecast.FirstsWithinLeads` | apps/api/src/lib/sendForecast.ts:175-201 | A campaign's first emails over the whole forecast never pass the leads it has left |
| `SendForecast.FirstsAddUp` | apps/api/src/lib/sendForecast.ts:175-201 | First emails played and first emails left add up to what the campaign had |
| `SendForecast.DayConserves` | apps/api/src/lib/sendForecast.ts:161-205 | Each pending follow-up is sent once, from its own mailbox, or carried over, and each send books at most one more |
| `SendForecast.DayIsMaximal` | apps/api/src/lib/sendForecast.ts:175-201 | A campaign that sends that day sends exactly as many first emails as it has left and its daily limit allows, or each of its mailboxes has sent all its cap lets it |
| `SendForecast.SoonestFirst` | apps/api/src/lib/sendForecast.ts:161-173 | A follow-up is sent only when due by the day's end on a day its campaign sends; a due one is carried over only with no room left in its mailbox, and never while a later-due one of that mailbox is sent |
| `SendForecast.SortByDue` | apps/api/src/lib/sendForecast.ts:161-163 | The sort is stable: in order, a permutation, ties as they came |
| `SendForecast.OffDays` | apps/api/src/lib/sendForecast.ts:86-95 | Exactly the days no campaign sends on |
| `SendForecast.SendsOnItsWeekday` | apps/api/src/lib/sendForecast.ts:70-75 | A campaign sends on the day's own weekday within twelve hours of UTC, on the next one's further east, and every day without a schedule |
| `SendForecast.SendsLaterIff` | apps/api/src/lib/sendForecast.ts:77-82 | It sends later today if and only if some moment of the same local date from now on is inside its window by the clock |
| `RollingLimit.FreesAtFirstRoom` | apps/api/src/lib/rollingLimit.ts:17-30 | Null if and only if there is room now; else the least instant from now on with room, ties and unsorted input included |
| `RollingLimit.NothingFreesZero` | apps/api/src/lib/rollingLimit.ts:25-30 | A cap of 0 is never freed by waiting |
| `RollingLimit.ClosesWhenTheWindowDoes` | apps/api/src/lib/rollingLimit.ts:34-40 | While a window is open, today's close is the close the worker reads |
| `RollingLimit.ClosesAtMidnight` | apps/api/src/lib/rollingLimit.ts:34-40 | Without a schedule today closes at the next midnight of UTC |
| `RollingLimit.UsedAtClose` | apps/api/src/lib/sendForecast.ts:218-238 | Each mailbox's sends still counting at the latest close of its campaigns still sending today |
| `Spintax.AssertBalanced` | apps/api/src/lib/spintax.ts:85-101 | Accepts exactly the balanced templates, and tells which way the others fail |
| `Spintax.FindGroup` | apps/api/src/lib/spintax.ts:43-47 | The leftmost innermost group whose braces are doubled on neither side, or none |
| `Spintax.ReplaceBalanced` | apps/api/src/lib/spintax.ts:43-60 | Rewriting a group keeps the text balanced |
| `Spintax.ReplaceNotDoubled` | apps/api/src/lib/spintax.ts:43-60 | And puts no two braces side by side |
| `SpintaxRender.RenderSpintax` | apps/api/src/lib/spintax.ts:21-61 | Succeeds if and only if the template is balanced; the iteration guard never fires; the result is the rewriting's |
| `SpintaxRender.RenderMeans` | apps/api/src/lib/spintax.ts:21-61 | For any draws, a template without doubled braces renders to one of the texts of its recursive reading |
| `SpintaxRender.RenderReaches` | apps/api/src/lib/spintax.ts:21-61 | And each of those texts is what some draws give |
| `SpintaxRender.EveryTextIsShown` | apps/api/src/lib/spintax.ts:21-61 | Every balanced text is some template's, so the two before are about all of them |
| `SpintaxRender.NoBracesIff` | apps/api/src/lib/spintax.ts:43-60 | A balanced template comes out without braces if and only if none of its braces is doubled |
| `SpintaxRender.GroupAtTheEndStays` | apps/api/src/lib/spintax.ts:43-47 | A group that ends in another, as in the example above, comes back as it is |
| `SpintaxRender.EachOptionItsShare` | apps/api/src/lib/spintax.ts:54-58 | Of n options each is picked by its own n-th part of the draws |
| `SpintaxMeaning.Rewrite` | apps/api/src/lib/spintax.ts:43-60 | Replacing an innermost group in the text is replacing it in the template, and offers exactly its options |
| `ReplyReader.Reader.OnData` | apps/worker/src/addressCheck.ts:200-226 | After any piece, what is held and handed over is what all bytes so far say |
| `ReplyReader.Reader.NextReply` | apps/worker/src/addressCheck.ts:227-233 | With one outstanding request, replies are handed over once and in order |
| `ReplyReader.PiecesDoNotMatter` | apps/worker/src/addressCheck.ts:200-233 | Two readers fed the same bytes in any pieces, and asked as often, have handed over and hold the same |
| `ReplyReader.RepliesReadBack` | apps/worker/src/addressCheck.ts:200-226 | A server's replies written by section 4.2.1 of RFC 5321, one line or many, are read back one for one |
| `WarmupPolicy.DayHoldsNow` | apps/api/src/lib/warmup/policy.ts:52-62 | The start of the current warm-up day is within the day before now |
| `WarmupPolicy.SameDayIff` | apps/api/src/lib/warmup/policy.ts:52-62 | Two instants share a day number if and only if they share its start |
| `WarmupPolicy.TargetBounds` | apps/api/src/lib/warmup/policy.ts:65-73 | A target is between 2 and 20 for every mailbox not paused, and never falls from one day to the next |
| `WarmupPolicy.TargetTable` | apps/api/src/lib/warmup/policy.ts:65-73 | The target of every day: 2, 2, 3, 3, 4, 5, 6, 7, 9, 10, 12, 15, 18, then 20; 3 once graduated, none when paused |
| `WarmupPolicy.GapBounds` | apps/api/src/lib/warmup/policy.ts:77-80 | There is a gap for every target, at most 8 hours, the largest whole number of milliseconds that fits the target into 16 hours |
| `WarmupPolicy.TallyPlacements` | apps/api/src/lib/warmup/policy.ts:126-161 | Every placement is counted once, in its own kind, and every rescue |
| `WarmupPolicy.NoFlapping` | apps/api/src/lib/warmup/policy.ts:179-200 | A mailbox graduated on its counts is not demoted on them, nor the other way round; graduating takes 89.5 percent in the inbox |
| `WarmupPolicy.DecidedIff` | apps/api/src/lib/warmup/policy.ts:179-200 | Graduated if and only if warming, day 14 or later, 20 checked, 89.5 percent of them in the inbox; demoted if and only if active, 10 checked, under 69.5 percent |
| `WarmupRun.WarmupPromises` | apps/api/src/lib/warmup/engine.ts:454-507 | Over any ticks, no mailbox makes more attempts in any 24 hours of its warm-up than that day's target, its attempts are a target-th of 16 hours apart, and no inbox is reached twice in five minutes by anyone |
| `WarmupRun.DueIff` | apps/api/src/lib/warmup/policy.ts:83-93 | A mailbox is due if and only if it is able and not paused, has had fewer attempts than its target in its day, and each attempt it ever made is a target-th of 16 hours ago |
| `WarmupRun.AttemptFits` | apps/api/src/lib/warmup/engine.ts:102-120 | The day an attempt falls in had room for it, even when it crosses into the next |
| `WarmupRun.TickKeeps` | apps/api/src/lib/warmup/engine.ts:454-507 | One tick keeps the three promises |
| `WarmupEngine.ChoosePartner` | apps/api/src/lib/warmup/partners.ts:85-100 | The partner no other ranks before, the first such on a tie: one of another domain if there is any, and of its kind one written to least |
| `WarmupEngine.CountSentThisWarmupDay` | apps/api/src/lib/warmup/engine.ts:102-120 | The last day's rows are enough to count each mailbox's own warm-up day |
| `WarmupEngine.Shuffle` | apps/api/src/lib/warmup/engine.ts:123-130 | Swaps in place, losing and adding nobody |
| `WarmupEngine.Engine.SendOneWarmup` | apps/api/src/lib/warmup/engine.ts:407-452 | One attempt recorded either way, to a partner that is free, or the reason there is none |
| `WarmupEngine.Engine.SendDueWarmups` | apps/api/src/lib/warmup/engine.ts:454-507 | A tick is a run of allowed attempts, and no due mailbox is passed over while a partner is free |
| `WarmupEngine.PassedOverMeans` | apps/api/src/lib/warmup/engine.ts:454-507 | When a due mailbox makes no attempt, everyone it could write to got an email in the five minutes before the tick or in it |
| `WarmupEngine.CountToIs` | apps/api/src/lib/warmup/engine.ts:374-384 | How often a partner was written to is the number of attempts to it since |
| `Footer.AppendCanSpamFooter` | apps/api/src/lib/sendCompliance.ts:63-87 | The footer gets whichever of address and link the body lacks, or a missing element is reported |
| `Footer.FooterCarries` | apps/api/src/lib/sendCompliance.ts:57-87 | The result always carries the link, and the address up to white space and case |
| `Footer.FooterTwice` | apps/api/src/lib/sendCompliance.ts:57-87 | The body is left alone if and only if it carried both; a second application always does so |
| `Footer.NormalIsWords` | apps/api/src/lib/sendCompliance.ts:53-55 | The normal form is the words with single spaces, in lower case |

## Left out

Assumed of the run theorems:

- Handlers are atomic but for the splits above, and read one clock.
- One dispatch job runs at a time and its send is over before the next starts: the worker sets no
  concurrency. Enqueuer ticks do not overlap, though nothing in the worker stops them.
- Leads and mailboxes are never deleted; deleting a mailbox also clears its leads' next steps
  (apps/api/src/routes/mailboxes.ts). A mailbox's daily cap and graduation date, a campaign's limit of new leads,
  its schedule and its steps do not change during a run; pausing, senders and mailbox status do.
- A worker that dies in the middle of a job, and the queue's own recovery of stalled jobs.
- A crash of reconcile between adding a job and writing its row.
- Database failures the code swallows (`.catch(() => undefined)`).

Taken as given, or abstract:

- Postgres, Redis, BullMQ, SMTP, IMAP, n8n and HTTP are state and arbitrary outcomes; the order of a
  query's rows is a parameter.
- The civil calendar and `Intl`: a zone is an arbitrary offset function, a date a day number.
- Address checks, reply labels, return dates, lead zones, hard-bounce patterns: inputs.
- The powers of 1.2 and the spread gaps are exact; the code uses floating point.
- Ids hold no colon; `JobIds.ReadsBack` says what happens to one that does.
- `Number()` of a reply code, and lower case, which is taken character by character, are parameters.
- Warm-up addresses are in lower case, as stored; a mailbox's status does not change in a warm-up run.
- A hard bounce during a send does not move the mailbox's last send, in the code as in the model, so
  the cadence is about delivered emails.

Not modelled:

- `selectNextMailbox`, which nothing calls; `listSpintaxGroups`, `hasSpintax`, `nextStepText`.
- The conversation with a mail server in `askMailServer`, and reading verdicts out of its replies.
- The bounce circuit breakers and graduation: their effect on a campaign or mailbox is an event.
- The audit fields of rows and logs, the thread subject, message ids and BCC seeds.
- Placement checks, the warm-up overview, and where the dashboard's queue view shows these numbers.
- WarmupEngine.Shuffle: that every order is equally likely is not stated.
- Sequence.ParseStepsInput: the wording of its error messages is not modelled.
