/** When an open consumer waits for a registration that nothing will bring, in every run exactly. */
module ConsumerStranding {
  import opened Telemetry
  import opened ConsumerState
  import opened Consumers
  import opened ConsumerRuns
  import opened ConsumerSettlement
  import H = Handler

  /** Open and waiting for a registration that nothing will bring: no reply and no request is pending. */
  ghost predicate Stranded(c: Consumer) {
    IsRegistering(c.state) && Outstanding(c, c.state.generation) == 0
  }

  predicate IsRegistering(s: State) {
    s.Open? && s.consumer.Registering?
  }

  /** A reply that registers nothing and ends nothing: a refusal, or an accept of a registration already cancelled. */
  ghost predicate Loses(c: Consumer, s: Step) {
    && IsRegistering(c.state) && s.ReplyCame? && Awaiting(c, c.state.generation)
    && (s.reply.Refused? || (s.reply.Accepted? && !CurrentLive(c)))
  }

  // ---------- What one step does to the requests under way ----------

  /** How `c'` follows from `c` after `answered` replies: a request is only ever used up by its reply. */
  ghost predicate Waits(c: Consumer, c': Consumer, answered: nat) {
    IsRegistering(c'.state) ==>
      var g := c'.state.generation;
      if IsRegistering(c.state) then c.state.generation == g && Outstanding(c', g) + answered == Outstanding(c, g)
      else Outstanding(c', g) >= 1
  }

  /** The same machine, with the same requests under way on the link of `g`. */
  ghost predicate SameWait(c: Consumer, b: Consumer, g: nat) {
    b.state == c.state && Outstanding(b, g) == Outstanding(c, g)
  }

  /** A machine that begins to register asks for it, and one that registers does not ask again. */
  lemma AsksOnce(s: State, e: Event)
    requires IsRegistering(Next(s, e).state)
    ensures var t := Next(s, e);
      && (IsRegistering(s) ==> t.state.generation == s.generation && Consume !in t.effects)
      && (!IsRegistering(s) ==> Consume in t.effects)
  {
  }

  lemma {:induction false} SomeMeansOne(jobs: seq<Job>, g: nat)
    requires Job(Consume, g) in jobs
    ensures Consumes(jobs, g) >= 1
  {
    if jobs[0] != Job(Consume, g) {
      SomeMeansOne(jobs[1..], g);
    }
  }

  lemma EventWaits(c: Consumer, b: Consumer, e: Event)
    requires SameWait(c, b, Next(c.state, e).state.generation)
    ensures Waits(c, Dispatch(b, e), 0)
  {
    var t := Next(c.state, e);
    if IsRegistering(t.state) {
      var g := t.state.generation;
      AsksOnce(c.state, e);
      hide Next;
      var jobs := JobsOf(t.effects, g);
      DispatchPending(b, e);
      JobsConcat(false, PendingJobs(b), jobs, g);
      if IsRegistering(c.state) {
        NoneMeansZero(jobs, g);
      } else {
        var i :| 0 <= i < |t.effects| && t.effects[i] == Consume;
        assert jobs[i] == Job(Consume, g);
        SomeMeansOne(jobs, g);
      }
    }
  }

  lemma SameStateWaits(c: Consumer, b: Consumer)
    requires SameWait(c, b, c.state.generation) && (IsRegistering(c.state) || !IsRegistering(b.state))
    ensures Waits(c, b, 0)
  {
  }

  /** Changes that leave the queue, the wait and the links of the registrations as they are. */
  lemma SameQueueWaits(c: Consumer, b: Consumer, g: nat)
    requires b.state == c.state && b.queue == c.queue && b.await == c.await && |b.registrations| == |c.registrations|
    requires forall r :: 0 <= r < |c.registrations| ==> b.registrations[r].generation == c.registrations[r].generation
    ensures SameWait(c, b, g)
  {
    assert PendingJobs(b) == PendingJobs(c);
    hide Consumes;
  }

  // ---------- Step by step ----------

  lemma EffectWaits(c: Consumer)
    requires LifeOk(c) && c.await.None? && c.queue != []
    ensures Waits(c, EffectBegun(c), 0)
  {
    if IsRegistering(c.state) {
      var g := c.state.generation;
      FirstJob(c.queue, false, g);
      assert PendingJobs(c) == c.queue;
      if c.queue[0] == Job(Consume, g) {
        ConsumeBeginWaits(c);
      } else {
        NoClose(c);
        hide NeverTwice, StatusTells, JobsOk, RegistrationsOk, Consumes;
        EffectShape(c, g);
      }
    } else {
      EffectIsNoEvent(c);
    }
  }

  lemma ConsumeBeginWaits(c: Consumer)
    requires LifeOk(c) && IsRegistering(c.state) && c.await.None? && c.queue != []
    requires c.queue[0] == Job(Consume, c.state.generation)
    ensures Waits(c, EffectBegun(c), 0)
  {
    var g := c.state.generation;
    ConsumeKeepsLife(c);
    PoppedParts(c);
    BegunParts(Popped(c), g);
    FirstJob(c.queue, false, g);
    hide NeverTwice, StatusTells, JobsOk, RegistrationsOk, Consumes, LifeOk;
  }

  lemma NoClose(c: Consumer)
    requires JobsOk(c) && c.queue != [] && !c.state.Stopped?
    ensures !c.queue[0].effect.CloseLink?
  {
    assert c.queue[0] in c.queue;
  }

  /** A queue that waits for no return has nothing pending but its jobs. */
  lemma CalmPending(c: Consumer, g: nat)
    requires c.await.None? || c.await.value.Cancelling? || c.await.value.Closing?
    ensures PendingJobs(c) == c.queue && !Awaiting(c, g)
  {
  }

  /** An effect that is no request of this link leaves the machine alone and asks for nothing. */
  lemma EffectShape(c: Consumer, g: nat)
    requires c.await.None? && c.queue != [] && c.queue[0] != Job(Consume, g) && c.link == Some(g)
    ensures var c' := EffectBegun(c);
      && c'.state == c.state && !Awaiting(c', g)
      && (PendingJobs(c') == c.queue[1..] || PendingJobs(c') == c.queue)
  {
    hide PendingJobs, Awaiting;
    if c.queue[0].effect.ReturnHeld? && HasCurrent(c) {
      ReturnPending(c, g);
    } else {
      CalmPending(EffectBegun(c), g);
    }
  }

  lemma ReturnPending(c: Consumer, g: nat)
    requires c.await.None? && c.queue != [] && c.queue[0].effect.ReturnHeld? && HasCurrent(c)
    ensures PendingJobs(EffectBegun(c)) == c.queue && !Awaiting(EffectBegun(c), g) && EffectBegun(c).state == c.state
  {
    var c' := ReturnBegun(Popped(c), c.queue[0].generation);
    assert EffectBegun(c) == c';
    assert PendingJobs(c') == [c.queue[0]] + c.queue[1..] == c.queue;
  }

  lemma ReturnedWaits(c: Consumer, count: nat)
    requires c.await.Some? && c.await.value.Returning? && c.await.value.r < |c.registrations|
    ensures Waits(c, Returned(c, count), 0)
  {
    var pending, g := PendingJobs(c), c.state.generation;
    assert pending[1..] == c.queue;
    FirstJob(pending, false, g);
    hide NackCount, Nacks, Consumes;
    assert PendingJobs(Returned(c, count)) == c.queue;
  }

  lemma OldReplyWaits(c: Consumer, reply: Reply, now: int)
    requires LifeOk(c) && c.await.Some? && c.await.value.Replying? && c.await.value.r < |c.registrations|
    requires c.state.Open? && !Awaiting(c, c.state.generation)
    ensures Replied(c, reply, now).state == c.state
    ensures SameWait(c, Replied(c, reply, now), c.state.generation)
  {
    var r := c.await.value.r;
    assert c.registrations[r].generation != c.state.generation && !c.registrations[r].live;
    hide NeverTwice, StatusTells, JobsOk, Consumes, Dispatch;
    assert PendingJobs(Replied(c, reply, now)) == PendingJobs(c);
  }

  /** The reply that is waited for, on the link of an open machine. */
  lemma AwaitedReply(c: Consumer, reply: Reply, now: int)
    requires LifeOk(c) && c.state.Open? && Awaiting(c, c.state.generation)
    ensures var c', g := Replied(c, reply, now), c.state.generation;
      && IsRegistering(c.state) && Outstanding(c, g) == 1
      && (reply.TimedOut? ==> !c'.state.Open?)
      && (reply.Accepted? && CurrentLive(c) ==>
            c'.state.Open? && c'.state.consumer == if c.state.storeReady then Active else Idle)
      && (reply.Refused? || (reply.Accepted? && !CurrentLive(c)) ==> c'.state == c.state && Outstanding(c', g) == 0)
  {
    var r, g := c.await.value.r, c.state.generation;
    assert PendingJobs(c) == c.queue && r == |c.registrations| - 1;
    hide NeverTwice, LiveAfter, JobsOk, Consumes;
    match reply
    case Refused => assert PendingJobs(Replied(c, reply, now)) == c.queue;
    case TimedOut => hide Consumes;
    case Accepted =>
      if !CurrentLive(c) {
        assert PendingJobs(Replied(c, reply, now)) == c.queue;
      }
  }

  lemma ClosedReply(c: Consumer, reply: Reply, now: int)
    requires !c.state.Open? && c.await.Some? && c.await.value.Replying? && c.await.value.r < |c.registrations|
    ensures !Replied(c, reply, now).state.Open?
  {
  }

  lemma ReplyWaits(c: Consumer, reply: Reply, now: int)
    requires LifeOk(c) && c.await.Some? && c.await.value.Replying? && c.await.value.r < |c.registrations|
    ensures Waits(c, Replied(c, reply, now), if c.state.Open? && Awaiting(c, c.state.generation) then 1 else 0)
  {
    hide LifeOk, Replied, Outstanding;
    if !c.state.Open? {
      ClosedReply(c, reply, now);
    } else if Awaiting(c, c.state.generation) {
      AwaitedReply(c, reply, now);
    } else {
      OldReplyWaits(c, reply, now);
    }
  }

  /** The end of a link either ends the machine's own or touches nothing that it waits for. */
  lemma LinkEndCases(c: Consumer, s: Step)
    requires s.LinkEnds? && LinkOk(c)
    ensures var c' := After(c, s);
      && c'.await == c.await && |c'.registrations| == |c.registrations|
      && (forall r :: 0 <= r < |c.registrations| ==> c'.registrations[r].generation == c.registrations[r].generation)
      && (c'.state.Open? ==> c'.state == c.state && c'.queue == c.queue && c'.registrations == c.registrations)
      && (c.state.Open? && s.generation == c.state.generation ==> !c'.state.Open?)
  {
    if s.generation in c.ended || c.state.Connecting? || s.generation != c.state.generation {
      hide Dispatch, Unlinked;
    } else {
      var seen := if s.connection then c.(closed := c.closed + {s.generation}) else c;
      UnlinkKeeps(seen);
      hide Unlinked;
      NeverReopened(c.state, LinkClosed(s.generation, s.reason, s.now));
      hide Next;
    }
  }

  lemma UnlinkKeeps(c: Consumer)
    ensures var c' := Unlinked(c);
      && c'.state == c.state && c'.await == c.await && |c'.registrations| == |c.registrations|
      && forall r :: 0 <= r < |c.registrations| ==> c'.registrations[r].generation == c.registrations[r].generation
  {
  }

  lemma NeverReopened(s: State, e: Event)
    requires e.LinkClosed? && e.generation == s.generation
    ensures !Next(s, e).state.Open?
  {
  }

  lemma LinkEndWaits(c: Consumer, s: Step)
    requires s.LinkEnds? && LinkOk(c)
    ensures Waits(c, After(c, s), 0)
  {
    LinkEndCases(c, s);
    hide After, LinkOk;
    if After(c, s).state.Open? {
      NothingWaits(c, After(c, s));
    }
    hide Outstanding;
  }

  lemma CancelWaits(c: Consumer, r: nat)
    requires r < |c.registrations|
    ensures Waits(c, CancelCame(c, r), 0)
  {
    hide Dispatch, Next;
    if c.registrations[r].live {
      var e := BrokerCancelled(c.registrations[r].generation);
      SameQueueWaits(c, Voided(c, r), Next(c.state, e).state.generation);
      hide Outstanding;
      EventWaits(c, Voided(c, r), e);
    }
  }

  lemma HandlerWaits(c: Consumer, r: nat, tag: nat, result: H.HandlerResult, sent: bool)
    requires r < |c.registrations| && c.inFlight > 0
    ensures Waits(c, HandlerEnded(c, r, tag, result, sent), 0)
  {
    hide Dispatch, Next, CountedResult;
    var done := Finished(c, r, tag, result);
    if result.Abandon? && result.cause.StoreUnavailable? {
      SameQueueWaits(c, done, Next(c.state, StoreUnavailable).state.generation);
      hide Outstanding;
      EventWaits(c, done, StoreUnavailable);
    } else {
      var c' := HandlerEnded(c, r, tag, result, sent);
      SameQueueWaits(c, c', c.state.generation);
      hide Outstanding;
      SameStateWaits(c, c');
    }
  }

  lemma PlainWaits(c: Consumer, b: Consumer, e: Event)
    requires b.state == c.state && b.queue == c.queue && b.await == c.await && b.registrations == c.registrations
    ensures Waits(c, Dispatch(b, e), 0)
  {
    hide Next;
    SameQueueWaits(c, b, Next(c.state, e).state.generation);
    hide Outstanding;
    EventWaits(c, b, e);
  }

  lemma TimedWaits(c: Consumer, s: Step)
    requires Enabled(c, s) && (s.Starts? || s.AttemptEnds? || s.TimerFires? || s.WatchEnds? || s.StoreReports?)
    ensures Waits(c, After(c, s), 0)
  {
    hide Dispatch, Outstanding, Waits;
    match s
    case Starts => PlainWaits(c, c, BackoffElapsed(c.state.generation));
    case StoreReports => PlainWaits(c, c, StoreReady);
    case WatchEnds(ready) =>
      PlainWaits(c, c.(watching := false), StoreReady);
      NothingWaits(c, c.(watching := false));
    case TimerFires(i) => PlainWaits(c, c.(timers := c.timers[..i] + c.timers[i + 1..]), BackoffElapsed(c.timers[i]));
    case AttemptEnds(i, _, reason, now) =>
      var g, ended := c.attempts[i], c.(attempts := c.attempts[..i] + c.attempts[i + 1..]);
      PlainWaits(c, ended.(link := Some(g)), LinkOpened(g, now));
      PlainWaits(c, ended, LinkFailed(g, reason));
      NothingWaits(c, ended);
  }

  lemma NothingWaits(c: Consumer, b: Consumer)
    requires b.state == c.state && b.queue == c.queue && b.await == c.await && |b.registrations| == |c.registrations|
    requires forall r :: 0 <= r < |c.registrations| ==> b.registrations[r].generation == c.registrations[r].generation
    ensures Waits(c, b, 0)
  {
    SameQueueWaits(c, b, c.state.generation);
    hide Outstanding;
  }

  lemma StopWaits(c: Consumer, s: Step)
    requires Enabled(c, s) && LinkOk(c) && (s.StopCalled? || s.DrainEnds?)
    ensures !After(c, s).state.Open?
  {
    StepIsEvent(c, s);
    StoppingEvent(c.state, EventOf(c, s).value);
    hide After, Next;
  }

  lemma StoppingEvent(s: State, e: Event)
    requires e.Stop? || (e.Drained? && (s.Draining? || s.Stopped?))
    ensures !Next(s, e).state.Open?
  {
  }

  /** Every step: a machine begins to register with a request, and only its reply uses the request up. */
  lemma StepWaits(c: Consumer, s: Step)
    requires Inv(c) && Enabled(c, s)
    ensures Waits(c, After(c, s), if c.state.Open? && s.ReplyCame? && Awaiting(c, c.state.generation) then 1 else 0)
  {
    assert c.await.Some? && (c.await.value.Replying? || c.await.value.Returning?) ==> c.await.value.r == |c.registrations| - 1;
    StepKeepsSettled(c, s);
    hide Outstanding, Waits, SettleOk, EffectBegun, Replied, Returned, DeliveryCame, CancelCame, HandlerEnded;
    match s
    case EffectRuns => EffectWaits(c);
    case ReplyCame(reply, now) => if c.await.value.r < |c.registrations| { ReplyWaits(c, reply, now); } else { NothingWaits(c, c); }
    case HandlersSettled(count) => ReturnedWaits(c, count);
    case LinkEnds(_, _, _, _) => hide After, QueueOk, RegistrationsOk, JobsOk; LinkEndWaits(c, s);
    case Cancels(r) => CancelWaits(c, r);
    case Handles(r, tag, result, sent) => HandlerWaits(c, r, tag, result, sent);
    case Delivers(r, tag) => DeliveryLeaves(c, r, tag); NothingWaits(c, DeliveryCame(c, r, tag));
    case CancelSettled => EndedWaits(c);
    case CloseSettled => EndedWaits(c);
    case StopCalled => NotOpenWaits(c, s);
    case DrainEnds(_) => NotOpenWaits(c, s);
    case _ => hide After; TimedWaits(c, s);
  }

  lemma DeliveryLeaves(c: Consumer, r: nat, tag: nat)
    requires r < |c.registrations|
    ensures var b := DeliveryCame(c, r, tag);
      && b.state == c.state && b.queue == c.queue && b.await == c.await && |b.registrations| == |c.registrations|
      && forall q :: 0 <= q < |c.registrations| ==> b.registrations[q].generation == c.registrations[q].generation
  {
  }

  lemma EndedWaits(c: Consumer)
    requires c.await.Some? && (c.await.value.Cancelling? || c.await.value.Closing?)
    ensures Waits(c, c.(await := None), 0)
  {
    hide Consumes;
    assert PendingJobs(c.(await := None)) == PendingJobs(c);
  }

  lemma NotOpenWaits(c: Consumer, s: Step)
    requires Enabled(c, s) && LinkOk(c) && (s.StopCalled? || s.DrainEnds?)
    ensures Waits(c, After(c, s), 0)
  {
    StopWaits(c, s);
    hide Outstanding;
  }

  // ---------- Exactly when a step strands ----------

  /** Of all steps exactly a lost reply strands a consumer that was not stranded. */
  lemma StrandsExactly(c: Consumer, s: Step)
    requires Inv(c) && Enabled(c, s) && !Stranded(c)
    ensures Stranded(After(c, s)) <==> Loses(c, s)
  {
    StepWaits(c, s);
    hide Outstanding, SettleOk;
    if s.ReplyCame? && Awaiting(c, c.state.generation) && c.state.Open? {
      AwaitedReply(c, s.reply, s.now);
    }
    hide LifeOk, After, Enabled;
  }

  /** Until its link ends or it is stopped, a stranded consumer stays stranded, whatever else happens. */
  lemma StrandedStays(c: Consumer, s: Step)
    requires Inv(c) && Stranded(c) && Enabled(c, s)
    ensures Stranded(After(c, s)) <==> !s.StopCalled? && !(s.LinkEnds? && s.generation == c.state.generation)
  {
    StepWaits(c, s);
    StaysRegistering(c, s);
    hide LifeOk, SettleOk, Enabled, After;
  }

  lemma StaysRegistering(c: Consumer, s: Step)
    requires LifeOk(c) && Stranded(c) && Enabled(c, s)
    ensures IsRegistering(After(c, s).state) <==> !s.StopCalled? && !(s.LinkEnds? && s.generation == c.state.generation)
  {
    StepIsEvent(c, s);
    RegisteringLeaves(c.state, EventOf(c, s));
    hide After, Next, QueueOk, Consumes;
  }

  lemma RegisteringLeaves(s: State, e: Option<Event>)
    requires IsRegistering(s)
    ensures e.Some? ==> (IsRegistering(Next(s, e.value).state) <==>
              !e.value.Stop? && !((e.value.LinkClosed? || e.value.ConsumerRegistered?) && e.value.generation == s.generation))
  {
  }

  // ---------- The last reply of a link ----------

  /** A reply to a `consume`, and whether the broker had cancelled that registration before. */
  datatype Answer = Answer(reply: Reply, cancelled: bool)

  /** The last reply of a run to a `consume` on the link of `g`. */
  ghost function LastAnswer(steps: seq<Step>, g: nat): Option<Answer>
    decreases |steps|
  {
    if steps == [] then None
    else
      var front, last := steps[..|steps| - 1], steps[|steps| - 1];
      var c := Final(front);
      if last.ReplyCame? && Awaiting(c, g) then Some(Answer(last.reply, Cancels(c.await.value.r) in front))
      else LastAnswer(front, g)
  }

  ghost predicate IsLost(answer: Option<Answer>) {
    answer.Some? && (answer.value.reply.Refused? || (answer.value.reply.Accepted? && answer.value.cancelled))
  }

  /** A link that is not open yet has had no reply. */
  ghost predicate NoAnswerYet(steps: seq<Step>) {
    forall g: nat :: NotYet(Final(steps).state, g) ==> LastAnswer(steps, g) == None
  }

  predicate NotYet(s: State, g: nat) {
    g > s.generation || (s.Connecting? && g == s.generation)
  }

  /** No registration is cancelled before it exists; the one waited for is live unless it was cancelled. */
  ghost predicate CancelsKnown(steps: seq<Step>) {
    Known(steps, Final(steps))
  }

  ghost predicate Known(steps: seq<Step>, c: Consumer) {
    && (forall s <- steps :: s.Cancels? ==> s.r < |c.registrations|)
    && (c.state.Open? && Awaiting(c, c.state.generation) ==> (CurrentLive(c) <==> Cancels(c.await.value.r) !in steps))
  }

  /** The state of an open consumer is what its last reply made of it. */
  ghost predicate Told(c: Consumer, answer: Option<Answer>) {
    c.state.Open? ==>
      && (Stranded(c) <==> IsLost(answer))
      && (c.state.consumer.Active? ==> answer == Some(Answer(Accepted, false)))
  }

  // ---------- Cancels and registrations ----------

  /** The reply a step leaves waited for: the same one, or that of a registration it has just begun. */
  ghost predicate AwaitFollows(c: Consumer, c': Consumer, s: Step) {
    && |c'.registrations| >= |c.registrations|
    && (c'.state.Open? && Awaiting(c', c'.state.generation) ==>
          || (c.state.Open? && Awaiting(c, c.state.generation) && c'.await == c.await
              && (CurrentLive(c') <==> CurrentLive(c) && s != Cancels(c.await.value.r)))
          || (!s.Cancels? && c'.await.value.r == |c.registrations| && CurrentLive(c')))
  }

  /** A step that leaves the wait alone, and the life of every registration, as long as the machine is open. */
  ghost predicate KeepsWait(c: Consumer, c': Consumer) {
    && c'.await == c.await && |c'.registrations| == |c.registrations|
    && (forall r :: 0 <= r < |c.registrations| ==> c'.registrations[r].generation == c.registrations[r].generation)
    && (c'.state.Open? ==>
          forall r :: 0 <= r < |c.registrations| ==> c'.registrations[r].live == c.registrations[r].live)
  }

  lemma OpenFrom(s: State, e: Event)
    requires Next(s, e).state.Open?
    ensures s.Open? || s.Connecting?
    ensures Next(s, e).state.generation == s.generation
  {
  }

  /** An open machine was open on the same link, or connecting to it. */
  lemma OpenBefore(c: Consumer, s: Step)
    requires Inv(c) && Enabled(c, s) && After(c, s).state.Open?
    ensures After(c, s).state.generation == c.state.generation && (c.state.Open? || c.state.Connecting?)
    ensures c.state.Open? ==> !s.StopCalled? && !(s.LinkEnds? && s.generation == c.state.generation)
    ensures c.state.Connecting? ==> !Awaiting(c, c.state.generation)
  {
    StepIsEvent(c, s);
    if EventOf(c, s).Some? {
      OpenFrom(c.state, EventOf(c, s).value);
    }
    if s.StopCalled? {
      StopWaits(c, s);
    } else if s.LinkEnds? {
      LinkEndCases(c, s);
    }
    hide After, Next, EventOf, QueueOk, JobsOk, SettleOk;
  }

  lemma KeptFollows(c: Consumer, s: Step)
    requires Inv(c) && Enabled(c, s) && KeepsWait(c, After(c, s)) && !s.Cancels?
    ensures AwaitFollows(c, After(c, s), s)
  {
    var c' := After(c, s);
    if c'.state.Open? {
      OpenBefore(c, s);
      hide After, Inv, Enabled;
      assert Awaiting(c', c'.state.generation) ==> Awaiting(c, c.state.generation);
    }
    hide After, Inv, Enabled;
  }

  lemma EndedFollows(c: Consumer, s: Step)
    requires Enabled(c, s) && (s.ReplyCame? || s.HandlersSettled? || s.CancelSettled? || s.CloseSettled?)
    requires c.await.value.Replying? || c.await.value.Returning? ==> c.await.value.r < |c.registrations|
    ensures AwaitFollows(c, After(c, s), s)
  {
    hide Next, Nacks, NackCount, LinkEnded;
    if s.ReplyCame? && s.reply.TimedOut? {
      var r, ended := c.await.value.r, c.(await := None);
      EndKeepsAwait(Voided(ended, r), c.registrations[r].generation, false, "consume_timed_out", s.now);
    }
  }

  lemma EndKeepsAwait(c: Consumer, generation: nat, connection: bool, reason: string, now: int)
    ensures var c' := LinkEnded(c, generation, connection, reason, now);
      c'.await == c.await && |c'.registrations| == |c.registrations|
  {
    hide Next;
  }

  lemma EffectFollows(c: Consumer)
    requires LifeOk(c) && c.await.None? && c.queue != []
    ensures AwaitFollows(c, EffectBegun(c), EffectRuns)
  {
    hide LifeOk, Performed;
    var rest, job := Popped(c), c.queue[0];
    if job.effect.Consume? {
      ConsumeBeginFollows(c);
    } else {
      NoReplyAfter(rest, job);
    }
  }

  lemma NoReplyAfter(rest: Consumer, job: Job)
    requires rest.await.None? && !job.effect.Consume?
    ensures var c' := Performed(rest, job);
      |c'.registrations| == |rest.registrations| && (c'.await.Some? ==> !c'.await.value.Replying?)
  {
    hide ConsumeBegun, CancelBegun, ReturnBegun, CloseBegun, CurrentAborted;
    WaitsForNoReply(rest, CancelBegun(rest));
    WaitsForNoReply(rest, ReturnBegun(rest, job.generation));
    WaitsForNoReply(rest, CurrentAborted(rest));
    WaitsForNoReply(rest, CloseBegun(rest));
  }

  lemma WaitsForNoReply(rest: Consumer, c': Consumer)
    requires rest.await.None?
    requires c' == CancelBegun(rest) || c' == CurrentAborted(rest) || c' == CloseBegun(rest)
             || (exists g: nat :: c' == ReturnBegun(rest, g))
    ensures |c'.registrations| == |rest.registrations| && (c'.await.Some? ==> !c'.await.value.Replying?)
  {
  }

  lemma ConsumeBeginFollows(c: Consumer)
    requires c.await.None? && c.queue != [] && c.queue[0].effect.Consume?
    ensures AwaitFollows(c, EffectBegun(c), EffectRuns)
  {
  }

  lemma CancelFollows(c: Consumer, r: nat)
    requires LifeOk(c) && r < |c.registrations|
    ensures AwaitFollows(c, CancelCame(c, r), Cancels(r))
  {
    StepIsEvent(c, Cancels(r));
    if c.registrations[r].live {
      OpenFromCancel(c.state, BrokerCancelled(c.registrations[r].generation));
    }
    hide Next, QueueOk, JobsOk, LinkOk, EventOf;
  }

  lemma OpenFromCancel(s: State, e: Event)
    requires e.BrokerCancelled?
    ensures Next(s, e).state.generation == s.generation
    ensures Next(s, e).state.Open? ==> s.Open?
  {
  }

  lemma OthersKeepWait(c: Consumer, s: Step)
    requires LinkOk(c) && Enabled(c, s) && (s.Handles? ==> c.inFlight > 0)
    requires !s.EffectRuns? && !s.Cancels? && !s.ReplyCame? && !s.HandlersSettled? && !s.CancelSettled? && !s.CloseSettled?
    ensures KeepsWait(c, After(c, s))
  {
    hide Next, CountedResult, Outstanding, Waits, LinkEnded, HandlerEnded, DeliveryCame, StopBegun, DrainOver;
    match s
    case LinkEnds(_, _, _, _) => LinkEndKeepsWait(c, s);
    case Handles(r, tag, result, sent) => HandlerKeepsWait(c, r, tag, result, sent);
    case Delivers(r, tag) => DeliveryKeepsWait(c, r, tag);
    case StopCalled => StopKeepsWait(c, s);
    case DrainEnds(_) => StopKeepsWait(c, s);
    case _ =>
  }

  lemma LinkEndKeepsWait(c: Consumer, s: Step)
    requires s.LinkEnds? && LinkOk(c)
    ensures KeepsWait(c, After(c, s))
  {
    LinkEndCases(c, s);
    hide After, LinkOk;
  }

  lemma HandlerKeepsWait(c: Consumer, r: nat, tag: nat, result: H.HandlerResult, sent: bool)
    requires r < |c.registrations| && c.inFlight > 0
    ensures KeepsWait(c, HandlerEnded(c, r, tag, result, sent))
  {
    hide Next, CountedResult;
  }

  lemma DeliveryKeepsWait(c: Consumer, r: nat, tag: nat)
    requires r < |c.registrations|
    ensures KeepsWait(c, DeliveryCame(c, r, tag))
  {
  }

  lemma StopKeepsWait(c: Consumer, s: Step)
    requires LinkOk(c) && Enabled(c, s) && (s.StopCalled? || s.DrainEnds?)
    ensures KeepsWait(c, After(c, s))
  {
    StopWaits(c, s);
    hide Next;
  }

  lemma StepFollows(c: Consumer, s: Step)
    requires Inv(c) && Enabled(c, s)
    ensures AwaitFollows(c, After(c, s), s)
  {
    assert c.await.Some? && (c.await.value.Replying? || c.await.value.Returning?) ==> c.await.value.r == |c.registrations| - 1;
    StepKeepsSettled(c, s);
    hide SettleOk, AwaitFollows, EffectBegun, CancelCame, KeepsWait;
    match s
    case EffectRuns => EffectFollows(c);
    case Cancels(r) => CancelFollows(c, r);
    case ReplyCame(_, _) => EndedFollows(c, s);
    case HandlersSettled(_) => EndedFollows(c, s);
    case CancelSettled => EndedFollows(c, s);
    case CloseSettled => EndedFollows(c, s);
    case _ =>
      hide After;
      OthersKeepWait(c, s);
      KeptFollows(c, s);
  }

  // ---------- Every run ----------

  lemma LastStep(steps: seq<Step>)
    requires IsRun(steps) && steps != []
    ensures var front, last := steps[..|steps| - 1], steps[|steps| - 1];
      && IsRun(front) && Inv(Final(front)) && Enabled(Final(front), last) && Final(steps) == After(Final(front), last)
      && steps == front + [last]
  {
    hide Inv, After, Enabled;
    RunKeepsInv(steps[..|steps| - 1]);
  }

  lemma CancelsStayKnown(steps: seq<Step>)
    requires IsRun(steps) && steps != [] && CancelsKnown(steps[..|steps| - 1])
    ensures CancelsKnown(steps)
  {
    hide After, Enabled, Inv, Known;
    var front, last := steps[..|steps| - 1], steps[|steps| - 1];
    LastStep(steps);
    StepFollows(Final(front), last);
    CancelsOfKnown(Final(front), last);
    hide IsRun, Final, AwaitFollows;
    KnownOneMore(front, last, Final(front), Final(steps));
  }

  lemma CancelsOfKnown(c: Consumer, s: Step)
    requires Enabled(c, s)
    ensures s.Cancels? ==> s.r < |c.registrations|
  {
  }

  lemma KnownOneMore(front: seq<Step>, last: Step, c: Consumer, c': Consumer)
    requires Known(front, c) && AwaitFollows(c, c', last) && (last.Cancels? ==> last.r < |c.registrations|)
    ensures Known(front + [last], c')
  {
    hide CurrentLive;
    assert forall s :: s in front + [last] <==> s in front || s == last;
  }

  lemma NoAnswerStays(steps: seq<Step>)
    requires IsRun(steps) && steps != [] && NoAnswerYet(steps[..|steps| - 1])
    ensures NoAnswerYet(steps)
  {
    var front, last := steps[..|steps| - 1], steps[|steps| - 1];
    LastStep(steps);
    GenerationsAhead(Final(front), last);
    hide IsRun, Inv, After, Enabled, Final;
    forall g: nat | NotYet(Final(steps).state, g) ensures LastAnswer(steps, g) == None {
      assert NotYet(Final(front).state, g) && !Awaiting(Final(front), g);
    }
  }

  lemma GenerationsAhead(c: Consumer, s: Step)
    requires Inv(c) && Enabled(c, s)
    ensures forall g: nat :: NotYet(After(c, s).state, g) ==> NotYet(c.state, g) && !Awaiting(c, g)
  {
    StepIsEvent(c, s);
    if EventOf(c, s).Some? {
      EffectsFit(c.state, EventOf(c, s).value);
    }
    hide After, Next, EventOf, QueueOk, JobsOk, LinkOk, SettleOk;
  }

  /** Only the awaited accept of a live registration makes an open machine active. */
  lemma ActiveByReply(c: Consumer, s: Step)
    requires LifeOk(c) && Enabled(c, s) && After(c, s).state.Open? && After(c, s).state.consumer.Active?
    ensures c.state.Open? && After(c, s).state.generation == c.state.generation
    ensures c.state.consumer.Active? || (s.ReplyCame? && s.reply.Accepted? && Awaiting(c, c.state.generation) && CurrentLive(c))
  {
    StepIsEvent(c, s);
    if EventOf(c, s).Some? {
      ActiveByRegistered(c.state, EventOf(c, s).value);
    }
    hide After, Next, QueueOk, JobsOk;
  }

  lemma ActiveByRegistered(s: State, e: Event)
    requires Next(s, e).state.Open? && Next(s, e).state.consumer.Active?
    ensures s.Open? && Next(s, e).state.generation == s.generation
    ensures s.consumer.Active? || (e.ConsumerRegistered? && e.generation == s.generation)
  {
  }

  /** A step with no reply on the link of an open machine. */
  lemma UnansweredTold(c: Consumer, s: Step, answer: Option<Answer>)
    requires Inv(c) && Enabled(c, s) && Told(c, answer) && (c.state.Connecting? ==> answer == None)
    requires !(s.ReplyCame? && Awaiting(c, c.state.generation))
    ensures Told(After(c, s), answer)
  {
    hide LifeOk, SettleOk, After, Outstanding, Enabled;
    if After(c, s).state.Open? {
      OpenBefore(c, s);
      if After(c, s).state.consumer.Active? {
        ActiveByReply(c, s);
      }
      if Stranded(c) {
        StrandedStays(c, s);
      } else {
        StrandsExactly(c, s);
      }
    }
  }

  lemma AnsweredTold(c: Consumer, s: Step, cancelled: bool)
    requires Inv(c) && Enabled(c, s) && s.ReplyCame? && Awaiting(c, c.state.generation) && (CurrentLive(c) <==> !cancelled)
    ensures Told(After(c, s), Some(Answer(s.reply, cancelled)))
  {
    hide LifeOk, SettleOk, Enabled;
    assert After(c, s) == Replied(c, s.reply, s.now);
    hide After;
    if Replied(c, s.reply, s.now).state.Open? {
      OpenBefore(c, s);
      AwaitedReply(c, s.reply, s.now);
      StrandsExactly(c, s);
      hide Replied;
    }
  }

  lemma ToldStays(steps: seq<Step>)
    requires IsRun(steps) && steps != [] && NoAnswerYet(steps[..|steps| - 1]) && CancelsKnown(steps[..|steps| - 1])
    requires var front := steps[..|steps| - 1]; Told(Final(front), LastAnswer(front, Final(front).state.generation))
    ensures Told(Final(steps), LastAnswer(steps, Final(steps).state.generation))
  {
    LastStep(steps);
    hide IsRun, Final, Inv, After, Enabled, Told;
    var front, last := steps[..|steps| - 1], steps[|steps| - 1];
    var c := Final(front);
    if Final(steps).state.Open? {
      OpenBefore(c, last);
      if last.ReplyCame? && Awaiting(c, c.state.generation) {
        AnsweredTold(c, last, Cancels(c.await.value.r) in front);
      } else {
        UnansweredTold(c, last, LastAnswer(front, c.state.generation));
      }
    } else {
      ClosedTold(Final(steps), LastAnswer(steps, Final(steps).state.generation));
    }
  }

  lemma ClosedTold(c: Consumer, answer: Option<Answer>)
    requires !c.state.Open?
    ensures Told(c, answer)
  {
  }

  lemma {:induction false} RunTells(steps: seq<Step>)
    requires IsRun(steps)
    ensures NoAnswerYet(steps) && CancelsKnown(steps) && Told(Final(steps), LastAnswer(steps, Final(steps).state.generation))
    decreases |steps|
  {
    if steps != [] {
      RunTells(steps[..|steps| - 1]);
      NoAnswerStays(steps);
      CancelsStayKnown(steps);
      ToldStays(steps);
    }
  }

  /**
   * In every run an open consumer is stranded exactly when the last reply to a `consume` on its link
   * was lost: refused, or behind the broker's cancel of that registration. A registering consumer
   * that is not stranded has one request or reply under way.
   */
  lemma StrandedByLostReply(steps: seq<Step>)
    requires IsRun(steps) && Final(steps).state.Open?
    ensures var c := Final(steps);
      && (Stranded(c) <==> IsLost(LastAnswer(steps, c.state.generation)))
      && (c.state.consumer.Registering? && !Stranded(c) ==> Outstanding(c, c.state.generation) == 1)
  {
    RunTells(steps);
    RunKeepsInv(steps);
    hide IsRun, Final, SettleOk, LiveAfter, Consumes, LastAnswer;
  }

  /**
   * In every run an open consumer with a ready store and nothing left to do consumes exactly when the
   * last reply to a `consume` on its link was an accept with no cancel before it.
   */
  lemma ConsumesUnlessReplyLost(steps: seq<Step>)
    requires IsRun(steps)
    requires var c := Final(steps); c.state.Open? && c.state.storeReady && c.await.None? && c.queue == []
    ensures var c, answer := Final(steps), LastAnswer(steps, Final(steps).state.generation);
      && (IsConsuming(c.state) <==> answer == Some(Answer(Accepted, false)))
      && (!IsConsuming(c.state) <==> IsLost(answer))
  {
    RunTells(steps);
    RunKeepsInv(steps);
    var c := Final(steps);
    assert PendingJobs(c) == [];
    hide IsRun, Final, SettleOk, LiveAfter, LastAnswer;
  }

  // ---------- Two runs that strand ----------

  lemma OneMoreStep(steps: seq<Step>, s: Step) returns (longer: seq<Step>)
    requires IsRun(steps) && Enabled(Final(steps), s)
    ensures longer == steps + [s] && IsRun(longer) && Final(longer) == After(Final(steps), s)
  {
    hide Enabled, After;
    longer := steps + [s];
    assert longer[..|longer| - 1] == steps;
  }

  /** Open, with the store ready, and waiting for the reply to the first `consume`. */
  ghost predicate AwaitsFirst(c: Consumer) {
    && c.state == Open(1, 0, true, Registering, 0) && c.queue == [] && c.await == Some(Replying(0)) && c.draining.None?
    && c.registrations == [Registration(1, [], {}, false, true, false)]
  }

  lemma FirstConsume() returns (steps: seq<Step>)
    ensures IsRun(steps) && AwaitsFirst(Final(steps))
  {
    var c := NEW_CONSUMER;
    steps := [];
    steps, c := FirstStep(steps, c, StoreReports, Backoff(0, 0, true), []);
    steps, c := FirstStep(steps, c, Starts, Connecting(1, 0, true), [Job(OpenLink, 1)]);
    steps, c := FirstStep(steps, c, EffectRuns, Connecting(1, 0, true), []);
    steps, c := FirstStep(steps, c, AttemptEnds(0, true, "", 0), Open(1, 0, true, Registering, 0), [Job(Consume, 1)]);
    steps, c := FirstStep(steps, c, EffectRuns, Open(1, 0, true, Registering, 0), []);
  }

  lemma FirstStep(steps: seq<Step>, c: Consumer, s: Step, state: State, queue: seq<Job>)
    returns (longer: seq<Step>, next: Consumer)
    requires IsRun(steps) && Final(steps) == c && Enabled(c, s)
    requires After(c, s).state == state && After(c, s).queue == queue
    ensures longer == steps + [s] && IsRun(longer) && Final(longer) == next == After(c, s)
  {
    hide Enabled, After;
    longer := OneMoreStep(steps, s);
    next := After(c, s);
  }

  /**
   * The run to a stranded consumer with a ready store and nothing left to do, both ways: the consume is
   * refused, or the broker's cancel comes before its accept.
   */
  lemma SomeRunStrands(refused: bool) returns (steps: seq<Step>)
    ensures IsRun(steps)
    ensures var c := Final(steps);
      Stranded(c) && c.state.storeReady && c.queue == [] && c.await.None? && !IsConsuming(c.state)
    ensures LastAnswer(steps, Final(steps).state.generation)
         == Some(if refused then Answer(Refused, false) else Answer(Accepted, true))
  {
    steps := FirstConsume();
    var first := Final(steps);
    RunTells(steps);
    FirstReply(first);
    hide After, Enabled;
    if !refused {
      steps := OneMoreStep(steps, Cancels(0));
    }
    ghost var before := steps;
    steps := OneMoreStep(steps, ReplyCame(if refused then Refused else Accepted, 0));
    assert steps[..|steps| - 1] == before && steps[|steps| - 1] == ReplyCame(if refused then Refused else Accepted, 0);
    RunTells(steps);
    hide IsRun, Final;
  }

  /** What the refusal, or the cancel and then the accept, leave of the first `consume`. */
  lemma FirstReply(c: Consumer)
    requires AwaitsFirst(c)
    ensures Awaiting(c, 1) && CurrentLive(c)
    ensures Enabled(c, ReplyCame(Refused, 0)) && Enabled(c, Cancels(0))
    ensures var c' := After(c, ReplyCame(Refused, 0)); c'.state == c.state && c'.queue == [] && c'.await.None?
    ensures var c' := After(c, Cancels(0)); Awaiting(c', 1) && Enabled(c', ReplyCame(Accepted, 0))
    ensures var c' := After(After(c, Cancels(0)), ReplyCame(Accepted, 0));
      c'.state == c.state && c'.queue == [] && c'.await.None?
  {
    CancelOfRegistering(c, 0);
  }

  /** A machine that registers does not hear of the cancel. */
  lemma CancelOfRegistering(c: Consumer, r: nat)
    requires IsRegistering(c.state) && r < |c.registrations| && c.registrations[r].live
    ensures CancelCame(c, r) == Voided(c, r)
  {
    var g := c.registrations[r].generation;
    assert Next(c.state, BrokerCancelled(g)) == To(c.state, []);
    hide Next;
    assert c.queue + JobsOf([], c.state.generation) == c.queue;
  }

  /** Not only there: a cancel seen before the reply strands every registering consumer, whatever its store is. */
  lemma EarlyCancelStrands(c: Consumer, now: int)
    requires Inv(c) && IsRegistering(c.state) && Awaiting(c, c.state.generation) && CurrentLive(c)
    ensures var c' := After(After(c, Cancels(|c.registrations| - 1)), ReplyCame(Accepted, now));
      Stranded(c') && c'.state == c.state
  {
    var s := Cancels(|c.registrations| - 1);
    hide SettleOk, Outstanding, Dispatch;
    StepKeepsLife(c, s);
    VoidedWaits(c);
    hide LifeOk;
    AwaitedReply(After(c, s), Accepted, now);
  }

  /** The cancel leaves the machine as it is, and its reply awaited by a registration that is void. */
  lemma VoidedWaits(c: Consumer)
    requires RegistrationsOk(c) && IsRegistering(c.state) && Awaiting(c, c.state.generation) && CurrentLive(c)
    ensures var c' := CancelCame(c, |c.registrations| - 1);
      c'.state == c.state && Awaiting(c', c.state.generation) && !CurrentLive(c')
  {
    CancelOfRegistering(c, |c.registrations| - 1);
    hide CancelCame;
  }
}
