/** The waker credit scheme and exact delivery, per subscriber and over every run of the streamer. */
module Credit {
  import opened Wrappers
  import opened Notes
  import opened Transactions
  import opened Streamer
  import opened StreamWorld
  import opened Accounting

  function Waking(m: Manager, id: SubId): nat {
    if id in m.wakers then 1 else 0
  }

  /**
   Sends, the registered waker and the queued Waker messages are all paid for by Pending
   polls; the channel is FIFO.
   */
  ghost predicate CreditOf(w: World, id: SubId) {
    id in w.chans && id in w.ledgers ==>
      var led := w.ledgers[id];
      && |led.sent| + Waking(w.mgr, id) + multiset(w.queue)[WakerMsg(id)] <= led.pendings
      && led.sent == led.got + w.chans[id].buf
  }

  /** A message about anything but a waker leaves sends, wakers and channels alone. */
  lemma HandleCredit(w: World, x: SubId, reason: Reason, id: SubId)
    requires Shape(w) && CreditOf(w, id) && x in w.chans
    ensures CreditOf(HandleAdd(w, x), id)
    ensures CreditOf(HandleRemove(w, x, reason), id)
  {
  }

  lemma ControlCredit(w: World, id: SubId)
    requires Shape(w) && CreditOf(w, id)
    ensures CreditOf(DoControl(w), id)
  {
    if w.running && w.queue != [] {
      var w1 := w.(queue := w.queue[1..], round := None);
      PopShape(w);
      PopCount(w.queue);
      match w.queue[0]
      case AddSubMsg(x) => HandleCredit(w1, x, Backpressure, id);
      case RemoveSubMsg(x, reason) => HandleCredit(w1, x, reason, id);
      case WakerMsg(x) =>
        assert CreditOf(w1.(mgr := UpdateWaker(w1.mgr, x)), id);
      case ShutdownMsg => StopCredit(w1, id);
    }
  }

  lemma StopCredit(w: World, id: SubId)
    requires CreditOf(w, id)
    ensures CreditOf(Stopped(w), id)
  {
  }

  lemma FinishCredit(w: World, id: SubId)
    requires Shape(w) && CreditOf(w, id)
    ensures CreditOf(DoRoundFinish(w), id)
  {
    if w.running && w.round.Some? && w.round.value.todo == {} && id in w.chans {
      var ups := UpdatesOf(w.round.value.found);
      var m := UpdateCursors(w.mgr, ups);
      if Addressed(m, w.chans, ups, id) && CanSend(w.chans[id]) {
        var led, b := w.ledgers[id], ups[w.chans[id].tag];
        assert led.sent + [b] == led.got + (w.chans[id].buf + [b]);
      }
    }
  }

  lemma PollCredit(w: World, x: SubId, id: SubId)
    requires Shape(w) && CreditOf(w, id)
    ensures CreditOf(DoPoll(w, x), id)
  {
    hide SenderAlive, QueueHasRoom, Homed, NoEmptyTags;
    if x == id && id in w.chans && id in w.ledgers && w.chans[id].buf != [] {
      var got, buf := w.ledgers[id].got, w.chans[id].buf;
      assert got + buf == (got + [buf[0]]) + buf[1..];
    }
  }

  lemma SubscribeCredit(w: World, x: SubId, tag: Tag, id: SubId)
    requires Shape(w) && CreditOf(w, id)
    ensures CreditOf(DoSubscribe(w, x, tag), id)
  {
  }

  lemma DropCredit(w: World, x: SubId, id: SubId)
    requires Shape(w) && CreditOf(w, id)
    ensures CreditOf(DoDropSub(w, x), id)
  {
  }

  lemma StepCredit(w: World, a: Action, id: SubId)
    requires Shape(w) && CreditOf(w, id)
    ensures CreditOf(Step(w, a), id)
  {
    match a
    case Control => ControlCredit(w, id);
    case RoundFinish => FinishCredit(w, id);
    case Poll(x) => PollCredit(w, x, id);
    case Subscribe(x, tag) => SubscribeCredit(w, x, tag, id);
    case DropSub(x) => DropCredit(w, x, id);
    case DropServer => StopCredit(w, id);
    case _ =>
  }

  lemma {:induction false} RunCredit(d: Db, actions: seq<Action>, id: SubId)
    ensures CreditOf(Run(Start(d), actions), id)
  {
    if actions != [] {
      RunShape(d, actions[..|actions| - 1]);
      RunCredit(d, actions[..|actions| - 1], id);
      StepCredit(Run(Start(d), actions[..|actions| - 1]), actions[|actions| - 1], id);
    }
  }

  /**
   Credit conservation, over every run: what was sent, plus a registered waker, plus
   queued Waker messages never exceeds the Pending polls; so the channel holds at most
   the Pending polls not yet answered by a receive.
   */
  lemma {:induction false} CreditConservation(d: Db, actions: seq<Action>, id: SubId)
    requires id in Run(Start(d), actions).chans
    ensures var w := Run(Start(d), actions);
            && id in w.ledgers
            && var led := w.ledgers[id];
               && |led.sent| + Waking(w.mgr, id) + multiset(w.queue)[WakerMsg(id)] <= led.pendings
               && led.sent == led.got + w.chans[id].buf
               && |w.chans[id].buf| <= led.pendings - |led.got|
  {
    RunShape(d, actions);
    RunCredit(d, actions, id);
  }

  /** Removal messages come from subscribers that went away. */
  ghost predicate RemovalsAreOfDropped(w: World) {
    forall m | m in w.queue && m.RemoveSubMsg? :: m.id in w.chans && !w.chans[m.id].rxOpen
  }

  lemma StepRemovals(w: World, a: Action)
    requires RemovalsAreOfDropped(w)
    ensures RemovalsAreOfDropped(Step(w, a))
  {
    hide SentLedgers, HandledFeeds, ForwardManager, FeedsFor, AddSub, RemoveSub, Evicted, Subscribed, SenderAlive;
    if a.Control? {
      assert w.queue != [] ==> forall m | m in w.queue[1..] :: m in w.queue;
    } else {
      hide DoControl;
    }
  }

  lemma {:induction false} RunRemovals(d: Db, actions: seq<Action>)
    ensures RemovalsAreOfDropped(Run(Start(d), actions))
  {
    if actions != [] {
      RunRemovals(d, actions[..|actions| - 1]);
      StepRemovals(Run(Start(d), actions[..|actions| - 1]), actions[|actions| - 1]);
    }
  }

  /** Within its credit a round does not remove a live subscriber, whatever the round found. */
  lemma FinishKeepsWithinCredit(w: World, id: SubId, tag: Tag)
    requires Shape(w) && CreditOf(w, id)
    requires Subscribed(w.mgr, id, tag) && id in w.chans && w.chans[id].rxOpen
    requires w.ledgers[id].pendings <= |w.ledgers[id].got| + SUB_CHANNEL_CAPACITY
    ensures Subscribed(DoRoundFinish(w).mgr, id, tag)
  {
    if w.running && w.round.Some? && w.round.value.todo == {} {
      var ups := UpdatesOf(w.round.value.found);
      var m := UpdateCursors(w.mgr, ups);
      UpdateCursorsShape(w.mgr, w.chans, ups);
      ForwardFates(m, w.chans, ups, id, tag);
    }
  }

  /** A control message removes no subscriber that is still there. */
  lemma ControlKeepsLive(w: World, id: SubId, tag: Tag)
    requires Shape(w) && RemovalsAreOfDropped(w)
    requires Subscribed(w.mgr, id, tag) && id in w.chans && w.chans[id].rxOpen
    ensures DoControl(w).running ==> Subscribed(DoControl(w).mgr, id, tag)
  {
    if w.running && w.queue != [] {
      assert w.queue[0] in w.queue;
      if w.queue[0].RemoveSubMsg? {
        OthersStaySubscribed(w.mgr, w.queue[0].id, TagOf(w, w.queue[0].id), id, tag);
      }
    }
  }

  /**
   No step of any run ends the subscription of a subscriber that is alive and has at
   most 32 Pending polls beyond its receives, as long as the streamer runs: it is neither
   evicted nor removed by anybody else's message.
   */
  lemma {:induction false} NoEvictionWithinCredit(d: Db, actions: seq<Action>, a: Action, id: SubId, tag: Tag)
    requires var w := Run(Start(d), actions);
             && Subscribed(w.mgr, id, tag) && id in w.chans && id in w.ledgers
             && w.chans[id].rxOpen
             && w.ledgers[id].pendings <= |w.ledgers[id].got| + 32
    ensures var w' := Step(Run(Start(d), actions), a);
            w'.running ==> Subscribed(w'.mgr, id, tag)
  {
    var w := Run(Start(d), actions);
    RunShape(d, actions);
    RunCredit(d, actions, id);
    RunRemovals(d, actions);
    match a
    case RoundFinish => FinishKeepsWithinCredit(w, id, tag);
    case Control => ControlKeepsLive(w, id, tag);
    case _ =>
  }

  // ---------------------------------------------------------------- exact delivery

  /** The subscriber took part in a round: subscribed to an updated tag, waker registered, room in its channel. */
  predicate Took(rec: Record, id: SubId, tag: Tag) {
    && tag in rec.updates && Subscribed(rec.manager, id, tag)
    && id in rec.manager.wakers && id in rec.chans && CanSend(rec.chans[id])
  }

  function Accepted(rounds: seq<Record>, id: SubId, tag: Tag): seq<Batch> {
    if rounds == [] then []
    else
      var last := rounds[|rounds| - 1];
      Accepted(rounds[..|rounds| - 1], id, tag) + if Took(last, id, tag) then [last.updates[tag]] else []
  }

  ghost predicate RoundsKnown(w: World) {
    forall rec | rec in w.rounds :: rec.chans.Keys <= w.chans.Keys
  }

  ghost predicate DeliveryOf(w: World, id: SubId) {
    && RoundsKnown(w)
    && (id in w.chans && id in w.ledgers ==> w.ledgers[id].sent == Accepted(w.rounds, id, w.chans[id].tag))
  }

  lemma {:induction false} NothingBeforeJoining(rounds: seq<Record>, id: SubId, tag: Tag)
    requires forall rec | rec in rounds :: id !in rec.chans
    ensures Accepted(rounds, id, tag) == []
  {
    if rounds != [] {
      NothingBeforeJoining(rounds[..|rounds| - 1], id, tag);
    }
  }

  lemma FinishDelivery(w: World, id: SubId)
    requires Shape(w) && DeliveryOf(w, id)
    ensures DeliveryOf(DoRoundFinish(w), id)
  {
  }

  lemma SubscribeDelivery(w: World, x: SubId, tag: Tag, id: SubId)
    requires Shape(w) && DeliveryOf(w, id)
    ensures DeliveryOf(DoSubscribe(w, x, tag), id)
  {
    if x == id && id !in w.chans {
      NothingBeforeJoining(w.rounds, id, tag);
    }
  }

  lemma OtherDelivery(w: World, a: Action, id: SubId)
    requires Shape(w) && DeliveryOf(w, id) && !a.RoundFinish? && !a.Subscribe? && !a.Control?
    ensures DeliveryOf(Step(w, a), id)
  {
  }

  /** A control message sends nothing and opens or closes no channel. */
  lemma ControlSendsNothing(w: World, id: SubId)
    requires id in w.ledgers
    ensures DoControl(w).chans == w.chans && DoControl(w).rounds == w.rounds
    ensures id in DoControl(w).ledgers && DoControl(w).ledgers[id].sent == w.ledgers[id].sent
  {
    hide AddSub, RemoveSub, UpdateWaker, FeedsFor, Subscribed;
  }

  lemma ControlDelivery(w: World, id: SubId)
    requires Shape(w) && DeliveryOf(w, id)
    ensures DeliveryOf(DoControl(w), id)
  {
    hide DoControl, Accepted;
    if id in w.ledgers {
      ControlSendsNothing(w, id);
    } else {
      ControlKeepsRounds(w);
    }
  }

  lemma ControlKeepsRounds(w: World)
    ensures DoControl(w).chans == w.chans && DoControl(w).rounds == w.rounds
    ensures DoControl(w).ledgers.Keys == w.ledgers.Keys
  {
    hide AddSub, RemoveSub, UpdateWaker, FeedsFor, Subscribed;
  }

  lemma StepDelivery(w: World, a: Action, id: SubId)
    requires Shape(w) && DeliveryOf(w, id)
    ensures DeliveryOf(Step(w, a), id)
  {
    match a
    case RoundFinish => FinishDelivery(w, id);
    case Subscribe(x, tag) => SubscribeDelivery(w, x, tag, id);
    case Control => ControlDelivery(w, id);
    case _ => OtherDelivery(w, a, id);
  }

  /**
   Exact delivery, over every run: the batches a subscriber was sent are its tag's
   update batches of the rounds it took part in, in order, no more and no less; what it
   has received is a prefix of them, the rest is in its channel.
   */
  lemma {:induction false} ExactDelivery(d: Db, actions: seq<Action>, id: SubId)
    ensures DeliveryOf(Run(Start(d), actions), id)
    ensures var w := Run(Start(d), actions);
            id in w.chans && id in w.ledgers ==>
              w.ledgers[id].got + w.chans[id].buf == Accepted(w.rounds, id, w.chans[id].tag)
  {
    RunCredit(d, actions, id);
    if actions != [] {
      RunShape(d, actions[..|actions| - 1]);
      ExactDelivery(d, actions[..|actions| - 1], id);
      StepDelivery(Run(Start(d), actions[..|actions| - 1]), actions[|actions| - 1], id);
    }
  }

  // ------------------------------------------------------- what a round cannot change

  predicate Undecided(a: Action) {
    !a.Control? && !a.RoundFinish? && !a.DropServer?
  }

  /**
   However many tags a round has queried, until it finishes or a control message is
   taken nothing of the manager changes: a failed round leaves cursors, subscribers and
   wakers as they were, and so does one that is started again and again.
   */
  lemma {:induction false} UnfinishedRoundsChangeNothing(w: World, actions: seq<Action>)
    requires forall a | a in actions :: Undecided(a)
    ensures Run(w, actions).mgr == w.mgr
  {
    if actions != [] {
      var front, last := actions[..|actions| - 1], actions[|actions| - 1];
      assert last in actions;
      forall a | a in front ensures Undecided(a) {
        assert a in actions;
      }
      UnfinishedRoundsChangeNothing(w, front);
    }
  }

  lemma OthersStaySubscribed(m: Manager, x: SubId, t: Tag, id: SubId, tag: Tag)
    requires Subscribed(m, id, tag) && x != id
    ensures Subscribed(RemoveSub(m, x, t), id, tag)
  {
  }
}
