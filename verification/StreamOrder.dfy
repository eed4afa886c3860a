/** What a subscriber's stream looks like, over every run in which keys stay within the non-legacy range. */
module StreamOrder {
  import opened Wrappers
  import opened Notes
  import opened Store
  import opened Paging
  import opened Transactions
  import opened Streamer
  import opened StreamWorld
  import opened Accounting
  import opened Refinement
  import Credit
  import Sequential
  import Pull

  function Rows(batches: seq<Batch>): seq<Row> {
    if batches == [] then []
    else Rows(batches[..|batches| - 1]) + batches[|batches| - 1].rows
  }

  /** The round's answer for a tag is fresh: at most 500 rows, ascending, of that tag, between the cursors. */
  ghost predicate FreshAnswer(w: World, t: Tag) {
    w.round.Some? && t in w.round.value.found ==>
      && Sequential.GoodBatch(w.round.value.found[t])
      && EndsAtLast(w.round.value.found[t].rows, w.round.value.found[t].answer)
      && forall r | r in w.round.value.found[t].rows :: r.tag == t
  }

  ghost predicate EndsAtLast(rows: seq<Row>, cursor: nat) {
    |rows| <= 500 && (rows != [] ==> cursor == rows[|rows| - 1].seqno)
  }

  lemma QueryIsFresh(w: World, t: Tag)
    requires Shape(w) && DbInv(w.db) && FeedInv(w, t) && FreshAnswer(w, t)
    requires w.db.committed.counter <= LEGACY_CURSOR_THRESHOLD
    ensures FreshAnswer(DoRoundQuery(w, t), t)
  {
    if w.round.Some? && t in w.round.value.todo && t in w.mgr.tags {
      assert Pull.Inv(Proj(w, t));
      Sequential.AnswerIsGood(w.db, {t}, w.mgr.tags[t].cursor);
      PageIsPage(w.db.committed, {t}, w.mgr.tags[t].cursor);
      if Page(w.db.committed, {t}, w.mgr.tags[t].cursor) != [] {
        CursorIsLastKeyIff(w.db.committed, {t}, w.mgr.tags[t].cursor);
      }
    }
  }

  lemma StepFresh(w: World, a: Action, t: Tag)
    requires Shape(w) && DbInv(w.db) && FeedInv(w, t) && FreshAnswer(w, t)
    requires w.db.committed.counter <= LEGACY_CURSOR_THRESHOLD
    ensures FreshAnswer(Step(w, a), t)
  {
    if a == RoundQuery(t) {
      QueryIsFresh(w, t);
    } else {
      OtherStepsKeepAnswers(w, a, t);
    }
  }

  lemma OtherStepsKeepAnswers(w: World, a: Action, t: Tag)
    requires FreshAnswer(w, t) && a != RoundQuery(t)
    ensures FreshAnswer(Step(w, a), t)
  {
  }

  /** The rows sent so far, and the cursor that bounds them while the subscription lasts. */
  ghost predicate InOrderUpTo(sent: seq<Batch>, t: Tag, joined: nat) {
    && Ascending(Rows(sent))
    && forall r | r in Rows(sent) :: r.tag == t && r.seqno > joined
  }

  ghost predicate Below(sent: seq<Batch>, joined: nat, cursor: nat) {
    joined <= cursor && forall r | r in Rows(sent) :: r.seqno <= cursor
  }

  ghost predicate OrderedOf(w: World, id: SubId) {
    id in w.chans && id in w.ledgers ==>
      var led, t := w.ledgers[id], w.chans[id].tag;
      && InOrderUpTo(led.sent, t, led.joined)
      && (Subscribed(w.mgr, id, t) ==> Below(led.sent, led.joined, w.mgr.tags[t].cursor))
      && (w.added[id] == 0 ==> led.sent == [])
  }

  /**
   A round reaches a subscriber's tag with an update: sent or skipped, the stream stays in
   order below the new cursor.
   */
  lemma SentOrSkipped(sent: seq<Batch>, sent': seq<Batch>, t: Tag, joined: nat, e: Pull.Exchange)
    requires InOrderUpTo(sent, t, joined) && Below(sent, joined, e.asked)
    requires Sequential.GoodBatch(e) && e.asked <= e.answer
    requires forall r | r in e.rows :: r.tag == t
    requires sent' == sent || sent' == sent + [Batch(e.rows, e.answer)]
    ensures InOrderUpTo(sent', t, joined) && Below(sent', joined, e.answer)
  {
  }

  /** What a finished round does to a subscriber's ledger: nothing, or one batch of its tag. */
  lemma FinishLedger(w: World, id: SubId)
    requires Shape(w) && id in w.chans
    requires w.running && w.round.Some? && w.round.value.todo == {}
    ensures var w', t, found := DoRoundFinish(w), w.chans[id].tag, w.round.value.found;
            && id in w'.chans && w'.chans[id].tag == t && id in w'.ledgers
            && w'.ledgers[id].joined == w.ledgers[id].joined
            && w'.added == w.added
            && (w'.ledgers[id].sent == w.ledgers[id].sent
                || (t in found && found[t].rows != [] && Subscribed(w.mgr, id, t)
                    && w'.ledgers[id].sent == w.ledgers[id].sent + [Batch(found[t].rows, found[t].answer)]))
  {
  }

  lemma FinishOrder(w: World, id: SubId)
    requires Shape(w) && OrderedOf(w, id) && AccountOf(w, id) && id in w.chans
    requires FoundIsLatest(w, w.chans[id].tag) && FreshAnswer(w, w.chans[id].tag)
    requires w.running && w.round.Some? && w.round.value.todo == {}
    ensures OrderedOf(DoRoundFinish(w), id)
  {
    var t := w.chans[id].tag;
    var found := w.round.value.found;
    var ups := UpdatesOf(found);
    FinishLedger(w, id);
    UpdateCursorsShape(w.mgr, w.chans, ups);
    ActiveIsSubscribed(w.mgr, w.chans, id);
    StaysUnsubscribed(UpdateCursors(w.mgr, ups), w.chans, ups, id, t);
    if Subscribed(DoRoundFinish(w).mgr, id, t) {
      FinishCursor(w, t);
    }
    if Subscribed(w.mgr, id, t) && t in found && found[t].rows != [] {
      SentOrSkipped(w.ledgers[id].sent, DoRoundFinish(w).ledgers[id].sent, t, w.ledgers[id].joined, found[t]);
    }
  }

  lemma StaysUnsubscribed(m: Manager, chans: Chans, ups: Updates, id: SubId, t: Tag)
    requires Homed(m, chans) && NoEmptyTags(m)
    ensures Subscribed(ForwardManager(m, chans, ups), id, t) ==> Subscribed(m, id, t)
  {
  }

  lemma AddOrder(w: World, x: SubId, id: SubId)
    requires Shape(w) && OrderedOf(w, id) && x in w.chans
    requires x == id ==> w.added[id] == 0
    ensures OrderedOf(HandleAdd(w, x), id)
  {
  }

  lemma RemoveOrder(w: World, x: SubId, reason: Reason, id: SubId)
    requires Shape(w) && OrderedOf(w, id) && x in w.chans
    ensures OrderedOf(HandleRemove(w, x, reason), id)
  {
  }

  lemma ControlOrder(w: World, id: SubId)
    requires Shape(w) && OrderedOf(w, id) && AccountOf(w, id)
    ensures OrderedOf(DoControl(w), id)
  {
    if w.running && w.queue != [] {
      var w1 := w.(queue := w.queue[1..], round := None);
      PopShape(w);
      PopCount(w.queue);
      match w.queue[0]
      case AddSubMsg(x) => AddOrder(w1, x, id);
      case RemoveSubMsg(x, reason) => RemoveOrder(w1, x, reason, id);
      case WakerMsg(_) =>
      case ShutdownMsg => StopOrder(w1, id);
    }
  }

  lemma StopOrder(w: World, id: SubId)
    requires OrderedOf(w, id)
    ensures OrderedOf(Stopped(w), id)
  {
  }

  lemma SubscribeOrder(w: World, x: SubId, tag: Tag, id: SubId)
    requires Shape(w) && OrderedOf(w, id)
    ensures OrderedOf(DoSubscribe(w, x, tag), id)
  {
  }

  lemma PollOrder(w: World, x: SubId, id: SubId)
    requires Shape(w) && OrderedOf(w, id)
    ensures OrderedOf(DoPoll(w, x), id)
  {
  }

  lemma DropOrder(w: World, x: SubId, id: SubId)
    requires Shape(w) && OrderedOf(w, id)
    ensures OrderedOf(DoDropSub(w, x), id)
  {
  }

  lemma StepOrder(w: World, a: Action, id: SubId)
    requires Shape(w) && OrderedOf(w, id) && AccountOf(w, id)
    requires id in w.chans ==> FoundIsLatest(w, w.chans[id].tag) && FreshAnswer(w, w.chans[id].tag)
    ensures OrderedOf(Step(w, a), id)
  {
    match a
    case Control => ControlOrder(w, id);
    case RoundFinish =>
      if w.running && w.round.Some? && w.round.value.todo == {} && id in w.chans {
        FinishOrder(w, id);
      }
    case Subscribe(x, tag) => SubscribeOrder(w, x, tag, id);
    case Poll(x) => PollOrder(w, x, id);
    case DropSub(x) => DropOrder(w, x, id);
    case DropServer => StopOrder(w, id);
    case _ =>
  }

  /** The counter never falls, so a run that ends within the non-legacy range was within it all along. */
  lemma {:induction false} CounterGrows(d: Db, actions: seq<Action>)
    requires DbInv(d) && actions != []
    ensures Run(Start(d), actions[..|actions| - 1]).db.committed.counter <= Run(Start(d), actions).db.committed.counter
  {
    var mid, a := Run(Start(d), actions[..|actions| - 1]), actions[|actions| - 1];
    RunDb(d, actions[..|actions| - 1]);
    if a.Database? {
      DbStepKeepsInv(mid.db, a.action);
    } else {
      OnlyDatabaseActs(mid, a);
    }
  }

  lemma {:induction false} RunFresh(d: Db, actions: seq<Action>, t: Tag)
    requires DbInv(d) && Run(Start(d), actions).db.committed.counter <= LEGACY_CURSOR_THRESHOLD
    ensures FreshAnswer(Run(Start(d), actions), t)
  {
    if actions != [] {
      var front := actions[..|actions| - 1];
      CounterGrows(d, actions);
      RunFresh(d, front, t);
      RunShape(d, front);
      RunDb(d, front);
      RunFeedInv(d, front, t);
      StepFresh(Run(Start(d), front), actions[|actions| - 1], t);
    }
  }

  lemma {:induction false} RunOrder(d: Db, actions: seq<Action>, id: SubId)
    requires DbInv(d) && Run(Start(d), actions).db.committed.counter <= LEGACY_CURSOR_THRESHOLD
    ensures OrderedOf(Run(Start(d), actions), id)
  {
    if actions != [] {
      var front := actions[..|actions| - 1];
      var mid := Run(Start(d), front);
      CounterGrows(d, actions);
      RunOrder(d, front, id);
      RunShape(d, front);
      RunAccountOf(d, front, id);
      if id in mid.chans {
        RunFeedInv(d, front, mid.chans[id].tag);
        RunFresh(d, front, mid.chans[id].tag);
      }
      StepOrder(mid, actions[|actions| - 1], id);
    }
  }

  /**
   Over every run: the notes a subscriber was sent, whether received yet or still in
   its channel, have strictly increasing keys, so none comes twice; all carry its tag;
   and none lies at or below the tag's cursor at the time it joined.
   */
  lemma {:induction false} StreamIsInOrder(d: Db, actions: seq<Action>, id: SubId)
    requires DbInv(d) && Run(Start(d), actions).db.committed.counter <= 1_000_000_000_000
    requires id in Run(Start(d), actions).chans
    ensures var w := Run(Start(d), actions);
            && id in w.ledgers
            && var stream := Rows(w.ledgers[id].got + w.chans[id].buf);
               && Ascending(stream)
               && (forall r | r in stream :: r.tag == w.chans[id].tag && r.seqno > w.ledgers[id].joined)
  {
    RunShape(d, actions);
    RunOrder(d, actions, id);
    Credit.RunCredit(d, actions, id);
  }

  // -------------------------------------------------------------- what a batch is

  /** A batch worth sending: 1 to 500 rows of the tag in key order, and its cursor is its last key. */
  ghost predicate GoodUpdate(b: Batch, t: Tag) {
    && b.rows != [] && EndsAtLast(b.rows, b.cursor) && Ascending(b.rows)
    && forall r | r in b.rows :: r.tag == t
  }

  ghost predicate RoundsGood(rounds: seq<Record>, t: Tag) {
    forall rec | rec in rounds && t in rec.updates :: GoodUpdate(rec.updates[t], t)
  }

  lemma StepRounds(w: World, a: Action, t: Tag)
    requires FreshAnswer(w, t) && RoundsGood(w.rounds, t)
    ensures RoundsGood(Step(w, a).rounds, t)
  {
    hide ForwardManager, ForwardChans, SentLedgers, HandledFeeds, FeedsFor, Evicted, SenderAlive, AddSub, RemoveSub;
  }

  lemma {:induction false} RunRounds(d: Db, actions: seq<Action>, t: Tag)
    requires DbInv(d) && Run(Start(d), actions).db.committed.counter <= LEGACY_CURSOR_THRESHOLD
    ensures RoundsGood(Run(Start(d), actions).rounds, t)
  {
    if actions != [] {
      var front := actions[..|actions| - 1];
      CounterGrows(d, actions);
      RunRounds(d, front, t);
      RunFresh(d, front, t);
      StepRounds(Run(Start(d), front), actions[|actions| - 1], t);
    }
  }

  lemma {:induction false} AcceptedGood(rounds: seq<Record>, id: SubId, t: Tag)
    requires RoundsGood(rounds, t)
    ensures forall b | b in Credit.Accepted(rounds, id, t) :: GoodUpdate(b, t)
  {
    if rounds != [] {
      AcceptedGood(rounds[..|rounds| - 1], id, t);
    }
  }

  /**
   Over every run: each batch a subscriber was sent holds 1 to 500 notes of its tag in key
   order, and the cursor it carries is its last key.
   */
  lemma {:induction false} BatchesAreGood(d: Db, actions: seq<Action>, id: SubId)
    requires DbInv(d) && Run(Start(d), actions).db.committed.counter <= 1_000_000_000_000
    requires id in Run(Start(d), actions).chans
    ensures var w := Run(Start(d), actions);
            && id in w.ledgers
            && forall b | b in w.ledgers[id].got + w.chans[id].buf ::
                 && 0 < |b.rows| <= 500 && Ascending(b.rows) && b.cursor == b.rows[|b.rows| - 1].seqno
                 && forall r | r in b.rows :: r.tag == w.chans[id].tag
  {
    var w := Run(Start(d), actions);
    RunShape(d, actions);
    RunRounds(d, actions, w.chans[id].tag);
    AcceptedGood(w.rounds, id, w.chans[id].tag);
    Credit.ExactDelivery(d, actions, id);
  }
}
