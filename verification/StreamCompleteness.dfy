/** Nothing is missing from a stream but what cleanup took first and what came while its waker was not registered. */
module StreamCompleteness {
  import opened Notes
  import opened Transactions
  import opened Streamer
  import opened StreamWorld
  import opened Accounting
  import opened Credit
  import opened Refinement
  import opened StreamOrder
  import Pull

  /** A round found the subscriber listed under an updated tag, but without a waker. */
  predicate Skipped(rec: Record, id: SubId, tag: Tag) {
    tag in rec.updates && Subscribed(rec.manager, id, tag) && id !in rec.manager.wakers
  }

  /** The batch of an exchange was forwarded in a round that the subscriber took part in or was skipped by. */
  ghost predicate Recorded(rounds: seq<Record>, id: SubId, tag: Tag, e: Pull.Exchange) {
    exists rec | rec in rounds ::
      && tag in rec.updates && rec.updates[tag] == Batch(e.rows, e.answer)
      && (Took(rec, id, tag) || Skipped(rec, id, tag))
  }

  ghost predicate AnswersBelow(handled: seq<Pull.Exchange>, cursor: nat) {
    forall e | e in handled :: e.answer <= cursor
  }

  ghost predicate HandledBelow(w: World, t: Tag) {
    t in w.mgr.tags && t in w.feeds ==> AnswersBelow(w.feeds[t].handled, w.mgr.tags[t].cursor)
  }

  ghost predicate AllRecorded(handled: seq<Pull.Exchange>, joined: nat, rounds: seq<Record>, id: SubId, tag: Tag) {
    forall e | e in handled :: e.answer <= joined || Recorded(rounds, id, tag, e)
  }

  /** Every exchange its tag handled since the subscriber joined is one of a recorded round. */
  ghost predicate CompleteOf(w: World, id: SubId) {
    id in w.chans && id in w.ledgers && w.chans[id].tag in w.feeds && Subscribed(w.mgr, id, w.chans[id].tag) ==>
      AllRecorded(w.feeds[w.chans[id].tag].handled, w.ledgers[id].joined, w.rounds, id, w.chans[id].tag)
  }

  /** Who is still listed after a round that updated its tag took part in it or was skipped. */
  lemma TookOrSkipped(m: Manager, chans: Chans, ups: Updates, id: SubId)
    requires Homed(m, chans) && NoEmptyTags(m) && id in chans && chans[id].tag in ups
    requires Subscribed(ForwardManager(m, chans, ups), id, chans[id].tag)
    ensures Took(Record(ups, m, chans), id, chans[id].tag) || Skipped(Record(ups, m, chans), id, chans[id].tag)
  {
    StaysUnsubscribed(m, chans, ups, id, chans[id].tag);
    ForwardFates(m, chans, ups, id, chans[id].tag);
  }

  predicate Finishes(w: World) {
    w.running && w.round.Some? && w.round.value.todo == {}
  }

  function RecordOf(w: World): Record
    requires w.round.Some?
  {
    var ups := UpdatesOf(w.round.value.found);
    Record(ups, UpdateCursors(w.mgr, ups), w.chans)
  }

  lemma FinishRecord(w: World, id: SubId)
    requires Shape(w) && Finishes(w) && id in w.chans
    requires Subscribed(DoRoundFinish(w).mgr, id, w.chans[id].tag)
    ensures var t, found := w.chans[id].tag, w.round.value.found;
            && DoRoundFinish(w).rounds == w.rounds + [RecordOf(w)] && Subscribed(w.mgr, id, t)
            && (t in found && found[t].rows != [] ==>
                  && t in RecordOf(w).updates && RecordOf(w).updates[t] == Batch(found[t].rows, found[t].answer)
                  && (Took(RecordOf(w), id, t) || Skipped(RecordOf(w), id, t)))
  {
    var t, ups := w.chans[id].tag, UpdatesOf(w.round.value.found);
    var m := UpdateCursors(w.mgr, ups);
    UpdateCursorsShape(w.mgr, w.chans, ups);
    hide ForwardManager, ForwardChans, SentLedgers, HandledFeeds, Took, Skipped, Shape, Homed, NoEmptyTags;
    StaysUnsubscribed(m, w.chans, ups, id, t);
    if t in ups {
      TookOrSkipped(m, w.chans, ups, id);
    }
  }

  lemma RecordOneMore(handled: seq<Pull.Exchange>, joined: nat, rounds: seq<Record>, id: SubId, tag: Tag, rec: Record)
    requires AllRecorded(handled, joined, rounds, id, tag)
    ensures AllRecorded(handled, joined, rounds + [rec], id, tag)
  {
    forall e | e in handled && Recorded(rounds, id, tag, e) ensures Recorded(rounds + [rec], id, tag, e) {
      var r :| r in rounds && tag in r.updates && r.updates[tag] == Batch(e.rows, e.answer)
               && (Took(r, id, tag) || Skipped(r, id, tag));
      assert r in rounds + [rec];
    }
  }

  lemma HandledOneMore(handled: seq<Pull.Exchange>, joined: nat, rounds: seq<Record>, id: SubId, tag: Tag, rec: Record,
                       e: Pull.Exchange)
    requires AllRecorded(handled, joined, rounds, id, tag)
    requires tag in rec.updates && rec.updates[tag] == Batch(e.rows, e.answer)
    requires Took(rec, id, tag) || Skipped(rec, id, tag)
    ensures AllRecorded(handled + [e], joined, rounds + [rec], id, tag)
  {
    hide Took, Skipped;
    RecordOneMore(handled, joined, rounds, id, tag, rec);
    assert rec in rounds + [rec];
  }

  lemma FinishComplete(w: World, id: SubId)
    requires Shape(w) && CompleteOf(w, id) && Finishes(w) && id in w.chans
    ensures CompleteOf(DoRoundFinish(w), id)
  {
    var w', t, found := DoRoundFinish(w), w.chans[id].tag, w.round.value.found;
    FinishLedger(w, id);
    if t in w'.feeds && Subscribed(w'.mgr, id, t) {
      FinishRecord(w, id);
      FinishFeed(w, t);
      hide DoRoundFinish, Took, Skipped, AllRecorded, RecordOf, Shape;
      if t in found && found[t].rows != [] {
        HandledOneMore(w.feeds[t].handled, w.ledgers[id].joined, w.rounds, id, t, RecordOf(w), found[t]);
      } else {
        RecordOneMore(w.feeds[t].handled, w.ledgers[id].joined, w.rounds, id, t, RecordOf(w));
      }
    }
  }

  lemma ControlComplete(w: World, id: SubId)
    requires Shape(w) && CompleteOf(w, id)
    requires id in w.chans ==> HandledBelow(w, w.chans[id].tag)
    ensures CompleteOf(DoControl(w), id)
  {
    hide Recorded;
    if w.running && w.queue != [] {
      PopShape(w);
    }
  }

  lemma StepComplete(w: World, a: Action, id: SubId)
    requires Shape(w) && CompleteOf(w, id)
    requires id in w.chans ==> HandledBelow(w, w.chans[id].tag)
    ensures CompleteOf(Step(w, a), id)
  {
    hide AllRecorded, HandledBelow;
    match a
    case Control => ControlComplete(w, id);
    case RoundFinish =>
      if Finishes(w) && id in w.chans {
        FinishComplete(w, id);
      }
    case _ =>
  }

  lemma FinishHandledBelow(w: World, t: Tag)
    requires Shape(w) && FoundIsLatest(w, t) && HandledBelow(w, t) && Finishes(w)
    ensures HandledBelow(DoRoundFinish(w), t)
  {
    var w' := DoRoundFinish(w);
    if t in w'.mgr.tags && t in w'.feeds {
      FinishCursor(w, t);
      FinishFeed(w, t);
      hide DoRoundFinish;
    }
  }

  lemma StepHandledBelow(w: World, a: Action, t: Tag)
    requires Shape(w) && FoundIsLatest(w, t) && HandledBelow(w, t)
    ensures HandledBelow(Step(w, a), t)
  {
    if t in Step(w, a).mgr.tags {
      if t !in w.mgr.tags {
        NewTagIsFresh(w, a, t);
        hide Step, Shape;
      } else {
        hide AnswersBelow;
        match a
        case RoundFinish => if Finishes(w) { FinishHandledBelow(w, t); }
        case Control =>
          ControlSimulates(w, t);
          hide DoControl, Shape;
        case _ =>
      }
    }
  }

  lemma {:induction false} RunComplete(d: Db, actions: seq<Action>, id: SubId)
    requires DbInv(d)
    ensures CompleteOf(Run(Start(d), actions), id)
  {
    if actions != [] {
      var front := actions[..|actions| - 1];
      var mid := Run(Start(d), front);
      RunComplete(d, front, id);
      RunShape(d, front);
      if id in mid.chans {
        RunHandledBelow(d, front, mid.chans[id].tag);
      }
      StepComplete(mid, actions[|actions| - 1], id);
    }
  }

  lemma {:induction false} RunHandledBelow(d: Db, actions: seq<Action>, t: Tag)
    requires DbInv(d)
    ensures HandledBelow(Run(Start(d), actions), t)
  {
    if actions != [] {
      var front := actions[..|actions| - 1];
      RunHandledBelow(d, front, t);
      RunShape(d, front);
      RunFeedInv(d, front, t);
      StepHandledBelow(Run(Start(d), front), actions[|actions| - 1], t);
    }
  }

  lemma {:induction false} TookIsAccepted(rounds: seq<Record>, rec: Record, id: SubId, tag: Tag)
    requires rec in rounds && Took(rec, id, tag)
    ensures rec.updates[tag] in Accepted(rounds, id, tag)
  {
    if rec != rounds[|rounds| - 1] {
      TookIsAccepted(rounds[..|rounds| - 1], rec, id, tag);
    }
  }

  lemma {:induction false} RowsHave(batches: seq<Batch>, b: Batch, r: Row)
    requires b in batches && r in b.rows
    ensures r in Rows(batches)
  {
    if b != batches[|batches| - 1] {
      RowsHave(batches[..|batches| - 1], b, r);
    }
  }

  /** The row came in an update of a round that skipped the subscriber for want of a waker. */
  ghost predicate SkippedRow(rounds: seq<Record>, id: SubId, tag: Tag, r: Row) {
    exists rec | rec in rounds :: Skipped(rec, id, tag) && r in rec.updates[tag].rows
  }

  /**
   A stream is complete, over every run: each note ever committed under the tag of a
   listed subscriber, with a key above the cursor it joined at and at or below the tag's
   cursor, is in its stream, or was removed by cleanup before it was passed, or came in a
   round that found the subscriber without a waker. Nothing else is ever missing.
   */
  lemma {:induction false} StreamIsComplete(d: Db, actions: seq<Action>, id: SubId, r: Row)
    requires DbInv(d)
    ensures var w := Run(Start(d), actions);
            id in w.chans && Subscribed(w.mgr, id, w.chans[id].tag) ==>
              var t := w.chans[id].tag;
              && id in w.ledgers && t in w.feeds
              && (Stored(r) in w.db.log && r.tag == t && w.ledgers[id].joined < r.seqno <= w.mgr.tags[t].cursor ==>
                    || r in Rows(w.ledgers[id].got + w.chans[id].buf)
                    || Pull.RemovedBeforePass(w.db.log, Pull.Client(w.mgr.tags[t].cursor, w.feeds[t].handled), r)
                    || SkippedRow(w.rounds, id, t, r))
  {
    var w := Run(Start(d), actions);
    RunShape(d, actions);
    if id in w.chans && Subscribed(w.mgr, id, w.chans[id].tag) {
      var t := w.chans[id].tag;
      RunFeedInv(d, actions, t);
      RunComplete(d, actions, id);
      ExactDelivery(d, actions, id);
      if Stored(r) in w.db.log && r.tag == t && w.ledgers[id].joined < r.seqno <= w.mgr.tags[t].cursor {
        HandledRow(w, id, r);
      }
    }
  }

  lemma HandledRow(w: World, id: SubId, r: Row)
    requires id in w.chans && id in w.ledgers && w.chans[id].tag in w.feeds
    requires Subscribed(w.mgr, id, w.chans[id].tag) && FeedInv(w, w.chans[id].tag) && CompleteOf(w, id)
    requires Stored(r) in w.db.log && r.tag == w.chans[id].tag
    requires w.ledgers[id].joined < r.seqno <= w.mgr.tags[w.chans[id].tag].cursor
    ensures var t := w.chans[id].tag;
            || r in Rows(Accepted(w.rounds, id, t))
            || Pull.RemovedBeforePass(w.db.log, Pull.Client(w.mgr.tags[t].cursor, w.feeds[t].handled), r)
            || SkippedRow(w.rounds, id, t, r)
  {
    var t := w.chans[id].tag;
    var p := Proj(w, t);
    assert Pull.PassedBySome(p.client.handled, r);
    var e :| e in p.client.handled && Pull.Passed(e, r);
    assert Pull.Accounts(p.db, p.tags, e);
    if r in e.rows {
      var rec :| rec in w.rounds && t in rec.updates && rec.updates[t] == Batch(e.rows, e.answer)
                 && (Took(rec, id, t) || Skipped(rec, id, t));
      if Took(rec, id, t) {
        TookIsAccepted(w.rounds, rec, id, t);
        RowsHave(Accepted(w.rounds, id, t), rec.updates[t], r);
      }
    }
  }
}
