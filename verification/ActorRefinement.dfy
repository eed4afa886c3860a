/** The actor's operations are the steps of the streaming world: what is proved of its runs is about them. */
module ActorRefinement {
  import opened Wrappers
  import opened Notes
  import opened Store
  import opened Transactions
  import opened Streamer
  import opened StreamWorld
  import opened Accounting
  import opened StreamerActor
  import Pull

  ghost predicate AnswerFrom(e: Pull.Exchange, t: Tag, cursor: nat, s: Store) {
    e.rows == Page(s, {t}, cursor) && e.answer == Advance(cursor, e.rows)
  }

  /**
   The snapshots under which the queries of a round gave its answers. They may all
   differ: the database moves on between the queries.
   */
  ghost predicate AnsweredOn(w: World, found: map<Tag, Pull.Exchange>, snapshots: Snapshots) {
    && found.Keys == w.mgr.tags.Keys
    && forall t | t in found ::
         && snapshots(t).Some?
         && AnswerFrom(found[t], t, w.mgr.tags[t].cursor, snapshots(t).value)
  }

  lemma SameUpdates(w: World, found: map<Tag, Pull.Exchange>, snapshots: Snapshots)
    requires AnsweredOn(w, found, snapshots)
    ensures UpdatesOf(found) == RoundUpdates(w.mgr, snapshots, w.mgr.tags.Keys)
  {
  }

  /** A round finished in the world is the round the actor finishes on the same snapshots. */
  lemma {:induction false} WorldRoundIsActorRound(w: World, snapshots: Snapshots)
    requires w.running && w.round.Some? && w.round.value.todo == {}
    requires AnsweredOn(w, w.round.value.found, snapshots)
    ensures var ups := RoundUpdates(w.mgr, snapshots, w.mgr.tags.Keys);
            var m := UpdateCursors(w.mgr, ups);
            && DoRoundFinish(w).mgr == ForwardManager(m, w.chans, ups)
            && DoRoundFinish(w).chans == ForwardChans(m, w.chans, ups)
            && DoRoundFinish(w).removed == w.removed + BackpressureEvents(Evicted(m, w.chans, ups))
  {
    hide ForwardManager, ForwardChans, UpdateCursors, SentLedgers, HandledFeeds, RoundUpdates, UpdatesOf, Evicted;
    SameUpdates(w, w.round.value.found, snapshots);
  }

  // ------------------------------------------- every round has such snapshots

  /** A committed table of the run, at some time so far. */
  ghost predicate OnceCommitted(d: Db, actions: seq<Action>, s: Store) {
    exists k: nat :: k <= |actions| && Run(Start(d), actions[..k]).db.committed == s
  }

  /** Each answer a round holds was read from a committed table of the run with the tag's present cursor. */
  ghost predicate RoundAnswered(d: Db, actions: seq<Action>, w: World) {
    w.round.Some? ==>
      forall t | t in w.round.value.found ::
        && t in w.mgr.tags
        && exists s :: OnceCommitted(d, actions, s) && AnswerFrom(w.round.value.found[t], t, w.mgr.tags[t].cursor, s)
  }

  lemma {:induction false} OnceCommittedGrows(d: Db, actions: seq<Action>, a: Action, s: Store)
    requires OnceCommitted(d, actions, s)
    ensures OnceCommitted(d, actions + [a], s)
  {
    var k: nat :| k <= |actions| && Run(Start(d), actions[..k]).db.committed == s;
    assert (actions + [a])[..k] == actions[..k];
  }

  lemma QueryAnswered(d: Db, actions: seq<Action>, t: Tag, w: World)
    requires Shape(w) && w == Run(Start(d), actions) && RoundAnswered(d, actions, w)
    ensures RoundAnswered(d, actions, Step(w, RoundQuery(t)))
  {
    hide Page, Advance, OnceCommitted;
    assert OnceCommitted(d, actions, w.db.committed) by { CommittedNow(d, actions); }
    if w.round.Some? && t in w.round.value.todo && t in w.mgr.tags && t in w.feeds {
      assert AnswerFrom(DoRoundQuery(w, t).round.value.found[t], t, w.mgr.tags[t].cursor, w.db.committed);
    }
  }

  /** No other step has a round go on with other answers or other cursors. */
  lemma OthersKeepRound(w: World, a: Action)
    requires !a.RoundQuery?
    ensures var w' := Step(w, a);
            w'.round.Some? ==> w'.round.value.found == map[] || (w'.round == w.round && w'.mgr == w.mgr)
  {
    hide ForwardManager, ForwardChans, SentLedgers, HandledFeeds, FeedsFor, Evicted, SenderAlive, AddSub, RemoveSub;
  }

  lemma {:induction false} StepAnswered(d: Db, actions: seq<Action>, a: Action, w: World)
    requires Shape(w) && w == Run(Start(d), actions) && RoundAnswered(d, actions, w)
    ensures RoundAnswered(d, actions + [a], Step(w, a))
  {
    if a.RoundQuery? {
      QueryAnswered(d, actions, a.tag, w);
    } else {
      OthersKeepRound(w, a);
    }
    hide Step, AnswerFrom, OnceCommitted, Run, Shape;
    forall s | OnceCommitted(d, actions, s) ensures OnceCommitted(d, actions + [a], s) {
      OnceCommittedGrows(d, actions, a, s);
    }
  }

  lemma {:induction false} CommittedNow(d: Db, actions: seq<Action>)
    ensures OnceCommitted(d, actions, Run(Start(d), actions).db.committed)
  {
    assert actions[..|actions|] == actions;
  }

  lemma {:induction false} RunAnswered(d: Db, actions: seq<Action>)
    ensures RoundAnswered(d, actions, Run(Start(d), actions))
  {
    if actions != [] {
      var front, last := actions[..|actions| - 1], actions[|actions| - 1];
      RunShape(d, front);
      RunAnswered(d, front);
      StepAnswered(d, front, last, Run(Start(d), front));
      assert front + [last] == actions;
    }
  }

  ghost function SnapshotsOf(d: Db, actions: seq<Action>, w: World): Snapshots
    requires RoundAnswered(d, actions, w) && w.round.Some?
  {
    (t: Tag) =>
      if t in w.round.value.found then
        var s :| OnceCommitted(d, actions, s) && AnswerFrom(w.round.value.found[t], t, w.mgr.tags[t].cursor, s);
        Some(s)
      else None
  }

  /**
   Every round that finishes in any run is a round of the actor, on snapshots each of
   which was the committed table at some time of the run.
   */
  lemma {:induction false} EveryRoundIsAnActorRound(d: Db, actions: seq<Action>)
    requires var w := Run(Start(d), actions); w.running && w.round.Some? && w.round.value.todo == {}
    ensures var w := Run(Start(d), actions);
            && RoundAnswered(d, actions, w)
            && var w', snapshots := DoRoundFinish(w), SnapshotsOf(d, actions, w);
               var ups := RoundUpdates(w.mgr, snapshots, w.mgr.tags.Keys);
               var m := UpdateCursors(w.mgr, ups);
               && (forall t | t in w.mgr.tags :: snapshots(t).Some? && OnceCommitted(d, actions, snapshots(t).value))
               && w'.mgr == ForwardManager(m, w.chans, ups) && w'.chans == ForwardChans(m, w.chans, ups)
  {
    hide Page, Advance, OnceCommitted, DoRoundFinish, RoundUpdates, UpdateCursors, ForwardManager, ForwardChans;
    var w := Run(Start(d), actions);
    RunShape(d, actions);
    RunAnswered(d, actions);
    var snapshots := SnapshotsOf(d, actions, w);
    forall t | t in w.round.value.found
      ensures snapshots(t).Some? && OnceCommitted(d, actions, snapshots(t).value)
      ensures AnswerFrom(w.round.value.found[t], t, w.mgr.tags[t].cursor, snapshots(t).value)
    {
    }
    assert w.round.value.found.Keys == w.mgr.tags.Keys;
    WorldRoundIsActorRound(w, snapshots);
  }
}
