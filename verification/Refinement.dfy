/**
 The streamer is, tag by tag, a client of the pull protocol: each of its steps is a
 script of pull steps, so what holds of every pull client holds of every tracked tag.
 */
module Refinement {
  import opened Notes
  import opened Transactions
  import opened Streamer
  import opened StreamWorld
  import opened Accounting
  import Pull

  function Cursors(asked: seq<Pull.Exchange>): seq<nat> {
    seq(|asked|, i requires 0 <= i < |asked| => asked[i].asked)
  }

  /** A tracked tag seen as a pull world: its queries are the exchanges, its cursor and forwarded queries the client. */
  function Proj(w: World, t: Tag): Pull.World
    requires t in w.mgr.tags && t in w.feeds
  {
    Pull.World(w.db, {t}, Cursors(w.feeds[t].asked), w.feeds[t].asked,
               Pull.Client(w.mgr.tags[t].cursor, w.feeds[t].handled))
  }

  /** The answer a round holds for a tag is that tag's latest query, asked with its present cursor. */
  ghost predicate FoundIsLatest(w: World, t: Tag) {
    w.round.Some? && t in w.round.value.found ==>
      && t in w.mgr.tags && t in w.feeds
      && w.feeds[t].asked != []
      && w.feeds[t].asked[|w.feeds[t].asked| - 1] == w.round.value.found[t]
      && w.round.value.found[t].asked == w.mgr.tags[t].cursor <= w.round.value.found[t].answer
  }

  /** The pull steps a streamer step is for one tag. */
  function Script(w: World, a: Action, t: Tag): seq<Pull.Action>
    requires t in w.feeds
  {
    match a
    case Database(act) => [Pull.Database(act)]
    case RoundQuery(q) =>
      if q == t && w.round.Some? && t in w.round.value.todo && t in w.mgr.tags
      then [Pull.Send, Pull.Serve(|w.feeds[t].asked|)] else []
    case RoundFinish =>
      if w.running && w.round.Some? && w.round.value.todo == {}
         && t in w.round.value.found && w.round.value.found[t].rows != [] && w.feeds[t].asked != []
      then [Pull.Deliver(|w.feeds[t].asked| - 1)] else []
    case _ => []
  }

  lemma RunOne(p: Pull.World, a: Pull.Action)
    ensures Pull.Run(p, [a]) == Pull.Step(p, a)
  {
  }

  lemma RunTwo(p: Pull.World, a: Pull.Action, b: Pull.Action)
    ensures Pull.Run(p, [a, b]) == Pull.Step(Pull.Step(p, a), b)
  {
    assert [a, b][..1] == [a];
    RunOne(p, a);
  }

  lemma QuerySimulates(w: World, t: Tag)
    requires Shape(w) && t in w.mgr.tags && w.round.Some? && t in w.round.value.todo
    ensures Pull.Run(Proj(w, t), [Pull.Send, Pull.Serve(|w.feeds[t].asked|)]) == Proj(DoRoundQuery(w, t), t)
  {
    var p := Proj(w, t);
    var asked := w.feeds[t].asked;
    var e := Pull.Answer(w.db, {t}, w.mgr.tags[t].cursor);
    RunTwo(p, Pull.Send, Pull.Serve(|asked|));
    assert Cursors(asked + [e]) == Cursors(asked) + [e.asked];
  }

  /** Forwarding keeps the cursors that `update_timestamps` set. */
  lemma FinishCursor(w: World, t: Tag)
    requires Shape(w) && w.running && w.round.Some? && w.round.value.todo == {}
    requires t in w.mgr.tags && t in DoRoundFinish(w).mgr.tags
    ensures var found := w.round.value.found;
            DoRoundFinish(w).mgr.tags[t].cursor
            == if t in found && found[t].rows != [] then found[t].answer else w.mgr.tags[t].cursor
  {
    var ups := UpdatesOf(w.round.value.found);
    var m := UpdateCursors(w.mgr, ups);
    UpdateCursorsShape(w.mgr, w.chans, ups);
    DropSubsEffect(m, w.chans, Evicted(m, w.chans, ups));
  }

  lemma FinishFeed(w: World, t: Tag)
    requires Shape(w) && w.running && w.round.Some? && w.round.value.todo == {}
    requires t in w.feeds && t in DoRoundFinish(w).mgr.tags
    ensures var found := w.round.value.found;
            && t in DoRoundFinish(w).feeds && DoRoundFinish(w).db == w.db
            && DoRoundFinish(w).feeds[t]
               == if t in found && found[t].rows != []
                  then w.feeds[t].(handled := w.feeds[t].handled + [found[t]]) else w.feeds[t]
  {
  }

  /** Any world that differs from the first, for this tag, by the effect of a finished round. */
  lemma FinishedProj(w: World, w': World, t: Tag, found: map<Tag, Pull.Exchange>)
    requires t in w.mgr.tags && t in w.feeds && t in w'.mgr.tags && t in w'.feeds && w'.db == w.db
    requires w.running && w.round.Some? && w.round.value == Round({}, found) && FoundIsLatest(w, t)
    requires if t in found && found[t].rows != []
             then && w'.mgr.tags[t].cursor == found[t].answer
                  && w'.feeds[t] == w.feeds[t].(handled := w.feeds[t].handled + [found[t]])
             else w'.mgr.tags[t].cursor == w.mgr.tags[t].cursor && w'.feeds[t] == w.feeds[t]
    ensures Pull.Run(Proj(w, t), Script(w, RoundFinish, t)) == Proj(w', t)
  {
  }

  lemma FinishSimulates(w: World, t: Tag)
    requires Shape(w) && FoundIsLatest(w, t)
    requires w.running && w.round.Some? && w.round.value.todo == {}
    requires t in w.mgr.tags && t in DoRoundFinish(w).mgr.tags
    ensures t in w.feeds && t in DoRoundFinish(w).feeds
    ensures Pull.Run(Proj(w, t), Script(w, RoundFinish, t)) == Proj(DoRoundFinish(w), t)
  {
    FinishCursor(w, t);
    FinishFeed(w, t);
    FinishedProj(w, DoRoundFinish(w), t, w.round.value.found);
  }

  /** While a tag stays tracked, control messages about others change nothing of its pull world. */
  lemma ControlSimulates(w: World, t: Tag)
    requires Shape(w) && t in w.mgr.tags && t in DoControl(w).mgr.tags
    ensures t in w.feeds && t in DoControl(w).feeds
    ensures Proj(DoControl(w), t) == Proj(w, t)
  {
    ControlShape(w);
    if w.running && w.queue != [] {
      PopShape(w);
    }
  }

  /** Forward simulation: while a tag stays tracked, each step of the streamer is its script of pull steps. */
  lemma StepSimulates(w: World, a: Action, t: Tag)
    requires Shape(w) && FoundIsLatest(w, t)
    requires t in w.mgr.tags && t in Step(w, a).mgr.tags
    ensures t in w.feeds && t in Step(w, a).feeds
    ensures Pull.Run(Proj(w, t), Script(w, a, t)) == Proj(Step(w, a), t)
  {
    StepShape(w, a);
    match a
    case Database(act) => RunOne(Proj(w, t), Pull.Database(act));
    case RoundQuery(q) =>
      if q == t && w.round.Some? && t in w.round.value.todo {
        QuerySimulates(w, t);
      }
    case RoundFinish =>
      if w.running && w.round.Some? && w.round.value.todo == {} {
        FinishSimulates(w, t);
      }
    case Control => ControlSimulates(w, t);
    case _ =>
  }

  // ---------------------------------------------------------------- what transfers

  ghost predicate FeedInv(w: World, t: Tag) {
    && FoundIsLatest(w, t)
    && (t in w.mgr.tags && t in w.feeds ==> Pull.Inv(Proj(w, t)))
  }

  lemma StepLatest(w: World, a: Action, t: Tag)
    requires Shape(w) && FoundIsLatest(w, t)
    ensures FoundIsLatest(Step(w, a), t)
  {
    StepShape(w, a);
  }

  /** A tag that is not tracked before a step and is after it starts as a fresh pull client. */
  lemma NewTagIsFresh(w: World, a: Action, t: Tag)
    requires Shape(w) && t !in w.mgr.tags && t in Step(w, a).mgr.tags
    ensures t in Step(w, a).feeds
    ensures Proj(Step(w, a), t) == Pull.Fresh(w.db, {t})
  {
    StepShape(w, a);
    assert a.Control? by {
      if a.RoundFinish? { FinishShape(w); NoNewTags(w, t); }
    }
    PopShape(w);
    assert Cursors([]) == [];
  }

  lemma NoNewTags(w: World, t: Tag)
    requires Shape(w) && t in DoRoundFinish(w).mgr.tags
    ensures t in w.mgr.tags
  {
  }

  lemma StepFeedInv(w: World, a: Action, t: Tag)
    requires Shape(w) && DbInv(w.db) && FeedInv(w, t)
    ensures FeedInv(Step(w, a), t)
  {
    StepLatest(w, a, t);
    StepShape(w, a);
    if t in Step(w, a).mgr.tags {
      if t in w.mgr.tags {
        StepSimulates(w, a, t);
        Pull.RunKeepsInv(Proj(w, t), Script(w, a, t));
      } else {
        NewTagIsFresh(w, a, t);
        Pull.FreshInv(w.db, {t});
      }
    }
  }

  lemma {:induction false} RunDb(d: Db, actions: seq<Action>)
    requires DbInv(d)
    ensures DbInv(Run(Start(d), actions).db)
  {
    if actions != [] {
      var mid, a := Run(Start(d), actions[..|actions| - 1]), actions[|actions| - 1];
      RunDb(d, actions[..|actions| - 1]);
      if a.Database? {
        DbStepKeepsInv(mid.db, a.action);
      } else {
        OnlyDatabaseActs(mid, a);
      }
    }
  }

  lemma OnlyDatabaseActs(w: World, a: Action)
    requires !a.Database?
    ensures Step(w, a).db == w.db
  {
  }

  lemma {:induction false} RunFeedInv(d: Db, actions: seq<Action>, t: Tag)
    requires DbInv(d)
    ensures FeedInv(Run(Start(d), actions), t)
  {
    if actions != [] {
      RunShape(d, actions[..|actions| - 1]);
      RunDb(d, actions[..|actions| - 1]);
      RunFeedInv(d, actions[..|actions| - 1], t);
      StepFeedInv(Run(Start(d), actions[..|actions| - 1]), actions[|actions| - 1], t);
    }
  }

  /**
   Over every run, for every tracked tag: each note ever committed under it with a key
   at or below its cursor was in a batch forwarded since the tag was last added, or was
   removed by cleanup before the query that passed it.
   */
  lemma {:induction false} TrackedTagsLoseNothing(d: Db, actions: seq<Action>, t: Tag, r: Row)
    requires DbInv(d)
    ensures var w := Run(Start(d), actions);
            t in w.mgr.tags && Stored(r) in w.db.log && r.tag == t && r.seqno <= w.mgr.tags[t].cursor ==>
              && t in w.feeds
              && var c := Pull.Client(w.mgr.tags[t].cursor, w.feeds[t].handled);
                 Pull.DeliveredTo(c, r) || Pull.RemovedBeforePass(w.db.log, c, r)
  {
    var w := Run(Start(d), actions);
    RunShape(d, actions);
    RunFeedInv(d, actions, t);
    if t in w.mgr.tags && Stored(r) in w.db.log && r.tag == t && r.seqno <= w.mgr.tags[t].cursor {
      Pull.InvMeansNoLoss(Proj(w, t), r);
    }
  }

  /** While a tag stays tracked its cursor only grows. */
  lemma {:induction false} CursorOnlyGrows(d: Db, actions: seq<Action>, a: Action, t: Tag)
    requires DbInv(d)
    requires t in Run(Start(d), actions).mgr.tags && t in Step(Run(Start(d), actions), a).mgr.tags
    ensures Run(Start(d), actions).mgr.tags[t].cursor <= Step(Run(Start(d), actions), a).mgr.tags[t].cursor
  {
    var w := Run(Start(d), actions);
    RunShape(d, actions);
    RunFeedInv(d, actions, t);
    StepSimulates(w, a, t);
    Pull.RunKeepsInv(Proj(w, t), Script(w, a, t));
  }
}
