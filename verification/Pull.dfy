/**
 The pull protocol as a step system: the database with its writers and cleanups, a
 server that answers fetch requests from the committed table, a network that may
 delay, drop, duplicate and reorder both requests and responses, and one client with a
 fixed tag set that keeps the largest response cursor it has handled.
 */
module Pull {
  import opened Notes
  import opened Store
  import opened Transactions

  /** One answered fetch: request cursor, batch, response cursor, and how long the history was when it was read. */
  datatype Exchange = Exchange(asked: nat, rows: seq<Row>, answer: nat, at: nat)

  /** The client's persisted cursor and the exchanges whose notes it has handled. */
  datatype Client = Client(cursor: nat, handled: seq<Exchange>)

  datatype World = World(db: Db, tags: set<Tag>, requests: seq<nat>, exchanges: seq<Exchange>, client: Client)

  datatype Action =
    | Database(action: DbAction)
    | Send                          // the client sends a request with its current cursor
    | Serve(request: nat)           // the server answers some request sent earlier
    | Deliver(response: nat)        // some response arrives: handle its notes, then persist its cursor
    | HandleThenCrash(response: nat) // the client stops between the two

  /** What the server answers to a cursor on the committed table. */
  function Answer(d: Db, tags: set<Tag>, cursor: nat): Exchange {
    var page := Page(d.committed, tags, cursor);
    Exchange(cursor, page, Advance(cursor, page), |d.log|)
  }

  function Step(w: World, a: Action): World {
    match a
    case Database(act) => w.(db := DbStep(w.db, act))
    case Send => w.(requests := w.requests + [w.client.cursor])
    case Serve(i) =>
      if i < |w.requests| then w.(exchanges := w.exchanges + [Answer(w.db, w.tags, w.requests[i])]) else w
    case Deliver(j) =>
      if j < |w.exchanges| then
        var e := w.exchanges[j];
        w.(client := Client(Max(w.client.cursor, e.answer), w.client.handled + [e]))
      else w
    case HandleThenCrash(j) =>
      if j < |w.exchanges| then
        w.(client := w.client.(handled := w.client.handled + [w.exchanges[j]]))
      else w
  }

  function Run(w: World, actions: seq<Action>): World {
    if actions == [] then w
    else Step(Run(w, actions[..|actions| - 1]), actions[|actions| - 1])
  }

  /** A client that joins a database at any time, with cursor 0. */
  function Fresh(d: Db, tags: set<Tag>): World {
    World(d, tags, [], [], Client(0, []))
  }

  // ------------------------------------------------------------------ the invariant

  ghost predicate Passed(e: Exchange, r: Row) {
    e.asked < r.seqno <= e.answer
  }

  /** The row was gone when the exchange read its snapshot. */
  ghost predicate GoneBefore(log: seq<Event>, e: Exchange, r: Row) {
    e.at <= |log| && Removed(r) in log[..e.at]
  }

  /** An exchange accounts for every wanted row it passes: delivered, or removed before its snapshot. */
  ghost predicate Accounts(d: Db, tags: set<Tag>, e: Exchange) {
    && e.at <= |d.log|
    && e.answer <= d.committed.counter
    && (forall r :: Stored(r) in d.log && r.tag in tags && Passed(e, r) ==> r in e.rows || GoneBefore(d.log, e, r))
    && (forall r | r in e.rows :: Stored(r) in d.log && r.tag in tags)
  }

  ghost predicate PassedBySome(handled: seq<Exchange>, r: Row) {
    exists e | e in handled :: Passed(e, r)
  }

  /** Every wanted row at or below the client's cursor was passed by an exchange it handled. */
  ghost predicate Covered(d: Db, tags: set<Tag>, c: Client) {
    forall r :: Stored(r) in d.log && r.tag in tags && r.seqno <= c.cursor ==> PassedBySome(c.handled, r)
  }

  ghost predicate Inv(w: World) {
    && DbInv(w.db)
    && w.client.cursor <= w.db.committed.counter
    && (forall q | q in w.requests :: q <= w.client.cursor)
    && (forall e | e in w.exchanges :: e.asked <= w.client.cursor && Accounts(w.db, w.tags, e))
    && (forall e | e in w.client.handled :: Accounts(w.db, w.tags, e))
    && Covered(w.db, w.tags, w.client)
  }

  lemma FreshInv(d: Db, tags: set<Tag>)
    requires DbInv(d)
    ensures Inv(Fresh(d, tags))
  {
  }

  lemma AnswerAccounts(d: Db, tags: set<Tag>, cursor: nat)
    requires DbInv(d) && cursor <= d.committed.counter
    ensures Accounts(d, tags, Answer(d, tags, cursor))
  {
    var e := Answer(d, tags, cursor);
    AdvanceWithinCounter(d.committed, tags, cursor);
    PageIsPage(d.committed, tags, cursor);
    assert d.log[..e.at] == d.log;
    forall r | Stored(r) in d.log && r.tag in tags && Passed(e, r) ensures r in e.rows || GoneBefore(d.log, e, r) {
      if r in d.committed.rows {
        PageCovers(d.committed, tags, cursor, r);
      }
    }
  }

  /** Later commits do not disturb an exchange: their keys lie above its response cursor. */
  lemma AccountsLater(d: Db, d': Db, tags: set<Tag>, e: Exchange)
    requires Later(d, d') && Accounts(d, tags, e)
    ensures Accounts(d', tags, e)
  {
  }

  lemma CoveredLater(d: Db, d': Db, tags: set<Tag>, c: Client)
    requires Later(d, d') && Covered(d, tags, c) && c.cursor <= d.committed.counter
    ensures Covered(d', tags, c)
  {
  }

  /** Handling an exchange asked at or below the cursor keeps the client covered, whatever came before or after. */
  lemma CoveredByOneMore(d: Db, tags: set<Tag>, c: Client, e: Exchange, cursor: nat)
    requires Covered(d, tags, c) && e.asked <= c.cursor
    requires cursor <= Max(c.cursor, e.answer)
    ensures Covered(d, tags, Client(cursor, c.handled + [e]))
  {
    forall r | Stored(r) in d.log && r.tag in tags && r.seqno <= cursor ensures PassedBySome(c.handled + [e], r) {
      if r.seqno <= c.cursor {
        var x :| x in c.handled && Passed(x, r);
        assert x in c.handled + [e];
      } else {
        assert e in c.handled + [e] && Passed(e, r);
      }
    }
  }

  lemma DatabaseStep(w: World, act: DbAction)
    requires Inv(w)
    ensures Inv(Step(w, Database(act)))
  {
    var d, d' := w.db, DbStep(w.db, act);
    DbStepKeepsInv(d, act);
    forall e | Accounts(d, w.tags, e) ensures Accounts(d', w.tags, e) {
      AccountsLater(d, d', w.tags, e);
    }
    CoveredLater(d, d', w.tags, w.client);
  }

  lemma StepKeepsInv(w: World, a: Action)
    requires Inv(w)
    ensures Inv(Step(w, a))
    ensures Step(w, a).client.cursor >= w.client.cursor
  {
    match a
    case Database(act) => DatabaseStep(w, act);
    case Send =>
    case Serve(i) =>
      if i < |w.requests| {
        assert w.requests[i] in w.requests;
        AnswerAccounts(w.db, w.tags, w.requests[i]);
      }
    case Deliver(j) =>
      if j < |w.exchanges| {
        var e := w.exchanges[j];
        assert e in w.exchanges;
        CoveredByOneMore(w.db, w.tags, w.client, e, Max(w.client.cursor, e.answer));
      }
    case HandleThenCrash(j) =>
      if j < |w.exchanges| {
        var e := w.exchanges[j];
        assert e in w.exchanges;
        CoveredByOneMore(w.db, w.tags, w.client, e, w.client.cursor);
      }
  }

  lemma {:induction false} RunKeepsInv(w: World, actions: seq<Action>)
    requires Inv(w)
    ensures Inv(Run(w, actions))
    ensures Run(w, actions).client.cursor >= w.client.cursor
  {
    if actions != [] {
      RunKeepsInv(w, actions[..|actions| - 1]);
      StepKeepsInv(Run(w, actions[..|actions| - 1]), actions[|actions| - 1]);
    }
  }

  // --------------------------------------------------------------- what it buys

  /** The row is in a batch the client handled. */
  ghost predicate DeliveredTo(c: Client, r: Row) {
    exists e | e in c.handled :: r in e.rows
  }

  /** Some exchange the client handled passed the row after cleanup had removed it. */
  ghost predicate RemovedBeforePass(log: seq<Event>, c: Client, r: Row) {
    exists e | e in c.handled :: Passed(e, r) && GoneBefore(log, e, r)
  }

  lemma InvMeansNoLoss(w: World, r: Row)
    requires Inv(w)
    requires Stored(r) in w.db.log && r.tag in w.tags && r.seqno <= w.client.cursor
    ensures DeliveredTo(w.client, r) || RemovedBeforePass(w.db.log, w.client, r)
  {
  }

  /**
   No loss, over every run: every note ever committed under one of the client's tags,
   with a key at or below its cursor, was delivered to it or was removed by cleanup
   before the snapshot that passed it. No bound on keys or cursors is needed.
   */
  lemma {:induction false} NoLoss(d: Db, tags: set<Tag>, actions: seq<Action>, r: Row)
    requires DbInv(d)
    requires var w := Run(Fresh(d, tags), actions);
             Stored(r) in w.db.log && r.tag in tags && r.seqno <= w.client.cursor
    ensures var w := Run(Fresh(d, tags), actions);
            DeliveredTo(w.client, r) || RemovedBeforePass(w.db.log, w.client, r)
  {
    FreshInv(d, tags);
    RunKeepsInv(Fresh(d, tags), actions);
    TagsFixed(Fresh(d, tags), actions);
    InvMeansNoLoss(Run(Fresh(d, tags), actions), r);
  }

  lemma {:induction false} TagsFixed(w: World, actions: seq<Action>)
    ensures Run(w, actions).tags == w.tags
  {
    if actions != [] {
      TagsFixed(w, actions[..|actions| - 1]);
    }
  }

  /** A live note of the client's tags that it has not been given lies above its cursor, where the next fetch looks. */
  lemma {:induction false} LiveNotesAreDeliveredOrAhead(d: Db, tags: set<Tag>, actions: seq<Action>, r: Row)
    requires DbInv(d)
    requires r in Run(Fresh(d, tags), actions).db.committed.rows && r.tag in tags
    ensures DeliveredTo(Run(Fresh(d, tags), actions).client, r)
         || r.seqno > Run(Fresh(d, tags), actions).client.cursor
  {
    var w := Run(Fresh(d, tags), actions);
    FreshInv(d, tags);
    RunKeepsInv(Fresh(d, tags), actions);
    if r.seqno <= w.client.cursor {
      NoLoss(d, tags, actions, r);
      GoneIsRemoved(w, r);
    }
  }

  lemma GoneIsRemoved(w: World, r: Row)
    ensures RemovedBeforePass(w.db.log, w.client, r) ==> Removed(r) in w.db.log
  {
  }

  /** Nothing foreign is delivered: every row a client is given was committed under one of its tags. */
  lemma {:induction false} OnlyCommittedNotesAreDelivered(d: Db, tags: set<Tag>, actions: seq<Action>, r: Row)
    requires DbInv(d)
    requires DeliveredTo(Run(Fresh(d, tags), actions).client, r)
    ensures Stored(r) in Run(Fresh(d, tags), actions).db.log && r.tag in tags
  {
    var w := Run(Fresh(d, tags), actions);
    FreshInv(d, tags);
    RunKeepsInv(Fresh(d, tags), actions);
    TagsFixed(Fresh(d, tags), actions);
    var e :| e in w.client.handled && r in e.rows;
    assert Accounts(w.db, w.tags, e);
  }

  /** The client has the notes of a response that arrives, and its cursor unless it stops in between. */
  lemma ArrivalDelivers(w: World, j: nat, r: Row)
    requires j < |w.exchanges| && r in w.exchanges[j].rows
    ensures DeliveredTo(Step(w, Deliver(j)).client, r) && DeliveredTo(Step(w, HandleThenCrash(j)).client, r)
    ensures Step(w, Deliver(j)).client.cursor >= w.exchanges[j].answer
    ensures Step(w, HandleThenCrash(j)).client.cursor == w.client.cursor
  {
    var e := w.exchanges[j];
    assert e in Step(w, Deliver(j)).client.handled && e in Step(w, HandleThenCrash(j)).client.handled;
  }

  /**
   What a client crashed on it is given again: a live note above its cursor comes with the
   first answer that passes it.
   */
  lemma CrashedNotesComeAgain(w: World, j: nat, r: Row)
    requires Valid(w.db.committed) && j < |w.exchanges| && r in w.exchanges[j].rows
    requires r in w.db.committed.rows && r.tag in w.tags && r.seqno > w.client.cursor
    ensures var w' := Step(w, HandleThenCrash(j));
            var next := Answer(w'.db, w'.tags, w'.client.cursor);
            r.seqno <= next.answer ==> r in next.rows
  {
    var w' := Step(w, HandleThenCrash(j));
    assert w'.db == w.db && w'.tags == w.tags && w'.client.cursor == w.client.cursor;
    hide Step, Page, Advance, Valid;
    if r.seqno <= Answer(w.db, w.tags, w.client.cursor).answer {
      PageCovers(w.db.committed, w.tags, w.client.cursor, r);
    }
  }
}
