/**
 The sequential client: one request outstanding at a time and no crash between handling
 a batch and persisting its cursor. A request or response may be lost (the client gives
 up and asks again); a response that comes after that is ignored.
 */
module Sequential {
  import opened Notes
  import opened Store
  import opened Transactions
  import opened Paging
  import Pull

  datatype Phase = Idle | Waiting(asked: nat) | Answered(exchange: Pull.Exchange)

  datatype World = World(db: Db, tags: set<Tag>, phase: Phase, cursor: nat, got: seq<Row>)

  datatype Action = Database(action: DbAction) | Ask | Serve | Receive | GiveUp

  function Step(w: World, a: Action): World {
    match a
    case Database(act) => w.(db := DbStep(w.db, act))
    case Ask => if w.phase.Idle? then w.(phase := Waiting(w.cursor)) else w
    case Serve =>
      if w.phase.Waiting? then w.(phase := Answered(Pull.Answer(w.db, w.tags, w.phase.asked))) else w
    case Receive =>
      if w.phase.Answered? then
        var e := w.phase.exchange;
        w.(phase := Idle, cursor := Max(w.cursor, e.answer), got := w.got + e.rows)
      else w
    case GiveUp => w.(phase := Idle)
  }

  function Run(w: World, actions: seq<Action>): World {
    if actions == [] then w
    else Step(Run(w, actions[..|actions| - 1]), actions[|actions| - 1])
  }

  function Start(tags: set<Tag>): World {
    World(EMPTY_DB, tags, Idle, 0, [])
  }

  ghost predicate AllStored(log: seq<Event>, rows: seq<Row>) {
    forall r | r in rows :: Stored(r) in log
  }

  /** A batch in flight: fresh, ascending rows between its two cursors. */
  ghost predicate GoodBatch(e: Pull.Exchange) {
    && Ascending(e.rows)
    && (forall r | r in e.rows :: e.asked < r.seqno <= e.answer)
  }

  ghost predicate InvBelow(w: World) {
    && Ascending(w.got)
    && (forall r | r in w.got :: r.seqno <= w.cursor)
    && (w.phase.Answered? ==> GoodBatch(w.phase.exchange))
  }

  ghost predicate Inv(w: World) {
    && DbInv(w.db)
    && w.cursor <= w.db.committed.counter
    && AllStored(w.db.log, w.got)
    && (w.phase.Waiting? ==> w.phase.asked == w.cursor)
    && (w.phase.Answered? ==>
          && w.phase.exchange.asked == w.cursor
          && w.phase.exchange.answer <= w.db.committed.counter
          && AllStored(w.db.log, w.phase.exchange.rows))
    && (w.db.committed.counter <= LEGACY_CURSOR_THRESHOLD ==> InvBelow(w))
  }

  lemma AnswerIsGood(d: Db, tags: set<Tag>, cursor: nat)
    requires DbInv(d) && cursor <= d.committed.counter
    ensures Pull.Answer(d, tags, cursor).answer <= d.committed.counter
    ensures AllStored(d.log, Pull.Answer(d, tags, cursor).rows)
    ensures cursor <= LEGACY_CURSOR_THRESHOLD ==> GoodBatch(Pull.Answer(d, tags, cursor))
  {
    PageIsPage(d.committed, tags, cursor);
    AdvanceIsMaximum(cursor, Page(d.committed, tags, cursor));
    AdvanceWithinCounter(d.committed, tags, cursor);
  }

  lemma AllStoredLater(d: Db, d': Db, rows: seq<Row>)
    requires Later(d, d') && AllStored(d.log, rows)
    ensures AllStored(d'.log, rows)
  {
  }

  lemma StepKeepsInv(w: World, a: Action)
    requires Inv(w)
    ensures Inv(Step(w, a))
  {
    match a
    case Database(act) =>
      DbStepKeepsInv(w.db, act);
      AllStoredLater(w.db, DbStep(w.db, act), w.got);
      if w.phase.Answered? {
        AllStoredLater(w.db, DbStep(w.db, act), w.phase.exchange.rows);
      }
    case Ask =>
    case Serve =>
      if w.phase.Waiting? {
        AnswerIsGood(w.db, w.tags, w.phase.asked);
      }
    case Receive =>
    case GiveUp =>
  }

  lemma {:induction false} RunKeepsInv(tags: set<Tag>, actions: seq<Action>)
    ensures Inv(Run(Start(tags), actions))
  {
    if actions != [] {
      RunKeepsInv(tags, actions[..|actions| - 1]);
      StepKeepsInv(Run(Start(tags), actions[..|actions| - 1]), actions[|actions| - 1]);
    }
  }

  /** The note was committed, then removed by cleanup, then committed again under a new key. */
  ghost predicate StoredAgain(log: seq<Event>, first: Row, second: Row) {
    exists i, k, j :: 0 <= i < k < j < |log|
                      && log[i] == Stored(first) && log[k] == Removed(first) && log[j] == Stored(second)
  }

  /**
   Exactly once, over every run in which keys stay within the non-legacy range: the
   delivered keys strictly increase, and an id comes twice only if cleanup removed the
   note and it was stored again in between.
   */
  lemma {:induction false} ExactlyOnce(tags: set<Tag>, actions: seq<Action>, i: nat, j: nat)
    requires Run(Start(tags), actions).db.committed.counter <= 1_000_000_000_000
    requires i < j < |Run(Start(tags), actions).got|
    ensures var w := Run(Start(tags), actions);
            && w.got[i].seqno < w.got[j].seqno
            && (w.got[i].id == w.got[j].id ==> StoredAgain(w.db.log, w.got[i], w.got[j]))
  {
    var w := Run(Start(tags), actions);
    RunKeepsInv(tags, actions);
    assert w.got[i] in w.got && w.got[j] in w.got;
    if w.got[i].id == w.got[j].id {
      ReuseMeansStoredAgain(w.db.log, w.db.committed.counter, w.got[i], w.got[j]);
    }
  }

  lemma ReuseMeansStoredAgain(log: seq<Event>, counter: nat, r: Row, q: Row)
    requires InOrder(log, counter) && IdsReusedAfterRemoval(log)
    requires Stored(r) in log && Stored(q) in log && r.seqno < q.seqno && r.id == q.id
    ensures StoredAgain(log, r, q)
  {
  }

  // ------------------------------------------------------------------ catching up

  /** Whatever is outstanding is given up, then k fetches go through. */
  function Exchanges(k: nat): seq<Action> {
    if k == 0 then [GiveUp] else Exchanges(k - 1) + [Ask] + [Serve] + [Receive]
  }

  lemma RunOneMore(w: World, before: seq<Action>, a: Action)
    ensures Run(w, before + [a]) == Step(Run(w, before), a)
  {
    assert (before + [a])[..|before|] == before;
  }

  lemma OneExchange(w: World, before: seq<Action>)
    requires Run(w, before).phase.Idle?
    ensures var mid := Run(w, before);
            var page := Page(mid.db.committed, mid.tags, mid.cursor);
            Run(w, before + [Ask] + [Serve] + [Receive])
            == mid.(cursor := Advance(mid.cursor, page), got := mid.got + page)
  {
    hide Run, Page, Advance;
    RunOneMore(w, before, Ask);
    RunOneMore(w, before + [Ask], Serve);
    RunOneMore(w, before + [Ask] + [Serve], Receive);
  }

  function Least(a: nat, b: nat): nat {
    if a < b then a else b
  }

  /** The client has been given the first n wanted rows, and what is left is the rest. */
  ghost predicate HasFirst(w: World, w': World, n: nat) {
    var all := Select(w.db.committed.rows, w.tags, w.cursor);
    && n <= |all| && w' == w.(phase := Idle, cursor := w'.cursor, got := w.got + all[..n])
    && w'.cursor <= 1_000_000_000_000
    && Select(w.db.committed.rows, w.tags, w'.cursor) == all[n..]
  }

  lemma NextExchange(w: World, mid: World, n: nat)
    requires Valid(w.db.committed) && HasFirst(w, mid, n)
    requires forall r | r in Select(w.db.committed.rows, w.tags, w.cursor) :: r.seqno <= 1_000_000_000_000
    ensures var page := Page(w.db.committed, w.tags, mid.cursor);
            && HasFirst(w, mid.(cursor := Advance(mid.cursor, page), got := mid.got + page), n + |page|)
            && |page| == Least(500, |Select(w.db.committed.rows, w.tags, w.cursor)| - n)
  {
    hide Select, Page, Advance, Valid;
    var all, page := Select(w.db.committed.rows, w.tags, w.cursor), Page(w.db.committed, w.tags, mid.cursor);
    NextPage(w.db.committed, w.tags, w.cursor, mid.cursor, n);
    assert w.got + all[..n] + page == w.got + all[..n + |page|];
  }

  /**
   Undisturbed exchanges, after whatever came before, bring the client everything live and
   wanted above its cursor, once and in order, 500 rows at a time.
   */
  lemma {:induction false} CatchesUp(w: World, k: nat)
    requires Valid(w.db.committed) && w.cursor <= 1_000_000_000_000
    requires forall r | r in Select(w.db.committed.rows, w.tags, w.cursor) :: r.seqno <= 1_000_000_000_000
    ensures HasFirst(w, Run(w, Exchanges(k)), Least(500 * k, |Select(w.db.committed.rows, w.tags, w.cursor)|))
  {
    hide Select, Page, Advance, Valid, Run, Step;
    if k == 0 {
      AfterGivingUp(w);
    } else {
      hide HasFirst;
      var all := Select(w.db.committed.rows, w.tags, w.cursor);
      CatchesUp(w, k - 1);
      StillIdle(w, Run(w, Exchanges(k - 1)), Least(500 * (k - 1), |all|));
      OneExchange(w, Exchanges(k - 1));
      NextExchange(w, Run(w, Exchanges(k - 1)), Least(500 * (k - 1), |all|));
    }
  }

  lemma StillIdle(w: World, mid: World, n: nat)
    requires HasFirst(w, mid, n)
    ensures mid.phase.Idle? && mid.db == w.db && mid.tags == w.tags
    ensures n <= |Select(w.db.committed.rows, w.tags, w.cursor)|
  {
  }

  lemma AfterGivingUp(w: World)
    ensures Run(w, Exchanges(0)) == w.(phase := Idle)
  {
    RunOneMore(w, [], GiveUp);
    assert [] + [GiveUp] == [GiveUp];
  }
}
