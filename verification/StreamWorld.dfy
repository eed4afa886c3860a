/**
 The streaming side as a step system: the database and its writers, the streamer task
 with its control queue and its rounds, and any number of subscribers that poll, stop
 polling, or go away. A round queries one tag after another, each on its own snapshot;
 a control message or a database error in between throws the round away.
 */
module StreamWorld {
  import opened Wrappers
  import opened Notes
  import opened Transactions
  import opened Streamer
  import Pull

  datatype Message =
    | AddSubMsg(id: SubId)
    | RemoveSubMsg(id: SubId, reason: Reason)
    | WakerMsg(id: SubId)
    | ShutdownMsg

  /** A round in progress: tags still to query and the answers so far. */
  datatype Round = Round(todo: set<Tag>, found: map<Tag, Pull.Exchange>)

  /** History of one subscriber: batches sent and received, Pending polls, and its tag's cursor when it was added. */
  datatype Ledger = Ledger(sent: seq<Batch>, got: seq<Batch>, pendings: nat, joined: nat)

  /** History of one tracked tag since it was last added: its queries, and those whose batch was forwarded. */
  datatype Feed = Feed(asked: seq<Pull.Exchange>, handled: seq<Pull.Exchange>)

  /** A finished round: its updates, and the manager and channels it found. */
  datatype Record = Record(updates: Updates, manager: Manager, chans: Chans)

  datatype World = World(
    db: Db,
    running: bool, mgr: Manager, queue: seq<Message>, round: Option<Round>,
    chans: Chans, ledgers: map<SubId, Ledger>,
    feeds: map<Tag, Feed>, rounds: seq<Record>,
    added: multiset<SubId>, removed: multiset<(SubId, Reason)>)

  datatype Action =
    | Database(action: DbAction)
    | Subscribe(id: SubId, tag: Tag)
    | Poll(id: SubId)
    | DropSub(id: SubId)
    | DropServer
    | Control
    | RoundStart
    | RoundQuery(tag: Tag)
    | RoundFail
    | RoundFinish

  function Start(d: Db): World {
    World(d, true, NO_SUBS, [], None, map[], map[], map[], [], multiset{}, multiset{})
  }

  // ----------------------------------------------------------------- subscribers

  predicate QueueHasRoom(w: World) {
    w.running && |w.queue| < CONTROL_QUEUE_CAPACITY
  }

  /** Some sender of the channel is alive: held by the manager or by a queued AddSub message. */
  predicate SenderAlive(w: World, id: SubId) {
    id in w.chans && (Subscribed(w.mgr, id, w.chans[id].tag) || AddSubMsg(id) in w.queue)
  }

  /**
   `stream_notes`: a fresh id, its channel, and an AddSub message if the queue takes it.
   If not, the caller lets its end go, which is a later DropSub step.
   */
  function DoSubscribe(w: World, id: SubId, tag: Tag): World {
    if id in w.chans then w
    else
      w.(chans := w.chans[id := Chan(tag, [], true)],
         ledgers := w.ledgers[id := Ledger([], [], 0, 0)],
         queue := if QueueHasRoom(w) then w.queue + [AddSubMsg(id)] else w.queue)
  }

  function DoPoll(w: World, id: SubId): World {
    if id !in w.chans || id !in w.ledgers || !w.chans[id].rxOpen then w
    else
      var ch, led := w.chans[id], w.ledgers[id];
      match PollOutcome(ch.buf, SenderAlive(w, id), QueueHasRoom(w))
      case Ready(batch) =>
        w.(chans := w.chans[id := ch.(buf := ch.buf[1..])],
           ledgers := w.ledgers[id := led.(got := led.got + [batch])])
      case Pending =>
        w.(ledgers := w.ledgers[id := led.(pendings := led.pendings + 1)],
           queue := w.queue + [WakerMsg(id)])
      case Finished => w
  }

  /** Dropping the subscription closes the channel and asks for removal if the queue takes the message. */
  function DoDropSub(w: World, id: SubId): World {
    if id !in w.chans || !w.chans[id].rxOpen then w
    else
      w.(chans := w.chans[id := w.chans[id].(rxOpen := false)],
         queue := if QueueHasRoom(w) then w.queue + [RemoveSubMsg(id, ClientDisconnect)] else w.queue)
  }

  /** The streamer task ends: the manager, the queue and everything they hold are dropped. */
  function Stopped(w: World): World {
    w.(running := false, mgr := NO_SUBS, queue := [], round := None, feeds := map[])
  }

  function DoDropServer(w: World): World {
    if QueueHasRoom(w) then w.(queue := w.queue + [ShutdownMsg]) else Stopped(w)
  }

  // -------------------------------------------------------------------- streamer

  function FeedsFor(feeds: map<Tag, Feed>, m: Manager): map<Tag, Feed> {
    map t | t in m.tags :: if t in feeds then feeds[t] else Feed([], [])
  }

  function TagOf(w: World, id: SubId): Tag {
    if id in w.chans then w.chans[id].tag else 0
  }

  function HandleAdd(w: World, id: SubId): World {
    var tag := TagOf(w, id);
    var mgr := AddSub(w.mgr, id, tag);
    w.(mgr := mgr, feeds := FeedsFor(w.feeds, mgr), added := w.added + multiset{id},
       ledgers := if id in w.ledgers then w.ledgers[id := w.ledgers[id].(joined := mgr.tags[tag].cursor)]
                  else w.ledgers)
  }

  /** Only the removal of a present subscriber is an event. */
  function HandleRemove(w: World, id: SubId, reason: Reason): World {
    var tag := TagOf(w, id);
    var mgr := RemoveSub(w.mgr, id, tag);
    w.(mgr := mgr, feeds := FeedsFor(w.feeds, mgr),
       removed := if Subscribed(w.mgr, id, tag) then w.removed + multiset{(id, reason)} else w.removed)
  }

  /** Taking a control message cancels the round in progress. */
  function DoControl(w: World): World {
    if !w.running || w.queue == [] then w
    else
      var w1 := w.(queue := w.queue[1..], round := None);
      match w.queue[0]
      case AddSubMsg(id) => HandleAdd(w1, id)
      case RemoveSubMsg(id, reason) => HandleRemove(w1, id, reason)
      case WakerMsg(id) => w1.(mgr := UpdateWaker(w1.mgr, id))
      case ShutdownMsg => Stopped(w1)
  }

  function DoRoundQuery(w: World, t: Tag): World {
    if w.round.None? || t !in w.round.value.todo || t !in w.mgr.tags || t !in w.feeds then w
    else
      var e := Pull.Answer(w.db, {t}, w.mgr.tags[t].cursor);
      w.(round := Some(Round(w.round.value.todo - {t}, w.round.value.found[t := e])),
         feeds := w.feeds[t := w.feeds[t].(asked := w.feeds[t].asked + [e])])
  }

  /** The updates of a round: the tags whose query returned anything. */
  function UpdatesOf(found: map<Tag, Pull.Exchange>): Updates {
    map t | t in found && found[t].rows != [] :: Batch(found[t].rows, found[t].answer)
  }

  function Evictions(gone: set<SubId>): set<(SubId, Reason)> {
    set id | id in gone :: (id, Backpressure)
  }

  function BackpressureEvents(gone: set<SubId>): multiset<(SubId, Reason)> {
    multiset(Evictions(gone))
  }

  function SentLedgers(ledgers: map<SubId, Ledger>, m: Manager, chans: Chans, ups: Updates): map<SubId, Ledger> {
    map id | id in ledgers ::
      if Addressed(m, chans, ups, id) && CanSend(chans[id])
      then ledgers[id].(sent := ledgers[id].sent + [ups[chans[id].tag]])
      else ledgers[id]
  }

  function HandledFeeds(feeds: map<Tag, Feed>, found: map<Tag, Pull.Exchange>, m: Manager): map<Tag, Feed> {
    map t | t in feeds && t in m.tags ::
      if t in found && found[t].rows != [] then feeds[t].(handled := feeds[t].handled + [found[t]]) else feeds[t]
  }

  /** The end of a round, in one go: advance the cursors, forward the batches, remove whom a send failed. */
  function DoRoundFinish(w: World): World {
    if !w.running || w.round.None? || w.round.value.todo != {} then w
    else
      var found := w.round.value.found;
      var ups := UpdatesOf(found);
      var m := UpdateCursors(w.mgr, ups);
      var mgr := ForwardManager(m, w.chans, ups);
      w.(round := None, mgr := mgr,
         chans := ForwardChans(m, w.chans, ups),
         ledgers := SentLedgers(w.ledgers, m, w.chans, ups),
         feeds := HandledFeeds(w.feeds, found, mgr),
         rounds := w.rounds + [Record(ups, m, w.chans)],
         removed := w.removed + BackpressureEvents(Evicted(m, w.chans, ups)))
  }

  function Step(w: World, a: Action): World {
    match a
    case Database(act) => w.(db := DbStep(w.db, act))
    case Subscribe(id, tag) => DoSubscribe(w, id, tag)
    case Poll(id) => DoPoll(w, id)
    case DropSub(id) => DoDropSub(w, id)
    case DropServer => DoDropServer(w)
    case Control => DoControl(w)
    case RoundStart => if w.running && w.round.None? then w.(round := Some(Round(w.mgr.tags.Keys, map[]))) else w
    case RoundQuery(t) => DoRoundQuery(w, t)
    case RoundFail => w.(round := None)
    case RoundFinish => DoRoundFinish(w)
  }

  function Run(w: World, actions: seq<Action>): World {
    if actions == [] then w
    else Step(Run(w, actions[..|actions| - 1]), actions[|actions| - 1])
  }

  // ----------------------------------------------------------- structural invariant

  ghost predicate QueuedIdsKnown(w: World) {
    forall m | m in w.queue && !m.ShutdownMsg? :: m.id in w.chans
  }

  /** The book-keeping that every other invariant leans on. */
  ghost predicate Shape(w: World) {
    && w.ledgers.Keys == w.chans.Keys
    && w.mgr.wakers <= w.chans.Keys
    && QueuedIdsKnown(w)
    && Homed(w.mgr, w.chans)
    && NoEmptyTags(w.mgr)
    && w.feeds.Keys == w.mgr.tags.Keys
    && (!w.running ==> w.mgr == NO_SUBS && w.queue == [] && w.round.None?)
    && (w.round.Some? ==> w.round.value.todo + w.round.value.found.Keys == w.mgr.tags.Keys)
  }

  lemma AddSubShape(m: Manager, chans: Chans, id: SubId)
    requires Homed(m, chans) && NoEmptyTags(m) && id in chans
    ensures Homed(AddSub(m, id, chans[id].tag), chans) && NoEmptyTags(AddSub(m, id, chans[id].tag))
  {
  }

  lemma AddSubActive(m: Manager, chans: Chans, id: SubId)
    requires id in chans && Homed(m, chans) && Homed(AddSub(m, id, chans[id].tag), chans)
    ensures ActiveIds(AddSub(m, id, chans[id].tag)) == ActiveIds(m) + {id}
  {
    var m' := AddSub(m, id, chans[id].tag);
    forall x ensures x in ActiveIds(m') <==> x in ActiveIds(m) + {id} {
      ActiveIsSubscribed(m, chans, x);
      ActiveIsSubscribed(m', chans, x);
    }
  }

  lemma RemoveSubShape(m: Manager, chans: Chans, id: SubId)
    requires Homed(m, chans) && NoEmptyTags(m) && id in chans
    ensures Homed(RemoveSub(m, id, chans[id].tag), chans) && NoEmptyTags(RemoveSub(m, id, chans[id].tag))
  {
  }

  lemma RemoveSubActive(m: Manager, chans: Chans, id: SubId)
    requires Homed(m, chans) && NoEmptyTags(m) && id in chans
    requires Homed(RemoveSub(m, id, chans[id].tag), chans)
    ensures ActiveIds(RemoveSub(m, id, chans[id].tag)) == ActiveIds(m) - {id}
  {
    var m' := RemoveSub(m, id, chans[id].tag);
    forall x ensures x in ActiveIds(m') <==> x in ActiveIds(m) - {id} {
      ActiveIsSubscribed(m, chans, x);
      ActiveIsSubscribed(m', chans, x);
    }
  }

  lemma PopShape(w: World)
    requires Shape(w) && w.running && w.queue != []
    ensures Shape(w.(queue := w.queue[1..], round := None))
    ensures !w.queue[0].ShutdownMsg? ==> w.queue[0].id in w.chans
  {
  }

  lemma ControlShape(w: World)
    requires Shape(w)
    ensures Shape(DoControl(w))
  {
    if w.running && w.queue != [] {
      PopShape(w);
      match w.queue[0]
      case AddSubMsg(id) => AddSubShape(w.mgr, w.chans, id);
      case RemoveSubMsg(id, _) => RemoveSubShape(w.mgr, w.chans, id);
      case WakerMsg(_) =>
      case ShutdownMsg =>
    }
  }

  lemma UpdateCursorsShape(m: Manager, chans: Chans, ups: Updates)
    requires Homed(m, chans) && NoEmptyTags(m)
    ensures Homed(UpdateCursors(m, ups), chans) && NoEmptyTags(UpdateCursors(m, ups))
    ensures ActiveIds(UpdateCursors(m, ups)) == ActiveIds(m)
    ensures UpdateCursors(m, ups).tags.Keys == m.tags.Keys
  {
  }

  lemma ForwardShape(m: Manager, chans: Chans, ups: Updates)
    requires Homed(m, chans) && NoEmptyTags(m)
    ensures Homed(ForwardManager(m, chans, ups), ForwardChans(m, chans, ups))
    ensures NoEmptyTags(ForwardManager(m, chans, ups))
    ensures ForwardManager(m, chans, ups).tags.Keys <= m.tags.Keys
    ensures ActiveIds(ForwardManager(m, chans, ups)) == ActiveIds(m) - Evicted(m, chans, ups)
  {
    DropSubsEffect(m, chans, Evicted(m, chans, ups));
  }

  lemma FinishShape(w: World)
    requires Shape(w)
    ensures Shape(DoRoundFinish(w))
  {
    if w.running && w.round.Some? && w.round.value.todo == {} {
      var ups := UpdatesOf(w.round.value.found);
      UpdateCursorsShape(w.mgr, w.chans, ups);
      ForwardShape(UpdateCursors(w.mgr, ups), w.chans, ups);
    }
  }

  lemma SubscribeShape(w: World, id: SubId, tag: Tag)
    requires Shape(w)
    ensures Shape(DoSubscribe(w, id, tag))
  {
  }

  lemma PollShape(w: World, id: SubId)
    requires Shape(w)
    ensures Shape(DoPoll(w, id))
  {
  }

  lemma DropShape(w: World, id: SubId)
    requires Shape(w)
    ensures Shape(DoDropSub(w, id))
  {
  }

  lemma DropServerShape(w: World)
    requires Shape(w)
    ensures Shape(DoDropServer(w))
  {
  }

  lemma StepShape(w: World, a: Action)
    requires Shape(w)
    ensures Shape(Step(w, a))
  {
    match a
    case Subscribe(id, tag) => SubscribeShape(w, id, tag);
    case Poll(id) => PollShape(w, id);
    case DropSub(id) => DropShape(w, id);
    case DropServer => DropServerShape(w);
    case Control => ControlShape(w);
    case RoundFinish => FinishShape(w);
    case _ =>
  }
}
