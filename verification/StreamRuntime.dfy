/**
 The streaming half of the node with all its objects at work together: the database, the
 streamer with its manager and control queue, and the subscribers' ends of their
 channels. Whatever happens next is an action of the streaming world; each is carried out
 by the objects' own methods and proved to keep them in the state the world says.
 */
module StreamRuntime {
  import opened Wrappers
  import opened Notes
  import opened Store
  import opened Transactions
  import opened Streamer
  import opened StreamWorld
  import opened ControlQueue
  import opened StreamerActor
  import opened Subscription
  import opened SqliteBackend
  import opened ActorRefinement

  type Subs = map<SubId, Sub>

  function FaceOf(s: Sub): Subface {
    Subface(s.id, s.tag, s.rx)
  }

  ghost function Ends(subs: Subs): set<object> {
    set id | id in subs :: subs[id].rx
  }

  /** The channels as the heap has them. */
  ghost function EndsView(subs: Subs): Chans reads Ends(subs) {
    map id | id in subs :: Chan(subs[id].tag, subs[id].rx.buf, subs[id].rx.rxOpen)
  }

  /** Each subscriber has a channel of its own, and they share the control queue. */
  ghost predicate OwnEnds(subs: Subs, queue: Mpsc<StreamerMessage>) {
    && (forall id | id in subs ::
          && subs[id].id == id && subs[id].streamerTx == queue && subs[id].rx as object != queue
          && subs[id].rx.capacity == SUB_CHANNEL_CAPACITY)
    && (forall i, j | i in subs && j in subs && i != j :: subs[i].rx != subs[j].rx)
  }

  /** Whom the manager was ever told about. */
  ghost predicate Known(reg: Registry, subs: Subs) {
    forall id | id in reg :: id in subs && reg[id] == FaceOf(subs[id])
  }

  /** A queued message of the world, as the control queue holds it. */
  ghost predicate SameMessage(subs: Subs, a: Message, b: StreamerMessage) {
    match b
    case AddSubMessage(sub) => a == AddSubMsg(sub.id) && sub.id in subs && sub == FaceOf(subs[sub.id])
    case RemoveSubMessage(id, tag, reason) => a == RemoveSubMsg(id, reason) && id in subs && tag == subs[id].tag
    case WakerMessage(id, _) => a == WakerMsg(id)
    case ShutdownMessage => a == ShutdownMsg
  }

  ghost predicate SameQueue(subs: Subs, q: seq<Message>, buf: seq<StreamerMessage>) {
    |q| == |buf| && forall i | 0 <= i < |q| :: SameMessage(subs, q[i], buf[i])
  }

  /** The ids of the added events, and the ids and reasons of the removed ones. */
  function AddedIn(events: seq<SubEvent>): multiset<SubId> {
    if events == [] then multiset{}
    else
      var last := events[|events| - 1];
      AddedIn(events[..|events| - 1]) + if last.Added? then multiset{last.id} else multiset{}
  }

  function RemovedIn(events: seq<SubEvent>): multiset<(SubId, Reason)> {
    if events == [] then multiset{}
    else
      var last := events[|events| - 1];
      RemovedIn(events[..|events| - 1]) + if last.Removed? then multiset{(last.id, last.reason)} else multiset{}
  }

  /** A round in progress: its answers were read from the tables its queries met. */
  ghost predicate SameRound(round: Option<Round>, m: Manager, met: Option<map<Tag, Store>>) {
    && (round.Some? <==> met.Some?)
    && (round.Some? ==>
          && round.value.found.Keys == met.value.Keys <= m.tags.Keys
          && round.value.todo == m.tags.Keys - met.value.Keys
          && forall t | t in met.value :: AnswerFrom(round.value.found[t], t, m.tags[t].cursor, met.value[t]))
  }

  /** The tables a round has met, as its queries see them. */
  function Met(tables: map<Tag, Store>): Snapshots {
    (t: Tag) => if t in tables then Some(tables[t]) else None
  }

  // ---------------------------------------------------------------- small steps

  lemma {:induction false} LogConcat(a: seq<SubEvent>, b: seq<SubEvent>)
    ensures AddedIn(a + b) == AddedIn(a) + AddedIn(b)
    ensures RemovedIn(a + b) == RemovedIn(a) + RemovedIn(b)
  {
    if b == [] {
      assert a + b == a;
    } else {
      assert (a + b)[..|a + b| - 1] == a + b[..|b| - 1];
      LogConcat(a, b[..|b| - 1]);
    }
  }

  lemma {:induction false} LoggedEvictions(log: seq<SubEvent>, gone: set<SubId>)
    requires RemovalsLogged(log, gone)
    ensures AddedIn(log) == multiset{} && RemovedIn(log) == BackpressureEvents(gone)
  {
    if log == [] {
      assert gone == {};
    } else {
      var front, last := log[..|log| - 1], log[|log| - 1];
      LoggedEvictions(front, gone - {last.id});
      assert Evictions(gone) == Evictions(gone - {last.id}) + {(last.id, Backpressure)};
      assert (last.id, Backpressure) !in Evictions(gone - {last.id});
    }
  }

  lemma PostPlain(buf: seq<StreamerMessage>, reg: Registry, m: StreamerMessage)
    requires FreshIds(buf, reg) && !m.AddSubMessage?
    ensures FreshIds(buf + [m], reg) && Senders(buf + [m]) == Senders(buf)
  {
    assert forall x | x in buf + [m] :: x in buf || x == m;
    assert forall x | x in buf :: x in buf + [m];
  }

  lemma PostAdd(buf: seq<StreamerMessage>, reg: Registry, sub: Subface)
    requires FreshIds(buf, reg) && sub.id !in reg && sub.tx.capacity == SUB_CHANNEL_CAPACITY
    requires forall id | id in reg :: reg[id].tx != sub.tx
    requires forall m | m in buf && m.AddSubMessage? :: m.sub.id != sub.id && m.sub.tx != sub.tx
    ensures FreshIds(buf + [AddSubMessage(sub)], reg) && Senders(buf + [AddSubMessage(sub)]) == Senders(buf) + {sub.tx}
  {
    var m := AddSubMessage(sub);
    assert forall x | x in buf + [m] :: x in buf || x == m;
    assert forall x | x in buf :: x in buf + [m];
    assert (buf + [m])[|buf|] == m;
  }

  lemma SameQueuePost(subs: Subs, subs': Subs, q: seq<Message>, buf: seq<StreamerMessage>,
                      a: Message, b: StreamerMessage)
    requires SameQueue(subs, q, buf) && SameMessage(subs', a, b)
    requires forall id | id in subs :: id in subs' && subs'[id] == subs[id]
    ensures SameQueue(subs', q + [a], buf + [b])
  {
  }

  /** What a subscriber does reaches only the channels and, by what it posts, the queue. */
  lemma SubscriberStep(w: World, a: Action)
    requires Shape(w) && (a.Subscribe? || a.Poll? || a.DropSub?)
    ensures var w' := Step(w, a);
            && Shape(w') && w'.db == w.db && w'.running == w.running && w'.mgr == w.mgr && w'.round == w.round
            && w'.added == w.added && w'.removed == w.removed
            && w'.queue == w.queue + Posted(w, a)
            && w'.chans == match a
                           case Subscribe(id, tag) =>
                             if id in w.chans then w.chans else w.chans[id := Chan(tag, [], true)]
                           case DropSub(id) =>
                             if id in w.chans then w.chans[id := w.chans[id].(rxOpen := false)] else w.chans
                           case Poll(id) =>
                             if id in w.chans && w.chans[id].rxOpen && w.chans[id].buf != []
                             then w.chans[id := w.chans[id].(buf := w.chans[id].buf[1..])] else w.chans
                           case _ => w.chans
  {
    StepShape(w, a);
    hide SenderAlive;
    assert w.queue + [] == w.queue;
  }

  lemma OwnMore(subs: Subs, sub: Sub, queue: Mpsc<StreamerMessage>, ends: set<object>)
    requires OwnEnds(subs, queue) && ends == Ends(subs) && sub.rx !in ends
    requires sub.streamerTx == queue && sub.rx as object != queue && sub.rx.capacity == SUB_CHANNEL_CAPACITY
    ensures OwnEnds(subs[sub.id := sub], queue) && queue !in ends
    ensures forall x | x in subs :: sub.rx != subs[x].rx
  {
  }

  // ----------------------------------------------------------------- the clients

  /** All subscribers' ends that were ever handed out. */
  class Clients {
    const queue: Mpsc<StreamerMessage>
    var subs: Subs

    ghost predicate Valid() reads this {
      OwnEnds(subs, queue)
    }

    ghost function View(): Chans reads this, Ends(subs) {
      EndsView(subs)
    }

    constructor (queue: Mpsc<StreamerMessage>)
      ensures Valid() && subs == map[] && this.queue == queue && View() == map[]
    {
      this.queue, subs := queue, map[];
    }

    /** A new end. If the queue refuses its AddSub, it is still to be let go. */
    method Open(id: SubId, tag: Tag)
      requires Valid() && id !in subs
      modifies this, queue
      ensures Valid() && id in subs && subs == old(subs)[id := subs[id]]
      ensures subs[id].id == id && subs[id].tag == tag && subs[id].rx.capacity == SUB_CHANNEL_CAPACITY
      ensures fresh(subs[id].rx) && forall x | x in old(subs) :: subs[id].rx != subs[x].rx
      ensures View() == old(View())[id := Chan(tag, [], true)]
      ensures queue.rxOpen == old(queue.rxOpen)
      ensures queue.buf == old(queue.buf) + if old(queue.rxOpen) && |old(queue.buf)| < queue.capacity
                                            then [AddSubMessage(FaceOf(subs[id]))] else []
    {
      hide OwnEnds;
      ghost var before, ends := subs, Ends(subs);
      var sub, res := StreamNotes(id, tag, queue);
      OwnMore(before, sub, queue, ends);
      subs := subs[id := sub];
    }

    method PollEnd(id: SubId, waker: Waker, held: bool)
      requires Valid() && id in subs
      modifies queue, Ends(subs)
      ensures var room := old(queue.rxOpen) && |old(queue.buf)| < queue.capacity;
              var r := PollOutcome(old(View())[id].buf, held, room);
              && View() == (if r.Ready? then old(View())[id := old(View())[id].(buf := old(View())[id].buf[1..])]
                            else old(View()))
              && queue.buf == old(queue.buf) + (if r.Pending? then [WakerMessage(id, waker)] else [])
      ensures queue.rxOpen == old(queue.rxOpen)
    {
      var outcome := subs[id].PollNext(waker, held);
    }

    method DropEnd(id: SubId)
      requires Valid() && id in subs
      modifies queue, Ends(subs)
      ensures View() == old(View())[id := old(View())[id].(rxOpen := false)]
      ensures queue.rxOpen == old(queue.rxOpen)
      ensures queue.buf == old(queue.buf) + if old(queue.rxOpen) && |old(queue.buf)| < queue.capacity
                                            then [RemoveSubMessage(id, subs[id].tag, ClientDisconnect)] else []
    {
      subs[id].Drop();
    }
  }

  // ------------------------------------------------------------------ the node

  class StreamingNode {
    const database: SqliteDatabase
    const queue: Mpsc<StreamerMessage>
    const streamer: NoteStreamer
    const clients: Clients
    /** Whether the streamer's main loop goes on. */
    var enabled: bool
    /** The round in progress: the committed table each query so far has met. */
    var met: Option<map<Tag, Store>>

    ghost predicate Wiring() reads streamer, streamer.manager, queue, clients {
      && streamer.rx == queue == clients.queue && queue.capacity == CONTROL_QUEUE_CAPACITY
      && streamer.Valid() && clients.Valid() && Known(streamer.manager.registry, clients.subs)
    }

    /** Database, manager, channels, queue and log hold these values; of an ended loop manager and queue are dropped. */
    ghost predicate Holds(d: Db, running: bool, m: Manager, q: seq<Message>, chans: Chans,
                          added: multiset<SubId>, removed: multiset<(SubId, Reason)>)
      reads database, queue, streamer, streamer.manager, clients, Ends(clients.subs)
    {
      && Wiring()
      && database.Valid() && database.View() == d
      && clients.View() == chans
      && running == queue.rxOpen
      && (running ==> streamer.manager.View() == m && SameQueue(clients.subs, q, queue.buf))
      && AddedIn(streamer.manager.events) == added && RemovedIn(streamer.manager.events) == removed
    }

    /** The simulation relation: the objects are in the state the world says. */
    ghost predicate Simulates(w: World)
      reads this, database, queue, streamer, streamer.manager, clients, Ends(clients.subs)
    {
      && Shape(w) && SameRound(w.round, w.mgr, met) && enabled == w.running
      && Holds(w.db, w.running, w.mgr, w.queue, w.chans, w.added, w.removed)
    }

    constructor (codec: Codec)
      ensures Simulates(Start(EMPTY_DB))
      ensures fresh(database) && fresh(queue) && fresh(streamer) && fresh(streamer.manager) && fresh(clients)
      ensures clients.subs == map[] && queue.capacity == 128
    {
      hide FreshIds, DbInv, EndsView, TagsView, OwnChannels, Wired, NoEmptyEntries, Shape, Homed, NoEmptyTags, Known,
           SameQueue, SameRound, AddedIn, RemovedIn;
      database := new SqliteDatabase(codec);
      var q := new Mpsc<StreamerMessage>(CONTROL_QUEUE_CAPACITY);
      queue := q;
      streamer := new NoteStreamer(q);
      clients := new Clients(q);
      enabled, met := true, None;
      new;
      NothingYet();
      assert Ends(clients.subs) == {};
      assert clients.View() == map[];
    }

    method Execute(act: DbAction, ghost w: World)
      requires Simulates(w)
      modifies database
      ensures Simulates(Step(w, Database(act)))
    {
      hide Shape, OwnEnds, Known, SameQueue, SameRound, AddedIn, RemovedIn, FreshIds, DbStep, DbInv;
      StepShape(w, Database(act));
      database.Perform(act);
    }

    /** A new end and its AddSub, if the queue takes it: the manager has not heard of either. */
    method OpenEnd(id: SubId, tag: Tag, ghost q: seq<Message>)
      requires Wiring() && id !in clients.subs
      requires enabled == queue.rxOpen && (enabled ==> SameQueue(clients.subs, q, queue.buf))
      modifies clients, queue
      ensures Wiring() && clients.View() == old(clients.View())[id := Chan(tag, [], true)]
      ensures queue.rxOpen == old(queue.rxOpen)
      ensures enabled ==>
                SameQueue(clients.subs, q + (if |q| < CONTROL_QUEUE_CAPACITY then [AddSubMsg(id)] else []), queue.buf)
      ensures fresh(Ends(clients.subs) - old(Ends(clients.subs)))
    {
      hide FreshIds, OwnEnds, Known, SameQueue, Senders, TagsView, OwnChannels, Wired, NoEmptyEntries, EndsView;
      ghost var before, buf, reg := clients.subs, queue.buf, streamer.manager.registry;
      assert enabled ==> |buf| == |q| by { SameLength(before, q, buf); }
      clients.Open(id, tag);
      ghost var sub := FaceOf(clients.subs[id]);
      KnownMore(reg, before, clients.subs, q, buf);
      if enabled && |buf| < CONTROL_QUEUE_CAPACITY {
        PostNew(buf, reg, before, q, sub);
        SameQueuePost(before, clients.subs, q, buf, AddSubMsg(id), AddSubMessage(sub));
      } else {
        assert queue.buf == buf && q + [] == q;
      }
    }

    method OpenStream(id: SubId, tag: Tag, ghost w: World)
      requires Simulates(w)
      modifies clients, queue
      ensures Simulates(Step(w, Subscribe(id, tag)))
      ensures fresh(Ends(clients.subs) - old(Ends(clients.subs)))
    {
      EndAt(w, id);
      hide Shape, SameRound, AddedIn, RemovedIn, FreshIds, DbInv, Step, OwnEnds, Known, SameQueue, Senders,
           TagsView, OwnChannels, Wired, NoEmptyEntries, Ends, EndsView;
      SubscriberStep(w, Subscribe(id, tag));
      if id !in clients.subs {
        OpenEnd(id, tag, w.queue);
      } else {
        assert w.queue + [] == w.queue;
      }
    }

    /** A message about an end that is known already, if it is posted at all. */
    lemma PostKnown(buf: seq<StreamerMessage>, m: StreamerMessage, q: seq<Message>, a: Message)
      requires SameQueue(clients.subs, q, buf) && SameMessage(clients.subs, a, m)
      requires FreshIds(buf, streamer.manager.registry)
      requires !m.AddSubMessage?
      ensures FreshIds(buf + [m], streamer.manager.registry) && Senders(buf + [m]) == Senders(buf)
      ensures SameQueue(clients.subs, q + [a], buf + [m])
    {
      PostPlain(buf, streamer.manager.registry, m);
    }

    /** Whether the runtime still counts a sender of the channel. */
    predicate SenderHeld(id: SubId)
      requires id in clients.subs
      reads streamer.manager, queue, clients
    {
      var tag := clients.subs[id].tag;
      || (tag in streamer.manager.tags && id in streamer.manager.tags[tag].subs)
      || exists m | m in queue.buf :: m.AddSubMessage? && m.sub.id == id
    }

    lemma HeldIsAlive(w: World, id: SubId)
      requires Simulates(w) && enabled && id in clients.subs
      ensures SenderHeld(id) <==> SenderAlive(w, id)
    {
      hide Shape, SameRound, AddedIn, RemovedIn, FreshIds, DbInv, OwnEnds, Known, Wired, OwnChannels, NoEmptyEntries;
      if SenderHeld(id) && !Subscribed(w.mgr, id, w.chans[id].tag) {
        var m :| m in queue.buf && m.AddSubMessage? && m.sub.id == id;
        var i :| 0 <= i < |queue.buf| && queue.buf[i] == m;
        assert SameMessage(clients.subs, w.queue[i], m);
      }
      if AddSubMsg(id) in w.queue {
        var i :| 0 <= i < |w.queue| && w.queue[i] == AddSubMsg(id);
        assert SameMessage(clients.subs, w.queue[i], queue.buf[i]);
      }
    }

    /** The poll of an end: its waker is posted if the poll is Pending. */
    method PollEnd(id: SubId, waker: Waker, held: bool, ghost q: seq<Message>)
      requires Wiring() && id in clients.subs && (held ==> enabled)
      requires enabled == queue.rxOpen && (enabled ==> SameQueue(clients.subs, q, queue.buf))
      modifies queue, Ends(clients.subs)
      ensures Wiring() && queue.rxOpen == old(queue.rxOpen)
      ensures var ch := old(clients.View())[id];
              var r := PollOutcome(ch.buf, held, |q| < CONTROL_QUEUE_CAPACITY);
              && clients.View() == (if r.Ready? then old(clients.View())[id := ch.(buf := ch.buf[1..])]
                                    else old(clients.View()))
              && (enabled ==> SameQueue(clients.subs, q + (if r.Pending? then [WakerMsg(id)] else []), queue.buf))
    {
      hide FreshIds, OwnEnds, Known, SameQueue, Senders, TagsView, OwnChannels, Wired, NoEmptyEntries, EndsView;
      EndsApart(clients.subs, queue);
      ghost var buf := queue.buf;
      if enabled {
        SameLength(clients.subs, q, buf);
        PostKnown(buf, WakerMessage(id, waker), q, WakerMsg(id));
      }
      clients.PollEnd(id, waker, held);
      assert buf + [] == buf && q + [] == q;
    }

    method PollSub(id: SubId, waker: Waker, ghost w: World)
      requires Simulates(w)
      modifies queue, Ends(clients.subs)
      ensures Simulates(Step(w, Action.Poll(id)))
    {
      hide Shape, SameRound, AddedIn, RemovedIn, FreshIds, DbInv, OwnEnds, Known, SameQueue, Senders,
           TagsView, OwnChannels, Wired, NoEmptyEntries, Ends, EndsView, SenderAlive;
      NotAnEnd();
      EndAt(w, id);
      if id in clients.subs && clients.subs[id].rx.rxOpen {
        var held := enabled && SenderHeld(id);
        if enabled { HeldIsAlive(w, id); }
        SubscriberStep(w, Action.Poll(id));
        LedgersKnown(w);
        hide Step;
        PollEnd(id, waker, held, w.queue);
      } else {
        assert Step(w, Action.Poll(id)) == w;
      }
    }

    /** The drop of an end: its removal is posted if the queue takes it. */
    method DropEnd(id: SubId, ghost q: seq<Message>)
      requires Wiring() && id in clients.subs
      requires enabled == queue.rxOpen && (enabled ==> SameQueue(clients.subs, q, queue.buf))
      modifies queue, Ends(clients.subs)
      ensures Wiring() && queue.rxOpen == old(queue.rxOpen)
      ensures clients.View() == old(clients.View())[id := old(clients.View())[id].(rxOpen := false)]
      ensures enabled ==>
                var post := if |q| < CONTROL_QUEUE_CAPACITY then [RemoveSubMsg(id, ClientDisconnect)] else [];
                SameQueue(clients.subs, q + post, queue.buf)
    {
      hide FreshIds, OwnEnds, Known, SameQueue, Senders, TagsView, OwnChannels, Wired, NoEmptyEntries, EndsView;
      EndsApart(clients.subs, queue);
      ghost var buf := queue.buf;
      if enabled {
        SameLength(clients.subs, q, buf);
        PostKnown(buf, RemoveSubMessage(id, clients.subs[id].tag, ClientDisconnect),
                  q, RemoveSubMsg(id, ClientDisconnect));
      }
      clients.DropEnd(id);
      assert buf + [] == buf && q + [] == q;
    }

    method LetGo(id: SubId, ghost w: World)
      requires Simulates(w)
      modifies queue, Ends(clients.subs)
      ensures Simulates(Step(w, DropSub(id)))
    {
      hide Shape, SameRound, AddedIn, RemovedIn, FreshIds, DbInv, OwnEnds, Known, SameQueue, Senders,
           TagsView, OwnChannels, Wired, NoEmptyEntries, Ends, EndsView;
      NotAnEnd();
      EndAt(w, id);
      if id in clients.subs && clients.subs[id].rx.rxOpen {
        SubscriberStep(w, DropSub(id));
        hide Step;
        DropEnd(id, w.queue);
      } else {
        assert Step(w, DropSub(id)) == w;
      }
    }

    lemma NotAnEnd()
      ensures {this, database, streamer, streamer.manager, clients} !! Ends(clients.subs)
    {
    }

    lemma LedgersKnown(w: World)
      requires Shape(w)
      ensures w.ledgers.Keys == w.chans.Keys
    {
    }

    lemma EndAt(w: World, id: SubId)
      requires Simulates(w)
      ensures id in clients.subs <==> id in w.chans
      ensures id in w.chans ==> w.chans[id].rxOpen == clients.subs[id].rx.rxOpen
    {
      hide Shape, SameRound, SameQueue, OwnEnds, Known;
    }

    /** The main loop ends: what it holds goes with it. */
    method Stop()
      requires Wiring()
      modifies this, queue
      ensures Wiring() && !enabled && met == None && !queue.rxOpen && clients.View() == old(clients.View())
    {
      hide FreshIds, Known, Senders, TagsView, OwnChannels, Wired, NoEmptyEntries;
      enabled, met := false, None;
      queue.Close();
    }

    method PostShutdown(ghost q: seq<Message>) returns (sent: bool)
      requires Wiring() && enabled == queue.rxOpen && (enabled ==> SameQueue(clients.subs, q, queue.buf))
      modifies queue
      ensures Wiring() && clients.View() == old(clients.View()) && queue.rxOpen == old(queue.rxOpen)
      ensures sent == (enabled && |q| < CONTROL_QUEUE_CAPACITY)
      ensures sent ==> SameQueue(clients.subs, q + [ShutdownMsg], queue.buf)
    {
      hide FreshIds, OwnEnds, Known, SameQueue, Senders, TagsView, OwnChannels, Wired, NoEmptyEntries, EndsView;
      EndsApart(clients.subs, queue);
      if enabled {
        SameLength(clients.subs, q, queue.buf);
        PostKnown(queue.buf, ShutdownMessage, q, ShutdownMsg);
      }
      sent := queue.TrySend(ShutdownMessage);
    }

    /** The server goes: Shutdown is posted, or the task is aborted if the queue refuses it. */
    method DropNode(ghost w: World)
      requires Simulates(w)
      modifies this, queue
      ensures Simulates(Step(w, DropServer))
    {
      StepShape(w, DropServer);
      hide Shape, AddedIn, RemovedIn, FreshIds, DbInv, OwnEnds, Known, Senders, TagsView, OwnChannels, Wired,
           NoEmptyEntries, Ends, SameQueue, EndsView;
      var sent := PostShutdown(w.queue);
      if !sent {
        Stop();
      }
    }

    method TakeHead(ghost q: seq<Message>) returns (more: bool)
      requires Wiring() && queue.buf != [] && SameQueue(clients.subs, q, queue.buf)
      modifies streamer.manager, queue
      ensures Wiring() && queue.rxOpen == old(queue.rxOpen) && clients.View() == old(clients.View())
      ensures more == !old(queue.buf)[0].ShutdownMessage?
      ensures streamer.manager.View() == AfterMessage(old(streamer.manager.View()), old(queue.buf)[0])
      ensures q != [] && SameQueue(clients.subs, q[1..], queue.buf)
      ensures streamer.manager.events
           == old(streamer.manager.events)
              + LoggedBy(old(streamer.manager.View()), streamer.manager.View(), old(queue.buf)[0])
    {
      hide FreshIds, TagsView, OwnChannels, Wired, NoEmptyEntries, AfterMessage, LoggedBy;
      assert SameMessage(clients.subs, q[0], queue.buf[0]);
      more := streamer.TakeMessage();
    }

    method TakeControl(ghost w: World)
      requires Simulates(w)
      modifies this, streamer.manager, queue
      ensures Simulates(Step(w, Control))
    {
      hide Shape, FreshIds, DbInv, Step, OwnEnds, Known, SameQueue, Senders, TagsView, OwnChannels, Wired,
           NoEmptyEntries, Ends, EndsView, LoggedBy, AddedIn, RemovedIn, AfterMessage, SameMessage, SameRound;
      NotAnEnd();
      if enabled && queue.buf != [] {
        ghost var head, m := queue.buf[0], streamer.manager.View();
        HeadKnown(w);
        ControlStep(w, clients.subs, head);
        LogConcat(streamer.manager.events, LoggedBy(m, AfterMessage(m, head), head));
        NoRound(Step(w, Control));
        var more := TakeHead(w.queue);
        met := None;
        if !more {
          Stop();
        }
      } else {
        NothingTaken(w);
      }
    }

    lemma NothingTaken(w: World)
      requires Simulates(w) && !(enabled && queue.buf != [])
      ensures Step(w, Control) == w
    {
      hide Shape, FreshIds, DbInv, OwnEnds, Known, AddedIn, RemovedIn, EndsView, SameRound;
    }

    lemma HeadKnown(w: World)
      requires Simulates(w) && enabled && queue.buf != []
      ensures w.queue != [] && SameMessage(clients.subs, w.queue[0], queue.buf[0])
      ensures w.chans.Keys == clients.subs.Keys
      ensures forall id | id in clients.subs :: clients.subs[id].id == id && w.chans[id].tag == clients.subs[id].tag
    {
      hide Shape, FreshIds, DbInv, Known, AddedIn, RemovedIn, SameRound, SameMessage;
    }

    lemma MetNow(w: World)
      requires Simulates(w)
      ensures enabled == w.running && database.committed == w.db.committed
      ensures enabled ==> streamer.manager.tags.Keys == w.mgr.tags.Keys
    {
      hide Shape, SameRound, FreshIds, DbInv, OwnEnds, Known, SameQueue, AddedIn, RemovedIn, EndsView;
    }

    method StartRound(ghost w: World)
      requires Simulates(w)
      modifies this
      ensures Simulates(Step(w, RoundStart))
    {
      hide Shape, SameRound, Step, Holds;
      QueriesStep(w, RoundStart, met);
      MetNow(w);
      NotAnEnd();
      if enabled && met.None? {
        met := Some(map[]);
      }
    }

    method QueryTag(t: Tag, ghost w: World)
      requires Simulates(w)
      modifies this
      ensures Simulates(Step(w, RoundQuery(t)))
    {
      hide Shape, SameRound, Step, Holds;
      QueriesStep(w, RoundQuery(t), met);
      MetNow(w);
      NotAnEnd();
      if enabled && met.Some? && t in streamer.manager.tags && t !in met.value {
        met := Some(met.value[t := database.committed]);
      }
    }

    method CancelRound(ghost w: World)
      requires Simulates(w)
      modifies this
      ensures Simulates(Step(w, RoundFail))
    {
      hide Shape, SameRound, Step, Holds;
      QueriesStep(w, RoundFail, met);
      MetNow(w);
      NotAnEnd();
      met := None;
    }

    /** The manager's channels are those of the ends it knows. */
    lemma KnownView()
      requires Wiring()
      ensures streamer.manager.ChansView().Keys <= clients.View().Keys
      ensures forall id | id in streamer.manager.ChansView() :: streamer.manager.ChansView()[id] == clients.View()[id]
      ensures forall id | id in clients.subs && id !in streamer.manager.registry ::
                clients.subs[id].rx !in streamer.manager.Txs()
      ensures streamer.manager.Txs() <= Ends(clients.subs)
    {
      hide FreshIds, Wired, OwnChannels, NoEmptyEntries;
    }

    /** A round of the streamer, seen on all the clients' channels. */
    method RunRound(tables: map<Tag, Store>, ghost ups: Updates, ghost m: Manager, ghost all: Chans)
      returns (ghost log: seq<SubEvent>)
      requires Wiring() && all == clients.View() && streamer.manager.tags.Keys <= tables.Keys
      requires ups == RoundUpdates(streamer.manager.View(), Met(tables), streamer.manager.tags.Keys)
      requires m == UpdateCursors(streamer.manager.View(), ups)
      modifies streamer.manager, streamer.manager.Txs()
      ensures Wiring() && queue.buf == old(queue.buf) && queue.rxOpen == old(queue.rxOpen)
      ensures streamer.manager.View() == ForwardManager(m, all, ups)
      ensures clients.View() == ForwardChans(m, all, ups)
      ensures streamer.manager.events == old(streamer.manager.events) + log
      ensures RemovalsLogged(log, Evicted(m, all, ups))
    {
      hide FreshIds, OwnEnds, Known, Senders, TagsView, OwnChannels, Wired, NoEmptyEntries, RoundUpdates, UpdateCursors,
           ForwardManager, ForwardChans, Evicted, RemovalsLogged;
      ghost var known, reg := streamer.manager.ChansView(), streamer.manager.registry;
      RoundOnAll(ups, m);
      var res;
      res, log := streamer.FinishRound(Met(tables));
      KnownView();
      SameChans(reg.Keys, streamer.manager.ChansView(), all, clients.View(), ForwardChans(m, all, ups));
    }

    lemma RoundOnAll(ups: Updates, m: Manager)
      requires Wiring() && m == UpdateCursors(streamer.manager.View(), ups)
      ensures var all, known := clients.View(), streamer.manager.ChansView();
              && known.Keys == streamer.manager.registry.Keys
              && (forall id | id in clients.subs && id !in known :: clients.subs[id].rx !in streamer.manager.Txs())
              && ForwardManager(m, all, ups) == ForwardManager(m, known, ups)
              && Evicted(m, all, ups) == Evicted(m, known, ups)
              && forall id | id in all ::
                   ForwardChans(m, all, ups)[id] == if id in known then ForwardChans(m, known, ups)[id] else all[id]
    {
      hide FreshIds, OwnEnds, Known, Senders, TagsView, OwnChannels, Wired, NoEmptyEntries, EndsView, Ends,
           UpdateCursors, ForwardManager, ForwardChans, Evicted;
      KnownView();
      streamer.manager.ValidShape();
      UpdateCursorsShape(streamer.manager.View(), streamer.manager.ChansView(), ups);
      ForwardOnMore(m, streamer.manager.ChansView(), clients.View(), ups);
    }

    method FinishRound(ghost w: World)
      requires Simulates(w)
      modifies this, streamer.manager, Ends(clients.subs)
      ensures Simulates(Step(w, RoundFinish))
    {
      hide Shape, FreshIds, DbInv, Step, OwnEnds, Known, SameQueue, Senders, TagsView, OwnChannels, Wired,
           NoEmptyEntries, Ends, EndsView, AddedIn, RemovedIn, SameRound, RoundUpdates, UpdateCursors, ForwardManager,
           ForwardChans, Evicted, RemovalsLogged, BackpressureEvents, Met;
      NotAnEnd();
      MetNow(w);
      if enabled && met.Some? && streamer.manager.tags.Keys <= met.value.Keys {
        ghost var ups := RoundUpdates(w.mgr, Met(met.value), w.mgr.tags.Keys);
        ghost var m, before := UpdateCursors(w.mgr, ups), streamer.manager.events;
        FinishStep(w, met.value);
        KnownView();
        ghost var log := RunRound(met.value, ups, m, w.chans);
        LogConcat(before, log);
        LoggedEvictions(log, Evicted(m, w.chans, ups));
        NoRound(Step(w, RoundFinish));
        met := None;
      } else {
        NotFinishing(w, met);
      }
    }

    /** Whatever happens next, the objects go along with the world. */
    method Perform(a: Action, waker: Waker, ghost w: World)
      requires Simulates(w)
      modifies this, database, queue, streamer.manager, clients, Ends(clients.subs)
      ensures Simulates(Step(w, a))
      ensures fresh(Ends(clients.subs) - old(Ends(clients.subs)))
    {
      hide Simulates, Step;
      match a {
        case Database(act) => Execute(act, w);
        case Subscribe(id, tag) => OpenStream(id, tag, w);
        case Poll(id) => PollSub(id, waker, w);
        case DropSub(id) => LetGo(id, w);
        case DropServer => DropNode(w);
        case Control => TakeControl(w);
        case RoundStart => StartRound(w);
        case RoundQuery(t) => QueryTag(t, w);
        case RoundFail => CancelRound(w);
        case RoundFinish => FinishRound(w);
      }
    }

    /**
     The streamer's main loop among everything else: writers, arriving and leaving
     subscribers, polls, and the server going away, in any order. The objects end up in the
     state of the world's run, so every law of the runs is a law about them.
     */
    method Stream(schedule: seq<Action>, ghost w: World)
      requires Simulates(w)
      modifies this, database, queue, streamer.manager, clients, Ends(clients.subs)
      ensures Simulates(Run(w, schedule))
    {
      hide Simulates, Step;
      var k := 0;
      assert schedule[..0] == [];
      while k < |schedule|
        invariant k <= |schedule| && Simulates(Run(w, schedule[..k]))
        invariant fresh(Ends(clients.subs) - old(Ends(clients.subs)))
      {
        assert schedule[..k + 1][..k] == schedule[..k];
        Perform(schedule[k], k, Run(w, schedule[..k]));
        k := k + 1;
      }
      assert schedule[..k] == schedule;
    }
  }

  lemma NotFinishing(w: World, met: Option<map<Tag, Store>>)
    requires Shape(w) && SameRound(w.round, w.mgr, met)
    requires !(w.running && met.Some? && w.mgr.tags.Keys <= met.value.Keys)
    ensures Step(w, RoundFinish) == w
  {
    if w.running && met.Some? {
      var t :| t in w.mgr.tags.Keys && t !in met.value.Keys;
      assert t in w.round.value.todo;
    }
  }

  /** A round of the world that can finish, on the tables its queries have met. */
  lemma FinishStep(w: World, tables: map<Tag, Store>)
    requires Shape(w) && w.running && SameRound(w.round, w.mgr, Some(tables)) && w.mgr.tags.Keys <= tables.Keys
    ensures var w', ups := Step(w, RoundFinish), RoundUpdates(w.mgr, Met(tables), w.mgr.tags.Keys);
            var m := UpdateCursors(w.mgr, ups);
            && Shape(w') && w'.db == w.db && w'.running && w'.queue == w.queue && w'.round.None?
            && w'.mgr == ForwardManager(m, w.chans, ups) && w'.chans == ForwardChans(m, w.chans, ups)
            && w'.added == w.added
            && w'.removed == w.removed + BackpressureEvents(Evicted(m, w.chans, ups))
  {
    hide RoundUpdates, UpdateCursors, ForwardManager, ForwardChans, Evicted, Page, Advance, Shape, SentLedgers,
         HandledFeeds, UpdatesOf, BackpressureEvents;
    StepShape(w, RoundFinish);
    assert AnsweredOn(w, w.round.value.found, Met(tables));
    assert w.round.value.todo == {};
    WorldRoundIsActorRound(w, Met(tables));
  }

  lemma SameChans(ids: set<SubId>, known: Chans, all: Chans, now: Chans, then': Chans)
    requires known.Keys == ids && all.Keys == now.Keys == then'.Keys && ids <= all.Keys
    requires forall id | id in all :: now[id] == if id in ids then known[id] else all[id]
    requires forall id | id in all :: then'[id] == if id in ids then known[id] else all[id]
    ensures now == then'
  {
  }

  /** The tables met after a step of the query loop. */
  function NextMet(w: World, a: Action, met: Option<map<Tag, Store>>): Option<map<Tag, Store>> {
    match a
    case RoundStart => if w.running && met.None? then Some(map[]) else met
    case RoundQuery(t) =>
      if met.Some? && t in w.mgr.tags && t !in met.value then Some(met.value[t := w.db.committed]) else met
    case _ => None
  }

  lemma QueriesStep(w: World, a: Action, met: Option<map<Tag, Store>>)
    requires Shape(w) && SameRound(w.round, w.mgr, met) && (a.RoundStart? || a.RoundQuery? || a.RoundFail?)
    ensures var w' := Step(w, a);
            && Shape(w') && w' == w.(round := w'.round, feeds := w'.feeds)
            && SameRound(w'.round, w'.mgr, NextMet(w, a, met))
            && (met.Some? ==> w.running)
  {
    StepShape(w, a);
    hide Page, Advance, Homed, NoEmptyTags, QueuedIdsKnown;
    if a.RoundQuery? {
      QueryStep(w, a.tag, met);
    }
  }

  lemma QueryStep(w: World, t: Tag, met: Option<map<Tag, Store>>)
    requires Shape(w) && SameRound(w.round, w.mgr, met)
    ensures var w' := DoRoundQuery(w, t);
            && w' == w.(round := w'.round, feeds := w'.feeds)
            && SameRound(w'.round, w.mgr, NextMet(w, RoundQuery(t), met))
  {
    hide Page, Advance;
    assert w.feeds.Keys == w.mgr.tags.Keys;
    if met.Some? && t in w.mgr.tags && t !in met.value {
      assert t in w.round.value.todo;
      var e := DoRoundQuery(w, t).round.value.found[t];
      assert AnswerFrom(e, t, w.mgr.tags[t].cursor, w.db.committed);
    }
  }

  lemma NothingYet()
    ensures var w := Start(EMPTY_DB);
            && Shape(w) && SameRound(w.round, w.mgr, None) && Known(map[], map[]) && SameQueue(map[], w.queue, [])
            && AddedIn([]) == w.added && RemovedIn([]) == w.removed
  {
  }

  /** A round does to all channels what it does to those of whom the manager knows; of others it touches nothing. */
  lemma ForwardOnMore(m: Manager, known: Chans, all: Chans, ups: Updates)
    requires Homed(m, known) && known.Keys <= all.Keys
    requires forall id | id in known :: known[id] == all[id]
    ensures ForwardManager(m, all, ups) == ForwardManager(m, known, ups)
    ensures Evicted(m, all, ups) == Evicted(m, known, ups)
    ensures forall id | id in all ::
              ForwardChans(m, all, ups)[id] == if id in known then ForwardChans(m, known, ups)[id] else all[id]
  {
    forall id | id in all ensures Addressed(m, all, ups, id) <==> Addressed(m, known, ups, id) {
    }
    assert Addressees(m, all, ups) == Addressees(m, known, ups);
    assert Evicted(m, all, ups) == Evicted(m, known, ups);
  }

  lemma NoRound(w: World)
    requires w.round.None?
    ensures SameRound(w.round, w.mgr, None)
  {
  }

  lemma ControlStep(w: World, subs: Subs, b: StreamerMessage)
    requires Shape(w) && w.running && w.queue != [] && SameMessage(subs, w.queue[0], b)
    requires w.chans.Keys == subs.Keys && forall id | id in subs :: w.chans[id].tag == subs[id].tag
    requires forall id | id in subs :: subs[id].id == id
    ensures var w', mgr := Step(w, Control), AfterMessage(w.mgr, b);
            && Shape(w') && w'.db == w.db && w'.chans == w.chans && w'.round.None?
            && w'.running == !b.ShutdownMessage?
            && (w'.running ==> w'.mgr == mgr && w'.queue == w.queue[1..])
            && w'.added == w.added + AddedIn(LoggedBy(w.mgr, mgr, b))
            && w'.removed == w.removed + RemovedIn(LoggedBy(w.mgr, mgr, b))
  {
    hide AddSub, RemoveSub, UpdateWaker, ActiveIds, FeedsFor, AddedIn, RemovedIn, Homed, NoEmptyTags, Subscribed;
    StepShape(w, Control);
    PopShape(w);
    LogOne(LoggedBy(w.mgr, AfterMessage(w.mgr, b), b));
    hide Shape, QueuedIdsKnown;
    match b
    case AddSubMessage(sub) =>
    case RemoveSubMessage(id, tag, reason) => assert TagOf(w, id) == tag;
    case _ =>
  }

  lemma LogOne(log: seq<SubEvent>)
    requires |log| <= 1
    ensures AddedIn(log) == if log != [] && log[0].Added? then multiset{log[0].id} else multiset{}
    ensures RemovedIn(log) == if log != [] && log[0].Removed? then multiset{(log[0].id, log[0].reason)} else multiset{}
  {
    assert log[..0] == [];
  }

  lemma EndsApart(subs: Subs, queue: Mpsc<StreamerMessage>)
    requires OwnEnds(subs, queue)
    ensures queue !in Ends(subs)
  {
  }

  lemma SameLength(subs: Subs, q: seq<Message>, buf: seq<StreamerMessage>)
    ensures SameQueue(subs, q, buf) ==> |q| == |buf|
  {
  }

  lemma KnownMore(reg: Registry, subs: Subs, subs': Subs, q: seq<Message>, buf: seq<StreamerMessage>)
    requires Known(reg, subs) && forall id | id in subs :: id in subs' && subs'[id] == subs[id]
    ensures Known(reg, subs')
    ensures SameQueue(subs, q, buf) ==> SameQueue(subs', q, buf)
  {
  }

  /** The AddSub of a new subscriber is fresh: the manager and the queue know only earlier ones. */
  lemma PostNew(buf: seq<StreamerMessage>, reg: Registry, subs: Subs, q: seq<Message>, sub: Subface)
    requires FreshIds(buf, reg) && Known(reg, subs) && SameQueue(subs, q, buf)
    requires sub.id !in subs && sub.tx.capacity == SUB_CHANNEL_CAPACITY
    requires forall id | id in subs :: subs[id].rx != sub.tx
    ensures FreshIds(buf + [AddSubMessage(sub)], reg)
    ensures Senders(buf + [AddSubMessage(sub)]) == Senders(buf) + {sub.tx}
  {
    forall m | m in buf && m.AddSubMessage? ensures m.sub.id != sub.id && m.sub.tx != sub.tx {
      var i :| 0 <= i < |buf| && buf[i] == m;
      assert SameMessage(subs, q[i], buf[i]);
    }
    PostAdd(buf, reg, sub);
  }
}
