/** The control queue over runs of the streamer: what is posted, what is taken, and what ends the loop. */
module ControlQueue {
  import opened Transactions
  import opened Streamer
  import opened StreamWorld
  import opened Accounting

  /** What an action posts: at most one message, and nothing to a full queue or an ended streamer. */
  function Posted(w: World, a: Action): seq<Message> {
    if !QueueHasRoom(w) then []
    else
      match a
      case Subscribe(id, _) => if id in w.chans then [] else [AddSubMsg(id)]
      case Poll(id) =>
        if id in w.chans && id in w.ledgers && w.chans[id].rxOpen && w.chans[id].buf == [] && SenderAlive(w, id)
        then [WakerMsg(id)] else []
      case DropSub(id) => if id in w.chans && w.chans[id].rxOpen then [RemoveSubMsg(id, ClientDisconnect)] else []
      case DropServer => [ShutdownMsg]
      case _ => []
  }

  function Taken(w: World, a: Action): seq<Message> {
    if a.Control? && w.running && w.queue != [] then [w.queue[0]] else []
  }

  /** The server goes away while the queue is full: the task is aborted. */
  predicate Aborts(w: World, a: Action) {
    a.DropServer? && w.running && !QueueHasRoom(w)
  }

  function AllPosted(w: World, actions: seq<Action>): seq<Message> {
    if actions == [] then []
    else
      var front := actions[..|actions| - 1];
      AllPosted(w, front) + Posted(Run(w, front), actions[|actions| - 1])
  }

  function AllTaken(w: World, actions: seq<Action>): seq<Message> {
    if actions == [] then []
    else
      var front := actions[..|actions| - 1];
      AllTaken(w, front) + Taken(Run(w, front), actions[|actions| - 1])
  }

  ghost predicate Aborted(w: World, actions: seq<Action>) {
    exists i :: 0 <= i < |actions| && Aborts(Run(w, actions[..i]), actions[i])
  }

  /** One step: what is taken comes off the front, what is posted goes to the back. */
  lemma StepQueue(w: World, a: Action)
    requires w.running
    ensures var w' := Step(w, a);
            && (w'.running <==> Taken(w, a) != [ShutdownMsg] && !Aborts(w, a))
            && (w'.running ==> Taken(w, a) + w'.queue == w.queue + Posted(w, a))
            && Taken(w, a) <= w.queue
  {
    if a.Control? {
      ControlTakes(w);
    } else {
      hide SenderAlive, DoControl, ForwardManager, ForwardChans, SentLedgers, HandledFeeds, UpdatesOf, Evicted;
      assert [] + w.queue == w.queue == w.queue + [];
    }
  }

  lemma ControlTakes(w: World)
    requires w.running
    ensures var w' := DoControl(w);
            && (w'.running <==> Taken(w, Control) != [ShutdownMsg])
            && (w'.running ==> Taken(w, Control) + w'.queue == w.queue)
  {
    if w.queue != [] {
      assert w.queue == [w.queue[0]] + w.queue[1..];
    }
  }

  /** Apart from controls and finished rounds a step leaves the manager and every closed channel alone. */
  lemma PostingStep(w: World, a: Action, id: SubId)
    requires w.running && Step(w, a).running && !a.Control? && !a.RoundFinish?
    requires id in w.chans && !w.chans[id].rxOpen
    ensures var w' := Step(w, a);
            && w'.mgr == w.mgr && id in w'.chans && w'.chans[id] == w.chans[id]
            && w'.queue == w.queue + Posted(w, a) && |Posted(w, a)| <= 1
            && AddSubMsg(id) !in Posted(w, a) && RemoveSubMsg(id, ClientDisconnect) !in Posted(w, a)
            && RemoveSubMsg(id, Backpressure) !in Posted(w, a) && WakerMsg(id) !in Posted(w, a)
  {
    hide SenderAlive;
  }

  lemma StoppedStays(w: World, a: Action)
    requires !w.running
    ensures !Step(w, a).running && Posted(w, a) == [] == Taken(w, a) && !Aborts(w, a)
  {
  }

  /** The run so far, as far as the queue is concerned. */
  ghost predicate InTurn(first: seq<Message>, posted: seq<Message>, taken: seq<Message>, queue: seq<Message>,
                         running: bool)
  {
    && taken <= first + posted
    && (running ==> first + posted == taken + queue && ShutdownMsg !in taken)
    && (forall i | 0 <= i < |taken| && taken[i] == ShutdownMsg :: i == |taken| - 1)
  }

  lemma InTurnOneMore(first: seq<Message>, posted: seq<Message>, taken: seq<Message>, queue: seq<Message>,
                      post: seq<Message>, take: seq<Message>, queue': seq<Message>, running': bool)
    requires InTurn(first, posted, taken, queue, true)
    requires take <= queue && |take| <= 1
    requires running' ==> take + queue' == queue + post && take != [ShutdownMsg]
    ensures InTurn(first, posted + post, taken + take, queue', running')
    ensures ShutdownMsg in taken + take <==> take == [ShutdownMsg]
  {
    assert first + (posted + post) == taken + queue + post;
    assert queue == take + queue[|take|..];
    assert taken + queue + post == (taken + take) + (queue[|take|..] + post);
    if running' {
      assert taken + (queue + post) == (taken + take) + queue';
    }
  }

  /**
   Control messages over a run: they are taken in the order they were posted, none is
   lost, doubled or made up. The loop ends exactly when a Shutdown is taken or the task is
   aborted, and takes nothing after that.
   */
  lemma {:induction false} RunStopsAtShutdown(w: World, actions: seq<Action>)
    requires w.running
    ensures var w', taken, all := Run(w, actions), AllTaken(w, actions), w.queue + AllPosted(w, actions);
            && taken <= all
            && (w'.running ==> all == taken + w'.queue)
            && (w'.running <==> ShutdownMsg !in taken && !Aborted(w, actions))
            && (forall i | 0 <= i < |taken| && taken[i] == ShutdownMsg :: i == |taken| - 1)
  {
    if actions != [] {
      var front, a := actions[..|actions| - 1], actions[|actions| - 1];
      var mid := Run(w, front);
      RunStopsAtShutdown(w, front);
      AbortedOneMore(w, actions);
      assert |Taken(mid, a)| <= 1;
      hide Step, Posted, Taken, Aborts, Aborted;
      if mid.running {
        StepQueue(mid, a);
        InTurnOneMore(w.queue, AllPosted(w, front), AllTaken(w, front), mid.queue,
                      Posted(mid, a), Taken(mid, a), Step(mid, a).queue, Step(mid, a).running);
      } else {
        StoppedStays(mid, a);
        assert AllTaken(w, actions) == AllTaken(w, front) && AllPosted(w, actions) == AllPosted(w, front);
      }
    }
  }

  lemma AbortedOneMore(w: World, actions: seq<Action>)
    requires actions != []
    ensures var front := actions[..|actions| - 1];
            Aborted(w, actions) <==> Aborted(w, front) || Aborts(Run(w, front), actions[|actions| - 1])
  {
    hide Aborts, Run;
    var front := actions[..|actions| - 1];
    forall i | 0 <= i < |front| ensures actions[..i] == front[..i] && actions[i] == front[i] {
    }
    if Aborted(w, front) {
      var i :| 0 <= i < |front| && Aborts(Run(w, front[..i]), front[i]);
      assert Aborts(Run(w, actions[..i]), actions[i]);
    }
    if Aborts(Run(w, front), actions[|actions| - 1]) {
      assert Aborts(Run(w, actions[..|front|]), actions[|front|]);
    }
  }

  lemma PollPendings(w: World, x: SubId, id: SubId)
    requires w.ledgers.Keys == w.chans.Keys
    ensures var w', posted := DoPoll(w, x), multiset(Posted(w, Action.Poll(x)))[WakerMsg(id)];
            && (id in w.ledgers ==> id in w'.ledgers && w'.ledgers[id].pendings == w.ledgers[id].pendings + posted)
            && (id !in w.ledgers ==> posted == 0 && id !in w'.ledgers)
  {
    hide SenderAlive;
  }

  lemma OtherPendings(w: World, a: Action, id: SubId)
    requires !a.Poll? && w.ledgers.Keys == w.chans.Keys
    ensures WakerMsg(id) !in Posted(w, a)
    ensures id in w.ledgers ==>
              id in Step(w, a).ledgers && Step(w, a).ledgers[id].pendings == w.ledgers[id].pendings
    ensures id !in w.ledgers && id in Step(w, a).ledgers ==> Step(w, a).ledgers[id].pendings == 0
  {
    hide SenderAlive, ForwardManager, ForwardChans, FeedsFor, HandledFeeds, UpdatesOf, Evicted, AddSub, RemoveSub,
         UpdateCursors, BackpressureEvents, UpdateWaker, Subscribed, DoPoll;
  }

  /** Over every run the Pending polls of a subscriber are the Waker messages it posted. */
  lemma {:induction false} PendingsArePosted(d: Db, actions: seq<Action>, id: SubId)
    ensures var w, posted := Run(Start(d), actions), multiset(AllPosted(Start(d), actions))[WakerMsg(id)];
            if id in w.ledgers then w.ledgers[id].pendings == posted else posted == 0
  {
    if actions != [] {
      var front := actions[..|actions| - 1];
      RunShape(d, front);
      PendingsArePosted(d, front, id);
      var mid, a := Run(Start(d), front), actions[|actions| - 1];
      if a.Poll? {
        PollPendings(mid, a.id, id);
      } else {
        OtherPendings(mid, a, id);
      }
      hide Posted, Shape, DoPoll;
    }
  }
}
