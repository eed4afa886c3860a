/**
 What becomes of a subscriber that goes away. Its removal message travels through the
 control queue behind whatever is there, its own AddSub perhaps included; a queue that is
 full refuses it, and then only a registered waker can still get it evicted.
 */
module Departure {
  import opened Notes
  import opened Transactions
  import opened Streamer
  import opened StreamWorld
  import opened Accounting
  import opened Credit
  import opened ControlQueue

  // ------------------------------------------------------------ removed by message

  /** One of the first n queued messages is its removal, and no AddSub of it comes after. */
  ghost predicate RemovalWithin(queue: seq<Message>, id: SubId, n: nat) {
    exists i :: 0 <= i < n && i < |queue| && queue[i].RemoveSubMsg? && queue[i].id == id
                && forall j | i < j < |queue| :: queue[j] != AddSubMsg(id)
  }

  /** The receiver is closed, and no sender is left or none will be after n control messages. */
  ghost predicate LeavingWithin(w: World, id: SubId, n: nat) {
    && id in w.chans && !w.chans[id].rxOpen
    && (!SenderAlive(w, id) || RemovalWithin(w.queue, id, n))
  }

  predicate Gone(w: World, id: SubId) {
    id in w.chans && !w.chans[id].rxOpen && !SenderAlive(w, id)
  }

  function Less(n: nat, a: Action): nat {
    if a.Control? && n > 0 then n - 1 else n
  }

  lemma AppendKeepsRemoval(queue: seq<Message>, more: seq<Message>, id: SubId, n: nat)
    requires RemovalWithin(queue, id, n) && AddSubMsg(id) !in more
    ensures RemovalWithin(queue + more, id, n)
  {
    var i :| 0 <= i < n && i < |queue| && queue[i].RemoveSubMsg? && queue[i].id == id
             && forall j | i < j < |queue| :: queue[j] != AddSubMsg(id);
    assert (queue + more)[i] == queue[i];
  }

  /** Who is subscribed after a control message: whom it adds, and who was, unless it removes it. */
  lemma ControlSubscribes(w: World, id: SubId)
    requires Shape(w) && w.running && w.queue != [] && id in w.chans
    ensures var w', msg, t := DoControl(w), w.queue[0], w.chans[id].tag;
            && w'.chans == w.chans && w'.running == !msg.ShutdownMsg?
            && (w'.running ==>
                  && w'.queue == w.queue[1..]
                  && (Subscribed(w'.mgr, id, t) <==>
                        msg == AddSubMsg(id) || (Subscribed(w.mgr, id, t) && !(msg.RemoveSubMsg? && msg.id == id)))
                  && (id in w'.mgr.wakers <==> id in w.mgr.wakers || msg == WakerMsg(id)))
  {
    PopShape(w);
  }

  lemma ControlLeaves(w: World, id: SubId, n: nat)
    requires Shape(w) && LeavingWithin(w, id, n) && w.running
    ensures DoControl(w).running ==> LeavingWithin(DoControl(w), id, Less(n, Control))
  {
    if w.queue != [] {
      hide Shape, DoControl, Subscribed;
      ControlSubscribes(w, id);
      var rest := w.queue[1..];
      assert w.queue == [w.queue[0]] + rest;
      if SenderAlive(w, id) {
        var i :| 0 <= i < n && i < |w.queue| && w.queue[i].RemoveSubMsg? && w.queue[i].id == id
                 && forall j | i < j < |w.queue| :: w.queue[j] != AddSubMsg(id);
        if i > 0 {
          assert rest[i - 1] == w.queue[i];
          assert RemovalWithin(rest, id, n - 1);
        }
      }
    }
  }

  lemma FinishLeaves(w: World, id: SubId, n: nat)
    requires Shape(w) && LeavingWithin(w, id, n)
    ensures LeavingWithin(DoRoundFinish(w), id, n)
  {
    if w.running && w.round.Some? && w.round.value.todo == {} {
      var ups := UpdatesOf(w.round.value.found);
      var m := UpdateCursors(w.mgr, ups);
      UpdateCursorsShape(w.mgr, w.chans, ups);
      DropSubsEffect(m, w.chans, Evicted(m, w.chans, ups));
    }
  }

  lemma StepLeaves(w: World, a: Action, id: SubId, n: nat)
    requires Shape(w) && LeavingWithin(w, id, n) && w.running
    ensures Step(w, a).running ==> LeavingWithin(Step(w, a), id, Less(n, a))
  {
    match a
    case Control => ControlLeaves(w, id, n);
    case RoundFinish => FinishLeaves(w, id, n);
    case _ =>
      if Step(w, a).running {
        PostingLeaves(w, a, id, n);
      }
  }

  lemma PostingLeaves(w: World, a: Action, id: SubId, n: nat)
    requires w.running && Step(w, a).running && !a.Control? && !a.RoundFinish? && LeavingWithin(w, id, n)
    ensures LeavingWithin(Step(w, a), id, n)
  {
    PostingStep(w, a, id);
    hide Step, Posted, Subscribed;
    if RemovalWithin(w.queue, id, n) {
      AppendKeepsRemoval(w.queue, Posted(w, a), id, n);
    }
  }

  function Controls(actions: seq<Action>): nat {
    if actions == [] then 0
    else Controls(actions[..|actions| - 1]) + if actions[|actions| - 1].Control? then 1 else 0
  }

  function Minus(n: nat, k: nat): nat {
    if n < k then 0 else n - k
  }

  lemma {:induction false} RunLeaves(w: World, actions: seq<Action>, id: SubId, n: nat)
    requires Shape(w) && LeavingWithin(w, id, n)
    ensures Shape(Run(w, actions))
    ensures Run(w, actions).running ==> LeavingWithin(Run(w, actions), id, Minus(n, Controls(actions)))
  {
    if actions != [] {
      var front, a := actions[..|actions| - 1], actions[|actions| - 1];
      RunLeaves(w, front, id, n);
      StepShape(Run(w, front), a);
      if Run(w, front).running {
        StepLeaves(Run(w, front), a, id, Minus(n, Controls(front)));
      } else {
        StoppedStays(Run(w, front), a);
      }
    }
  }

  /** The streamer has ended, or one of the first n queued messages ends it. */
  ghost predicate StopsWithin(w: World, n: nat) {
    !w.running || exists i :: 0 <= i < n && i < |w.queue| && w.queue[i].ShutdownMsg?
  }

  lemma StepStops(w: World, a: Action, n: nat)
    requires StopsWithin(w, n)
    ensures StopsWithin(Step(w, a), Less(n, a))
  {
    if w.running {
      var i :| 0 <= i < n && i < |w.queue| && w.queue[i].ShutdownMsg?;
      StepQueue(w, a);
      hide Step, Posted;
      if Step(w, a).running {
        assert (Taken(w, a) + Step(w, a).queue)[i] == w.queue[i];
      }
    }
  }

  lemma {:induction false} RunStops(w: World, actions: seq<Action>, n: nat)
    requires StopsWithin(w, n)
    ensures StopsWithin(Run(w, actions), Minus(n, Controls(actions)))
  {
    if actions != [] {
      RunStops(w, actions[..|actions| - 1], n);
      StepStops(Run(w, actions[..|actions| - 1]), actions[|actions| - 1],
                Minus(n, Controls(actions[..|actions| - 1])));
    }
  }

  function ControlsOnly(k: nat): seq<Action> {
    seq(k, i => Control)
  }

  /** It is served on: nothing queued removes it or ends the streamer. */
  ghost predicate Undisturbed(w: World, id: SubId) {
    && w.running && SenderAlive(w, id) && ShutdownMsg !in w.queue
    && forall m | m in w.queue :: !(m.RemoveSubMsg? && m.id == id)
  }

  lemma {:induction false} ControlsLeaveUndisturbed(w: World, id: SubId, k: nat)
    requires Shape(w) && Undisturbed(w, id)
    ensures Controls(ControlsOnly(k)) == k
    ensures Shape(Run(w, ControlsOnly(k))) && Undisturbed(Run(w, ControlsOnly(k)), id)
  {
    if k > 0 {
      ControlsLeaveUndisturbed(w, id, k - 1);
      var mid := Run(w, ControlsOnly(k - 1));
      assert ControlsOnly(k)[..k - 1] == ControlsOnly(k - 1);
      StepShape(mid, Control);
      UndisturbedControl(mid, id);
    }
  }

  lemma UndisturbedControl(w: World, id: SubId)
    requires Shape(w) && Undisturbed(w, id)
    ensures Undisturbed(DoControl(w), id)
  {
    if w.queue != [] {
      hide Shape, DoControl, Subscribed;
      ControlSubscribes(w, id);
      assert w.queue == [w.queue[0]] + w.queue[1..];
    }
  }

  /** However a run goes on, the subscriber is gone once that many control messages are taken. */
  ghost predicate RemovedInTime(w: World, id: SubId, n: nat) {
    forall actions | Run(w, actions).running && Controls(actions) >= n :: Gone(Run(w, actions), id)
  }

  /** A subscriber that is listed, or about to be, and still there. */
  predicate LiveSub(w: World, id: SubId) {
    w.running && id in w.chans && w.chans[id].rxOpen && SenderAlive(w, id)
  }

  /**
   In every reachable state, for a subscriber already added or not: after it drops it is
   gone in every run by the time the streamer has taken the messages then queued, exactly
   when the queue had room, or when one of those messages ends the streamer anyway.
   */
  lemma {:induction false} DropIsRemovedIff(d: Db, before: seq<Action>, id: SubId)
    requires LiveSub(Run(Start(d), before), id)
    ensures var w := Run(Start(d), before);
            RemovedInTime(Step(w, DropSub(id)), id, |w.queue| + 1) <==> |w.queue| < 128 || ShutdownMsg in w.queue
  {
    var w := Run(Start(d), before);
    RunShape(d, before);
    RunRemovals(d, before);
    hide Run, Shape, RemovedInTime, RemovalsAreOfDropped;
    if QueueHasRoom(w) {
      RoomRemoves(w, id);
    } else if ShutdownMsg in w.queue {
      ShutdownRemoves(w, id);
    } else {
      NothingRemoves(w, id);
    }
  }

  lemma RoomRemoves(w: World, id: SubId)
    requires Shape(w) && LiveSub(w, id) && QueueHasRoom(w)
    ensures RemovedInTime(Step(w, DropSub(id)), id, |w.queue| + 1)
  {
    var w', n := Step(w, DropSub(id)), |w.queue| + 1;
    StepShape(w, DropSub(id));
    assert w'.queue[|w.queue|] == RemoveSubMsg(id, ClientDisconnect);
    assert LeavingWithin(w', id, n);
    hide Step, Shape, Run, LeavingWithin;
    forall actions | Run(w', actions).running && Controls(actions) >= n ensures Gone(Run(w', actions), id) {
      RunLeaves(w', actions, id, n);
      LeftIsGone(Run(w', actions), id);
    }
  }

  lemma LeftIsGone(w: World, id: SubId)
    requires LeavingWithin(w, id, 0)
    ensures Gone(w, id)
  {
  }

  lemma ShutdownRemoves(w: World, id: SubId)
    requires ShutdownMsg in w.queue && LiveSub(w, id) && !QueueHasRoom(w)
    ensures RemovedInTime(Step(w, DropSub(id)), id, |w.queue| + 1)
  {
    var w', n := Step(w, DropSub(id)), |w.queue| + 1;
    assert StopsWithin(w', n);
    hide Step, Run;
    forall actions ensures Controls(actions) >= n ==> !Run(w', actions).running {
      RunStops(w', actions, n);
    }
  }

  lemma NothingRemoves(w: World, id: SubId)
    requires Shape(w) && RemovalsAreOfDropped(w)
    requires LiveSub(w, id) && !QueueHasRoom(w) && ShutdownMsg !in w.queue
    ensures !RemovedInTime(Step(w, DropSub(id)), id, |w.queue| + 1)
  {
    var w', n := Step(w, DropSub(id)), |w.queue| + 1;
    StepShape(w, DropSub(id));
    ControlsLeaveUndisturbed(w', id, n);
    var actions := ControlsOnly(n);
    assert Run(w', actions).running && Controls(actions) >= n;
  }

  // ---------------------------------------------- what a refused message leaves behind

  /** It went away and is listed or about to be, and no message will remove it. */
  ghost predicate Stranded(w: World, id: SubId) {
    && w.running && id in w.chans && !w.chans[id].rxOpen && SenderAlive(w, id)
    && forall m | m in w.queue :: !(m.RemoveSubMsg? && m.id == id)
  }

  predicate WakerLeft(w: World, id: SubId) {
    id in w.mgr.wakers || WakerMsg(id) in w.queue
  }

  /** A round that reaches its closed channel: its tag has an update and its waker is registered. */
  predicate Reaches(w: World, a: Action, id: SubId) {
    && a.RoundFinish? && w.running && w.round.Some? && w.round.value.todo == {} && id in w.chans
    && Addressed(w.mgr, w.chans, UpdatesOf(w.round.value.found), id)
  }

  lemma StrandedControl(w: World, id: SubId)
    requires Shape(w) && Stranded(w, id)
    ensures DoControl(w).running ==>
              Stranded(DoControl(w), id) && (WakerLeft(DoControl(w), id) <==> WakerLeft(w, id))
  {
    if w.queue != [] {
      hide Shape, DoControl, Subscribed;
      ControlSubscribes(w, id);
      assert w.queue == [w.queue[0]] + w.queue[1..];
    }
  }

  lemma StrandedFinish(w: World, id: SubId)
    requires Shape(w) && Stranded(w, id) && AccountOf(w, id)
    ensures if Reaches(w, RoundFinish, id) then Gone(DoRoundFinish(w), id)
            else Stranded(DoRoundFinish(w), id) && (WakerLeft(DoRoundFinish(w), id) <==> WakerLeft(w, id))
  {
    if w.round.Some? && w.round.value.todo == {} {
      var ups, t := UpdatesOf(w.round.value.found), w.chans[id].tag;
      var m := UpdateCursors(w.mgr, ups);
      UpdateCursorsShape(w.mgr, w.chans, ups);
      ActiveIsSubscribed(w.mgr, w.chans, id);
      if Subscribed(m, id, t) {
        ForwardFates(m, w.chans, ups, id, t);
      }
    }
  }

  /**
   A stranded subscriber is removed by a step exactly if that is a round that reaches it;
   its waker is used up by nothing else.
   */
  lemma StepStranded(w: World, a: Action, id: SubId)
    requires Shape(w) && Stranded(w, id) && AccountOf(w, id)
    ensures Step(w, a).running ==>
              if Reaches(w, a, id) then Gone(Step(w, a), id)
              else Stranded(Step(w, a), id) && (WakerLeft(Step(w, a), id) <==> WakerLeft(w, id))
  {
    match a
    case Control => StrandedControl(w, id);
    case RoundFinish => StrandedFinish(w, id);
    case _ =>
      if Step(w, a).running {
        PostingStep(w, a, id);
        hide Step, Posted, Shape, Subscribed;
      }
  }

  /** Went away unnoticed: stranded without a waker. */
  ghost predicate Forgotten(w: World, id: SubId) {
    Stranded(w, id) && !WakerLeft(w, id)
  }

  /**
   What a drop does, in every reachable state: a queue with room takes the removal; a
   full one strands the subscriber, and forgets it exactly when no waker of it is
   registered or queued.
   */
  lemma {:induction false} DropForgetsIff(d: Db, before: seq<Action>, id: SubId)
    requires LiveSub(Run(Start(d), before), id)
    ensures var w := Run(Start(d), before); var w' := Step(w, DropSub(id));
            && (LeavingWithin(w', id, |w'.queue|) <==> |w.queue| < 128)
            && (Stranded(w', id) <==> |w.queue| >= 128)
            && (Forgotten(w', id) <==> |w.queue| >= 128 && !WakerLeft(w, id))
  {
    var w := Run(Start(d), before);
    RunShape(d, before);
    RunRemovals(d, before);
    var w' := Step(w, DropSub(id));
    if QueueHasRoom(w) {
      assert w'.queue[|w.queue|] == RemoveSubMsg(id, ClientDisconnect);
      assert w'.queue[|w.queue|] in w'.queue;
    }
  }

  ghost predicate Reached(w: World, actions: seq<Action>, id: SubId) {
    exists i :: 0 <= i < |actions| && Reaches(Run(w, actions[..i]), actions[i], id)
  }

  lemma ReachedOneMore(w: World, actions: seq<Action>, id: SubId)
    requires actions != []
    ensures var front := actions[..|actions| - 1];
            Reached(w, actions, id) <==> Reached(w, front, id) || Reaches(Run(w, front), actions[|actions| - 1], id)
  {
    hide Reaches, Run;
    var front := actions[..|actions| - 1];
    forall i | 0 <= i < |front| ensures actions[..i] == front[..i] && actions[i] == front[i] {
    }
    if Reached(w, front, id) {
      var i :| 0 <= i < |front| && Reaches(Run(w, front[..i]), front[i], id);
      assert Reaches(Run(w, actions[..i]), actions[i], id);
    }
    if Reaches(Run(w, front), actions[|actions| - 1], id) {
      assert Reaches(Run(w, actions[..|front|]), actions[|front|], id);
    }
  }

  /**
   From then on a stranded subscriber stays listed in every run until a round reaches it;
   that is the only way out, and open only while a waker is left.
   */
  lemma {:induction false} StrandedUntilReached(w: World, actions: seq<Action>, id: SubId)
    requires Shape(w) && AccountOf(w, id) && Stranded(w, id)
    ensures var w' := Run(w, actions);
            && Shape(w') && AccountOf(w', id)
            && (w'.running ==>
                  if Reached(w, actions, id) then Gone(w', id) && WakerLeft(w, id)
                  else Stranded(w', id) && (WakerLeft(w', id) <==> WakerLeft(w, id)))
  {
    if actions != [] {
      var front, a := actions[..|actions| - 1], actions[|actions| - 1];
      var mid := Run(w, front);
      hide Step, Shape, AccountOf, Gone, Stranded, WakerLeft, Reached;
      StrandedUntilReached(w, front, id);
      ReachedOneMore(w, actions, id);
      StepShape(mid, a);
      StepAccountOf(mid, a, id);
      if !mid.running {
        StoppedStays(mid, a);
      } else if Reached(w, front, id) {
        GoneStays(mid, a, id);
      } else {
        StepStranded(mid, a, id);
        ReachesWithWaker(mid, a, id);
      }
    }
  }

  lemma ReachesWithWaker(w: World, a: Action, id: SubId)
    ensures Reaches(w, a, id) ==> WakerLeft(w, id)
  {
  }

  lemma GoneStays(w: World, a: Action, id: SubId)
    requires Shape(w) && w.running && Gone(w, id)
    ensures Step(w, a).running ==> Gone(Step(w, a), id)
  {
    StepLeaves(w, a, id, 0);
  }

  /** Forgotten, it stays listed, or about to be, in every run for as long as the streamer runs. */
  lemma {:induction false} ForgottenStays(w: World, actions: seq<Action>, id: SubId)
    requires Shape(w) && AccountOf(w, id) && Forgotten(w, id)
    ensures Run(w, actions).running ==> Forgotten(Run(w, actions), id)
  {
    StrandedUntilReached(w, actions, id);
  }

  // ------------------------------------------------------------- a leak is reachable

  function Crowd(first: nat, n: nat, tag: Tag): seq<Action>
    requires first + n <= U64_LIMIT
  {
    seq(n, i requires 0 <= i < n => Subscribe(first + i, tag))
  }

  /** Fresh subscribers fill the queue behind what is in it, and change nothing of the others. */
  lemma {:induction false} CrowdFills(w: World, first: nat, n: nat, tag: Tag)
    requires w.running && |w.queue| + n <= CONTROL_QUEUE_CAPACITY && first + n <= U64_LIMIT
    requires forall id | id in w.chans :: id < first
    ensures var w' := Run(w, Crowd(first, n, tag));
            && w'.running && w'.mgr == w.mgr && |w'.queue| == |w.queue| + n
            && w.queue <= w'.queue && (forall m | m in w'.queue[|w.queue|..] :: m.AddSubMsg? && m.id >= first)
            && (forall id | id in w.chans :: id in w'.chans && w'.chans[id] == w.chans[id])
            && (forall id | id in w'.chans :: id < first + n)
  {
    if n > 0 {
      CrowdFills(w, first, n - 1, tag);
      assert Crowd(first, n, tag)[..n - 1] == Crowd(first, n - 1, tag);
    }
  }

  lemma {:induction false} RunConcat(w: World, a: seq<Action>, b: seq<Action>)
    ensures Run(w, a + b) == Run(Run(w, a), b)
  {
    if b == [] {
      assert a + b == a;
    } else {
      assert (a + b)[..|a + b| - 1] == a + b[..|b| - 1];
      RunConcat(w, a, b[..|b| - 1]);
    }
  }

  lemma RunOne(w: World, a: Action)
    ensures Run(w, [a]) == Step(w, a)
  {
    assert Run(w, [a][..0]) == w;
  }

  /** One subscribes and is added, or not yet. */
  function Opening(added: bool, tag: Tag): seq<Action> {
    [Subscribe(0, tag)] + if added then [Control] else []
  }

  /** Then others fill the queue, and it goes away. */
  function LeakyRun(added: bool, tag: Tag): seq<Action> {
    Opening(added, tag) + Crowd(1, CONTROL_QUEUE_CAPACITY - (if added then 0 else 1), tag) + [DropSub(0)]
  }

  lemma {:induction false} AfterOpening(d: Db, added: bool, tag: Tag)
    ensures var w := Run(Start(d), Opening(added, tag));
            && w.running && w.chans == map[0 := Chan(tag, [], true)] && w.mgr.wakers == {}
            && w.queue == (if added then [] else [AddSubMsg(0)])
            && (added ==> Subscribed(w.mgr, 0, tag))
  {
    var one := Run(Start(d), [Subscribe(0, tag)]);
    RunOne(Start(d), Subscribe(0, tag));
    assert one.queue == [AddSubMsg(0)] && one.chans == map[0 := Chan(tag, [], true)] && one.mgr == NO_SUBS;
    if added {
      RunConcat(Start(d), [Subscribe(0, tag)], [Control]);
      RunOne(one, Control);
    } else {
      assert Opening(added, tag) == [Subscribe(0, tag)];
    }
  }

  lemma {:induction false} LiveBehindCrowd(d: Db, added: bool, tag: Tag)
    ensures var w := Run(Start(d), LeakyRun(added, tag)[..|LeakyRun(added, tag)| - 1]);
            LiveSub(w, 0) && !QueueHasRoom(w) && !WakerLeft(w, 0)
  {
    var n := CONTROL_QUEUE_CAPACITY - if added then 0 else 1;
    var w := Run(Start(d), Opening(added, tag));
    AfterOpening(d, added, tag);
    assert LeakyRun(added, tag)[..|LeakyRun(added, tag)| - 1] == Opening(added, tag) + Crowd(1, n, tag);
    RunConcat(Start(d), Opening(added, tag), Crowd(1, n, tag));
    hide Crowd, Opening, LeakyRun, Run;
    CrowdFills(w, 1, n, tag);
    var w' := Run(w, Crowd(1, n, tag));
    assert w'.queue == w.queue + w'.queue[|w.queue|..];
    assert !added ==> w'.queue[0] == AddSubMsg(0);
  }

  /**
   Leaks are reachable from every database, with the AddSub handled or still queued: the
   subscriber went away, and however the run goes on it is listed, or about to be, as long
   as the streamer runs.
   */
  lemma {:induction false} LeakIsReachable(d: Db, added: bool, tag: Tag, more: seq<Action>)
    ensures Forgotten(Run(Start(d), LeakyRun(added, tag)), 0)
    ensures var w := Run(Start(d), LeakyRun(added, tag) + more);
            w.running ==> Forgotten(w, 0)
  {
    var leaky := LeakyRun(added, tag);
    LiveBehindCrowd(d, added, tag);
    DropForgetsIff(d, leaky[..|leaky| - 1], 0);
    RunShape(d, leaky);
    RunAccountOf(d, leaky, 0);
    RunConcat(Start(d), leaky, more);
    ForgottenStays(Run(Start(d), leaky), more, 0);
  }
}
