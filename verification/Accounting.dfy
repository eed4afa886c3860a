/** Subscription accounting over every run of the streamer, ids being fresh. */
module Accounting {
  import opened Wrappers
  import opened Notes
  import opened Transactions
  import opened Streamer
  import opened StreamWorld

  function Joins(w: World, id: SubId): nat {
    multiset(w.queue)[AddSubMsg(id)] + w.added[id]
  }

  function RemovedEvents(w: World, id: SubId): nat {
    w.removed[(id, Backpressure)] + w.removed[(id, ClientDisconnect)]
  }

  function Active(m: Manager, id: SubId): nat {
    if id in ActiveIds(m) then 1 else 0
  }

  /** An id is added at most once; while the streamer runs, an added id is active or was removed, once. */
  ghost predicate AccountOf(w: World, id: SubId) {
    && Joins(w, id) <= 1
    && (id !in w.chans ==> Joins(w, id) == 0)
    && RemovedEvents(w, id) + Active(w.mgr, id) <= w.added[id]
    && (w.running ==> RemovedEvents(w, id) + Active(w.mgr, id) == w.added[id])
  }

  ghost predicate Totals(w: World) {
    w.running ==> |w.added| == |ActiveIds(w.mgr)| + |w.removed|
  }

  lemma PopCount<T>(q: seq<T>)
    requires q != []
    ensures multiset(q) == multiset{q[0]} + multiset(q[1..])
  {
    assert q == [q[0]] + q[1..];
  }

  lemma EventsPerEviction(gone: set<SubId>, id: SubId)
    ensures BackpressureEvents(gone)[(id, Backpressure)] == if id in gone then 1 else 0
    ensures BackpressureEvents(gone)[(id, ClientDisconnect)] == 0
  {
  }

  lemma {:induction false} EvictionCount(gone: set<SubId>)
    ensures |Evictions(gone)| == |gone|
  {
    if gone == {} {
      assert Evictions(gone) == {};
    } else {
      var x :| x in gone;
      EvictionCount(gone - {x});
      assert Evictions(gone) == Evictions(gone - {x}) + {(x, Backpressure)};
      assert (x, Backpressure) !in Evictions(gone - {x});
    }
  }

  lemma SizeOfDifference<T>(a: set<T>, b: set<T>)
    requires b <= a
    ensures |a - b| == |a| - |b|
  {
  }

  lemma AddAccountOf(w: World, added: SubId, id: SubId)
    requires Shape(w) && w.running && AccountOf(w, id) && added in w.chans
    requires id == added ==> Joins(w, id) == 0
    ensures AccountOf(HandleAdd(w, added), id)
  {
    AddSubShape(w.mgr, w.chans, added);
    AddSubActive(w.mgr, w.chans, added);
  }

  lemma RemoveAccountOf(w: World, gone: SubId, reason: Reason, id: SubId)
    requires Shape(w) && w.running && AccountOf(w, id) && gone in w.chans
    ensures AccountOf(HandleRemove(w, gone, reason), id)
  {
    RemoveSubShape(w.mgr, w.chans, gone);
    RemoveSubActive(w.mgr, w.chans, gone);
    ActiveIsSubscribed(w.mgr, w.chans, gone);
  }

  lemma SameTagsSameActive(m: Manager, m': Manager)
    requires m.tags == m'.tags
    ensures ActiveIds(m) == ActiveIds(m')
  {
  }

  /** What a control message does to the account of any id. */
  lemma ControlAccountOf(w: World, id: SubId)
    requires Shape(w) && AccountOf(w, id)
    ensures AccountOf(DoControl(w), id)
  {
    if w.running && w.queue != [] {
      var msg := w.queue[0];
      var w1 := w.(queue := w.queue[1..], round := None);
      PopShape(w);
      PopCount(w.queue);
      assert Joins(w1, id) <= Joins(w, id);
      match msg
      case AddSubMsg(x) => AddAccountOf(w1, x, id);
      case RemoveSubMsg(x, reason) => RemoveAccountOf(w1, x, reason, id);
      case WakerMsg(x) => SameTagsSameActive(w.mgr, UpdateWaker(w.mgr, x));
      case ShutdownMsg => StopAccountOf(w1, id);
    }
  }

  lemma StopAccountOf(w: World, id: SubId)
    requires AccountOf(w, id)
    ensures AccountOf(Stopped(w), id)
  {
  }

  lemma FinishAccountOf(w: World, id: SubId)
    requires Shape(w) && AccountOf(w, id)
    ensures AccountOf(DoRoundFinish(w), id)
  {
    if w.running && w.round.Some? && w.round.value.todo == {} {
      var ups := UpdatesOf(w.round.value.found);
      var m := UpdateCursors(w.mgr, ups);
      UpdateCursorsShape(w.mgr, w.chans, ups);
      ForwardShape(m, w.chans, ups);
      EventsPerEviction(Evicted(m, w.chans, ups), id);
      ActiveIsSubscribed(m, w.chans, id);
    }
  }

  lemma SubscribeAccountOf(w: World, x: SubId, tag: Tag, id: SubId)
    requires Shape(w) && AccountOf(w, id)
    ensures AccountOf(DoSubscribe(w, x, tag), id)
  {
  }

  lemma PollAccountOf(w: World, x: SubId, id: SubId)
    requires Shape(w) && AccountOf(w, id)
    ensures AccountOf(DoPoll(w, x), id)
  {
  }

  lemma DropAccountOf(w: World, x: SubId, id: SubId)
    requires Shape(w) && AccountOf(w, id)
    ensures AccountOf(DoDropSub(w, x), id)
  {
  }

  lemma StepAccountOf(w: World, a: Action, id: SubId)
    requires Shape(w) && AccountOf(w, id)
    ensures AccountOf(Step(w, a), id)
  {
    match a
    case Control => ControlAccountOf(w, id);
    case RoundFinish => FinishAccountOf(w, id);
    case Subscribe(x, tag) => SubscribeAccountOf(w, x, tag, id);
    case Poll(x) => PollAccountOf(w, x, id);
    case DropSub(x) => DropAccountOf(w, x, id);
    case DropServer => StopAccountOf(w, id);
    case _ =>
  }

  lemma ControlTotals(w: World)
    requires Shape(w) && Totals(w)
    requires w.queue != [] && !w.queue[0].ShutdownMsg? ==> AccountOf(w, w.queue[0].id)
    ensures Totals(DoControl(w))
  {
    if w.running && w.queue != [] {
      var msg := w.queue[0];
      PopShape(w);
      PopCount(w.queue);
      if msg.AddSubMsg? {
        AddSubShape(w.mgr, w.chans, msg.id);
        AddSubActive(w.mgr, w.chans, msg.id);
        assert msg.id !in ActiveIds(w.mgr);
      } else if msg.RemoveSubMsg? {
        RemoveSubShape(w.mgr, w.chans, msg.id);
        RemoveSubActive(w.mgr, w.chans, msg.id);
        ActiveIsSubscribed(w.mgr, w.chans, msg.id);
        if msg.id in ActiveIds(w.mgr) {
          SizeOfDifference(ActiveIds(w.mgr), {msg.id});
        } else {
          assert ActiveIds(w.mgr) - {msg.id} == ActiveIds(w.mgr);
        }
      }
    }
  }

  lemma FinishTotals(w: World)
    requires Shape(w) && Totals(w)
    ensures Totals(DoRoundFinish(w))
  {
    if w.running && w.round.Some? && w.round.value.todo == {} {
      var ups := UpdatesOf(w.round.value.found);
      var m := UpdateCursors(w.mgr, ups);
      var gone := Evicted(m, w.chans, ups);
      UpdateCursorsShape(w.mgr, w.chans, ups);
      ForwardShape(m, w.chans, ups);
      EvictionCount(gone);
      forall id | id in gone ensures id in ActiveIds(m) {
        ActiveIsSubscribed(m, w.chans, id);
      }
      SizeOfDifference(ActiveIds(m), gone);
    }
  }

  lemma StepTotals(w: World, a: Action)
    requires Shape(w) && Totals(w)
    requires w.queue != [] && !w.queue[0].ShutdownMsg? ==> AccountOf(w, w.queue[0].id)
    ensures Totals(Step(w, a))
  {
    match a
    case Control => ControlTotals(w);
    case RoundFinish => FinishTotals(w);
    case _ =>
  }

  lemma {:induction false} RunShape(d: Db, actions: seq<Action>)
    ensures Shape(Run(Start(d), actions))
  {
    if actions != [] {
      RunShape(d, actions[..|actions| - 1]);
      StepShape(Run(Start(d), actions[..|actions| - 1]), actions[|actions| - 1]);
    }
  }

  lemma {:induction false} RunAccountOf(d: Db, actions: seq<Action>, id: SubId)
    ensures AccountOf(Run(Start(d), actions), id)
  {
    if actions != [] {
      RunShape(d, actions[..|actions| - 1]);
      RunAccountOf(d, actions[..|actions| - 1], id);
      StepAccountOf(Run(Start(d), actions[..|actions| - 1]), actions[|actions| - 1], id);
    }
  }

  lemma {:induction false} RunTotals(d: Db, actions: seq<Action>)
    ensures Totals(Run(Start(d), actions))
  {
    if actions == [] {
      assert ActiveIds(NO_SUBS) == {};
    } else {
      var mid := Run(Start(d), actions[..|actions| - 1]);
      RunShape(d, actions[..|actions| - 1]);
      RunTotals(d, actions[..|actions| - 1]);
      if mid.queue != [] && !mid.queue[0].ShutdownMsg? {
        RunAccountOf(d, actions[..|actions| - 1], mid.queue[0].id);
      }
      StepTotals(mid, actions[|actions| - 1]);
    }
  }

  /**
   Over every run: no tracked tag is without subscribers, an id is listed under one tag
   at most, each subscription has at most one added and one removed event whatever the
   reason, and while the streamer runs the active subscriptions are the added events
   less the removed ones.
   */
  lemma {:induction false} SubscriptionAccounting(d: Db, actions: seq<Action>, id: SubId, t1: Tag, t2: Tag)
    ensures var w := Run(Start(d), actions);
            && NoEmptyTags(w.mgr)
            && (Subscribed(w.mgr, id, t1) && Subscribed(w.mgr, id, t2) ==> t1 == t2)
            && RemovedEvents(w, id) <= w.added[id] <= 1
            && (w.running ==> |ActiveIds(w.mgr)| == |w.added| - |w.removed|)
            && (w.running ==> (id in ActiveIds(w.mgr) <==> w.added[id] == 1 && RemovedEvents(w, id) == 0))
  {
    RunShape(d, actions);
    RunAccountOf(d, actions, id);
    RunTotals(d, actions);
  }
}
