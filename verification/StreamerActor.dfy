/**
 The streamer as the program has it: a manager object with mutable maps, channels shared
 between the manager and the subscribers, and the loops over them. Each operation is
 proved to do to the maps and channels what `Streamer` says.
 */
module StreamerActor {
  import opened Wrappers
  import opened Notes
  import opened Store
  import opened Streamer

  /** A bounded channel: what is queued, and whether its receiver still exists. */
  class Mpsc<T> {
    const capacity: nat
    var buf: seq<T>
    var rxOpen: bool

    constructor (capacity: nat)
      ensures this.capacity == capacity && buf == [] && rxOpen
    {
      this.capacity := capacity;
      buf, rxOpen := [], true;
    }

    method TrySend(x: T) returns (ok: bool)
      modifies this
      ensures ok == (old(rxOpen) && |old(buf)| < capacity)
      ensures rxOpen == old(rxOpen)
      ensures buf == if ok then old(buf) + [x] else old(buf)
    {
      ok := rxOpen && |buf| < capacity;
      if ok { buf := buf + [x]; }
    }

    method Receive() returns (x: T)
      requires buf != []
      modifies this
      ensures [x] + buf == old(buf) && rxOpen == old(rxOpen)
    {
      x := buf[0];
      buf := buf[1..];
    }

    method Close()
      modifies this
      ensures !rxOpen && buf == old(buf)
    {
      rxOpen := false;
    }
  }

  /** A waker of the runtime: an opaque token. */
  type Waker = nat

  datatype Subface = Subface(id: SubId, tag: Tag, tx: Mpsc<Batch>)

  datatype TagEntry = TagEntry(cursor: nat, subs: map<SubId, Mpsc<Batch>>)

  datatype StreamerMessage =
    | AddSubMessage(sub: Subface)
    | RemoveSubMessage(id: SubId, tag: Tag, reason: Reason)
    | WakerMessage(id: SubId, waker: Waker)
    | ShutdownMessage

  /** The lifecycle log, with the number of active subscriptions it reports. */
  datatype SubEvent = Added(id: SubId, active: nat) | Removed(id: SubId, active: nat, reason: Reason)

  datatype Update = Update(tag: Tag, batch: Batch)

  ghost predicate DistinctTags(us: seq<Update>) {
    forall i, j | 0 <= i < j < |us| :: us[i].tag != us[j].tag
  }

  function ToMap(us: seq<Update>): Updates {
    if us == [] then map[]
    else ToMap(us[..|us| - 1])[us[|us| - 1].tag := us[|us| - 1].batch]
  }

  function TagsIn(us: seq<Update>): set<Tag> {
    set u | u in us :: u.tag
  }

  lemma {:induction false} ToMapTags(us: seq<Update>)
    ensures ToMap(us).Keys == TagsIn(us)
  {
    if us != [] {
      var front, last := us[..|us| - 1], us[|us| - 1];
      ToMapTags(front);
      assert us == front + [last];
      assert TagsIn(us) == TagsIn(front) + {last.tag};
    }
  }

  lemma EmptyToMap()
    ensures ToMap([]) == map[]
  {
  }

  lemma ToMapOneMore(us: seq<Update>, i: nat)
    requires i < |us| && DistinctTags(us)
    ensures ToMap(us[..i + 1]) == ToMap(us[..i])[us[i].tag := us[i].batch]
    ensures us[i].tag !in ToMap(us[..i])
  {
    assert us[..i + 1][..i] == us[..i];
    ToMapTags(us[..i]);
    assert forall u | u in us[..i] :: u.tag != us[i].tag;
  }

  function TagsView(tags: map<Tag, TagEntry>): (r: map<Tag, TagData>)
    ensures r.Keys == tags.Keys
  {
    map t | t in tags :: TagData(tags[t].cursor, tags[t].subs.Keys)
  }

  lemma ViewSet(tags: map<Tag, TagEntry>, t: Tag, e: TagEntry)
    ensures TagsView(tags[t := e]) == TagsView(tags)[t := TagData(e.cursor, e.subs.Keys)]
  {
  }

  /** The ids listed under some of the tags. */
  function ListedUnder(m: Manager, done: set<Tag>): set<SubId> {
    set t, id | t in m.tags && t in done && id in m.tags[t].subs :: id
  }

  lemma ListedOneMore(m: Manager, chans: Chans, done: set<Tag>, t: Tag)
    requires Homed(m, chans) && t in m.tags && t !in done
    ensures ListedUnder(m, done + {t}) == ListedUnder(m, done) + m.tags[t].subs
    ensures |ListedUnder(m, done + {t})| == |ListedUnder(m, done)| + |m.tags[t].subs|
  {
    var a, b, c := ListedUnder(m, done), m.tags[t].subs, ListedUnder(m, done + {t});
    forall id ensures id in c <==> id in a + b {
      if id in a + b { assert id in chans; }
    }
    assert c == a + b;
    forall id | id in a ensures id !in b {
      assert chans[id].tag != t;
    }
    assert a !! b;
  }

  /** The snapshot each tag's query happens to meet; `None` if the query fails. */
  type Snapshots = Tag -> Option<Store>

  /** The updates of the tags queried so far, each page read on the snapshot its query met. */
  function RoundUpdates(m: Manager, snapshots: Snapshots, done: set<Tag>): Updates {
    map t | t in m.tags && t in done && snapshots(t).Some? && Page(snapshots(t).value, {t}, m.tags[t].cursor) != [] ::
      Batch(Page(snapshots(t).value, {t}, m.tags[t].cursor),
            Advance(m.tags[t].cursor, Page(snapshots(t).value, {t}, m.tags[t].cursor)))
  }

  lemma RoundUpdatesOneMore(m: Manager, snapshots: Snapshots, done: set<Tag>, t: Tag)
    requires t in m.tags && t !in done && snapshots(t).Some?
    ensures var rows := Page(snapshots(t).value, {t}, m.tags[t].cursor);
            RoundUpdates(m, snapshots, done + {t})
            == if rows == [] then RoundUpdates(m, snapshots, done)
               else RoundUpdates(m, snapshots, done)[t := Batch(rows, Advance(m.tags[t].cursor, rows))]
  {
  }

  lemma NoCursorsYet(m: Manager)
    ensures UpdateCursors(m, ToMap([])) == m
  {
  }

  lemma NoUpdatesYet(m: Manager, snapshots: Snapshots)
    ensures RoundUpdates(m, snapshots, {}) == map[]
  {
  }

  lemma UpdateCursorsOneMore(m: Manager, ups: Updates, t: Tag, b: Batch)
    requires t !in ups
    ensures UpdateCursors(m, ups[t := b])
         == if t in m.tags
            then var mid := UpdateCursors(m, ups); mid.(tags := mid.tags[t := TagData(b.cursor, mid.tags[t].subs)])
            else UpdateCursors(m, ups)
  {
  }

  type Registry = map<SubId, Subface>

  ghost predicate OwnChannels(reg: Registry) {
    && (forall id | id in reg :: reg[id].id == id && reg[id].tx.capacity == SUB_CHANNEL_CAPACITY)
    && (forall i, j | i in reg && j in reg && i != j :: reg[i].tx != reg[j].tx)
  }

  /** Each listed sender is the registered channel of its subscriber, under its own tag. */
  ghost predicate Wired(tags: map<Tag, TagEntry>, reg: Registry) {
    forall t, id | t in tags && id in tags[t].subs ::
      id in reg && reg[id].tag == t && reg[id].tx == tags[t].subs[id]
  }

  ghost predicate NoEmptyEntries(tags: map<Tag, TagEntry>) {
    forall t | t in tags :: tags[t].subs.Keys != {}
  }

  function AddEntry(tags: map<Tag, TagEntry>, sub: Subface): map<Tag, TagEntry> {
    var entry := if sub.tag in tags then tags[sub.tag] else TagEntry(0, map[]);
    tags[sub.tag := TagEntry(entry.cursor, entry.subs[sub.id := sub.tx])]
  }

  function DropEntry(tags: map<Tag, TagEntry>, id: SubId, tag: Tag): map<Tag, TagEntry> {
    if tag !in tags then tags
    else
      var left := tags[tag].subs - {id};
      if left.Keys == {} then tags - {tag} else tags[tag := TagEntry(tags[tag].cursor, left)]
  }

  lemma AddEntryView(tags: map<Tag, TagEntry>, reg: Registry, wakers: set<SubId>, sub: Subface)
    requires Wired(tags, reg) && NoEmptyEntries(tags) && sub.id !in reg
    ensures Wired(AddEntry(tags, sub), reg[sub.id := sub]) && NoEmptyEntries(AddEntry(tags, sub))
    ensures Manager(TagsView(AddEntry(tags, sub)), wakers)
         == Streamer.AddSub(Manager(TagsView(tags), wakers), sub.id, sub.tag)
  {
    var entry := if sub.tag in tags then tags[sub.tag] else TagEntry(0, map[]);
    var joined := TagEntry(entry.cursor, entry.subs[sub.id := sub.tx]);
    ViewSet(tags, sub.tag, joined);
    var td := if sub.tag in tags then TagsView(tags)[sub.tag] else TagData(0, {});
    assert joined.subs.Keys == td.subs + {sub.id};
  }

  lemma DropEntryView(tags: map<Tag, TagEntry>, reg: Registry, wakers: set<SubId>, id: SubId, tag: Tag)
    requires Wired(tags, reg) && NoEmptyEntries(tags)
    ensures Wired(DropEntry(tags, id, tag), reg) && NoEmptyEntries(DropEntry(tags, id, tag))
    ensures Manager(TagsView(DropEntry(tags, id, tag)), wakers)
         == Streamer.RemoveSub(Manager(TagsView(tags), wakers), id, tag)
  {
  }

  lemma OwnOneMore(reg: Registry, sub: Subface)
    requires OwnChannels(reg) && sub.tx.capacity == SUB_CHANNEL_CAPACITY
    requires sub.id !in reg && forall id | id in reg :: reg[id].tx != sub.tx
    ensures OwnChannels(reg[sub.id := sub])
  {
  }

  lemma WiredAt(tags: map<Tag, TagEntry>, reg: Registry, t: Tag, id: SubId)
    requires Wired(tags, reg) && t in tags && id in tags[t].subs
    ensures id in reg && reg[id].tx == tags[t].subs[id]
  {
  }

  lemma HomedByTags(m: Manager, m': Manager, chans: Chans)
    requires Homed(m, chans) && m'.tags == m.tags
    ensures Homed(m', chans)
    ensures forall id, t :: Subscribed(m', id, t) <==> Subscribed(m, id, t)
  {
  }

  lemma SetCursorView(tags: map<Tag, TagEntry>, reg: Registry, tag: Tag, cursor: nat)
    requires Wired(tags, reg) && NoEmptyEntries(tags) && tag in tags
    ensures var tags' := tags[tag := TagEntry(cursor, tags[tag].subs)];
            && Wired(tags', reg) && NoEmptyEntries(tags')
            && TagsView(tags') == TagsView(tags)[tag := TagData(cursor, tags[tag].subs.Keys)]
            && TagsView(tags)[tag].subs == tags[tag].subs.Keys
  {
  }

  /** The sum the log lines report. */
  method CountSubs(tags: map<Tag, TagEntry>, ghost m: Manager, ghost chans: Chans) returns (active: nat)
    requires m.tags == TagsView(tags) && Homed(m, chans)
    ensures active == |ActiveIds(m)|
  {
    active := 0;
    var todo := tags.Keys;
    ghost var done: set<Tag> := {};
    while todo != {}
      invariant done + todo == m.tags.Keys && done !! todo
      invariant active == |ListedUnder(m, done)|
    {
      var t :| t in todo;
      ListedOneMore(m, chans, done, t);
      active := active + |tags[t].subs.Keys|;
      todo, done := todo - {t}, done + {t};
    }
    assert done == m.tags.Keys;
    ListedAll(m);
  }

  lemma ListedAll(m: Manager)
    ensures ListedUnder(m, m.tags.Keys) == ActiveIds(m)
  {
  }

  class NoteStreamerManager {
    var tags: map<Tag, TagEntry>
    var wakers: map<SubId, Waker>
    var events: seq<SubEvent>
    /** Every subscription that was ever added, by id. */
    ghost var registry: Registry

    ghost function Txs(): set<object> reads this {
      set id | id in registry :: registry[id].tx
    }

    ghost function View(): Manager reads this {
      Manager(TagsView(tags), wakers.Keys)
    }

    ghost function ChansView(): Chans reads this, Txs() {
      map id | id in registry :: Chan(registry[id].tag, registry[id].tx.buf, registry[id].tx.rxOpen)
    }

    ghost predicate Valid() reads this {
      OwnChannels(registry) && Wired(tags, registry) && NoEmptyEntries(tags)
    }

    lemma ValidShape()
      requires Valid()
      ensures Homed(View(), ChansView()) && NoEmptyTags(View())
    {
    }

    constructor ()
      ensures Valid() && View() == NO_SUBS && registry == map[] && events == []
    {
      tags, wakers, events, registry := map[], map[], [], map[];
    }

    /** A new subscription, of fresh id, joins its tag; an untracked tag starts at cursor 0. */
    method AddSub(sub: Subface)
      requires Valid()
      requires sub.id !in registry && sub.tx !in Txs() && sub.tx.capacity == SUB_CHANNEL_CAPACITY
      modifies this
      ensures Valid()
      ensures registry == old(registry)[sub.id := sub] && wakers == old(wakers)
      ensures View() == Streamer.AddSub(old(View()), sub.id, sub.tag)
      ensures events == old(events) + [Added(sub.id, |ActiveIds(View())|)]
    {
      hide Wired, NoEmptyEntries, OwnChannels;
      OwnOneMore(registry, sub);
      AddEntryView(tags, registry, wakers.Keys, sub);
      var entry := if sub.tag in tags then tags[sub.tag] else TagEntry(0, map[]);
      tags := tags[sub.tag := TagEntry(entry.cursor, entry.subs[sub.id := sub.tx])];
      registry := registry[sub.id := sub];
      ValidShape();
      var active := CountSubs(tags, View(), ChansView());
      events := events + [Added(sub.id, active)];
    }

    /** Only a subscription that is present is removed and logged; its tag goes with its last one. */
    method RemoveSub(id: SubId, tag: Tag, reason: Reason)
      requires Valid()
      modifies this`tags, this`events
      ensures Valid()
      ensures View() == Streamer.RemoveSub(old(View()), id, tag)
      ensures events == if Subscribed(old(View()), id, tag)
                        then old(events) + [Removed(id, |ActiveIds(View())|, reason)] else old(events)
    {
      hide Wired, OwnChannels, NoEmptyEntries;
      DropEntryView(tags, registry, wakers.Keys, id, tag);
      if tag in tags {
        var present := id in tags[tag].subs;
        var left := tags[tag].subs - {id};
        tags := if left.Keys == {} then tags - {tag} else tags[tag := TagEntry(tags[tag].cursor, left)];
        if present {
          ValidShape();
          var active := CountSubs(tags, View(), ChansView());
          events := events + [Removed(id, active, reason)];
        }
      }
    }

    method UpdateWaker(id: SubId, waker: Waker)
      requires Valid()
      modifies this`wakers
      ensures Valid() && wakers == old(wakers)[id := waker]
      ensures View() == Streamer.UpdateWaker(old(View()), id)
    {
      wakers := wakers[id := waker];
    }

    /** The cursor after a batch. */
    method BatchCursor(cursor: nat, rows: seq<Row>) returns (c: nat)
      ensures c == Advance(cursor, rows)
    {
      c := cursor;
      var i := 0;
      while i < |rows|
        invariant i <= |rows| && c == Advance(cursor, rows[..i])
      {
        assert rows[..i + 1][..i] == rows[..i];
        c := Max(c, rows[i].seqno);
        i := i + 1;
      }
      assert rows[..i] == rows;
    }

    /**
     Query every tracked tag. One failure fails the round; otherwise the updates are the
     non-empty pages above the tags' cursors. Nothing is changed either way.
     */
    method QueryUpdates(snapshots: Snapshots) returns (res: Result<seq<Update>, DbError>)
      requires Valid()
      ensures res.Err? <==> exists t :: t in tags && snapshots(t).None?
      ensures res.Ok? ==> DistinctTags(res.value)
      ensures res.Ok? ==> ToMap(res.value) == RoundUpdates(View(), snapshots, tags.Keys)
    {
      hide Wired, OwnChannels, NoEmptyEntries, RoundUpdates;
      var updates: seq<Update> := [];
      var todo := tags.Keys;
      ghost var m, done: set<Tag> := View(), {};
      assert ToMap(updates) == RoundUpdates(m, snapshots, {}) by { NoUpdatesYet(m, snapshots); }
      while todo != {}
        invariant todo <= tags.Keys && done == tags.Keys - todo && DistinctTags(updates)
        invariant forall t | t in done :: snapshots(t).Some?
        invariant TagsIn(updates) <= done
        invariant ToMap(updates) == RoundUpdates(m, snapshots, done)
      {
        var t :| t in todo;
        if snapshots(t).None? {
          return Err(Unavailable);
        }
        RoundUpdatesOneMore(m, snapshots, done, t);
        todo, done := todo - {t}, done + {t};
        var rows := Page(snapshots(t).value, {t}, tags[t].cursor);
        var cursor := BatchCursor(tags[t].cursor, rows);
        if rows != [] {
          var u := Update(t, Batch(rows, cursor));
          PushUpdate(updates, u);
          updates := updates + [u];
        }
      }
      assert done == tags.Keys;
      res := Ok(updates);
    }

    method UpdateTimestamps(updates: seq<Update>)
      requires Valid() && DistinctTags(updates)
      modifies this`tags
      ensures Valid() && View() == UpdateCursors(old(View()), ToMap(updates))
    {
      hide Wired, OwnChannels, NoEmptyEntries, UpdateCursors, ToMap, TagsView, DistinctTags;
      var i := 0;
      ghost var m := View();
      NoCursorsYet(m);
      while i < |updates|
        invariant i <= |updates| && Valid()
        invariant View() == UpdateCursors(m, ToMap(updates[..i]))
      {
        var u := updates[i];
        ToMapOneMore(updates, i);
        UpdateCursorsOneMore(m, ToMap(updates[..i]), u.tag, u.batch);
        if u.tag in tags {
          SetCursorView(tags, registry, u.tag, u.batch.cursor);
          tags := tags[u.tag := TagEntry(u.batch.cursor, tags[u.tag].subs)];
        }
        i := i + 1;
      }
      assert updates[..i] == updates;
    }

    /** One `try_send`: of all channels only that subscriber's changes. */
    method SendTo(id: SubId, tx: Mpsc<Batch>, batch: Batch) returns (ok: bool)
      requires Valid() && id in registry && registry[id].tx == tx
      modifies tx
      ensures ok == CanSend(old(ChansView())[id])
      ensures ChansView() == old(ChansView())[id := Pushed(old(ChansView())[id], batch)]
    {
      ok := tx.TrySend(batch);
    }

    /** One turn of the inner loop: the waker is taken whether or not the send succeeds. */
    method ForwardToSub(id: SubId, tx: Mpsc<Batch>, batch: Batch, ghost chans: Chans, ghost ready: set<SubId>)
      returns (ok: bool)
      requires Valid() && id in registry && registry[id].tx == tx && id in wakers && id !in ready
      requires ChansView() == PushTo(chans, ready, batch)
      modifies this`wakers, tx
      ensures wakers == old(wakers) - {id}
      ensures ChansView() == PushTo(chans, ready + {id}, batch)
      ensures FailedIn(chans, ready + {id}) == FailedIn(chans, ready) + if ok then {} else {id}
    {
      hide Wired, OwnChannels, NoEmptyEntries, FailedIn, PushTo, CanSend;
      wakers := wakers - {id};
      PushOneMore(chans, ready, id, batch);
      ok := SendTo(id, tx, batch);
    }

    /**
     The inner loop: take the waker of each subscriber of the tag and send it the batch;
     who refuses is to be removed.
     */
    method ForwardToTag(tag: Tag, batch: Batch) returns (failed: set<SubId>)
      requires Valid() && tag in tags
      modifies this`wakers, Txs()
      ensures wakers == old(wakers) - tags[tag].subs.Keys
      ensures ChansView() == PushTo(old(ChansView()), tags[tag].subs.Keys * old(wakers).Keys, batch)
      ensures failed == FailedIn(old(ChansView()), tags[tag].subs.Keys * old(wakers).Keys)
    {
      hide Wired, OwnChannels, NoEmptyEntries, PushTo, FailedIn;
      var subs := tags[tag].subs;
      var todo := subs.Keys;
      ghost var chans, done: set<SubId> := ChansView(), {};
      failed := {};
      PushNobody(chans, batch);
      assert {} * old(wakers).Keys == {};
      while todo != {}
        invariant todo <= subs.Keys && done == subs.Keys - todo
        invariant wakers == old(wakers) - done
        invariant ChansView() == PushTo(chans, done * old(wakers).Keys, batch)
        invariant failed == FailedIn(chans, done * old(wakers).Keys)
      {
        var id :| id in todo;
        TakeOne(old(wakers), subs.Keys, todo, id);
        if id in wakers {
          WiredAt(tags, registry, tag, id);
          var ok := ForwardToSub(id, subs[id], batch, chans, done * old(wakers).Keys);
          if !ok { failed := failed + {id}; }
        }
        todo, done := todo - {id}, done + {id};
      }
      assert done == subs.Keys;
    }

    /** The outer loop's body: an update of a tag that is no longer tracked is skipped. */
    method ForwardUpdate(u: Update, failed: map<SubId, Tag>, ghost m: Manager, ghost chans: Chans, ghost ups: Updates)
      returns (failed': map<SubId, Tag>)
      requires Valid() && TagsView(tags) == m.tags && Homed(m, chans) && u.tag !in ups
      requires Forwarded(m, chans, ups, wakers.Keys, ChansView(), failed)
      modifies this`wakers, Txs()
      ensures Forwarded(m, chans, ups[u.tag := u.batch], wakers.Keys, ChansView(), failed')
    {
      hide Wired, OwnChannels, NoEmptyEntries, PushTo, FailedIn, ForwardChans, Addressees, Evicted, Homed, Subscribed;
      if u.tag in tags {
        ForwardOneMore(m, chans, ups, u.tag, u.batch);
        assert m.tags[u.tag].subs == tags[u.tag].subs.Keys;
        ghost var ready, mid := m.tags[u.tag].subs * wakers.Keys, ChansView();
        var refused := ForwardToTag(u.tag, u.batch);
        FailedSubscribed(m, mid, u.tag, ready);
        failed' := failed + map id | id in refused :: u.tag;
        assert failed'.Keys == failed.Keys + refused;
      } else {
        ForwardUntracked(m, chans, ups, u.tag, u.batch);
        failed' := failed;
      }
    }

    /**
     Forward each update to its tag's subscribers, then remove those a send failed. In
     whatever order the maps are walked, the outcome is that of `Streamer`, and the log
     has one backpressure removal for each subscriber removed.
     */
    method ForwardUpdates(updates: seq<Update>) returns (ghost log: seq<SubEvent>)
      requires Valid() && DistinctTags(updates)
      modifies this, Txs()
      ensures Valid() && registry == old(registry)
      ensures View() == ForwardManager(old(View()), old(ChansView()), ToMap(updates))
      ensures ChansView() == ForwardChans(old(View()), old(ChansView()), ToMap(updates))
      ensures events == old(events) + log
      ensures RemovalsLogged(log, Evicted(old(View()), old(ChansView()), ToMap(updates)))
    {
      hide Wired, OwnChannels, NoEmptyEntries, ForwardChans, Addressees, Evicted, DropSubs, RemovalsLogged, Homed,
           ToMap, DistinctTags, TagsView, NoEmptyTags, CanSend, FreshIds;
      ghost var m, chans := View(), ChansView();
      ValidShape();
      ForwardNothing(m, chans);
      assert ToMap([]) == map[] by { EmptyToMap(); }
      var failed: map<SubId, Tag> := map[];
      var i := 0;
      while i < |updates|
        invariant i <= |updates|
        invariant tags == old(tags) && registry == old(registry) && events == old(events)
        invariant Forwarded(m, chans, ToMap(updates[..i]), wakers.Keys, ChansView(), failed)
      {
        ToMapOneMore(updates, i);
        failed := ForwardUpdate(updates[i], failed, m, chans, ToMap(updates[..i]));
        i := i + 1;
      }
      assert updates[..i] == updates;
      HomedByTags(m, View(), chans);
      log := RemoveFailed(failed, chans);
    }

    /** The deferred removals. */
    method RemoveFailed(failed: map<SubId, Tag>, ghost chans: Chans) returns (ghost log: seq<SubEvent>)
      requires Valid() && Homed(View(), chans)
      requires forall id | id in failed :: Subscribed(View(), id, failed[id])
      modifies this`tags, this`events
      ensures Valid()
      ensures View() == Manager(DropSubs(old(View()).tags, failed.Keys), old(View()).wakers)
      ensures events == old(events) + log && RemovalsLogged(log, failed.Keys)
    {
      hide *;
      ghost var m := View();
      ghost var gone: set<SubId> := {};
      var todo := failed.Keys;
      log := [];
      DropNobody(m);
      NothingLogged();
      while todo != {}
        invariant todo <= failed.Keys && gone == failed.Keys - todo
        invariant Valid() && View() == Manager(DropSubs(m.tags, gone), m.wakers)
        invariant events == old(events) + log && RemovalsLogged(log, gone)
      {
        var id :| id in todo;
        var e := RemoveOne(id, failed[id], m, chans, gone);
        LogOneMore(log, gone, e);
        AppendAssoc(old(events), log, e);
        log := log + [e];
        todo, gone := todo - {id}, gone + {id};
      }
      assert gone == failed.Keys;
    }

    method RemoveOne(id: SubId, tag: Tag, ghost m: Manager, ghost chans: Chans, ghost gone: set<SubId>)
      returns (ghost e: SubEvent)
      requires Valid() && Homed(m, chans) && View() == Manager(DropSubs(m.tags, gone), m.wakers)
      requires Subscribed(m, id, tag) && id !in gone
      modifies this`tags, this`events
      ensures Valid() && View() == Manager(DropSubs(m.tags, gone + {id}), m.wakers)
      ensures events == old(events) + [e] && e.Removed? && e.reason == Backpressure && e.id == id
    {
      hide Wired, OwnChannels, NoEmptyEntries, DropSubs, Homed, Streamer.RemoveSub;
      DropOneMore(m, chans, gone, id, tag);
      RemoveSub(id, tag, Backpressure);
      e := events[|events| - 1];
    }
  }

  /** How far the outer loop has come: the given updates are forwarded and those a send failed are noted. */
  ghost predicate Forwarded(
    m: Manager, chans: Chans, ups: Updates, wakers: set<SubId>, now: Chans, failed: map<SubId, Tag>)
  {
    && wakers == m.wakers - Addressees(m, chans, ups)
    && now == ForwardChans(m, chans, ups)
    && failed.Keys == Evicted(m, chans, ups)
    && (forall id | id in failed :: Subscribed(m, id, failed[id]))
  }

  lemma FailedSubscribed(m: Manager, mid: Chans, tag: Tag, ready: set<SubId>)
    requires tag in m.tags && ready <= m.tags[tag].subs
    ensures forall id | id in FailedIn(mid, ready) :: Subscribed(m, id, tag)
  {
  }

  /** One turn of the walk over a tag's subscribers. */
  lemma TakeOne(wakers: map<SubId, Waker>, subs: set<SubId>, todo: set<SubId>, id: SubId)
    requires todo <= subs && id in todo
    ensures var done := subs - todo;
            && subs - (todo - {id}) == done + {id} && id !in done
            && (id in wakers - done <==> id in wakers)
            && (wakers - done) - {id} == wakers - (done + {id})
            && (id !in wakers ==> wakers - done == wakers - (done + {id}))
            && (done + {id}) * wakers.Keys == if id in wakers then done * wakers.Keys + {id} else done * wakers.Keys
  {
  }

  /** One backpressure removal event for each of the given subscribers, and nothing else. */
  ghost predicate RemovalsLogged(log: seq<SubEvent>, gone: set<SubId>) {
    && |log| == |gone|
    && (forall i | 0 <= i < |log| :: log[i].Removed? && log[i].reason == Backpressure && log[i].id in gone)
    && (forall i, j | 0 <= i < j < |log| :: log[i].id != log[j].id)
  }

  lemma AppendAssoc<T>(a: seq<T>, b: seq<T>, x: T)
    ensures (a + b) + [x] == a + (b + [x])
  {
  }

  lemma NothingLogged()
    ensures RemovalsLogged([], {})
  {
  }

  lemma LogOneMore(log: seq<SubEvent>, gone: set<SubId>, e: SubEvent)
    requires RemovalsLogged(log, gone) && e.Removed? && e.reason == Backpressure && e.id !in gone
    ensures RemovalsLogged(log + [e], gone + {e.id})
  {
  }

  lemma PushUpdate(us: seq<Update>, u: Update)
    requires DistinctTags(us) && u.tag !in TagsIn(us)
    ensures DistinctTags(us + [u])
    ensures ToMap(us + [u]) == ToMap(us)[u.tag := u.batch]
    ensures TagsIn(us + [u]) == TagsIn(us) + {u.tag}
  {
  }

  // ------------------------------------------------------------------ the actor

  function AfterMessage(m: Manager, msg: StreamerMessage): Manager {
    match msg
    case AddSubMessage(sub) => Streamer.AddSub(m, sub.id, sub.tag)
    case RemoveSubMessage(id, tag, _) => Streamer.RemoveSub(m, id, tag)
    case WakerMessage(id, _) => Streamer.UpdateWaker(m, id)
    case ShutdownMessage => m
  }

  /** The log line of a control message that led from one manager to the next. */
  ghost function LoggedBy(before: Manager, after: Manager, msg: StreamerMessage): seq<SubEvent> {
    match msg
    case AddSubMessage(sub) => [Added(sub.id, |ActiveIds(after)|)]
    case RemoveSubMessage(id, tag, reason) =>
      if Subscribed(before, id, tag) then [Removed(id, |ActiveIds(after)|, reason)] else []
    case _ => []
  }

  /** Subscription ids are fresh, and each comes with a channel of its own. */
  ghost predicate FreshIds(queue: seq<StreamerMessage>, reg: Registry) {
    && (forall i | 0 <= i < |queue| && queue[i].AddSubMessage? ::
          && queue[i].sub.id !in reg && queue[i].sub.tx.capacity == SUB_CHANNEL_CAPACITY
          && forall id | id in reg :: reg[id].tx != queue[i].sub.tx)
    && (forall i, j | 0 <= i < j < |queue| && queue[i].AddSubMessage? && queue[j].AddSubMessage? ::
          queue[i].sub.id != queue[j].sub.id && queue[i].sub.tx != queue[j].sub.tx)
  }

  lemma FreshIdsPop(queue: seq<StreamerMessage>, reg: Registry)
    requires FreshIds(queue, reg) && queue != []
    ensures FreshIds(queue[1..], reg)
    ensures queue[0].AddSubMessage? ==> FreshIds(queue[1..], reg[queue[0].sub.id := queue[0].sub])
  {
  }

  ghost function Senders(queue: seq<StreamerMessage>): set<object> {
    set m | m in queue && m.AddSubMessage? :: m.sub.tx
  }

  class NoteStreamer {
    const manager: NoteStreamerManager
    const rx: Mpsc<StreamerMessage>

    ghost predicate Valid() reads this, manager, rx {
      && manager.Valid() && FreshIds(rx.buf, manager.registry)
      && rx !in manager.Txs() && rx !in Senders(rx.buf)
    }

    constructor (rx: Mpsc<StreamerMessage>)
      requires rx.buf == []
      ensures Valid() && this.rx == rx && fresh(manager)
      ensures manager.View() == NO_SUBS && manager.registry == map[] && manager.events == []
    {
      this.rx := rx;
      manager := new NoteStreamerManager();
    }

    /** Take one control message: what it says is done to the manager, and only Shutdown ends the loop. */
    method TakeMessage() returns (more: bool)
      requires Valid() && rx.buf != []
      modifies manager, rx
      ensures Valid()
      ensures rx.buf == old(rx.buf)[1..] && rx.rxOpen == old(rx.rxOpen)
      ensures manager.View() == AfterMessage(old(manager.View()), old(rx.buf)[0])
      ensures manager.registry == if old(rx.buf)[0].AddSubMessage?
                                  then old(manager.registry)[old(rx.buf)[0].sub.id := old(rx.buf)[0].sub]
                                  else old(manager.registry)
      ensures manager.events == old(manager.events) + LoggedBy(old(manager.View()), manager.View(), old(rx.buf)[0])
      ensures manager.wakers == if old(rx.buf)[0].WakerMessage?
                                then old(manager.wakers)[old(rx.buf)[0].id := old(rx.buf)[0].waker]
                                else old(manager.wakers)
      ensures more == !old(rx.buf)[0].ShutdownMessage?
    {
      hide Wired, OwnChannels, NoEmptyEntries;
      FreshIdsPop(rx.buf, manager.registry);
      var msg := rx.Receive();
      more := true;
      match msg {
        case AddSubMessage(sub) => manager.AddSub(sub);
        case RemoveSubMessage(id, tag, reason) => manager.RemoveSub(id, tag, reason);
        case WakerMessage(id, waker) => manager.UpdateWaker(id, waker);
        case ShutdownMessage => more := false;
      }
    }

    /**
     A round: all or nothing. Either every query answers and cursors, channels and
     subscribers change together, or nothing does.
     */
    method FinishRound(snapshots: Snapshots) returns (res: Result<bool, DbError>, ghost log: seq<SubEvent>)
      requires Valid()
      modifies manager, manager.Txs()
      ensures Valid() && rx.buf == old(rx.buf) && manager.registry == old(manager.registry)
      ensures res.Err? <==> exists t :: t in old(manager.tags) && snapshots(t).None?
      ensures res.Err? ==> manager.View() == old(manager.View()) && manager.ChansView() == old(manager.ChansView())
      ensures manager.events == old(manager.events) + log && (res.Err? ==> log == [])
      ensures res.Ok? ==>
                var ups := RoundUpdates(old(manager.View()), snapshots, old(manager.tags).Keys);
                var m := UpdateCursors(old(manager.View()), ups);
                && res.value
                && manager.View() == ForwardManager(m, old(manager.ChansView()), ups)
                && manager.ChansView() == ForwardChans(m, old(manager.ChansView()), ups)
                && RemovalsLogged(log, Evicted(m, old(manager.ChansView()), ups))
    {
      hide Wired, OwnChannels, NoEmptyEntries, ForwardManager, ForwardChans, RoundUpdates, UpdateCursors,
           RemovalsLogged, Evicted;
      var queried := manager.QueryUpdates(snapshots);
      if queried.Err? { return Err(queried.error), []; }
      manager.UpdateTimestamps(queried.value);
      assert manager.ChansView() == old(manager.ChansView());
      log := manager.ForwardUpdates(queried.value);
      res := Ok(true);
    }
  }
}
