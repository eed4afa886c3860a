/**
 The streaming manager as a value, and what each of its operations does to it: tracked
 tags with their cursors and subscribers, registered wakers, and the subscribers'
 bounded channels.
 */
module Streamer {
  import opened Notes

  type SubId = U64

  const SUB_CHANNEL_CAPACITY: nat := 32
  const CONTROL_QUEUE_CAPACITY: nat := 128

  datatype Batch = Batch(rows: seq<Row>, cursor: nat)

  datatype TagData = TagData(cursor: nat, subs: set<SubId>)

  datatype Manager = Manager(tags: map<Tag, TagData>, wakers: set<SubId>)

  /** A subscriber's channel: the tag it was opened for, what is queued, and whether the receiver still exists. */
  datatype Chan = Chan(tag: Tag, buf: seq<Batch>, rxOpen: bool)

  type Chans = map<SubId, Chan>
  type Updates = map<Tag, Batch>

  datatype Reason = Backpressure | ClientDisconnect

  const NO_SUBS: Manager := Manager(map[], {})

  predicate Subscribed(m: Manager, id: SubId, tag: Tag) {
    tag in m.tags && id in m.tags[tag].subs
  }

  function AddSub(m: Manager, id: SubId, tag: Tag): Manager {
    var td := if tag in m.tags then m.tags[tag] else TagData(0, {});
    m.(tags := m.tags[tag := TagData(td.cursor, td.subs + {id})])
  }

  function RemoveSub(m: Manager, id: SubId, tag: Tag): Manager {
    if tag !in m.tags then m
    else
      var left := m.tags[tag].subs - {id};
      if left == {} then m.(tags := m.tags - {tag})
      else m.(tags := m.tags[tag := TagData(m.tags[tag].cursor, left)])
  }

  function UpdateWaker(m: Manager, id: SubId): Manager {
    m.(wakers := m.wakers + {id})
  }

  /** `update_timestamps`: the cursor of each updated tag that is still tracked. */
  function UpdateCursors(m: Manager, ups: Updates): (r: Manager)
    ensures r.tags.Keys == m.tags.Keys && r.wakers == m.wakers
  {
    m.(tags := map t | t in m.tags :: if t in ups then TagData(ups[t].cursor, m.tags[t].subs) else m.tags[t])
  }

  // ------------------------------------------------------------ forward_updates

  predicate CanSend(ch: Chan) {
    ch.rxOpen && |ch.buf| < SUB_CHANNEL_CAPACITY
  }

  /** `try_send`: the batch is appended, or refused by a channel that is full or closed. */
  function Pushed(ch: Chan, b: Batch): Chan {
    if CanSend(ch) then ch.(buf := ch.buf + [b]) else ch
  }

  /** A subscriber a round tries to reach: its tag has an update and its waker is registered. */
  predicate Addressed(m: Manager, chans: Chans, ups: Updates, id: SubId) {
    && id in m.wakers && id in chans
    && chans[id].tag in ups && Subscribed(m, id, chans[id].tag)
  }

  function Addressees(m: Manager, chans: Chans, ups: Updates): set<SubId> {
    set id | id in m.wakers && Addressed(m, chans, ups, id)
  }

  /** The send failed: the channel is full or its receiver is gone. */
  function Evicted(m: Manager, chans: Chans, ups: Updates): set<SubId> {
    set id | id in m.wakers && Addressed(m, chans, ups, id) && !CanSend(chans[id])
  }

  function ForwardChans(m: Manager, chans: Chans, ups: Updates): (r: Chans)
    ensures r.Keys == chans.Keys
  {
    map id | id in chans ::
      if Addressed(m, chans, ups, id) then Pushed(chans[id], ups[chans[id].tag]) else chans[id]
  }

  /** Remove subscribers everywhere; a tag that loses its last one is no longer tracked. */
  function DropSubs(tags: map<Tag, TagData>, gone: set<SubId>): map<Tag, TagData> {
    map t | t in tags && (tags[t].subs * gone == {} || tags[t].subs - gone != {}) ::
      TagData(tags[t].cursor, tags[t].subs - gone)
  }

  function ForwardManager(m: Manager, chans: Chans, ups: Updates): Manager {
    Manager(DropSubs(m.tags, Evicted(m, chans, ups)), m.wakers - Addressees(m, chans, ups))
  }

  datatype Poll = Ready(batch: Batch) | Finished | Pending

  /**
   `poll_next`: a queued batch comes first, also after the last sender is gone; then the
   end of the stream; and only otherwise does the poll cost a control message.
   */
  function PollOutcome(buf: seq<Batch>, senderAlive: bool, room: bool): Poll {
    if buf != [] then Ready(buf[0])
    else if senderAlive && room then Pending
    else Finished
  }

  // ---------------------------------------------------------------- invariants

  /** Each subscriber is listed under the tag of its channel, hence under no other. */
  ghost predicate Homed(m: Manager, chans: Chans) {
    forall t, id | t in m.tags && id in m.tags[t].subs :: id in chans && chans[id].tag == t
  }

  ghost predicate NoEmptyTags(m: Manager) {
    forall t | t in m.tags :: m.tags[t].subs != {}
  }

  function ActiveIds(m: Manager): set<SubId> {
    set t, id | t in m.tags && id in m.tags[t].subs :: id
  }

  lemma ActiveIsSubscribed(m: Manager, chans: Chans, id: SubId)
    requires Homed(m, chans)
    ensures id in ActiveIds(m) <==> id in chans && Subscribed(m, id, chans[id].tag)
  {
  }

  lemma SetFacts<T>(a: set<T>, b: set<T>)
    ensures a * b == {} ==> a - b == a
    ensures a - b == {} <==> a <= b
  {
    if a * b == {} {
      forall x | x in a ensures x in a - b {
        assert x in a * b <==> x in b;
      }
    }
    if a - b == {} {
      forall x | x in a ensures x in b {
        assert x in a - b <==> x !in b;
      }
    }
  }

  /** Under its own tag a dropped subscriber is gone and no other is; tags vanish exactly when emptied. */
  lemma DropSubsEffect(m: Manager, chans: Chans, gone: set<SubId>)
    requires Homed(m, chans) && NoEmptyTags(m)
    ensures var m' := Manager(DropSubs(m.tags, gone), m.wakers);
            && Homed(m', chans) && NoEmptyTags(m')
            && ActiveIds(m') == ActiveIds(m) - gone
            && (forall t :: t in m'.tags <==> t in m.tags && !(m.tags[t].subs <= gone))
            && (forall t | t in m'.tags :: m'.tags[t].cursor == m.tags[t].cursor)
            && (forall t, id :: Subscribed(m', id, t) <==> Subscribed(m, id, t) && id !in gone)
  {
    var m' := Manager(DropSubs(m.tags, gone), m.wakers);
    forall t ensures t in m'.tags <==> t in m.tags && !(m.tags[t].subs <= gone) {
      if t in m.tags {
        SetFacts(m.tags[t].subs, gone);
      }
    }
    forall t, id ensures Subscribed(m', id, t) <==> Subscribed(m, id, t) && id !in gone {
    }
    forall id ensures id in ActiveIds(m') <==> id in ActiveIds(m) - gone {
      ActiveIsSubscribed(m, chans, id);
      ActiveIsSubscribed(m', chans, id);
    }
  }

  /**
   The three fates of a subscriber of an updated tag, and that nobody else is touched:
   without a waker it keeps its channel and its place; with a waker and room it gets
   this tag's batch, once, and loses the waker; with a waker and no room it is removed.
   */
  lemma ForwardFates(m: Manager, chans: Chans, ups: Updates, id: SubId, tag: Tag)
    requires Homed(m, chans) && NoEmptyTags(m) && Subscribed(m, id, tag)
    ensures var m', chans' := ForwardManager(m, chans, ups), ForwardChans(m, chans, ups);
            if tag !in ups || id !in m.wakers then
              chans'[id] == chans[id] && Subscribed(m', id, tag) && (id in m'.wakers <==> id in m.wakers)
            else if chans[id].rxOpen && |chans[id].buf| < 32 then
              chans'[id].buf == chans[id].buf + [ups[tag]] && Subscribed(m', id, tag) && id !in m'.wakers
            else
              chans'[id] == chans[id] && !Subscribed(m', id, tag) && id !in m'.wakers
  {
    DropSubsEffect(m, chans, Evicted(m, chans, ups));
  }

  /** A tag is untracked by a round exactly when it was updated and every one of its subscribers was reached in vain. */
  lemma ForwardUntracksIff(m: Manager, chans: Chans, ups: Updates, tag: Tag)
    requires Homed(m, chans) && NoEmptyTags(m) && tag in m.tags
    ensures tag !in ForwardManager(m, chans, ups).tags
       <==> tag in ups && forall id | id in m.tags[tag].subs :: id in m.wakers && !CanSend(chans[id])
  {
    DropSubsEffect(m, chans, Evicted(m, chans, ups));
  }

  // ------------------------------------------------- steps of the nested loops

  /** One inner loop: push a batch to the given subscribers that have room. */
  function PushTo(chans: Chans, ids: set<SubId>, b: Batch): (r: Chans)
    ensures r.Keys == chans.Keys
  {
    map id | id in chans :: if id in ids then Pushed(chans[id], b) else chans[id]
  }

  /** Those of the given subscribers whose channel refuses. */
  function FailedIn(chans: Chans, ids: set<SubId>): set<SubId> {
    set id | id in ids && id in chans && !CanSend(chans[id])
  }

  lemma PushOneMore(chans: Chans, ids: set<SubId>, id: SubId, b: Batch)
    requires id in chans && id !in ids
    ensures PushTo(chans, ids, b)[id] == chans[id]
    ensures PushTo(chans, ids + {id}, b) == PushTo(chans, ids, b)[id := Pushed(chans[id], b)]
    ensures FailedIn(chans, ids + {id}) == FailedIn(chans, ids) + if CanSend(chans[id]) then {} else {id}
  {
  }

  lemma ForwardNothing(m: Manager, chans: Chans)
    ensures ForwardChans(m, chans, map[]) == chans
    ensures Addressees(m, chans, map[]) == {} == Evicted(m, chans, map[])
  {
  }

  lemma PushNobody(chans: Chans, b: Batch)
    ensures PushTo(chans, {}, b) == chans && FailedIn(chans, {}) == {}
  {
  }

  /** One more tag of the outer loop: its inner loop continues what the earlier tags did. */
  lemma ForwardOneMore(m: Manager, chans: Chans, ups: Updates, tag: Tag, b: Batch)
    requires Homed(m, chans) && tag !in ups && tag in m.tags
    ensures var ready := m.tags[tag].subs * (m.wakers - Addressees(m, chans, ups));
            var mid := ForwardChans(m, chans, ups);
            && PushTo(mid, ready, b) == ForwardChans(m, chans, ups[tag := b])
            && Addressees(m, chans, ups) + ready == Addressees(m, chans, ups[tag := b])
            && Evicted(m, chans, ups) + FailedIn(mid, ready) == Evicted(m, chans, ups[tag := b])
            && (m.wakers - Addressees(m, chans, ups)) - m.tags[tag].subs
               == m.wakers - Addressees(m, chans, ups[tag := b])
  {
  }

  lemma ForwardUntracked(m: Manager, chans: Chans, ups: Updates, tag: Tag, b: Batch)
    requires tag !in ups && tag !in m.tags
    ensures ForwardChans(m, chans, ups[tag := b]) == ForwardChans(m, chans, ups)
    ensures Addressees(m, chans, ups[tag := b]) == Addressees(m, chans, ups)
    ensures Evicted(m, chans, ups[tag := b]) == Evicted(m, chans, ups)
  {
  }

  /** One more deferred removal. */
  lemma DropOneMore(m: Manager, chans: Chans, gone: set<SubId>, id: SubId, tag: Tag)
    requires Homed(m, chans) && Subscribed(m, id, tag) && id !in gone
    ensures var mid := Manager(DropSubs(m.tags, gone), m.wakers);
            && Subscribed(mid, id, tag)
            && RemoveSub(mid, id, tag) == Manager(DropSubs(m.tags, gone + {id}), m.wakers)
  {
    var mid := Manager(DropSubs(m.tags, gone), m.wakers);
    SetFacts(m.tags[tag].subs, gone);
    assert id in m.tags[tag].subs - gone;
    assert chans[id].tag == tag;
    var next := RemoveSub(mid, id, tag).tags;
    var all := DropSubs(m.tags, gone + {id});
    forall t | t in m.tags && t != tag
      ensures m.tags[t].subs - (gone + {id}) == m.tags[t].subs - gone
      ensures m.tags[t].subs * (gone + {id}) == m.tags[t].subs * gone
    {
      assert id !in m.tags[t].subs;
    }
    assert (m.tags[tag].subs - gone) - {id} == m.tags[tag].subs - (gone + {id});
    assert id in m.tags[tag].subs * (gone + {id});
    assert next.Keys == all.Keys;
    forall t | t in next ensures next[t] == all[t] {
    }
  }

  lemma DropNobody(m: Manager)
    ensures DropSubs(m.tags, {}) == m.tags
  {
    assert forall t | t in m.tags :: m.tags[t].subs - {} == m.tags[t].subs;
  }
}
