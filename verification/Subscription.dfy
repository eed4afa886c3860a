/** The subscriber's end of a stream: opening it, polling it, and letting it go. */
module Subscription {
  import opened Wrappers
  import opened Notes
  import opened Streamer
  import opened StreamerActor

  class Sub {
    const id: SubId
    const tag: Tag
    const rx: Mpsc<Batch>
    const streamerTx: Mpsc<StreamerMessage>

    constructor (id: SubId, tag: Tag, rx: Mpsc<Batch>, streamerTx: Mpsc<StreamerMessage>)
      ensures this.id == id && this.tag == tag && this.rx == rx && this.streamerTx == streamerTx
    {
      this.id, this.tag, this.rx, this.streamerTx := id, tag, rx, streamerTx;
    }

    /** Its outcome, and that a batch leaves the channel and a Pending poll queues one waker message. */
    method PollNext(waker: Waker, senderAlive: bool) returns (r: Poll)
      requires rx as object != streamerTx
      modifies rx, streamerTx
      ensures r == PollOutcome(old(rx.buf), senderAlive,
                               old(streamerTx.rxOpen) && |old(streamerTx.buf)| < streamerTx.capacity)
      ensures old(rx.buf) == (if r.Ready? then [r.batch] else []) + rx.buf
      ensures streamerTx.buf == old(streamerTx.buf) + if r.Pending? then [WakerMessage(id, waker)] else []
      ensures rx.rxOpen == old(rx.rxOpen) && streamerTx.rxOpen == old(streamerTx.rxOpen)
    {
      if rx.buf != [] {
        var batch := rx.Receive();
        return Ready(batch);
      }
      if !senderAlive { return Finished; }
      var sent := streamerTx.TrySend(WakerMessage(id, waker));
      r := if sent then Pending else Finished;
    }

    /** Letting go closes the channel and hands the removal to the streamer, unless its queue refuses. */
    method Drop()
      requires rx as object != streamerTx
      modifies rx, streamerTx
      ensures !rx.rxOpen && rx.buf == old(rx.buf) && streamerTx.rxOpen == old(streamerTx.rxOpen)
      ensures streamerTx.buf == old(streamerTx.buf)
                + if old(streamerTx.rxOpen) && |old(streamerTx.buf)| < streamerTx.capacity
                  then [RemoveSubMessage(id, tag, ClientDisconnect)] else []
    {
      rx.Close();
      var sent := streamerTx.TrySend(RemoveSubMessage(id, tag, ClientDisconnect));
    }
  }

  /**
   `stream_notes`: a subscriber's end with a new empty channel of 32 places, and an AddSub
   message for it if the queue takes one. If not, the call fails and its caller lets the
   end go. That is a step of its own: the queue may have room again by then, and the
   removal of a subscriber that was never added is queued.
   */
  method StreamNotes(id: SubId, tag: Tag, streamerTx: Mpsc<StreamerMessage>) returns (sub: Sub, res: Result<(), ()>)
    modifies streamerTx
    ensures res.Ok? <==> old(streamerTx.rxOpen) && |old(streamerTx.buf)| < streamerTx.capacity
    ensures fresh(sub) && fresh(sub.rx) && sub.rx as object != streamerTx
    ensures sub.id == id && sub.tag == tag && sub.streamerTx == streamerTx
    ensures sub.rx.buf == [] && sub.rx.rxOpen && sub.rx.capacity == 32
    ensures streamerTx.buf == old(streamerTx.buf) + if res.Ok? then [AddSubMessage(Subface(id, tag, sub.rx))] else []
    ensures streamerTx.rxOpen == old(streamerTx.rxOpen)
  {
    var channel := new Mpsc<Batch>(SUB_CHANNEL_CAPACITY);
    sub := new Sub(id, tag, channel, streamerTx);
    assert fresh(sub.rx) && (sub.rx as object) != streamerTx;
    var sent := streamerTx.TrySend(AddSubMessage(Subface(id, tag, channel)));
    res := if sent then Ok(()) else Err(());
  }
}
