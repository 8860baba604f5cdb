/** The loop that writes a stream's response: which frames go out, which wait, and what the window pays. */
module Delivery {
  import opened Frames
  import opened ConnectionModel

  function Size(f: Frame): nat {
    if f.ty.Data? then |f.payload| else 0
  }

  /** How many frames precede the first DATA frame that does not fit what the earlier ones left. */
  function Fitting(window: nat, frames: seq<Frame>): (k: nat)
    ensures k <= |frames|
    decreases frames
  {
    if frames == [] || Size(frames[0]) > window then 0 else 1 + Fitting(window - Size(frames[0]), frames[1..])
  }

  /** What the loop debits for frames it then queues: those behind the overflowing one that still fit. */
  function Leaked(window: nat, frames: seq<Frame>): nat
    decreases frames
  {
    if frames == [] then 0
    else if Size(frames[0]) <= window then Size(frames[0]) + Leaked(window - Size(frames[0]), frames[1..])
    else Leaked(window, frames[1..])
  }

  predicate AllWritable(frames: seq<Frame>) {
    forall f :: f in frames ==> Writable(f)
  }

  function Paid(c: Conn, n: nat): Conn
    requires n <= c.ctx.window
  {
    c.(ctx := c.ctx.(window := c.ctx.window - n))
  }

  /** One turn of the loop before anything has overflowed. */
  function Written(c: Conn, f: Frame): Conn
    requires Size(f) <= c.ctx.window
  {
    Paid(c, Size(f)).(wire := c.wire + [f])
  }

  lemma DeliverOne(c: Conn, frames: seq<Frame>)
    requires frames != []
    ensures Size(frames[0]) > c.ctx.window ==> Deliver(c, frames, false) == Deliver(c, frames, true)
    ensures Size(frames[0]) <= c.ctx.window && Writable(frames[0]) ==> Deliver(c, frames, false) == Deliver(Written(c, frames[0]), frames[1..], false)
    ensures Size(frames[0]) <= c.ctx.window && !Writable(frames[0]) ==> Deliver(c, frames, false) == End(Paid(c, Size(frames[0])))
  {
    hide Writable;
  }

  lemma Joined<T>(a: seq<T>, b: seq<T>, k: nat)
    requires b != [] && 1 <= k <= |b|
    ensures a + [b[0]] + b[1..][..k - 1] == a + b[..k]
    ensures b[..k] == [b[0]] + b[1..][..k - 1] && b[1..][k - 1..] == b[k..]
  {}

  lemma BytesCons(f: Frame, rest: seq<Frame>)
    ensures DataBytes([f] + rest) == Size(f) + DataBytes(rest)
  {
    DataBytesAppend([f], rest);
    assert [f][..0] == [];
  }

  lemma {:induction false} QueueRest(c: Conn, frames: seq<Frame>)
    ensures var c1 := Deliver(c, frames, true);
      c1 == c.(pendingFrames := c.pendingFrames + frames, ctx := c.ctx.(window := c1.ctx.window))
      && c1.ctx.window + Leaked(c.ctx.window, frames) == c.ctx.window
    decreases frames
  {
    if frames == [] {
      assert c.pendingFrames + frames == c.pendingFrames;
    } else {
      var f := frames[0];
      var c1 := if Size(f) <= c.ctx.window then Paid(c, Size(f)) else c;
      QueueRest(c1.(pendingFrames := c.pendingFrames + [f]), frames[1..]);
      Joined(c.pendingFrames, frames, |frames|);
      assert frames[1..][..|frames| - 1] == frames[1..] && frames[..|frames|] == frames;
    }
  }

  /** What became of `frames`, of which the first `k` went out. */
  predicate Split(c: Conn, frames: seq<Frame>, k: nat, c1: Conn)
    requires k <= |frames|
  {
    && c1.wire == c.wire + frames[..k]
    && c1.pendingFrames == c.pendingFrames + frames[k..]
    && c1.status == c.status
    && DataBytes(frames[..k]) <= c.ctx.window
    && c1.ctx.window + DataBytes(frames[..k]) + Leaked(c.ctx.window - DataBytes(frames[..k]), frames[k..]) == c.ctx.window
  }

  lemma NoneFits(c: Conn, frames: seq<Frame>)
    requires Fitting(c.ctx.window, frames) == 0
    ensures Split(c, frames, 0, Deliver(c, frames, false))
  {
    if frames != [] {
      DeliverOne(c, frames);
      QueueRest(c, frames);
    }
    assert c.wire + frames[..0] == c.wire && frames[0..] == frames && c.pendingFrames + [] == c.pendingFrames;
    hide Deliver, Leaked;
  }

  lemma OneMoreFits(c: Conn, frames: seq<Frame>, k: nat, c1: Conn)
    requires frames != [] && 1 <= k <= |frames| && Size(frames[0]) <= c.ctx.window
    requires Split(Written(c, frames[0]), frames[1..], k - 1, c1)
    ensures Split(c, frames, k, c1)
  {
    hide DataBytes, Leaked, Size;
    Joined(c.wire, frames, k);
    BytesCons(frames[0], frames[1..][..k - 1]);
  }

  /**
   * Nothing is lost or reordered: the frames before the first overflow are written, the rest wait.
   * The window pays for what was written, and for what leaked.
   */
  lemma {:induction false} DeliverSplits(c: Conn, frames: seq<Frame>)
    requires AllWritable(frames[..Fitting(c.ctx.window, frames)])
    ensures Split(c, frames, Fitting(c.ctx.window, frames), Deliver(c, frames, false))
    decreases frames
  {
    hide Deliver, Split, Writable;
    var k := Fitting(c.ctx.window, frames);
    if k == 0 {
      NoneFits(c, frames);
    } else {
      DeliverOne(c, frames);
      Joined(c.wire, frames, k);
      assert frames[0] in frames[..k] && forall g :: g in frames[1..][..k - 1] ==> g in frames[..k];
      DeliverSplits(Written(c, frames[0]), frames[1..]);
      OneMoreFits(c, frames, k, Deliver(c, frames, false));
    }
  }

  /** The ledger is exact iff no nonempty DATA frame queued behind the overflow would still have fitted. */
  lemma {:induction false} LeaksNothing(window: nat, frames: seq<Frame>)
    ensures Leaked(window, frames) == 0 <==> forall f :: f in frames && Size(f) > 0 ==> Size(f) > window
    decreases frames
  {
    if frames != [] {
      assert forall f :: f in frames <==> f == frames[0] || f in frames[1..];
      LeaksNothing(if Size(frames[0]) <= window then window - Size(frames[0]) else window, frames[1..]);
    }
  }

  /** Octets written and octets left add up, before and after, iff no queued frame would still have fitted. */
  lemma DeliverLedger(c: Conn, frames: seq<Frame>)
    requires AllWritable(frames[..Fitting(c.ctx.window, frames)])
    ensures var (k, c1) := (Fitting(c.ctx.window, frames), Deliver(c, frames, false));
      && DataBytes(frames[..k]) <= c.ctx.window
      && (DataBytes(c1.wire) + c1.ctx.window == DataBytes(c.wire) + c.ctx.window <==>
            forall f :: f in frames[k..] && Size(f) > 0 ==> Size(f) > c.ctx.window - DataBytes(frames[..k]))
  {
    hide Deliver, DataBytes, Leaked, Writable, Size;
    var k := Fitting(c.ctx.window, frames);
    DeliverSplits(c, frames);
    LeaksNothing(c.ctx.window - DataBytes(frames[..k]), frames[k..]);
    DataBytesAppend(c.wire, frames[..k]);
  }

  /** If the loop meets a frame it cannot write, it stops there and the connection ends. */
  predicate StoppedAt(c: Conn, frames: seq<Frame>, k: nat, c1: Conn)
    requires k < |frames|
  {
    && !Writable(frames[k])
    && c1.wire == c.wire + frames[..k]
    && c1.pendingFrames == c.pendingFrames
    && c1.status.Ended?
    && DataBytes(frames[..k]) + c1.ctx.window <= c.ctx.window
  }

  lemma {:induction false} DeliverStops(c: Conn, frames: seq<Frame>) returns (k: nat)
    requires c.status.Running? && !AllWritable(frames[..Fitting(c.ctx.window, frames)])
    ensures k < |frames| && StoppedAt(c, frames, k, Deliver(c, frames, false))
    decreases frames
  {
    hide Deliver, Writable;
    DeliverOne(c, frames);
    if !Writable(frames[0]) {
      k := 0;
      assert c.wire + frames[..0] == c.wire;
    } else {
      var n := Fitting(c.ctx.window, frames);
      Joined(c.wire, frames, n);
      var j := DeliverStops(Written(c, frames[0]), frames[1..]);
      k := j + 1;
      Joined(c.wire, frames, k);
      BytesCons(frames[0], frames[1..][..j]);
      hide DataBytes, Fitting, AllWritable;
    }
  }
}
