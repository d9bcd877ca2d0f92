/** internal/session/pump.go: the outbound queue of one client connection. */
module ClientQueues {
  import opened Sequences
  import opened RequestIds

  const MAX_CLIENT_QUEUE_BYTES := 0x800_0000

  function Total(size: ClientFrame -> nat, frames: seq<ClientFrame>): nat {
    if frames == [] then 0 else Total(size, frames[..|frames| - 1]) + size(frames[|frames| - 1])
  }

  class ClientQueue {
    var frames: seq<ClientFrame>
    var bytes: nat
    const size: ClientFrame -> nat
    // The generation the queue was bound for, what was ever routed to it, what the writer took from it,
    // and whether a frame was ever refused.
    ghost const gen: nat
    ghost var routed: seq<ClientFrame>
    ghost var taken: seq<ClientFrame>
    ghost var cut: bool

    /**
     * The client is sent a prefix of what was routed to it, in order: all of it until a frame was refused.
     * The backlog stays within the cap unless one frame alone is larger.
     */
    ghost predicate Valid()
      reads this
    {
      && taken + frames <= routed
      && (!cut ==> taken + frames == routed)
      && bytes == Total(size, frames)
      && (bytes <= MAX_CLIENT_QUEUE_BYTES || |frames| == 1)
    }

    constructor (size: ClientFrame -> nat, ghost gen: nat)
      ensures Valid() && !cut && routed == taken == frames == [] && this.gen == gen && this.size == size
    {
      this.size, this.gen := size, gen;
      frames, bytes := [], 0;
      routed, taken, cut := [], [], false;
    }

    method Push(frame: ClientFrame) returns (accepted: bool)
      requires Valid() && !cut
      modifies this`frames, this`bytes, this`routed, this`cut
      ensures Valid() && routed == old(routed) + [frame] && cut == !accepted
      ensures accepted <==> old(frames) == [] || old(bytes) + size(frame) <= MAX_CLIENT_QUEUE_BYTES
      ensures frames == if accepted then old(frames) + [frame] else old(frames)
      ensures bytes == if accepted then old(bytes) + size(frame) else old(bytes)
    {
      routed := routed + [frame];
      if |frames| > 0 && bytes + size(frame) > MAX_CLIENT_QUEUE_BYTES {
        cut := true;
        return false;
      }
      assert (frames + [frame])[..|frames|] == frames;
      frames := frames + [frame];
      bytes := bytes + size(frame);
      return true;
    }

    /** Pushes frames until one is refused; the rest count as routed too. */
    method PushAll(batch: seq<ClientFrame>) returns (accepted: bool)
      requires Valid() && !cut
      modifies this`frames, this`bytes, this`routed, this`cut
      ensures Valid() && routed == old(routed) + batch && cut == !accepted
      ensures accepted ==> frames == old(frames) + batch
    {
      hide Total;
      var i := 0;
      assert batch[..0] == [];
      while i < |batch|
        invariant 0 <= i <= |batch| && Valid() && !cut
        invariant routed == old(routed) + batch[..i] && frames == old(frames) + batch[..i]
      {
        assert batch[..i + 1] == batch[..i] + [batch[i]];
        accepted := Push(batch[i]);
        if !accepted {
          assert batch == batch[..i + 1] + batch[i + 1..];
          Refuse(batch[i + 1..]);
          return;
        }
        i := i + 1;
      }
      assert batch[..|batch|] == batch;
      return true;
    }

    /** The writer takes everything queued, oldest first. */
    method Take() returns (batch: seq<ClientFrame>)
      requires Valid()
      modifies this`frames, this`bytes, this`taken
      ensures Valid() && frames == [] && bytes == 0 && batch == old(frames) && taken == old(taken) + batch
    {
      batch := frames;
      frames, bytes := [], 0;
      taken := taken + batch;
    }

    /** Frames routed after a refusal reach nobody. */
    ghost method Refuse(rest: seq<ClientFrame>)
      requires Valid() && cut
      modifies this`routed
      ensures Valid() && routed == old(routed) + rest
    {
      routed := routed + rest;
    }
  }
}
