/** The laptop's bridge: a bounded queue of broadcasts on their way to the cloud. */
module CloudBridge {
  import opened Wire
  import opened Mirror

  class Bridge {
    var out: seq<Broadcast>
    ghost var stale: nat
    ghost var clean: bool

    ghost function View(): Outbound
      reads this
    {
      Outbound(out, stale, clean)
    }

    ghost predicate Valid()
      reads this
    {
      |out| <= BRIDGE_DEPTH
    }

    constructor ()
      ensures Valid() && View() == QUIET.out
    {
      out, stale, clean := [], 0, true;
    }

    /** Never blocks: a full queue loses the frame, and says so only to the log. */
    method Mirror(b: Broadcast) returns (kept: bool)
      requires Valid()
      modifies this
      ensures Valid() && View() == MirrorOne(old(View()), b, BRIDGE_DEPTH)
      ensures kept <==> |old(out)| < 256
      ensures out == if kept then old(out) + [b] else old(out)
    {
      if |out| < BRIDGE_DEPTH {
        out := out + [b];
        return true;
      }
      stale, clean := |out|, false;
      return false;
    }

    /** The writer takes the oldest frame; whether its write then succeeds is the connection's affair. */
    method Pull() returns (b: Broadcast)
      requires Valid() && out != []
      modifies this
      ensures Valid() && [b] + out == old(out) && View() == Pulled(old(View()))
    {
      b := out[0];
      out := out[1..];
      stale := if stale == 0 then 0 else stale - 1;
    }
  }
}
