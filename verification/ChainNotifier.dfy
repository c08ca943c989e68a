/** The feed shared by the node and the RPC layer, updated in place: tags, broadcast and the reorg ring. */
module ChainNotifier {
  import opened Rollup
  import opened BlockTags
  import opened Node
  import opened FilterPolls

  class ChainNotifier {
    const tags: BlockTags
    var notifTx: seq<ChainEvent>
    var reorgs: seq<Stamped>
    var clock: nat

    constructor ()
      ensures fresh(tags) && Valid() && Abs() == Feed([], [], 0) && tags.Abs() == Tags(0, 0, 0)
    {
      tags := new BlockTags(0, 0, 0);
      notifTx, reorgs, clock := [], [], 0;
    }

    ghost function Abs(): Feed
      reads this
    {
      Feed(notifTx, reorgs, clock)
    }

    ghost predicate Valid()
      reads this
    {
      |reorgs| <= MAX_REORG_ENTRIES
    }

    /** Instants are strictly increasing. */
    method Now() returns (instant: nat)
      modifies `clock
      ensures instant == clock == old(clock) + 1
    {
      clock := clock + 1;
      instant := clock;
    }

    method SendNewBlock(b: RuBlock)
      modifies `notifTx
      ensures Abs() == Node.SendNewBlock(old(Abs()), b)
    {
      notifTx := notifTx + [NewBlock(b)];
    }

    /** The ring is written before the event is broadcast; a full ring drops its oldest entry. */
    method SendReorg(reorg: ReorgNotification)
      requires Valid()
      modifies this
      ensures Valid() && Abs() == Node.SendReorg(old(Abs()), reorg)
    {
      if |reorgs| >= MAX_REORG_ENTRIES {
        reorgs := reorgs[1..];
      }
      var instant := Now();
      reorgs := reorgs + [Stamped(instant, reorg)];
      notifTx := notifTx + [Reorg(reorg)];
    }

    method ReorgsSince(since: nat) returns (recent: seq<ReorgNotification>)
      ensures recent == FilterPolls.ReorgsSince(reorgs, since)
    {
      recent := [];
      for i := 0 to |reorgs|
        invariant recent == FilterPolls.ReorgsSince(reorgs[..i], since)
      {
        assert reorgs[..i + 1][..i] == reorgs[..i];
        if reorgs[i].receivedAt > since {
          recent := recent + [reorgs[i].reorg];
        }
      }
      assert reorgs[..|reorgs|] == reorgs;
    }
  }
}
