/** A reusable batch of packet views, and the split of a coalesced read into its datagrams. */
module Batches {
  /** A view into the slot a fill reads into. */
  datatype View = View(lo: nat, hi: nat)

  /** Room for `maxViews` views is allocated once. */
  class Batch {
    const maxViews: nat
    var views: seq<View>

    constructor (maxViews: nat)
      ensures views == [] && this.maxViews == maxViews
    {
      this.maxViews, views := maxViews, [];
    }

    method Add(v: View)
      modifies this
      ensures views == old(views) + [v]
    {
      views := views + [v];
    }
  }

  /** The views lie side by side from `lo` to `hi`. */
  ghost predicate Tile(views: seq<View>, lo: nat, hi: nat)
    decreases |views|
  {
    if views == [] then lo == hi else views[0].lo == lo && lo < views[0].hi && Tile(views[1..], views[0].hi, hi)
  }

  /** Every datagram but the last has the segment size, and none is longer. */
  ghost predicate Segmented(views: seq<View>, segSize: int) {
    && (forall i :: 0 <= i < |views| && segSize > 0 ==> views[i].hi <= views[i].lo + segSize)
    && (forall i :: 0 <= i < |views| - 1 ==> views[i].hi == views[i].lo + segSize)
  }

  lemma {:induction false} TileSnoc(views: seq<View>, lo: nat, mid: nat, hi: nat)
    requires Tile(views, lo, mid) && mid < hi
    ensures Tile(views + [View(mid, hi)], lo, hi)
    decreases |views|
  {
    var all := views + [View(mid, hi)];
    if views == [] {
      assert all[1..] == [] && Tile(all[1..], hi, hi);
    } else {
      TileSnoc(views[1..], views[0].hi, mid, hi);
      assert all[1..] == views[1..] + [View(mid, hi)];
    }
  }

  ghost function Join<T>(buf: seq<T>, views: seq<View>): seq<T>
    requires forall i :: 0 <= i < |views| ==> views[i].lo <= views[i].hi <= |buf|
  {
    if views == [] then [] else buf[views[0].lo..views[0].hi] + Join(buf, views[1..])
  }

  /** Tiling views put together are the stretch they tile. */
  lemma {:induction false} TileJoins<T>(buf: seq<T>, views: seq<View>, lo: nat, hi: nat)
    requires Tile(views, lo, hi) && lo <= hi <= |buf|
    requires forall i :: 0 <= i < |views| ==> views[i].lo <= views[i].hi <= |buf|
    ensures Join(buf, views) == buf[lo..hi]
    decreases |views|
  {
    if views != [] {
      TileBelow(views[1..], views[0].hi, hi);
      TileJoins(buf, views[1..], views[0].hi, hi);
    }
  }

  lemma {:induction false} TileBelow(views: seq<View>, lo: nat, hi: nat)
    requires Tile(views, lo, hi)
    ensures lo <= hi
    decreases |views|
  {
    if views != [] {
      TileBelow(views[1..], views[0].hi, hi);
    }
  }

  /** How many views a read of `n` bytes takes: `k` exactly if `n` needs `k` segments. */
  ghost predicate Takes(n: nat, segSize: int, k: nat) {
    if n == 0 then k == 0 else if segSize <= 0 then k == 1 else (k - 1) * segSize < n <= k * segSize
  }

  lemma Scaled(a: int, b: int, x: int)
    requires a <= b && x >= 0
    ensures a * x <= b * x
  {
  }

  /** The views fit `room` exactly if the read is at most that many segments long. */
  lemma FitsExactly(n: nat, segSize: int, k: nat, room: nat)
    requires Takes(n, segSize, k)
    ensures k <= room <==> if segSize > 0 then n <= room * segSize else n == 0 || room > 0
  {
    if segSize > 0 {
      Scaled(0, room, segSize);
      if k <= room {
        Scaled(k, room, segSize);
      } else {
        Scaled(room, k - 1, segSize);
      }
    }
  }

  /** Publishes each datagram of a read of `n` bytes after what the batch holds: nothing is lost, repeated or
      split differently. */
  method SplitGRO(b: Batch, n: nat, segSize: int) returns (added: nat)
    modifies b
    ensures |b.views| == |old(b.views)| + added && old(b.views) <= b.views
    ensures var mine := b.views[|old(b.views)|..]; Tile(mine, 0, n) && Segmented(mine, segSize)
    ensures Takes(n, segSize, added)
  {
    added := 0;
    var off := 0;
    ghost var mine: seq<View> := [];
    while off < n
      invariant 0 <= off <= n && added == |mine| && b.views == old(b.views) + mine && Tile(mine, 0, off)
      invariant off < n && added > 0 ==> segSize > 0
      invariant off < n ==> forall i :: 0 <= i < |mine| ==> mine[i].hi == mine[i].lo + segSize
      invariant Segmented(mine, segSize) && (off == 0 <==> added == 0)
      invariant segSize > 0 ==> if off < n then off == added * segSize else Takes(n, segSize, added)
      invariant segSize <= 0 ==> added <= 1
    {
      var dlen := n - off;
      if segSize > 0 && dlen > segSize {
        dlen := segSize;
      }
      TileSnoc(mine, 0, off, off + dlen);
      b.Add(View(off, off + dlen));
      mine := mine + [View(off, off + dlen)];
      off := off + dlen;
      added := added + 1;
    }
    assert b.views[|old(b.views)|..] == mine;
  }
}
