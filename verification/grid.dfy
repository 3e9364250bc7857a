/** Layout helpers shared by the list screens: cutting a list into rows of
    two cards, and showing only a leading part of a list. */
module Grid {
  import opened Js

  /** Concatenation of the rows, in order. */
  function Flatten<T>(rows: seq<seq<T>>): seq<T> {
    if |rows| == 0 then [] else rows[0] + Flatten(rows[1..])
  }

  /** Rows of two: the first two items, then the rows of the rest. */
  function Pairs<T>(items: seq<T>): seq<seq<T>>
    decreases |items|
  {
    if |items| == 0 then []
    else
      var n := Min(2, |items|);
      [items[..n]] + Pairs(items[n..])
  }

  /** The rows give back the list when concatenated, every row holds one or
      two items, all rows but the last hold two, and there are ceil(n/2) rows. */
  lemma {:induction false} PairsShape<T>(items: seq<T>)
    ensures Flatten(Pairs(items)) == items
    ensures |Pairs(items)| == (|items| + 1) / 2
    ensures forall k :: 0 <= k < |Pairs(items)| ==> 1 <= |Pairs(items)[k]| <= 2
    ensures forall k :: 0 <= k < |Pairs(items)| - 1 ==> |Pairs(items)[k]| == 2
    decreases |items|
  {
    if |items| > 0 {
      var n := Min(2, |items|);
      PairsShape(items[n..]);
      var rows := Pairs(items);
      assert rows[1..] == Pairs(items[n..]);
      assert items == items[..n] + items[n..];
      forall k | 1 <= k < |rows|
        ensures rows[k] == Pairs(items[n..])[k - 1]
      {
      }
    }
  }

  /** The pairing loop of the list screens: `for (i = 0; i < n; i += 2)
      pairs.push(list.slice(i, i + 2))`. */
  method ChunkPairs<T>(items: seq<T>) returns (pairs: seq<seq<T>>)
    ensures pairs == Pairs(items)
    ensures Flatten(pairs) == items
    ensures |pairs| == (|items| + 1) / 2
    ensures forall k :: 0 <= k < |pairs| ==> 1 <= |pairs[k]| <= 2
    ensures forall k :: 0 <= k < |pairs| - 1 ==> |pairs[k]| == 2
  {
    pairs := [];
    var i := 0;
    while i < |items|
      invariant 0 <= i <= |items| + 1
      invariant pairs + Pairs(items[Min(i, |items|)..]) == Pairs(items)
    {
      var rest := items[i..];
      assert Pairs(rest) == [rest[..Min(2, |rest|)]] + Pairs(rest[Min(2, |rest|)..]);
      assert rest[..Min(2, |rest|)] == Slice(items, i, i + 2);
      assert rest[Min(2, |rest|)..] == items[Min(i + 2, |items|)..];
      pairs := pairs + [Slice(items, i, i + 2)];
      i := i + 2;
    }
    PairsShape(items);
  }

  /** `list.slice(0, limit)`: the first `limit` items, or all of them when
      there are fewer, in their original order. */
  function Take<T>(items: seq<T>, limit: nat): (r: seq<T>)
    ensures |r| == Min(limit, |items|)
    ensures r <= items
  {
    Slice(items, 0, limit)
  }
}
