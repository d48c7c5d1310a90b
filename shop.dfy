/**
 * The shop's stock (core/src/main/java/com/anyicomplex/unlucky/inventory/Shop.java).
 *
 * The constructor walks the shop item lists of the resource manager, rarity by rarity, and
 * sorts each item into one of three buckets: misc (potions and enchant scrolls), equips and
 * accessories. An item is a value here: the fresh `ShopItem` the source builds for the bucket
 * copies the source item's fields, and its image and enchant-cost roll are not modelled.
 */
module Shops {

  datatype StockItem = StockItem(name: string, itemType: int, rarity: int, price: int)

  const NUM_BUCKETS: int := 3

  /** The bucket an item type is sold in, or -1 for a type the shop does not sell. */
  function BucketOf(itemType: int): (b: int)
    ensures -1 <= b < NUM_BUCKETS
  {
    if itemType == 0 then 0
    else if 2 <= itemType <= 6 then 1
    else if 7 <= itemType <= 9 then 2
    else if itemType == 10 then 0
    else -1
  }

  /** The items of `s` sold in bucket `b`, in their order in `s`. */
  function Select(s: seq<StockItem>, b: int): seq<StockItem>
  {
    if s == [] then []
    else Select(s[..|s| - 1], b) + (if BucketOf(s[|s| - 1].itemType) == b then [s[|s| - 1]] else [])
  }

  /** The lists of every rarity, one after the other. */
  function Flatten(rs: seq<seq<StockItem>>): seq<StockItem>
  {
    if rs == [] then [] else Flatten(rs[..|rs| - 1]) + rs[|rs| - 1]
  }

  // ------------------------------------------------------------------
  // Properties
  // ------------------------------------------------------------------

  lemma {:induction false} SelectConcat(a: seq<StockItem>, c: seq<StockItem>, b: int)
    ensures Select(a + c, b) == Select(a, b) + Select(c, b)
    decreases |c|
  {
    if c == [] {
      assert a + c == a;
    } else {
      assert (a + c)[..|a + c| - 1] == a + c[..|c| - 1];
      SelectConcat(a, c[..|c| - 1], b);
    }
  }

  /** An item is in a bucket exactly when it is stocked and its type belongs to that bucket. */
  lemma {:induction false} SelectMembers(s: seq<StockItem>, b: int, x: StockItem)
    ensures x in Select(s, b) <==> x in s && BucketOf(x.itemType) == b
  {
    if s != [] {
      SelectMembers(s[..|s| - 1], b, x);
      assert s == s[..|s| - 1] + [s[|s| - 1]];
    }
  }

  /** The items of a type the shop does not sell (1, or anything outside 0..10). */
  function Dropped(s: seq<StockItem>): seq<StockItem>
  {
    Select(s, -1)
  }

  /**
   * The three buckets and the dropped items together hold every stocked item once: their
   * lengths add up to the stock's, and each item is in the one place its type sends it.
   */
  lemma {:induction false} BucketsPartition(s: seq<StockItem>)
    ensures |Select(s, 0)| + |Select(s, 1)| + |Select(s, 2)| + |Dropped(s)| == |s|
  {
    if s != [] {
      BucketsPartition(s[..|s| - 1]);
    }
  }

  class Shop {
    var items: seq<seq<StockItem>>

    /** `Shop(rm)`: three buckets, each the stock of its kind in the order it was walked. */
    constructor (shopItems: seq<seq<StockItem>>)
      ensures |items| == NUM_BUCKETS
      ensures forall b :: 0 <= b < NUM_BUCKETS ==> items[b] == Select(Flatten(shopItems), b)
    {
      items := [[], [], []];
      new;
      var rarity := 0;
      while rarity < |shopItems|
        invariant 0 <= rarity <= |shopItems| && |items| == NUM_BUCKETS
        invariant forall b :: 0 <= b < NUM_BUCKETS ==> items[b] == Select(Flatten(shopItems[..rarity]), b)
      {
        var row := shopItems[rarity];
        var i := 0;
        assert Flatten(shopItems[..rarity]) + row[..0] == Flatten(shopItems[..rarity]);
        while i < |row|
          invariant 0 <= i <= |row| && |items| == NUM_BUCKETS
          invariant forall b :: 0 <= b < NUM_BUCKETS ==>
            items[b] == Select(Flatten(shopItems[..rarity]) + row[..i], b)
        {
          var item := row[i];
          ghost var before := Flatten(shopItems[..rarity]) + row[..i];
          assert before + [item] == Flatten(shopItems[..rarity]) + row[..i + 1];
          assert (before + [item])[..|before|] == before;
          if item.itemType == 0 {
            items := items[0 := items[0] + [item]];
          } else if item.itemType >= 2 && item.itemType <= 6 {
            items := items[1 := items[1] + [item]];
          } else if item.itemType >= 7 && item.itemType <= 9 {
            items := items[2 := items[2] + [item]];
          } else if item.itemType == 10 {
            items := items[0 := items[0] + [item]];
          }
          i := i + 1;
        }
        assert shopItems[..rarity + 1][..rarity] == shopItems[..rarity];
        assert row[..i] == row;
        rarity := rarity + 1;
      }
      assert shopItems[..rarity] == shopItems;
    }
  }
}
