/** The basket store: a module-private list of `{name, price}` entries that
    is reachable only through `addItem`, `getItemCount`, `getTotalPrice`
    and `resetBasketList`. */
module Basket {

  /** One basket entry. Prices are whole numbers. */
  datatype Item = Item(name: string, price: int)

  /** What the total means: the sum of `price` over the entries. */
  function SumPrices(items: seq<Item>): int
  {
    if items == [] then 0 else items[0].price + SumPrices(items[1..])
  }

  /** `items.reduce((sum, item) => item.price + sum, acc)`: a fold from the
      left that adds each price to the running sum. Whatever it starts
      from, it ends at that start plus the sum of the prices. */
  function ReducePrices(items: seq<Item>, acc: int): (sum: int)
    ensures sum == acc + SumPrices(items)
  {
    if items == [] then acc else ReducePrices(items[1..], items[0].price + acc)
  }

  /** Appending an entry adds exactly its price to the sum. */
  lemma {:induction false} SumAppend(items: seq<Item>, e: Item)
    ensures SumPrices(items + [e]) == SumPrices(items) + e.price
  {
    if items == [] {
      assert items + [e] == [e];
    } else {
      assert (items + [e])[1..] == items[1..] + [e];
      SumAppend(items[1..], e);
    }
  }

  /** The module singleton; `basketList` is the private array. */
  class BasketModule {
    var basketList: seq<Item>

    /** Module load: the list starts empty. */
    constructor ()
      ensures basketList == []
    {
      basketList := [];
    }

    /** `addItem`: pushes the entry at the end of the list. */
    method AddItem(basket: Item)
      modifies this
      ensures basketList == old(basketList) + [basket]
      ensures GetItemCount() == old(GetItemCount()) + 1
      ensures GetTotalPrice() == old(GetTotalPrice()) + basket.price
    {
      SumAppend(basketList, basket);
      basketList := basketList + [basket];
    }

    /** `getItemCount`: the number of entries, zero exactly for the empty list. */
    function GetItemCount(): (n: nat)
      reads this
      ensures n == |basketList|
      ensures n == 0 <==> basketList == []
    {
      |basketList|
    }

    /** `getTotalPrice`: the reduce over the list, which is the sum of the prices. */
    function GetTotalPrice(): (total: int)
      reads this
      ensures total == SumPrices(basketList)
      ensures basketList == [] ==> total == 0
    {
      ReducePrices(basketList, 0)
    }

    /** The private `reset`: pops the last entry until the list is empty;
        what remains is always a prefix of the list it started from. */
    method Reset()
      modifies this
      ensures basketList == []
    {
      while |basketList| > 0
        invariant basketList <= old(basketList)
        decreases |basketList|
      {
        basketList := basketList[..|basketList| - 1];
      }
    }

    /** `resetBasketList`: after it, count and total are both 0. */
    method ResetBasketList()
      modifies this
      ensures basketList == []
      ensures GetItemCount() == 0 && GetTotalPrice() == 0
    {
      Reset();
    }
  }

  /** The demonstration: two items priced 2500 and 3000 give count 2 and
      total 5500; after the reset both are 0. */
  method BasketDemo() returns (count: nat, total: int, countAfterReset: nat, totalAfterReset: int)
    ensures count == 2 && total == 5500
    ensures countAfterReset == 0 && totalAfterReset == 0
  {
    var basket := new BasketModule();
    basket.AddItem(Item("샴푸", 2500));
    basket.AddItem(Item("바디워시", 3000));
    count := basket.GetItemCount();
    total := basket.GetTotalPrice();
    basket.ResetBasketList();
    countAfterReset := basket.GetItemCount();
    totalAfterReset := basket.GetTotalPrice();
  }
}
