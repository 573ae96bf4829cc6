/**
 * The item list shown for one order: a count, numbered rows, and the order
 * total computed by a left fold over the line totals.
 */
module ItemsList {
  import opened Types

  /** `items.reduce((acc, item) => acc + item.totalPrice, acc)`: adds line totals front to back. */
  function FoldTotals(items: seq<OrderItem>, acc: int): int
    decreases |items|
  {
    if |items| == 0 then acc else FoldTotals(items[1..], acc + items[0].totalPrice)
  }

  /** The total shown under the list: the fold started at 0. */
  function Total(items: seq<OrderItem>): (t: int)
    ensures items == [] ==> t == 0
  {
    FoldTotals(items, 0)
  }

  /** Reference definition: the sum of the line totals, built from the last line backwards. */
  ghost function Sum(items: seq<OrderItem>): int
    decreases |items|
  {
    if |items| == 0 then 0 else Sum(items[..|items| - 1]) + items[|items| - 1].totalPrice
  }

  lemma {:induction false} SumPrepend(x: OrderItem, items: seq<OrderItem>)
    ensures Sum([x] + items) == x.totalPrice + Sum(items)
    decreases |items|
  {
    if |items| > 0 {
      var all := [x] + items;
      assert all[..|all| - 1] == [x] + items[..|items| - 1];
      SumPrepend(x, items[..|items| - 1]);
    } else {
      assert [x] + items == [x];
    }
  }

  lemma {:induction false} FoldTotalsIsSum(items: seq<OrderItem>, acc: int)
    ensures FoldTotals(items, acc) == acc + Sum(items)
    decreases |items|
  {
    if |items| > 0 {
      FoldTotalsIsSum(items[1..], acc + items[0].totalPrice);
      assert items == [items[0]] + items[1..];
      SumPrepend(items[0], items[1..]);
    }
  }

  /** The displayed total is the sum of every line's total price. */
  lemma TotalIsSum(items: seq<OrderItem>)
    ensures Total(items) == Sum(items)
  {
    FoldTotalsIsSum(items, 0);
  }

  /** Adding a line adds exactly its total price. */
  lemma TotalAppend(items: seq<OrderItem>, x: OrderItem)
    ensures Total(items + [x]) == Total(items) + x.totalPrice
  {
    TotalIsSum(items);
    TotalIsSum(items + [x]);
    assert (items + [x])[..|items|] == items;
  }

  /** One displayed row: its 1-based number and the line it shows. */
  datatype Row = Row(number: nat, name: string, quantity: int, totalPrice: int)

  /** The rows of the popup, numbered from 1 in list order. */
  function Rows(items: seq<OrderItem>): (rows: seq<Row>)
    ensures |rows| == |items|
    ensures forall i :: 0 <= i < |items| ==>
      rows[i].number == i + 1 && rows[i].name == items[i].name
      && rows[i].quantity == items[i].quantity && rows[i].totalPrice == items[i].totalPrice
  {
    seq(|items|, i requires 0 <= i < |items| => Row(i + 1, items[i].name, items[i].quantity, items[i].totalPrice))
  }

  /** The count on the button, "n item(s)". */
  function ItemCount(items: seq<OrderItem>): (n: nat)
    ensures n == |Rows(items)|
  {
    |items|
  }
}
