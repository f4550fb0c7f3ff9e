/**
  The player's ledger: a currency balance and an ordered inventory of
  drawn items, with the refund table used when an item is sold.
 */
module PlayerLedger {
  import opened Catalog

  /** The balance a new player starts with. */
  const StartingCurrency: int := 100
  /** The number of inventory slots at which the inventory counts as full. */
  const Capacity: int := 15

  /** The refund for selling an item of the given rarity tier. */
  function SellValue(rarity: int): (v: int)
    ensures 0 <= v <= 150
    ensures v > 0 <==> 1 <= rarity <= 6
  {
    match rarity
    case 1 => 5
    case 2 => 10
    case 3 => 20
    case 4 => 50
    case 5 => 100
    case 6 => 150
    case _ => 0
  }

  /** Each tier up to 6 sells for strictly more than the tier below it. */
  lemma SellValueIncreasing(a: int, b: int)
    requires 1 <= a < b <= 6
    ensures SellValue(a) < SellValue(b)
  {
  }

  /** `s` with its element at position `k` erased. */
  function RemoveAt<T>(s: seq<T>, k: nat): (t: seq<T>)
    requires k < |s|
    ensures |t| == |s| - 1
    ensures forall j :: 0 <= j < k ==> t[j] == s[j]
    ensures forall j :: k <= j < |t| ==> t[j] == s[j + 1]
    ensures multiset(t) + multiset{s[k]} == multiset(s)
  {
    assert s == s[..k] + [s[k]] + s[k + 1..];
    s[..k] + s[k + 1..]
  }

  /** The value of a player's state: balance and inventory. */
  datatype Ledger = Ledger(currency: int, inventory: seq<GachaItem>)

  /** The inventory is full: there is no room for one more item within the capacity. */
  predicate IsFull(l: Ledger)
  {
    |l.inventory| >= Capacity
  }

  /** The balance covers a payment of `cost`. */
  predicate CanAfford(l: Ledger, cost: int)
  {
    l.currency >= cost
  }

  /**
    Selling the item in 1-based slot `index`: an index outside 1..|inventory|
    changes nothing; otherwise the slot is erased and its refund credited.
   */
  function Sell(l: Ledger, index: int): (m: Ledger)
    ensures m.currency >= l.currency
    ensures |m.inventory| <= |l.inventory|
  {
    if index < 1 || index > |l.inventory| then l
    else
      var item := l.inventory[index - 1];
      Ledger(l.currency + SellValue(item.rarity), RemoveAt(l.inventory, index - 1))
  }

  /** A sale leaves the ledger unchanged exactly when the slot index is out of range. */
  lemma SellNoOpIffInvalid(l: Ledger, index: int)
    ensures Sell(l, index) == l <==> index < 1 || index > |l.inventory|
  {
    if 1 <= index <= |l.inventory| {
      assert |Sell(l, index).inventory| == |l.inventory| - 1;
    }
  }

  /**
    A valid sale removes exactly the item in slot `index`, keeps the other
    items in their order, and credits that item's refund.
   */
  lemma SellValid(l: Ledger, index: int)
    requires 1 <= index <= |l.inventory|
    ensures var m := Sell(l, index); var sold := l.inventory[index - 1];
      && |m.inventory| == |l.inventory| - 1
      && (forall j :: 0 <= j < index - 1 ==> m.inventory[j] == l.inventory[j])
      && (forall j :: index - 1 <= j < |m.inventory| ==> m.inventory[j] == l.inventory[j + 1])
      && multiset(m.inventory) + multiset{sold} == multiset(l.inventory)
      && m.currency == l.currency + SellValue(sold.rarity)
  {
  }

  /** The player: a name, a balance and an ordered inventory, updated in place. */
  class Player {
    var name: string
    var currency: int
    var inventory: seq<GachaItem>

    /** The player's balance and inventory as a value. */
    function Snapshot(): Ledger
      reads this
    {
      Ledger(currency, inventory)
    }

    constructor (name: string)
      ensures this.name == name
      ensures Snapshot() == Ledger(StartingCurrency, [])
    {
      this.name := name;
      currency := StartingCurrency;
      inventory := [];
    }

    /** The inventory holds at least the capacity's worth of items. */
    predicate InventoryIsFull()
      reads this
      ensures InventoryIsFull() <==> |inventory| >= Capacity
    {
      IsFull(Snapshot())
    }

    /** The balance is at least `cost`. */
    predicate CanPull(cost: int)
      reads this
      ensures CanPull(cost) <==> currency >= cost
    {
      CanAfford(Snapshot(), cost)
    }

    /** Appends a drawn item to the end of the inventory. */
    method AddItem(item: GachaItem)
      modifies this
      ensures inventory == old(inventory) + [item]
      ensures currency == old(currency) && name == old(name)
    {
      inventory := inventory + [item];
    }

    /** Debits `amount`, with no check of its own. */
    method SpendCurrency(amount: int)
      modifies this
      ensures currency == old(currency) - amount
      ensures inventory == old(inventory) && name == old(name)
    {
      currency := currency - amount;
    }

    /** Credits `amount`. */
    method EarnCurrency(amount: int)
      modifies this
      ensures currency == old(currency) + amount
      ensures inventory == old(inventory) && name == old(name)
    {
      currency := currency + amount;
    }

    /** Sells the item in 1-based slot `index`; an out-of-range index changes nothing. */
    method SellItem(index: int)
      modifies this
      ensures Snapshot() == Sell(old(Snapshot()), index)
      ensures name == old(name)
    {
      if index < 1 || index > |inventory| {
        return;
      }
      var item := inventory[index - 1];
      var sellValue := SellValue(item.rarity);
      inventory := RemoveAt(inventory, index - 1);
      currency := currency + sellValue;
    }
  }
}
