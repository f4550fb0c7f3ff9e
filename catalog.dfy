/**
  The immutable records of the gacha engine: an item is a name and a rarity
  tier, held by value wherever the engine stores it (pool entries and
  inventory slots may hold equal items).
 */
module Catalog {

  /** A value that may be absent; `None` plays the role of a null item pointer. */
  datatype Option<+T> = None | Some(value: T)

  /** An obtainable item: its display name and its rarity tier (higher is rarer). */
  datatype GachaItem = GachaItem(name: string, rarity: int)
}
