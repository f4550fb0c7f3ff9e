# Gacha engine model

A Dafny model of the engine behind a small loot-box ("gacha") game. A player spends
currency to draw items from a weighted pool. After five draws in a row without a rare
item, a "pity" rule permanently raises the weights of the rare items.

The model follows the engine in `GachaGame.h` with its console output removed:

- **`WeightedPool`** (`pool.dfy`) is the pool, a class `GachaPool`. It keeps parallel
  sequences `items` and `rates` and a cached `totalRate`. Its invariant `Valid()` says
  the sequences are parallel and `totalRate` is exactly `Sum(rates)`. `AddItem`,
  `IncreaseRate` and `Pull` keep that invariant.
  - `Pull` is the cumulative-sum walk. The random value becomes the parameter `r`.
    `Pull` is proved to return the item at index `Draw(rates, r)`.
  - `Draw` is the least index whose running sum reaches `r`. The lemmas about it show
    that a value in `[0, totalRate)` always selects an entry. With non-negative
    weights, they also show that entry `k` is selected exactly when `r` falls in its
    interval of the number line.
- **`PlayerLedger`** (`player.dfy`) is the player, a class `Player` with a balance and
  an ordered inventory.
  - `SellItem` uses a 1-based slot index. It is specified by the value-level function
    `Sell` on a `Ledger`.
  - `SellValue` is the rarity-to-refund table.
- **`Pity`** (`pity.dfy`) states the pull request as a function `PullStep` on a value
  of the whole game state. It also holds the boost `Boost`, the counter transition
  `NextPity` and the game invariant `Inv`.
  - `Inv` says: the counter is in 0..4, the balance is non-negative, the inventory
    holds at most 15 items, and the weights are non-negative.
  - Lemmas show that every pull and every sale keeps `Inv`.
  - Lemmas also show that a boost fires exactly on the fifth miss in a row.
- **`Game`** (`game.dfy`) is the class `GachaGame` with the pool, the player and
  `pityCounter`. `PullGacha` is proved to produce exactly the state and result that
  `PullStep` gives. The 22-entry catalogue registered by `SetupPool` is a pair of
  constants.

Weights are Dafny `real`s, so the sum invariant holds exactly, with no rounding.
Currency is an unbounded `int`.

## Model

| member | source | states |
|---|---|---|
| `WeightedPool.SumAppend` | GachaGame.h:29-33 | appending a weight raises the sum by exactly that weight |
| `WeightedPool.SumUpdate` | GachaGame.h:49-52 | adding `d` to one weight raises the sum by exactly `d` |
| `WeightedPool.PrefixStep` | GachaGame.h:40-41 | each step of the walk adds the entry's weight to the running sum |
| `WeightedPool.PrefixSumMonotone` | GachaGame.h:40-43 | with non-negative weights, running sums are non-negative and never decrease along the pool |
| `WeightedPool.Draw` | GachaGame.h:35-45 | a selected index is in range and its running sum reaches `r`, while every earlier running sum is below `r`; no index is selected exactly when every running sum is below `r` |
| `WeightedPool.DrawCovers` | GachaGame.h:36-44 | a draw in `[0, total)` always selects an entry, so the null fallthrough is unreachable |
| `WeightedPool.DrawPrefixStable` | GachaGame.h:40-43 | once the walk stops within a prefix, the whole pool selects the same index |
| `WeightedPool.DrawPicksInterval` | GachaGame.h:35-45 | with non-negative weights, entry `k` is selected iff `r` lies in its interval `(Sum(rates[..k]), Sum(rates[..k+1])]` (both directions) |
| `WeightedPool.GachaPool.constructor` | GachaGame.h:23-27 | a new pool is empty, its total is 0, and it is valid |
| `WeightedPool.GachaPool.AddItem` | GachaGame.h:29-33 | appends exactly one item and one weight and raises the total by that weight, keeping the sequences parallel and the total equal to the sum |
| `WeightedPool.GachaPool.Pull` | GachaGame.h:35-45 | returns the item at the least index whose running sum reaches `r`, and returns None (the null pointer) exactly when there is no such index |
| `WeightedPool.GachaPool.IncreaseRate` | GachaGame.h:49-52 | changes only the weight at `index` (by `increaseBy`) and the total (by the same), leaves the items alone and keeps the sum invariant |
| `PlayerLedger.SellValue` | GachaGame.h:107-117 | the refund is between 0 and 150, and it is positive exactly for tiers 1 to 6 |
| `PlayerLedger.SellValueIncreasing` | GachaGame.h:107-117 | across tiers 1 to 6, a rarer tier refunds strictly more |
| `PlayerLedger.RemoveAt` | GachaGame.h:97 | erasing a slot shortens the sequence by one, keeps the others in order, and removes exactly that element from the multiset |
| `PlayerLedger.Sell` | GachaGame.h:90-98 | a sale never lowers the balance and never grows the inventory |
| `PlayerLedger.SellNoOpIffInvalid` | GachaGame.h:90-94 | a sale leaves the ledger unchanged iff the 1-based index is below 1 or beyond the inventory (both directions) |
| `PlayerLedger.SellValid` | GachaGame.h:95-98 | a valid sale removes exactly slot `index-1`, keeps the order of the rest, and credits that item's refund |
| `PlayerLedger.Player.constructor` | GachaGame.h:63 | a new player has 100 currency and an empty inventory |
| `PlayerLedger.Player.InventoryIsFull` | GachaGame.h:83 | true iff the inventory holds at least 15 items |
| `PlayerLedger.Player.CanPull` | GachaGame.h:84 | true iff the balance is at least `cost` |
| `PlayerLedger.Player.AddItem` | GachaGame.h:65-69 | appends the item at the end of the inventory; the balance is unchanged |
| `PlayerLedger.Player.SpendCurrency` | GachaGame.h:86 | debits exactly `amount`; the inventory is unchanged |
| `PlayerLedger.Player.EarnCurrency` | GachaGame.h:87 | credits exactly `amount`; the inventory is unchanged |
| `PlayerLedger.Player.SellItem` | GachaGame.h:90-100 | the new balance and inventory are `Sell` of the old ones |
| `Pity.Boost` | GachaGame.h:236-241 | the boost keeps the length, adds 50 to each entry of rarity at least 4, and leaves every other entry unchanged |
| `Pity.BoostSum` | GachaGame.h:238-240 | a boost raises the total weight by 50 times the number of high-rarity entries |
| `Pity.BoostNonNegative` | GachaGame.h:238-240 | a boost keeps the weights non-negative |
| `Pity.NextPity` | GachaGame.h:217-223 | a hit (rarity at least 4) resets the counter to 0; a miss adds one, and the counter returns to 0 when it reaches 5; a counter in 0..4 stays in 0..4 |
| `Pity.PityTransition` | GachaGame.h:217-223 | from a counter in 0..4, a boost fires iff the draw is a miss and the counter was 4; the next counter is 0 after a hit or a fired boost, and +1 otherwise; it stays in 0..4 |
| `Pity.MissStreak` | GachaGame.h:217-223 | from a reset counter, `n` misses in a row fire exactly `n / 5` boosts and leave the counter at `n % 5` |
| `Pity.PullStep` | GachaGame.h:205-229 | the pull returns no item iff the inventory is full or the balance is below 10 (the `InventoryIsFull` and `CanPull` tests, gathered in `Refuses`), and then it changes nothing |
| `Pity.PullSucceeds` | GachaGame.h:212-215 | a pull that goes ahead returns the drawn entry's item, appends it to the inventory, debits exactly 10, and leaves the items alone |
| `Pity.PullBoostsOnFifthMiss` | GachaGame.h:217-223 | under the invariant, a pull raises the weights (by `Boost`) iff it is the fifth miss in a row; otherwise the weights are unchanged; it sets the counter as `PityTransition` says |
| `Pity.PullPreservesInv` | GachaGame.h:205-229 | every pull request keeps counter 0..4, balance at least 0, inventory at most 15, and weights non-negative |
| `Pity.SellPreservesInv` | GachaGame.h:90-98 | every sale, valid or not, keeps the invariant |
| `Game.CatalogueWeights` | GachaGame.h:173-201 | the catalogue has 22 items and 22 weights, all positive |
| `Game.CatalogueHighEntries` | GachaGame.h:193-200 | the entries of rarity at least 4 are exactly positions 16 to 21 |
| `Game.CatalogueTotal` | GachaGame.h:174-200 | the catalogue's weights sum to 794.05 |
| `Game.InitialGame` | GachaGame.h:173-201 | a new game with the catalogue registered satisfies the invariant, can afford a pull, and accepts any draw in `[0, 794.05)` |
| `Game.GachaGame.constructor` | GachaGame.h:122 | a new game has an empty pool, a player with 100 currency and no items, and counter 0 |
| `Game.GachaGame.SetupPool` | GachaGame.h:173-201 | appends the 22 catalogue items and weights in order, keeping the pool and game invariants |
| `Game.GachaGame.PullGacha` | GachaGame.h:205-229 | the new game state and the returned item are exactly `PullStep` of the old state; the game invariant is kept |
| `Game.GachaGame.IncreaseHighRarityOdds` | GachaGame.h:236-242 | the weights become `Boost` of the old ones; the items and the pool invariant are unchanged |

## Left out

- Randomness: `std::random_device` seeding and `std::default_random_engine` (GachaGame.h:23-27, 36-37) are not modelled. The drawn value is the parameter `r` of `Pull` and `PullGacha`. `PullGacha` requires `r` in `[0, totalRate)` only when the pull goes ahead (`CanDraw`), as a `uniform_real_distribution` over that range would produce.
- Floating point: weights are exact `real`s. With doubles, `return nullptr` (GachaGame.h:44) can be reached when the running sum rounds below a draw close to the total. With exact sums it cannot be reached (`DrawCovers`).
- `Game.GachaGame.PullGacha`: the source dereferences the drawn pointer without a check (GachaGame.h:217). The model instead requires a possible draw (`CanDraw`). This rules out a pull from an empty pool, which the source would crash on. It also rules out a pool whose weights sum to 0, which the game never builds; there the source would return the first item.
- `WeightedPool.GachaPool.IncreaseRate`: requires `index < |rates|`. The source does not check the index, and an out-of-range index is undefined behaviour in C++.
- Integer width: `currency` is an unbounded `int`. A 32-bit overflow after millions of sales is not modelled.
- `Game.GachaGame.SetupPool`: the 22 `addItem` calls are written as a loop over the catalogue constants. The appended sequence is the same.
- `GachaGame::run` (GachaGame.h:124-171) is not modelled: it is the console menu loop. `Player::showInventory` and every print statement are also left out.
- The read accessors `getItems`, `getInventory`, `getCurrency` and `getPlayer` become reads of the fields `items`, `inventory`, `currency` and `player`.
- `shared_ptr` ownership: items are immutable values held in sequences.
- main.cpp is not part of this model. It is the raylib window, drawing and input loop: `GetRarityColor` and the string-repeat operator only format output.
- The boost is one permanent flat +50 for every entry of rarity at least 4. The code has no self-reverting boost, no per-tier boost sizes, no tier-budget setup and no configurable thresholds, so none is modelled.
- The limits are literal constants in the code: cost 10, capacity 15, trigger 5, rarity cutoff 4, boost 50 and starting balance 100. The model names each one as a constant.
- Failures are null returns and silent no-ops, as in the code. There are no typed error results.
