# PizzaDash game economy in Dafny

This project models the game-economy core of PizzaDash, a walking-and-delivery mobile
game. The core is four in-memory stores that the screens read and call:

- **Currency store** (`Currency.CurrencyStore`): one signed `balance`. It changes only
  through `AddCurrency`, and nothing stops it from going below zero.
- **Experience store** (`Experience.ExperienceStore`): `level` and `experience`.
  `AddExperience` adds a grant and then runs the level-up loop: while the experience
  covers `RequiredXP(level) = level * 100`, it pays that amount and goes up one level.
- **Customization store** (`Customization.CustomizationStore`): a constant catalog of
  three vehicles and three characters, the list of owned ids, and the selected vehicle
  and character. `PurchaseItem` is guarded and pays from the currency store.
- **Order store** (`Orders.OrderStore`): three order lists (incoming, active, past) and
  the order on display. `SetOrderStatus` moves an order between the lists. Moving an
  order to past pays `floor(total + deliveryFee + tip)` into the currency store.

Each store is a class. Its methods state the whole new state in terms of the old one.
The order store and the customization store each hold a `currency` reference to one
shared `CurrencyStore`. `useCustomizationStore.ts` calls the currency store without
importing it; the model treats that call as going to the same shared ledger.

The loops and list operations have pure specification functions beside them:

- `Settle` is the level-up loop.
- `WithoutId` is the `filter` the order store uses.
- `IndexOfId` and `FindById` are `findIndex` and `find`.
- `Relist` describes one list after a status change.
- `Merge` is the object spread `{...order, ...updates}`.

Lemmas prove what these functions and the stores promise:

- Experience is conserved across level-ups, and the experience stays normalised.
- The contract of `Settle` determines its result.
- A status change leaves the moved id exactly once across the three lists.
- The lists stay consistent under the actions that keep them so. Consistent means no
  id appears twice and each order's status names the list it is in.
- A purchase can succeed at most once per item.

Money: an order's `total`, `deliveryFee` and `tip` are `real`, and the reward is
`.Floor` of their sum, which is `Math.floor`. The balance, prices and experience are
`int`: prices are whole numbers, rewards are floored, and the developer menu parses
its amounts with `parseInt`.

Behaviour of the code that a reader might not expect, each with the member that
exhibits it:

- One grant can pass several levels. Level 1 costs 100 and level 2 costs 200, so 250
  experience from the start reach level 2 with 150 left, and 300 reach level 3 with 0
  left (`Experience.GrantFromStartExample`).
- `setOrderStatus` has no guard against a repeat. Moving an order that is already past
  to past again pays its reward again (`Orders.CompleteTwice`).
- `purchaseItem` does not check `unlockLevel`. Only the screen-side `canPurchase` in
  `CustomizationScreen.tsx:157` compares the player's level with it
  (`Customization.UnlockLevelNotChecked`).
- `selectItem` does not check that the item's type matches the slot, so the starter
  character can be selected as the vehicle (`Customization.CharacterAsVehicleScenario`).

## Model

| member | source | states |
|---|---|---|
| Currency.CurrencyStore.constructor | PizzaDash/src/store/useCurrencyStore.ts:13 | a fresh ledger has balance 0 |
| Currency.CurrencyStore.AddCurrency | PizzaDash/src/store/useCurrencyStore.ts:14-15 | the new balance is the old balance plus the signed amount, with no floor |
| Currency.AddCurrencyComposes | PizzaDash/src/store/useCurrencyStore.ts:14-15 | adding a then b leaves the same balance as one adjustment by a+b; adding a then -a restores the balance |
| Currency.SetMoney | PizzaDash/src/screens/DevMenuScreen.tsx:39-45 | adding target minus balance leaves the balance exactly at target |
| Currency.ResetMoney | PizzaDash/src/screens/DevMenuScreen.tsx:112 | adding minus the balance leaves the balance at 0 |
| Experience.RequiredXP | PizzaDash/src/store/useExperienceStore.ts:14 | the cost of a level of at least 1 is at least 100, so each loop iteration pays a positive amount |
| Experience.Settle | PizzaDash/src/store/useExperienceStore.ts:27-30 | the loop never lowers the level; it conserves experience (input = rest + cost of the levels passed); it ends below the threshold of the level it reaches; a non-negative input leaves a non-negative rest; an input already below the threshold is untouched |
| Experience.SettleUnique | PizzaDash/src/store/useExperienceStore.ts:27-30 | a level and a rest in [0, RequiredXP(level)) that conserve the experience are exactly what the loop returns |
| Experience.Grant | PizzaDash/src/store/useExperienceStore.ts:21-36 | one addExperience call never lowers the level, conserves the old experience plus the grant, ends below the threshold of the level it reaches, and leaves a non-negative rest when the sum is non-negative |
| Experience.GrantFromStartExample | PizzaDash/src/store/useExperienceStore.ts:21-36 | from level 1 with 0 experience, 250 gives level 2 with 150, and 300 gives level 3 with 0, so one call can pass several levels |
| Experience.NegativeGrantKeepsLevel | PizzaDash/src/store/useExperienceStore.ts:23-30 | a grant of at most 0 skips the loop: the level stays and the experience becomes experience + amount, which may be negative |
| Experience.DevResetKeepsLevel | PizzaDash/src/screens/DevMenuScreen.tsx:114-115 | the reset grant keeps the level and leaves experience -(level-1)*100; the result is the start state exactly when the level was 1 |
| Experience.Replay | PizzaDash/src/store/useExperienceStore.ts:21-36 | over any sequence of grants the level never decreases |
| Experience.ReplayConserves | PizzaDash/src/store/useExperienceStore.ts:21-36 | after any sequence of non-negative grants from a normalised state, the state is still normalised, and the experience spent on levels plus the rest equals what was granted |
| Experience.ExperienceStore.constructor | PizzaDash/src/store/useExperienceStore.ts:19-20 | the store starts at level 1 with 0 experience |
| Experience.ExperienceStore.AddExperience | PizzaDash/src/store/useExperienceStore.ts:21-36 | the new state is the loop's result; the level never drops; experience is conserved; a normalised state stays normalised under a non-negative amount; a negative amount keeps the level and adds the amount to the experience |
| Experience.ExperienceStore.GetNextLevelXP | PizzaDash/src/store/useExperienceStore.ts:37 | the result is RequiredXP(level): at least 100 and above the current experience |
| Experience.ExperienceStore.GetLevelProgress | PizzaDash/src/store/useExperienceStore.ts:38-42 | the result times RequiredXP(level) is the experience; it is below 1, and in [0, 1) when the experience is non-negative |
| Customization.CatalogWellFormed | PizzaDash/src/store/useCustomizationStore.ts:32-103 | catalog ids are pairwise distinct, prices are non-negative, and the starter bike and the starter character are found and cost 0 |
| Customization.FindItem | PizzaDash/src/store/useCustomizationStore.ts:116-118 | the result is absent exactly when no item has the id; otherwise it is the first item with the id |
| Customization.CanPurchase | PizzaDash/src/store/useCustomizationStore.ts:115-124 | the guard holds exactly when some catalog entry has the id, the id is not owned, and the balance covers that entry's price; it never holds at a negative balance |
| Customization.PurchaseAtMostOnce | PizzaDash/src/store/useCustomizationStore.ts:120-128 | once a purchase has succeeded and the id is appended, the guard fails for that id at any balance |
| Customization.UnlockLevelNotChecked | PizzaDash/src/store/useCustomizationStore.ts:120-124 | the scooter's unlock level is 2, yet the guard accepts it from the starting ownership with 1000 coins and refuses it with 999, whatever the player's level |
| Customization.Unset | PizzaDash/src/store/useCustomizationStore.ts:147 | a selection counts as set exactly when it is a non-empty string, which is JavaScript truthiness for a string or null |
| Customization.WithDefault | PizzaDash/src/store/useCustomizationStore.ts:145-153 | the result is never unset, and a selection that is set is kept |
| Customization.WithDefaultIdempotent | PizzaDash/src/store/useCustomizationStore.ts:145-153 | initialising a selection twice gives the same selection as initialising it once |
| Customization.CustomizationStore.constructor | PizzaDash/src/store/useCustomizationStore.ts:108-112 | owned items are exactly bike_1 and char_1, with bike_1 and char_1 selected |
| Customization.CustomizationStore.PurchaseItem | PizzaDash/src/store/useCustomizationStore.ts:114-132 | it succeeds exactly when the id is in the catalog, not owned, and the balance covers the price; on success the id is appended and exactly the price is debited; on failure neither changes; selections never change; owned ids stay distinct catalog ids |
| Customization.CustomizationStore.SelectItem | PizzaDash/src/store/useCustomizationStore.ts:134-143 | an unowned id changes nothing; an owned id sets only the slot named by the argument, without checking the item's catalog type |
| Customization.CustomizationStore.InitializeStore | PizzaDash/src/store/useCustomizationStore.ts:145-153 | an unset (null or empty) selection becomes its default and a set selection is left alone; ownership is unchanged |
| Customization.PurchaseTwice | PizzaDash/src/store/useCustomizationStore.ts:120-131 | a second purchase of the same id always fails, and over both calls the balance drops by the price at most once |
| Customization.ScooterScenario | PizzaDash/src/store/useCustomizationStore.ts:114-132 | on a fresh store, 1000 coins buy the scooter and leave 0; with 0 coins the purchase fails and the balance stays 0 |
| Customization.CharacterAsVehicleScenario | PizzaDash/src/store/useCustomizationStore.ts:134-143 | selecting the starter character for the vehicle slot succeeds |
| Orders.Merge | PizzaDash/src/store/useOrderStore.ts:103 | field by field, a field the update carries wins and every other field keeps the order's value |
| Orders.MergeLaws | PizzaDash/src/store/useOrderStore.ts:103 | the empty update changes nothing; applying an update twice is applying it once; an update without id and status keeps both |
| Orders.Reward | PizzaDash/src/store/useOrderStore.ts:77 | the reward is the floor of total + deliveryFee + tip: at most the sum and more than the sum minus 1 |
| Orders.RewardFacts | PizzaDash/src/store/useOrderStore.ts:76-79 | the reward does not depend on the status, and it is non-negative when the three amounts are |
| Orders.WithoutId | PizzaDash/src/store/useOrderStore.ts:60 | an order is in the result exactly when it is in the list and its id differs; the count of that id becomes 0 and all other counts are unchanged; an absent id leaves the list unchanged |
| Orders.WithoutIdAppend | PizzaDash/src/store/useOrderStore.ts:60 | filtering a concatenation is concatenating the filtered parts, so the kept orders stay in their original relative order |
| Orders.WithoutIdIdempotent | PizzaDash/src/store/useOrderStore.ts:58-61 | removing an id twice is removing it once |
| Orders.IndexOfId | PizzaDash/src/store/useOrderStore.ts:101 | the result is -1 exactly when no order has the id; otherwise it is the first index carrying the id |
| Orders.FindById | PizzaDash/src/store/useOrderStore.ts:70 | the result is absent exactly when no order carries the id; a found order carries the id and is one of the orders |
| Orders.FindByIdFirst | PizzaDash/src/store/useOrderStore.ts:70 | an order with no earlier order of the same id is the one a lookup of its id returns, so the lookup returns the first match |
| Orders.FindByIdAppend | PizzaDash/src/store/useOrderStore.ts:64-70 | a lookup over a concatenation searches the first part before the second, so the combined list is searched incoming, then active, then past |
| Orders.Relist | PizzaDash/src/store/useOrderStore.ts:81-94 | in the list of the new status the moved order is last; no list grows by more than the moved order |
| Orders.RelistCount | PizzaDash/src/store/useOrderStore.ts:81-94 | after the change one list carries the moved id once if it is the list of the new status, and not at all otherwise; every other id keeps its count |
| Orders.MovedSummary | PizzaDash/src/store/useOrderStore.ts:81-94 | over the three new lists the moved id is carried once, other ids as often as before, and a lookup finds the moved order |
| Orders.MovedCounts | PizzaDash/src/store/useOrderStore.ts:81-94 | after a status change the moved id occurs exactly once across the three lists, and every other id as often as before |
| Orders.MovedFind | PizzaDash/src/store/useOrderStore.ts:81-94 | after a status change a lookup of the id finds the moved order |
| Orders.MovedConsistent | PizzaDash/src/store/useOrderStore.ts:81-94 | if the lists were consistent before a status change, they still are |
| Orders.AddActiveConsistent | PizzaDash/src/store/useOrderStore.ts:52-56 | starting from consistent lists, adding an active order leaves them consistent exactly when the order already has status active and its id is neither active nor past |
| Orders.RemoveKeepsConsistent | PizzaDash/src/store/useOrderStore.ts:58-61 | removing an id from the incoming list keeps the lists consistent |
| Orders.ReplaceKeepsConsistent | PizzaDash/src/store/useOrderStore.ts:116-129 | replacing an active order by one with the same id and status keeps the lists consistent |
| Orders.OrderStore.constructor | PizzaDash/src/store/useOrderStore.ts:47-50 | all three lists are empty, there is no current order, and the store is consistent |
| Orders.OrderStore.AllOrders | PizzaDash/src/store/useOrderStore.ts:64-69 | the combined list is as long as the three lists together; its search order is stated by FindByIdAppend |
| Orders.OrderStore.Relocate | PizzaDash/src/store/useOrderStore.ts:81-94 | the three lists become their relisted forms; the moved order is last in the list of its status; its id is carried once and a lookup finds it; other ids keep their counts; consistency is kept |
| Orders.OrderStore.AddActiveOrder | PizzaDash/src/store/useOrderStore.ts:52-56 | the order is appended to the active list as given, with no status rewrite; its id is removed from the incoming list; the past list and the current order are unchanged |
| Orders.OrderStore.RemoveIncomingOrder | PizzaDash/src/store/useOrderStore.ts:58-61 | only the incoming list changes; it loses every order with the id; an absent id is a no-op; consistency is kept |
| Orders.OrderStore.SetOrderStatus | PizzaDash/src/store/useOrderStore.ts:63-97 | an unknown id changes nothing and pays nothing; otherwise the first match, with its new status, sits at the end of the target list and has been filtered out everywhere else; the id then occurs exactly once, and other ids as before; moving to past pays the reward and any other target pays nothing; consistency is kept |
| Orders.OrderStore.UpdateOrder | PizzaDash/src/store/useOrderStore.ts:99-109 | only the first active order with the id is replaced, at the same index, by its merge with the update; lengths and all other orders are unchanged; an id with no active order is a no-op; an update that touches neither id nor status keeps the lists consistent |
| Orders.OrderStore.UpdateOrderStartLocation | PizzaDash/src/store/useOrderStore.ts:116-129 | only the startLocation of the first active order with the id changes; the incoming list, the past list and the current order are unchanged; consistency is kept |
| Orders.OrderStore.SetCurrentOrder | PizzaDash/src/store/useOrderStore.ts:111-114 | only the current order changes |
| Orders.OrderStore.ClearStore | PizzaDash/src/store/useOrderStore.ts:131-138 | all three lists are empty and there is no current order |
| Orders.CompleteTwice | PizzaDash/src/store/useOrderStore.ts:76-79 | moving the same order to past twice credits its reward twice |

## Left out

- Persistence: the zustand `persist` middleware and AsyncStorage are storage I/O. Only the
  in-memory state is modelled, so a stored state that breaks the store invariants
  (`Valid`, `Consistent`) is not covered.
- The screens, navigation, components and `App.tsx` only render the stores and wire
  events to them. Of the developer menu, "set money" and "reset money" are kept as the
  client methods `SetMoney` and `ResetMoney`. The experience reset is the lemma
  `DevResetKeepsLevel`, about the grant it makes.
- The near-customer rule `distance <= 300000` and the GPS, routing and haversine code
  around it in `MapScreen.tsx` are left out. That code is network and geolocation I/O
  with floating-point geodesy; an update setting `isNearCustomer` is only an
  `OrderUpdate`.
- The location, volume and game-settings stores are left out. They hold permission
  prompts, sound volumes and one unread setting.
- `CustomizationScreen.tsx` reads `itemUpgrades`, `upgradeItem` and `getItemStats` from
  the customization store, which does not define them. Upgrades and per-item stats
  therefore have no behaviour to model. Order generation, acceptance limits, expiry
  timers and experience grants on delivery are not in the stores either.
- Numbers: JavaScript numbers are IEEE doubles. The model uses unbounded `int` and
  exact `real`, so rounding, overflow and `NaN` are not modelled. Coordinates are
  `real`.
- `Partial<Order>`: an update can only set a field or leave it alone. An explicit
  `undefined` that clears an optional field is not representable.
- `Experience.ExperienceStore.GetLevelProgress` requires `Valid()`, which includes
  level at least 1. This rules out a division by zero that the store never reaches.
