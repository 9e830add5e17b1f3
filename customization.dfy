/** The customization store: a fixed catalog of vehicles and characters, the ids the
    player owns, and the selected vehicle and character. Purchases are paid from the
    shared currency ledger. */
module Customization {
  import opened Optional
  import opened Currency

  datatype ItemType = Vehicle | Character

  /** Display statistics; each one may be absent. */
  datatype Stats = Stats(speed: Option<int>, handling: Option<int>, acceleration: Option<int>)

  datatype CustomizationItem = CustomizationItem(
    id: string,
    name: string,
    itemType: ItemType,
    description: string,
    price: int,
    image: string,
    stats: Option<Stats>,
    unlockLevel: Option<int>)

  const DefaultVehicles: seq<CustomizationItem> := [
    CustomizationItem("bike_1", "Basic Bike", Vehicle, "A reliable starter bike", 0, "bicycle",
                      Some(Stats(Some(50), Some(70), Some(60))), None),
    CustomizationItem("scooter_1", "Speedy Scooter", Vehicle, "Perfect for quick deliveries", 1000, "motorcycle",
                      Some(Stats(Some(75), Some(65), Some(80))), Some(2)),
    CustomizationItem("car_1", "Pizza Mobile", Vehicle, "Deliver in style", 5000, "car",
                      Some(Stats(Some(90), Some(85), Some(75))), Some(5))
  ]

  const DefaultCharacters: seq<CustomizationItem> := [
    CustomizationItem("char_1", "Rookie Driver", Character, "Fresh and ready to deliver", 0, "user", None, None),
    CustomizationItem("char_2", "Speed Demon", Character, "Known for quick deliveries", 2000, "rocket", None, Some(3)),
    CustomizationItem("char_3", "Pizza Master", Character, "The legendary delivery expert", 4000, "star", None, Some(6))
  ]

  /** The catalog a purchase searches: vehicles first, then characters. */
  const Catalog: seq<CustomizationItem> := DefaultVehicles + DefaultCharacters

  const DefaultVehicle: string := "bike_1"
  const DefaultCharacter: string := "char_1"

  predicate InCatalog(id: string)
  {
    exists i :: 0 <= i < |Catalog| && Catalog[i].id == id
  }

  /** No id is listed twice in the catalog, so a lookup by id is unambiguous; every
      price is non-negative; the two starter items cost nothing. */
  lemma CatalogWellFormed()
    ensures forall i, j :: 0 <= i < j < |Catalog| ==> Catalog[i].id != Catalog[j].id
    ensures forall i :: 0 <= i < |Catalog| ==> Catalog[i].price >= 0
    ensures FindItem(Catalog, DefaultVehicle) == Some(Catalog[0]) && Catalog[0].price == 0
    ensures FindItem(Catalog, DefaultCharacter) == Some(Catalog[3]) && Catalog[3].price == 0
  {
    assert Catalog[0].id == "bike_1" && Catalog[1].id == "scooter_1" && Catalog[2].id == "car_1";
    assert Catalog[3].id == "char_1" && Catalog[4].id == "char_2" && Catalog[5].id == "char_3";
    assert FindItem(Catalog[3..], DefaultCharacter) == Some(Catalog[3]);
  }

  /** The first item with the given id, as `Array.prototype.find` returns it. */
  function FindItem(items: seq<CustomizationItem>, id: string): (r: Option<CustomizationItem>)
    ensures r.None? <==> forall i :: 0 <= i < |items| ==> items[i].id != id
    ensures r.Some? ==> r.value.id == id
    ensures r.Some? ==>
      exists i :: 0 <= i < |items| && items[i] == r.value && forall j :: 0 <= j < i ==> items[j].id != id
  {
    if items == [] then None
    else if items[0].id == id then Some(items[0])
    else
      var rest := FindItem(items[1..], id);
      assert rest.Some? ==> exists i :: 0 <= i < |items| && items[i] == rest.value
                                     && forall j :: 0 <= j < i ==> items[j].id != id by {
        if rest.Some? {
          var k :| 0 <= k < |items[1..]| && items[1..][k] == rest.value
                   && forall j :: 0 <= j < k ==> items[1..][j].id != id;
          assert items[k + 1] == rest.value;
        }
      }
      rest
  }

  /** The guard of a purchase: the id is in the catalog, it is not owned yet, and the
      balance covers the price. The player's level is not consulted. */
  function CanPurchase(owned: seq<string>, balance: int, id: string): (r: bool)
    ensures r <==> exists i :: 0 <= i < |Catalog| && Catalog[i].id == id && id !in owned && balance >= Catalog[i].price
    ensures r ==> balance >= 0
  {
    CatalogWellFormed();
    var found := FindItem(Catalog, id);
    found.Some? && id !in owned && balance >= found.value.price
  }

  /** A purchase that succeeded cannot succeed again, whatever the balance. */
  lemma PurchaseAtMostOnce(owned: seq<string>, balance: int, later: int, id: string)
    requires CanPurchase(owned, balance, id)
    ensures !CanPurchase(owned + [id], later, id)
  {
    assert id in owned + [id];
  }

  /** The scooter asks for level 2, yet with 1000 coins it can be bought from the
      starting ownership; with no coins it cannot. */
  lemma UnlockLevelNotChecked()
    ensures FindItem(Catalog, "scooter_1").Some?
    ensures FindItem(Catalog, "scooter_1").value.unlockLevel == Some(2)
    ensures CanPurchase([DefaultVehicle, DefaultCharacter], 1000, "scooter_1")
    ensures !CanPurchase([DefaultVehicle, DefaultCharacter], 999, "scooter_1")
  {
    assert Catalog[1].id == "scooter_1";
    assert FindItem(Catalog[1..], "scooter_1") == Some(Catalog[1]);
  }

  /** `!selection` in the source: null and the empty string are both falsy. */
  function Unset(selection: Option<string>): (r: bool)
    ensures !r <==> selection.Some? && |selection.value| > 0
  {
    selection.None? || selection.value == ""
  }

  /** The selection `initializeStore` leaves: the default where nothing is set. */
  function WithDefault(selection: Option<string>, default: string): (r: Option<string>)
    requires default != ""
    ensures !Unset(r)
    ensures !Unset(selection) ==> r == selection
  {
    if Unset(selection) then Some(default) else selection
  }

  /** Initialising twice is the same as initialising once. */
  lemma WithDefaultIdempotent(selection: Option<string>, default: string)
    requires default != ""
    ensures WithDefault(WithDefault(selection, default), default) == WithDefault(selection, default)
  {
  }

  predicate NoDuplicates(ids: seq<string>)
  {
    forall i, j :: 0 <= i < j < |ids| ==> ids[i] != ids[j]
  }

  class CustomizationStore {
    const vehicles: seq<CustomizationItem> := DefaultVehicles
    const characters: seq<CustomizationItem> := DefaultCharacters
    var ownedItems: seq<string>
    var selectedVehicle: Option<string>
    var selectedCharacter: Option<string>
    /** The ledger purchases are paid from, shared with the order store. */
    const currency: CurrencyStore

    /** Owned ids are catalog ids, each owned once; the starter items stay owned;
        a selection, when set, is an owned id. */
    ghost predicate Valid()
      reads this
    {
      && NoDuplicates(ownedItems)
      && (forall i :: 0 <= i < |ownedItems| ==> InCatalog(ownedItems[i]))
      && DefaultVehicle in ownedItems && DefaultCharacter in ownedItems
      && (selectedVehicle.Some? ==> selectedVehicle.value in ownedItems)
      && (selectedCharacter.Some? ==> selectedCharacter.value in ownedItems)
    }

    constructor (currency: CurrencyStore)
      ensures Valid() && this.currency == currency
      ensures ownedItems == [DefaultVehicle, DefaultCharacter]
      ensures selectedVehicle == Some(DefaultVehicle) && selectedCharacter == Some(DefaultCharacter)
    {
      this.currency := currency;
      ownedItems := [DefaultVehicle, DefaultCharacter];
      selectedVehicle := Some(DefaultVehicle);
      selectedCharacter := Some(DefaultCharacter);
      new;
      CatalogWellFormed();
    }

    /** Buy a catalog item: on success debit its price and record it as owned. */
    method PurchaseItem(itemId: string) returns (ok: bool)
      requires Valid()
      modifies this, currency
      ensures Valid()
      ensures ok == CanPurchase(old(ownedItems), old(currency.balance), itemId)
      ensures ok ==> (ownedItems == old(ownedItems) + [itemId]
                      && currency.balance == old(currency.balance) - FindItem(Catalog, itemId).value.price)
      ensures !ok ==> ownedItems == old(ownedItems) && currency.balance == old(currency.balance)
      ensures selectedVehicle == old(selectedVehicle) && selectedCharacter == old(selectedCharacter)
    {
      var item := FindItem(vehicles + characters, itemId);
      if item.Some? && itemId !in ownedItems && currency.balance >= item.value.price {
        currency.AddCurrency(-item.value.price);
        assert InCatalog(itemId) by {
          var k :| 0 <= k < |Catalog| && Catalog[k] == item.value;
        }
        ownedItems := ownedItems + [itemId];
        ok := true;
      } else {
        ok := false;
      }
    }

    /** Select an owned item for one slot; the item's own catalog type is not checked. */
    method SelectItem(itemId: string, slot: ItemType)
      requires Valid()
      modifies this
      ensures Valid()
      ensures ownedItems == old(ownedItems)
      ensures itemId !in ownedItems ==>
        selectedVehicle == old(selectedVehicle) && selectedCharacter == old(selectedCharacter)
      ensures itemId in ownedItems && slot == Vehicle ==>
        selectedVehicle == Some(itemId) && selectedCharacter == old(selectedCharacter)
      ensures itemId in ownedItems && slot == Character ==>
        selectedCharacter == Some(itemId) && selectedVehicle == old(selectedVehicle)
    {
      if itemId in ownedItems {
        if slot == Vehicle {
          selectedVehicle := Some(itemId);
        } else {
          selectedCharacter := Some(itemId);
        }
      }
    }

    /** Give an unset selection its default; a set one is left alone. */
    method InitializeStore()
      requires Valid()
      modifies this
      ensures Valid()
      ensures ownedItems == old(ownedItems)
      ensures selectedVehicle == WithDefault(old(selectedVehicle), DefaultVehicle)
      ensures selectedCharacter == WithDefault(old(selectedCharacter), DefaultCharacter)
    {
      if Unset(selectedVehicle) {
        selectedVehicle := Some(DefaultVehicle);
      }
      if Unset(selectedCharacter) {
        selectedCharacter := Some(DefaultCharacter);
      }
    }
  }

  /** Buying the same item twice: the second call always fails and changes nothing. */
  method PurchaseTwice(store: CustomizationStore, itemId: string) returns (first: bool, second: bool)
    requires store.Valid()
    modifies store, store.currency
    ensures store.Valid()
    ensures !second
    ensures first == CanPurchase(old(store.ownedItems), old(store.currency.balance), itemId)
    ensures first ==> store.ownedItems == old(store.ownedItems) + [itemId]
    ensures store.currency.balance == old(store.currency.balance)
              - (if first then FindItem(Catalog, itemId).value.price else 0)
  {
    first := store.PurchaseItem(itemId);
    second := store.PurchaseItem(itemId);
  }

  /** From a fresh store with 1000 coins the level-2 scooter can be bought at once,
      leaving 0; from a fresh store with no coins it cannot, and nothing changes. */
  method ScooterScenario() returns (withMoney: bool, withoutMoney: bool)
    ensures withMoney && !withoutMoney
  {
    var rich := new CurrencyStore();
    rich.AddCurrency(1000);
    var store := new CustomizationStore(rich);
    UnlockLevelNotChecked();
    withMoney := store.PurchaseItem("scooter_1");
    assert rich.balance == 0 && "scooter_1" in store.ownedItems;

    var poor := new CurrencyStore();
    var other := new CustomizationStore(poor);
    withoutMoney := other.PurchaseItem("scooter_1");
    assert poor.balance == 0;
  }

  /** Selecting the starter character into the vehicle slot is accepted. */
  method CharacterAsVehicleScenario() returns (vehicle: Option<string>)
    ensures vehicle == Some(DefaultCharacter)
  {
    var ledger := new CurrencyStore();
    var store := new CustomizationStore(ledger);
    store.SelectItem(DefaultCharacter, Vehicle);
    vehicle := store.selectedVehicle;
  }
}
