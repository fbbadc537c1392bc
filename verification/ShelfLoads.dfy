/**
 The load of a warehouse as a session sums it: over the rows it has in view, which may be a part of
 the rows there are.
 */
module ShelfLoads {
  import opened Common
  import opened Sums
  import opened CustodyModel

  // The capacity check of a store; no declared capacity is no limit.
  predicate Fits(capacity: Option<nat>, load: nat, weight: nat) {
    capacity.Some? ==> load + weight <= capacity.value
  }

  ghost predicate PartOf(part: map<Id, InventoryRow>, inventory: map<Id, InventoryRow>) {
    forall r :: r in part ==> r in inventory && inventory[r] == part[r]
  }

  // Everything of any weight on the shelves of w is in view.
  ghost predicate AllInView(part: map<Id, InventoryRow>, inventory: map<Id, InventoryRow>, w: Id) {
    forall r :: r in OpenRows(inventory) && inventory[r].warehouse == w && inventory[r].weight > 0 ==> r in part
  }

  function HiddenWeights(part: map<Id, InventoryRow>, inventory: map<Id, InventoryRow>, w: Id): map<Id, nat> {
    map r | r in OpenRows(inventory) && inventory[r].warehouse == w && r !in part :: inventory[r].weight
  }

  lemma LoadSplits(part: map<Id, InventoryRow>, inventory: map<Id, InventoryRow>, w: Id)
    requires PartOf(part, inventory)
    ensures OpenLoad(inventory, w) == OpenLoad(part, w) + Sum(HiddenWeights(part, inventory, w))
  {
    assert OpenWeights(inventory, w) == OpenWeights(part, w) + HiddenWeights(part, inventory, w);
    SumUnion(OpenWeights(part, w), HiddenWeights(part, inventory, w));
  }

  // The load in view is the load exactly when everything of any weight is in view.
  lemma LoadInView(part: map<Id, InventoryRow>, inventory: map<Id, InventoryRow>, w: Id)
    requires PartOf(part, inventory)
    ensures OpenLoad(part, w) <= OpenLoad(inventory, w)
    ensures OpenLoad(part, w) == OpenLoad(inventory, w) <==> AllInView(part, inventory, w)
  {
    LoadSplits(part, inventory, w);
    SumZero(HiddenWeights(part, inventory, w));
    hide Sum;
    if AllInView(part, inventory, w) {
      assert forall r :: r in HiddenWeights(part, inventory, w) ==> HiddenWeights(part, inventory, w)[r] == 0;
    } else {
      var r :| r in OpenRows(inventory) && inventory[r].warehouse == w && inventory[r].weight > 0 && r !in part;
      assert r in HiddenWeights(part, inventory, w);
    }
  }

  // For a warehouse that is not overfull: whatever weight the check lets through on the rows in view
  // does fit, exactly when everything of any weight on its shelves is in view.
  lemma CheckIsSound(part: map<Id, InventoryRow>, inventory: map<Id, InventoryRow>, w: Id, capacity: nat)
    requires PartOf(part, inventory) && OpenLoad(inventory, w) <= capacity
    ensures
      (forall weight: nat :: Fits(Some(capacity), OpenLoad(part, w), weight) ==> Fits(Some(capacity), OpenLoad(inventory, w), weight))
      <==> AllInView(part, inventory, w)
  {
    hide OpenLoad;
    LoadInView(part, inventory, w);
    if !AllInView(part, inventory, w) {
      var weight: nat := capacity - OpenLoad(part, w);
      assert Fits(Some(capacity), OpenLoad(part, w), weight) && !Fits(Some(capacity), OpenLoad(inventory, w), weight);
    }
  }
}
