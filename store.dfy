/** The SwiftData model context: the four persisted collections, object identity, the
    asset-to-value-change relationship (cascade delete, inverse link) and the store operations. */
module Store {
  import opened Foundation
  import opened Keyed
  import opened Subscriptions
  import opened PersonalAssets
  import opened AssetValueChanges
  import opened Warranties

  function SubscriptionId(s: Subscription): PersistentId { s.id }
  function AssetId(a: PersonalAsset): PersistentId { a.id }
  function ChangeId(c: AssetValueChange): PersistentId { c.id }
  function WarrantyId(w: Warranty): PersistentId { w.id }
  /** `AssetValueChange.asset`, the to-one side of the relationship. */
  function ChangeOwner(c: AssetValueChange): Option<PersistentId> { c.asset }

  /** The contents of the store, each collection in insertion order, and the next identity to hand out. */
  datatype StoreState = StoreState(
    subscriptions: seq<Subscription>,
    assets: seq<PersonalAsset>,
    valueChanges: seq<AssetValueChange>,
    warranties: seq<Warranty>,
    nextId: PersistentId)
  {
    predicate HasAsset(id: PersistentId) {
      IndexOf(assets, AssetId, id).Some?
    }

    /** Identities are unique and every value change is linked to an asset that is still in the store. */
    ghost predicate Valid() {
      && FreshIds(subscriptions, SubscriptionId, nextId)
      && FreshIds(assets, AssetId, nextId)
      && FreshIds(valueChanges, ChangeId, nextId)
      && FreshIds(warranties, WarrantyId, nextId)
      && (forall i :: 0 <= i < |valueChanges| ==>
            valueChanges[i].asset.Some? && HasAsset(valueChanges[i].asset.value))
    }

    /** No value change is linked to an identity that has not been handed out yet. */
    ghost predicate OwnersIssued() {
      forall i :: 0 <= i < |valueChanges| ==> valueChanges[i].asset.Some? ==> valueChanges[i].asset.value < nextId
    }

    /** `asset.valueChanges`: the to-many side of the relationship, the inverse of ChangeOwner,
        in the order the changes were added. */
    function History(assetId: PersistentId): seq<AssetValueChange> {
      Having(valueChanges, ChangeOwner, Some(assetId))
    }

    /** `modelContext.insert` of a new object that carries the next identity. */
    function InsertSubscription(s: Subscription): StoreState {
      this.(subscriptions := subscriptions + [s], nextId := nextId + 1)
    }

    function InsertAsset(a: PersonalAsset): StoreState {
      this.(assets := assets + [a], nextId := nextId + 1)
    }

    function InsertChange(c: AssetValueChange): StoreState {
      this.(valueChanges := valueChanges + [c], nextId := nextId + 1)
    }

    function InsertWarranty(w: Warranty): StoreState {
      this.(warranties := warranties + [w], nextId := nextId + 1)
    }

    /** `modelContext.delete(asset)` with the cascade rule: the asset and every change it owns go. */
    function DeleteAsset(id: PersistentId): StoreState {
      this.(assets := Without(assets, AssetId, id), valueChanges := Without(valueChanges, ChangeOwner, Some(id)))
    }

    function DeleteSubscription(id: PersistentId): StoreState {
      this.(subscriptions := Without(subscriptions, SubscriptionId, id))
    }

    function DeleteWarranty(id: PersistentId): StoreState {
      this.(warranties := Without(warranties, WarrantyId, id))
    }

    /** Assigning to the fields of the stored object at position k: the object stays where it is. */
    function SetSubscription(k: nat, s: Subscription): StoreState
      requires k < |subscriptions|
    {
      this.(subscriptions := subscriptions[k := s])
    }

    function SetAsset(k: nat, a: PersonalAsset): StoreState
      requires k < |assets|
    {
      this.(assets := assets[k := a])
    }

    function SetWarranty(k: nat, w: Warranty): StoreState
      requires k < |warranties|
    {
      this.(warranties := warranties[k := w])
    }
  }

  const EmptyStore: StoreState := StoreState([], [], [], [], 0)

  lemma EmptyStoreValid()
    ensures EmptyStore.Valid()
  {
  }

  /** Every change in an asset's history points back to that asset. */
  lemma HistoryPointsBack(st: StoreState, id: PersistentId)
    ensures forall c :: c in st.History(id) ==> c.asset == Some(id) && c in st.valueChanges
  {
    HavingMembers(st.valueChanges, ChangeOwner, Some(id));
  }

  /** In a valid store every change lies in the history of a live asset. */
  lemma ChangeInOwnersHistory(st: StoreState, i: nat)
    requires st.Valid() && i < |st.valueChanges|
    ensures var c := st.valueChanges[i]; c.asset.Some? && st.HasAsset(c.asset.value) && c in st.History(c.asset.value)
  {
    HavingMembers(st.valueChanges, ChangeOwner, st.valueChanges[i].asset);
  }

  lemma IndexOfAppend<T, K>(s: seq<T>, x: T, key: T -> K, k: K)
    requires IndexOf(s, key, k).Some?
    ensures IndexOf(s + [x], key, k) == IndexOf(s, key, k)
  {
    var i := IndexOf(s, key, k).value;
    var r := IndexOf(s + [x], key, k);
    assert (s + [x])[i] == s[i];
    assert r.Some?;
    assert !(r.value < i) && !(i < r.value);
  }

  lemma InsertSubscriptionValid(st: StoreState, s: Subscription)
    requires st.Valid() && s.id == st.nextId
    ensures st.InsertSubscription(s).Valid()
  {
    FreshIdsAppend(st.subscriptions, s, SubscriptionId, st.nextId);
  }

  lemma InsertWarrantyValid(st: StoreState, w: Warranty)
    requires st.Valid() && w.id == st.nextId
    ensures st.InsertWarranty(w).Valid()
  {
    FreshIdsAppend(st.warranties, w, WarrantyId, st.nextId);
  }

  /** Inserting an asset keeps the store valid, and the new asset is found by its identity. */
  lemma InsertAssetValid(st: StoreState, a: PersonalAsset)
    requires st.Valid() && a.id == st.nextId
    ensures st.InsertAsset(a).Valid()
    ensures st.InsertAsset(a).HasAsset(a.id)
  {
    var st' := st.InsertAsset(a);
    FreshIdsAppend(st.assets, a, AssetId, st.nextId);
    forall i | 0 <= i < |st.valueChanges|
      ensures st'.HasAsset(st.valueChanges[i].asset.value)
    {
      IndexOfAppend(st.assets, a, AssetId, st.valueChanges[i].asset.value);
    }
    assert IndexOf(st'.assets, AssetId, a.id).Some? by {
      assert st'.assets[|st.assets|].id == a.id;
    }
  }

  lemma ValidOwnersIssued(st: StoreState)
    requires st.Valid()
    ensures st.OwnersIssued()
  {
    forall i | 0 <= i < |st.valueChanges|
      ensures st.valueChanges[i].asset.value < st.nextId
    {
      var j := IndexOf(st.assets, AssetId, st.valueChanges[i].asset.value).value;
      assert st.assets[j].id < st.nextId;
    }
  }

  /** A newly inserted asset starts with an empty history; inserting an asset moves no history. */
  lemma InsertAssetHistory(st: StoreState, a: PersonalAsset)
    requires st.OwnersIssued() && a.id == st.nextId
    ensures st.InsertAsset(a).History(a.id) == []
    ensures forall id :: st.InsertAsset(a).History(id) == st.History(id)
    ensures st.InsertAsset(a).OwnersIssued()
  {
    HavingNone(st.valueChanges, ChangeOwner, Some(a.id));
  }

  /** Inserting a change linked to a live asset keeps the store valid. */
  lemma InsertChangeValid(st: StoreState, c: AssetValueChange)
    requires st.Valid() && c.id == st.nextId && c.asset.Some? && st.HasAsset(c.asset.value)
    ensures st.InsertChange(c).Valid()
  {
    var st' := st.InsertChange(c);
    FreshIdsAppend(st.valueChanges, c, ChangeId, st.nextId);
    forall i | 0 <= i < |st'.valueChanges|
      ensures st'.valueChanges[i].asset.Some? && st'.HasAsset(st'.valueChanges[i].asset.value)
    {
      if i < |st.valueChanges| {
        assert st'.valueChanges[i] == st.valueChanges[i];
      }
    }
  }

  /** A new change is appended to the history of the asset it is linked to, and no other history moves. */
  lemma InsertChangeHistory(st: StoreState, c: AssetValueChange, id: PersistentId)
    ensures c.asset == Some(id) ==> st.InsertChange(c).History(id) == st.History(id) + [c]
    ensures c.asset != Some(id) ==> st.InsertChange(c).History(id) == st.History(id)
  {
    HavingAppend(st.valueChanges, c, ChangeOwner, Some(id));
    assert st.History(id) + [] == st.History(id);
  }

  /** Deleting an asset keeps the store valid: no change is left without its asset. */
  lemma DeleteAssetValid(st: StoreState, id: PersistentId)
    requires st.Valid()
    ensures st.DeleteAsset(id).Valid()
  {
    var st' := st.DeleteAsset(id);
    FreshIdsWithout(st.assets, AssetId, st.nextId, AssetId, id);
    FreshIdsWithout(st.valueChanges, ChangeId, st.nextId, ChangeOwner, Some(id));
    WithoutMembers(st.assets, AssetId, id);
    WithoutMembers(st.valueChanges, ChangeOwner, Some(id));
    forall i | 0 <= i < |st'.valueChanges|
      ensures st'.valueChanges[i].asset.Some? && st'.HasAsset(st'.valueChanges[i].asset.value)
    {
      var c := st'.valueChanges[i];
      assert c in st.valueChanges;
      var k :| 0 <= k < |st.valueChanges| && st.valueChanges[k] == c;
      var j := IndexOf(st.assets, AssetId, c.asset.value).value;
      assert st.assets[j] in st'.assets;
      var j' :| 0 <= j' < |st'.assets| && st'.assets[j'] == st.assets[j];
      assert AssetId(st'.assets[j']) == c.asset.value;
    }
  }

  /** Deleting an asset removes it and exactly the changes it owns: no other asset, change, subscription
      or warranty is touched, and every other asset keeps its history. */
  lemma DeleteAssetCascades(st: StoreState, id: PersistentId)
    ensures var st' := st.DeleteAsset(id);
      && st'.History(id) == []
      && (forall other: PersistentId :: other != id ==> st'.History(other) == st.History(other))
      && |st'.valueChanges| == |st.valueChanges| - |st.History(id)|
      && (forall a :: a in st'.assets <==> a in st.assets && a.id != id)
      && (forall c :: c in st'.valueChanges <==> c in st.valueChanges && c.asset != Some(id))
      && st'.subscriptions == st.subscriptions && st'.warranties == st.warranties
  {
    var st' := st.DeleteAsset(id);
    WithoutMembers(st.assets, AssetId, id);
    WithoutMembers(st.valueChanges, ChangeOwner, Some(id));
    HavingWithoutSplit(st.valueChanges, ChangeOwner, Some(id));
    forall i | 0 <= i < |st'.valueChanges|
      ensures ChangeOwner(st'.valueChanges[i]) != Some(id)
    {
      assert st'.valueChanges[i] in st'.valueChanges;
    }
    HavingNone(st'.valueChanges, ChangeOwner, Some(id));
    forall other: PersistentId | other != id
      ensures st'.History(other) == st.History(other)
    {
      HavingOfWithout(st.valueChanges, ChangeOwner, Some(id), Some(other));
    }
  }

  lemma DeleteSubscriptionValid(st: StoreState, id: PersistentId)
    requires st.Valid()
    ensures st.DeleteSubscription(id).Valid()
    ensures forall s :: s in st.DeleteSubscription(id).subscriptions <==> s in st.subscriptions && s.id != id
  {
    FreshIdsWithout(st.subscriptions, SubscriptionId, st.nextId, SubscriptionId, id);
    WithoutMembers(st.subscriptions, SubscriptionId, id);
  }

  lemma DeleteWarrantyValid(st: StoreState, id: PersistentId)
    requires st.Valid()
    ensures st.DeleteWarranty(id).Valid()
    ensures forall w :: w in st.DeleteWarranty(id).warranties <==> w in st.warranties && w.id != id
  {
    FreshIdsWithout(st.warranties, WarrantyId, st.nextId, WarrantyId, id);
    WithoutMembers(st.warranties, WarrantyId, id);
  }

  /** Changing the fields of a stored object other than its identity keeps the store valid. */
  lemma SetSubscriptionValid(st: StoreState, k: nat, s: Subscription)
    requires st.Valid() && k < |st.subscriptions| && s.id == st.subscriptions[k].id
    ensures st.SetSubscription(k, s).Valid()
  {
    var r := st.SetSubscription(k, s);
    assert forall i :: 0 <= i < |r.subscriptions| ==> r.subscriptions[i].id == st.subscriptions[i].id;
  }

  lemma SetAssetValid(st: StoreState, k: nat, a: PersonalAsset)
    requires st.Valid() && k < |st.assets| && a.id == st.assets[k].id
    ensures st.SetAsset(k, a).Valid()
  {
    var r := st.SetAsset(k, a);
    assert forall i :: 0 <= i < |r.assets| ==> AssetId(r.assets[i]) == AssetId(st.assets[i]);
    forall id: PersistentId
      ensures r.HasAsset(id) == st.HasAsset(id)
    {
      IndexOfSameKeys(r.assets, st.assets, AssetId, id);
    }
  }

  lemma SetWarrantyValid(st: StoreState, k: nat, w: Warranty)
    requires st.Valid() && k < |st.warranties| && w.id == st.warranties[k].id
    ensures st.SetWarranty(k, w).Valid()
  {
    var r := st.SetWarranty(k, w);
    assert forall i :: 0 <= i < |r.warranties| ==> r.warranties[i].id == st.warranties[i].id;
  }

  /** The model context object: its collections are changed in place by inserts, deletes and edits. */
  class ModelContext {
    var subscriptions: seq<Subscription>
    var assets: seq<PersonalAsset>
    var valueChanges: seq<AssetValueChange>
    var warranties: seq<Warranty>
    var nextId: PersistentId

    function State(): StoreState
      reads this
    {
      StoreState(subscriptions, assets, valueChanges, warranties, nextId)
    }

    ghost predicate Valid()
      reads this
    {
      State().Valid()
    }

    constructor ()
      ensures State() == EmptyStore && Valid()
    {
      subscriptions, assets, valueChanges, warranties, nextId := [], [], [], [], 0;
    }

    method InsertSubscription(s: Subscription)
      requires s.id == nextId
      modifies this
      ensures State() == old(State()).InsertSubscription(s)
      ensures old(Valid()) ==> Valid()
    {
      if Valid() {
        InsertSubscriptionValid(State(), s);
      }
      subscriptions := subscriptions + [s];
      nextId := nextId + 1;
    }

    method InsertAsset(a: PersonalAsset)
      requires a.id == nextId
      modifies this
      ensures State() == old(State()).InsertAsset(a)
      ensures old(Valid()) ==> Valid()
    {
      if Valid() {
        InsertAssetValid(State(), a);
      }
      assets := assets + [a];
      nextId := nextId + 1;
    }

    method InsertChange(c: AssetValueChange)
      requires c.id == nextId
      modifies this
      ensures State() == old(State()).InsertChange(c)
      ensures old(Valid()) && c.asset.Some? && old(State()).HasAsset(c.asset.value) ==> Valid()
    {
      if Valid() && c.asset.Some? && State().HasAsset(c.asset.value) {
        InsertChangeValid(State(), c);
      }
      valueChanges := valueChanges + [c];
      nextId := nextId + 1;
    }

    method InsertWarranty(w: Warranty)
      requires w.id == nextId
      modifies this
      ensures State() == old(State()).InsertWarranty(w)
      ensures old(Valid()) ==> Valid()
    {
      if Valid() {
        InsertWarrantyValid(State(), w);
      }
      warranties := warranties + [w];
      nextId := nextId + 1;
    }

    method SetSubscription(k: nat, s: Subscription)
      requires k < |subscriptions|
      modifies this
      ensures State() == old(State()).SetSubscription(k, s)
      ensures old(Valid()) && s.id == old(subscriptions[k].id) ==> Valid()
    {
      if Valid() && s.id == subscriptions[k].id {
        SetSubscriptionValid(State(), k, s);
      }
      subscriptions := subscriptions[k := s];
    }

    method SetAsset(k: nat, a: PersonalAsset)
      requires k < |assets|
      modifies this
      ensures State() == old(State()).SetAsset(k, a)
      ensures old(Valid()) && a.id == old(assets[k].id) ==> Valid()
    {
      if Valid() && a.id == assets[k].id {
        SetAssetValid(State(), k, a);
      }
      assets := assets[k := a];
    }

    method SetWarranty(k: nat, w: Warranty)
      requires k < |warranties|
      modifies this
      ensures State() == old(State()).SetWarranty(k, w)
      ensures old(Valid()) && w.id == old(warranties[k].id) ==> Valid()
    {
      if Valid() && w.id == warranties[k].id {
        SetWarrantyValid(State(), k, w);
      }
      warranties := warranties[k := w];
    }

    method DeleteAsset(id: PersistentId)
      requires Valid()
      modifies this
      ensures Valid()
      ensures State() == old(State()).DeleteAsset(id)
    {
      DeleteAssetValid(State(), id);
      valueChanges := Without(valueChanges, ChangeOwner, Some(id));
      assets := Without(assets, AssetId, id);
    }

    method DeleteSubscription(id: PersistentId)
      requires Valid()
      modifies this
      ensures Valid()
      ensures State() == old(State()).DeleteSubscription(id)
    {
      DeleteSubscriptionValid(State(), id);
      subscriptions := Without(subscriptions, SubscriptionId, id);
    }

    method DeleteWarranty(id: PersistentId)
      requires Valid()
      modifies this
      ensures Valid()
      ensures State() == old(State()).DeleteWarranty(id)
    {
      DeleteWarrantyValid(State(), id);
      warranties := Without(warranties, WarrantyId, id);
    }
  }
}
