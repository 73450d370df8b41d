/** Continuum/Models/ContinuumExport.swift: the backup snapshot. Building it projects every stored object
    to a flat record of strings and dates; importing it is lenient (bad numbers become zero, unknown
    enum strings fall back to a default) and additive (it only inserts). */
module Backup {
  import opened Foundation
  import opened Sorting
  import opened Keyed
  import opened Subscriptions
  import opened PersonalAssets
  import opened AssetValueChanges
  import opened Warranties
  import opened Store

  /** `ContinuumExport.currentVersion`. */
  const CurrentVersion: int := 1

  datatype SubscriptionExport = SubscriptionExport(
    name: string,
    amount: string,
    billingCycle: string,
    nextDueDate: Date,
    category: string,
    notes: string,
    isSubscription: bool,
    createdAt: Date)

  datatype AssetValueChangeExport = AssetValueChangeExport(
    date: Date,
    previousValue: string,
    newValue: string,
    note: Option<string>)

  datatype AssetExport = AssetExport(
    name: string,
    currentValue: string,
    purchaseDate: Option<Date>,
    category: string,
    notes: string,
    createdAt: Date,
    updatedAt: Date,
    valueChanges: seq<AssetValueChangeExport>)

  datatype WarrantyExport = WarrantyExport(
    productName: string,
    purchaseDate: Date,
    expiryDate: Date,
    vendor: string,
    notes: string,
    createdAt: Date)

  datatype ContinuumExport = ContinuumExport(
    exportDate: Date,
    version: int,
    subscriptions: seq<SubscriptionExport>,
    assets: seq<AssetExport>,
    warranties: seq<WarrantyExport>)

  // ---------------------------------------------------------------------------------------------
  // Building a snapshot

  /** `SubscriptionExport.init(from:)`: the amount as text, the enums by raw value. */
  function ExportSubscription(s: Subscription, fmt: DecimalFormat): (r: SubscriptionExport)
  {
    SubscriptionExport(s.name, fmt.describe(s.amount), s.billingCycle.RawValue(), s.nextDueDate,
      s.category.RawValue(), s.notes, s.isSubscription, s.createdAt)
  }

  /** `AssetValueChangeExport.init(from:)`. */
  function ExportChange(c: AssetValueChange, fmt: DecimalFormat): (r: AssetValueChangeExport)
  {
    AssetValueChangeExport(c.date, fmt.describe(c.previousValue), fmt.describe(c.newValue), c.note)
  }

  function ChangeExporter(fmt: DecimalFormat): AssetValueChange -> AssetValueChangeExport {
    c => ExportChange(c, fmt)
  }

  /** `AssetExport.init(from:)`: the asset's fields, and its history nested one record per change, in order. */
  function ExportAsset(st: StoreState, a: PersonalAsset, fmt: DecimalFormat): (r: AssetExport)
  {
    AssetExport(a.name, fmt.describe(a.currentValue), a.purchaseDate, a.category.RawValue(), a.notes,
      a.createdAt, a.updatedAt, Map(st.History(a.id), ChangeExporter(fmt)))
  }

  /** `WarrantyExport.init(from:)`. */
  function ExportWarranty(w: Warranty): WarrantyExport {
    WarrantyExport(w.productName, w.purchaseDate, w.expiryDate, w.vendor, w.notes, w.createdAt)
  }

  function SubscriptionExporter(fmt: DecimalFormat): Subscription -> SubscriptionExport {
    s => ExportSubscription(s, fmt)
  }

  function AssetExporter(st: StoreState, fmt: DecimalFormat): PersonalAsset -> AssetExport {
    a => ExportAsset(st, a, fmt)
  }

  // The `SortDescriptor(\.createdAt)` keys, on objects and on records.
  function SubscriptionCreated(s: Subscription): real { s.createdAt as real }
  function AssetCreated(a: PersonalAsset): real { a.createdAt as real }
  function WarrantyCreated(w: Warranty): real { w.createdAt as real }
  function SubscriptionRecordCreated(x: SubscriptionExport): real { x.createdAt as real }
  function AssetRecordCreated(x: AssetExport): real { x.createdAt as real }
  function WarrantyRecordCreated(x: WarrantyExport): real { x.createdAt as real }

  /** `ContinuumExport.build(from:)`: each collection fetched in createdAt order and projected record by
      record. The result carries the current version and the export time, has one record per stored
      object (the records are a permutation of the projections of the store's objects) and lists each
      collection by ascending createdAt. */
  function Build(st: StoreState, fmt: DecimalFormat, now: Date): (r: ContinuumExport)
    ensures r.version == CurrentVersion && r.exportDate == now
    ensures |r.subscriptions| == |st.subscriptions|
    ensures |r.assets| == |st.assets|
    ensures |r.warranties| == |st.warranties|
    ensures multiset(r.subscriptions) == multiset(Map(st.subscriptions, SubscriptionExporter(fmt)))
    ensures multiset(r.assets) == multiset(Map(st.assets, AssetExporter(st, fmt)))
    ensures multiset(r.warranties) == multiset(Map(st.warranties, ExportWarranty))
    ensures SortedBy(r.subscriptions, SubscriptionRecordCreated)
    ensures SortedBy(r.assets, AssetRecordCreated)
    ensures SortedBy(r.warranties, WarrantyRecordCreated)
  {
    MapSortBy(st.subscriptions, SubscriptionExporter(fmt), SubscriptionCreated, SubscriptionRecordCreated);
    MapSortBy(st.assets, AssetExporter(st, fmt), AssetCreated, AssetRecordCreated);
    MapSortBy(st.warranties, ExportWarranty, WarrantyCreated, WarrantyRecordCreated);
    ContinuumExport(
      now,
      CurrentVersion,
      Map(SortBy(st.subscriptions, SubscriptionCreated), SubscriptionExporter(fmt)),
      Map(SortBy(st.assets, AssetCreated), AssetExporter(st, fmt)),
      Map(SortBy(st.warranties, WarrantyCreated), ExportWarranty))
  }

  // ---------------------------------------------------------------------------------------------
  // Importing a snapshot: one object per record

  /** The subscription `importInto` makes from a record. */
  function ImportedSubscription(x: SubscriptionExport, id: PersistentId, fmt: DecimalFormat, now: Date): (s: Subscription)
  {
    var amount := ParseOrZero(fmt, x.amount);
    var cycle := BillingCycleFromRaw(x.billingCycle).GetOr(Monthly);
    var category := SubscriptionCategoryFromRaw(x.category).GetOr(SubscriptionCategory.Other);
    var sub := NewSubscription(id, x.name, amount, cycle, x.nextDueDate, category, x.notes, x.isSubscription, now);
    sub.(createdAt := x.createdAt)
  }

  /** The asset `importInto` makes from a record (its nested changes are imported separately). */
  function ImportedAsset(x: AssetExport, id: PersistentId, fmt: DecimalFormat, now: Date): (a: PersonalAsset)
  {
    var currentValue := ParseOrZero(fmt, x.currentValue);
    var category := AssetCategoryFromRaw(x.category).GetOr(AssetCategory.Other);
    var asset := NewPersonalAsset(id, x.name, currentValue, x.purchaseDate, category, x.notes, now);
    asset.(createdAt := x.createdAt, updatedAt := x.updatedAt)
  }

  /** The change `importInto` makes from a nested record, linked to its owner. */
  function ImportedChange(v: AssetValueChangeExport, id: PersistentId, owner: PersistentId, fmt: DecimalFormat, now: Date): (c: AssetValueChange)
  {
    var prev := ParseOrZero(fmt, v.previousValue);
    var next := ParseOrZero(fmt, v.newValue);
    var change := NewAssetValueChange(id, prev, next, v.note, now);
    change.(date := v.date, asset := Some(owner))
  }

  /** The warranty `importInto` makes from a record. */
  function ImportedWarranty(x: WarrantyExport, id: PersistentId, now: Date): (w: Warranty)
  {
    var warranty := NewWarranty(id, x.productName, x.purchaseDate, x.expiryDate, x.vendor, x.notes, now);
    warranty.(createdAt := x.createdAt)
  }

  /** Import is lenient: an unparseable amount becomes zero, an unknown cycle becomes monthly and an
      unknown category becomes other. The record's createdAt replaces the construction time, and every
      other field is copied verbatim. */
  lemma SubscriptionImportRules(x: SubscriptionExport, id: PersistentId, fmt: DecimalFormat, now: Date)
    ensures var s := ImportedSubscription(x, id, fmt, now);
      && s.id == id && s.createdAt == x.createdAt
      && s.name == x.name && s.nextDueDate == x.nextDueDate && s.notes == x.notes && s.isSubscription == x.isSubscription
      && (fmt.parse(x.amount) == Some(s.amount) || (fmt.parse(x.amount).None? && s.amount == 0.0))
      && (s.billingCycle.RawValue() == x.billingCycle
          || (s.billingCycle == Monthly && forall c: BillingCycle :: c.RawValue() != x.billingCycle))
      && (s.category.RawValue() == x.category
          || (s.category == SubscriptionCategory.Other && forall c: SubscriptionCategory :: c.RawValue() != x.category))
  {
  }

  /** An unparseable value becomes zero and an unknown category becomes other; the record's createdAt
      and updatedAt replace the construction time. */
  lemma AssetImportRules(x: AssetExport, id: PersistentId, fmt: DecimalFormat, now: Date)
    ensures var a := ImportedAsset(x, id, fmt, now);
      && a.id == id && a.createdAt == x.createdAt && a.updatedAt == x.updatedAt
      && a.name == x.name && a.purchaseDate == x.purchaseDate && a.notes == x.notes
      && (fmt.parse(x.currentValue) == Some(a.currentValue) || (fmt.parse(x.currentValue).None? && a.currentValue == 0.0))
      && (a.category.RawValue() == x.category
          || (a.category == AssetCategory.Other && forall c: AssetCategory :: c.RawValue() != x.category))
  {
  }

  /** Unparseable values become zero, the record's date replaces the construction time, and the change
      is linked to the asset it is imported under. */
  lemma ChangeImportRules(v: AssetValueChangeExport, id: PersistentId, owner: PersistentId, fmt: DecimalFormat, now: Date)
    ensures var c := ImportedChange(v, id, owner, fmt, now);
      && c.id == id && c.date == v.date && c.note == v.note && c.asset == Some(owner)
      && (fmt.parse(v.previousValue) == Some(c.previousValue) || (fmt.parse(v.previousValue).None? && c.previousValue == 0.0))
      && (fmt.parse(v.newValue) == Some(c.newValue) || (fmt.parse(v.newValue).None? && c.newValue == 0.0))
  {
  }

  /** A warranty record loses nothing on import: exporting the imported warranty gives the record back. */
  lemma WarrantyImportRules(x: WarrantyExport, id: PersistentId, now: Date)
    ensures ImportedWarranty(x, id, now).id == id
    ensures ExportWarranty(ImportedWarranty(x, id, now)) == x
  {
  }

  /** A subscription survives export and import unchanged, given that decimals parse back from their text. */
  lemma SubscriptionRoundTrip(s: Subscription, fmt: DecimalFormat, now: Date)
    requires ParsesOwnOutput(fmt)
    ensures ImportedSubscription(ExportSubscription(s, fmt), s.id, fmt, now) == s
  {
    BillingCycleRawValueInverse(s.billingCycle, s.billingCycle);
    SubscriptionCategoryRawValueInverse(s.category, s.category);
    assert fmt.parse(fmt.describe(s.amount)) == Some(s.amount);
  }

  /** An asset's own fields survive export and import unchanged, given that decimals parse back from their text. */
  lemma AssetRoundTrip(st: StoreState, a: PersonalAsset, fmt: DecimalFormat, now: Date)
    requires ParsesOwnOutput(fmt)
    ensures ImportedAsset(ExportAsset(st, a, fmt), a.id, fmt, now) == a
  {
    AssetCategoryRawValueInverse(a.category, a.category);
    assert fmt.parse(fmt.describe(a.currentValue)) == Some(a.currentValue);
  }

  /** A linked value change survives export and import under its owner unchanged. */
  lemma ChangeRoundTrip(c: AssetValueChange, fmt: DecimalFormat, now: Date)
    requires ParsesOwnOutput(fmt) && c.asset.Some?
    ensures ImportedChange(ExportChange(c, fmt), c.id, c.asset.value, fmt, now) == c
  {
    assert fmt.parse(fmt.describe(c.previousValue)) == Some(c.previousValue);
    assert fmt.parse(fmt.describe(c.newValue)) == Some(c.newValue);
  }

  lemma WarrantyRoundTrip(w: Warranty, now: Date)
    ensures ImportedWarranty(ExportWarranty(w), w.id, now) == w
  {
  }

  // ---------------------------------------------------------------------------------------------
  // Importing a snapshot: the loops of `importInto`, as folds over a prefix of the records

  function ImportSubscriptions(st: StoreState, rs: seq<SubscriptionExport>, fmt: DecimalFormat, now: Date): (r: StoreState)
    ensures r.assets == st.assets && r.valueChanges == st.valueChanges && r.warranties == st.warranties
    ensures r.nextId == st.nextId + |rs|
    ensures |r.subscriptions| == |st.subscriptions| + |rs| && r.subscriptions[..|st.subscriptions|] == st.subscriptions
    ensures forall i :: 0 <= i < |rs| ==>
      r.subscriptions[|st.subscriptions| + i] == ImportedSubscription(rs[i], st.nextId + i, fmt, now)
  {
    if rs == [] then st
    else
      var p := ImportSubscriptions(st, rs[..|rs| - 1], fmt, now);
      p.InsertSubscription(ImportedSubscription(rs[|rs| - 1], p.nextId, fmt, now))
  }

  /** The changes made from nested records, with consecutive identities from first on, all linked to owner. */
  function ImportedChanges(vs: seq<AssetValueChangeExport>, first: PersistentId, owner: PersistentId, fmt: DecimalFormat, now: Date): (cs: seq<AssetValueChange>)
    ensures |cs| == |vs|
    ensures forall j :: 0 <= j < |vs| ==> cs[j] == ImportedChange(vs[j], first + j, owner, fmt, now)
  {
    if vs == [] then []
    else ImportedChanges(vs[..|vs| - 1], first, owner, fmt, now) + [ImportedChange(vs[|vs| - 1], first + |vs| - 1, owner, fmt, now)]
  }

  function ImportChanges(st: StoreState, owner: PersistentId, vs: seq<AssetValueChangeExport>, fmt: DecimalFormat, now: Date): (r: StoreState)
    ensures r.subscriptions == st.subscriptions && r.assets == st.assets && r.warranties == st.warranties
    ensures r.nextId == st.nextId + |vs|
    ensures r.valueChanges == st.valueChanges + ImportedChanges(vs, st.nextId, owner, fmt, now)
  {
    if vs == [] then st
    else
      var p := ImportChanges(st, owner, vs[..|vs| - 1], fmt, now);
      var c := ImportedChange(vs[|vs| - 1], p.nextId, owner, fmt, now);
      assert p.valueChanges + [c] == st.valueChanges + (ImportedChanges(vs[..|vs| - 1], st.nextId, owner, fmt, now) + [c]);
      p.InsertChange(c)
  }

  /** One pass of the asset loop: the asset is inserted, then each of its nested changes, linked to it. */
  function ImportAsset(st: StoreState, x: AssetExport, fmt: DecimalFormat, now: Date): (r: StoreState)
    ensures r.subscriptions == st.subscriptions && r.warranties == st.warranties
    ensures r.assets == st.assets + [ImportedAsset(x, st.nextId, fmt, now)]
    ensures r.nextId == st.nextId + 1 + |x.valueChanges|
    ensures |r.valueChanges| == |st.valueChanges| + |x.valueChanges| && r.valueChanges[..|st.valueChanges|] == st.valueChanges
  {
    ImportChanges(st.InsertAsset(ImportedAsset(x, st.nextId, fmt, now)), st.nextId, x.valueChanges, fmt, now)
  }

  /** The number of value changes nested in a list of asset records. */
  function TotalChanges(xs: seq<AssetExport>): nat {
    if xs == [] then 0 else TotalChanges(xs[..|xs| - 1]) + |xs[|xs| - 1].valueChanges|
  }

  function ImportAssets(st: StoreState, xs: seq<AssetExport>, fmt: DecimalFormat, now: Date): (r: StoreState)
    ensures r.subscriptions == st.subscriptions && r.warranties == st.warranties
    ensures r.nextId == st.nextId + |xs| + TotalChanges(xs)
    ensures |r.assets| == |st.assets| + |xs| && r.assets[..|st.assets|] == st.assets
    ensures |r.valueChanges| == |st.valueChanges| + TotalChanges(xs)
      && r.valueChanges[..|st.valueChanges|] == st.valueChanges
  {
    if xs == [] then st
    else ImportAsset(ImportAssets(st, xs[..|xs| - 1], fmt, now), xs[|xs| - 1], fmt, now)
  }

  /** The i-th imported asset is made from the i-th record and carries an identity handed out during the import. */
  lemma {:induction false} ImportAssetsRecords(st: StoreState, xs: seq<AssetExport>, fmt: DecimalFormat, now: Date)
    ensures var r := ImportAssets(st, xs, fmt, now);
      forall i :: 0 <= i < |xs| ==>
        && r.assets[|st.assets| + i] == ImportedAsset(xs[i], r.assets[|st.assets| + i].id, fmt, now)
        && st.nextId <= r.assets[|st.assets| + i].id < r.nextId
  {
    if xs != [] {
      var n := |xs| - 1;
      var p := ImportAssets(st, xs[..n], fmt, now);
      var r := ImportAssets(st, xs, fmt, now);
      ImportAssetsRecords(st, xs[..n], fmt, now);
      assert r == ImportAsset(p, xs[n], fmt, now);
      forall i | 0 <= i < |xs|
        ensures r.assets[|st.assets| + i] == ImportedAsset(xs[i], r.assets[|st.assets| + i].id, fmt, now)
        ensures st.nextId <= r.assets[|st.assets| + i].id < r.nextId
      {
        if i < n {
          assert r.assets[|st.assets| + i] == p.assets[|st.assets| + i];
          assert xs[..n][i] == xs[i];
        }
      }
    }
  }

  function ImportWarranties(st: StoreState, rs: seq<WarrantyExport>, now: Date): (r: StoreState)
    ensures r.subscriptions == st.subscriptions && r.assets == st.assets && r.valueChanges == st.valueChanges
    ensures r.nextId == st.nextId + |rs|
    ensures |r.warranties| == |st.warranties| + |rs| && r.warranties[..|st.warranties|] == st.warranties
    ensures forall i :: 0 <= i < |rs| ==>
      r.warranties[|st.warranties| + i] == ImportedWarranty(rs[i], st.nextId + i, now)
  {
    if rs == [] then st
    else
      var p := ImportWarranties(st, rs[..|rs| - 1], now);
      p.InsertWarranty(ImportedWarranty(rs[|rs| - 1], p.nextId, now))
  }

  /** `importInto`: all subscriptions, then each asset followed by its changes, then all warranties. */
  function Import(st: StoreState, e: ContinuumExport, fmt: DecimalFormat, now: Date): StoreState {
    ImportWarranties(ImportAssets(ImportSubscriptions(st, e.subscriptions, fmt, now), e.assets, fmt, now), e.warranties, now)
  }

  /** `importInto(_:)` on a live model context: the subscription loop, the asset loop (with its nested
      loop over each asset's changes) and the warranty loop, inserting one object per record. The
      context ends up in the state the fold describes. */
  method ImportInto(e: ContinuumExport, ctx: ModelContext, fmt: DecimalFormat, now: Date)
    modifies ctx
    ensures ctx.State() == Import(old(ctx.State()), e, fmt, now)
  {
    ImportSubscriptionsInto(e.subscriptions, ctx, fmt, now);
    ImportAssetsInto(e.assets, ctx, fmt, now);
    ImportWarrantiesInto(e.warranties, ctx, now);
  }

  /** `for s in subscriptions`. */
  method ImportSubscriptionsInto(rs: seq<SubscriptionExport>, ctx: ModelContext, fmt: DecimalFormat, now: Date)
    modifies ctx
    ensures ctx.State() == ImportSubscriptions(old(ctx.State()), rs, fmt, now)
  {
    var s0 := ctx.State();
    var i := 0;
    while i < |rs|
      invariant 0 <= i <= |rs|
      invariant ctx.State() == ImportSubscriptions(s0, rs[..i], fmt, now)
    {
      var s := rs[i];
      var amount := ParseOrZero(fmt, s.amount);
      var cycle := BillingCycleFromRaw(s.billingCycle).GetOr(Monthly);
      var category := SubscriptionCategoryFromRaw(s.category).GetOr(SubscriptionCategory.Other);
      var sub := NewSubscription(ctx.nextId, s.name, amount, cycle, s.nextDueDate, category, s.notes, s.isSubscription, now);
      sub := sub.(createdAt := s.createdAt);
      ctx.InsertSubscription(sub);
      assert rs[..i + 1][..i] == rs[..i];
      i := i + 1;
    }
    assert rs[..i] == rs;
  }

  /** `for a in assets`. */
  method ImportAssetsInto(xs: seq<AssetExport>, ctx: ModelContext, fmt: DecimalFormat, now: Date)
    modifies ctx
    ensures ctx.State() == ImportAssets(old(ctx.State()), xs, fmt, now)
  {
    var s0 := ctx.State();
    var i := 0;
    while i < |xs|
      invariant 0 <= i <= |xs|
      invariant ctx.State() == ImportAssets(s0, xs[..i], fmt, now)
    {
      ImportAssetInto(xs[i], ctx, fmt, now);
      assert xs[..i + 1][..i] == xs[..i];
      i := i + 1;
    }
    assert xs[..i] == xs;
  }

  /** One pass of the asset loop: the asset is inserted, then `for v in a.valueChanges` inserts each
      change linked to it. */
  method ImportAssetInto(a: AssetExport, ctx: ModelContext, fmt: DecimalFormat, now: Date)
    modifies ctx
    ensures ctx.State() == ImportAsset(old(ctx.State()), a, fmt, now)
  {
    var currentValue := ParseOrZero(fmt, a.currentValue);
    var category := AssetCategoryFromRaw(a.category).GetOr(AssetCategory.Other);
    var asset := NewPersonalAsset(ctx.nextId, a.name, currentValue, a.purchaseDate, category, a.notes, now);
    asset := asset.(createdAt := a.createdAt, updatedAt := a.updatedAt);
    ctx.InsertAsset(asset);
    ImportChangesInto(a.valueChanges, asset.id, ctx, fmt, now);
  }

  /** `for v in a.valueChanges`: each change is linked to its owner and inserted. */
  method ImportChangesInto(vs: seq<AssetValueChangeExport>, owner: PersistentId, ctx: ModelContext, fmt: DecimalFormat, now: Date)
    modifies ctx
    ensures ctx.State() == ImportChanges(old(ctx.State()), owner, vs, fmt, now)
  {
    var s0 := ctx.State();
    var j := 0;
    while j < |vs|
      invariant 0 <= j <= |vs|
      invariant ctx.State() == ImportChanges(s0, owner, vs[..j], fmt, now)
    {
      var v := vs[j];
      var prev := ParseOrZero(fmt, v.previousValue);
      var next := ParseOrZero(fmt, v.newValue);
      var change := NewAssetValueChange(ctx.nextId, prev, next, v.note, now);
      change := change.(date := v.date, asset := Some(owner));
      ctx.InsertChange(change);
      assert vs[..j + 1][..j] == vs[..j];
      j := j + 1;
    }
    assert vs[..j] == vs;
  }

  /** `for w in warranties`. */
  method ImportWarrantiesInto(rs: seq<WarrantyExport>, ctx: ModelContext, now: Date)
    modifies ctx
    ensures ctx.State() == ImportWarranties(old(ctx.State()), rs, now)
  {
    var s0 := ctx.State();
    var i := 0;
    while i < |rs|
      invariant 0 <= i <= |rs|
      invariant ctx.State() == ImportWarranties(s0, rs[..i], now)
    {
      var w := rs[i];
      var warranty := NewWarranty(ctx.nextId, w.productName, w.purchaseDate, w.expiryDate, w.vendor, w.notes, now);
      warranty := warranty.(createdAt := w.createdAt);
      ctx.InsertWarranty(warranty);
      assert rs[..i + 1][..i] == rs[..i];
      i := i + 1;
    }
    assert rs[..i] == rs;
  }

  // ---------------------------------------------------------------------------------------------
  // Import: the relationship between imported assets and their changes

  /** Each nested change lands in its owner's history, in record order. */
  lemma ImportChangesOwnerHistory(st: StoreState, owner: PersistentId, vs: seq<AssetValueChangeExport>, fmt: DecimalFormat, now: Date)
    ensures ImportChanges(st, owner, vs, fmt, now).History(owner) == st.History(owner) + ImportedChanges(vs, st.nextId, owner, fmt, now)
  {
    var cs := ImportedChanges(vs, st.nextId, owner, fmt, now);
    HavingConcat(st.valueChanges, cs, ChangeOwner, Some(owner));
    HavingAll(cs, ChangeOwner, Some(owner));
  }

  /** No nested change lands in another history. */
  lemma ImportChangesOtherHistory(st: StoreState, owner: PersistentId, vs: seq<AssetValueChangeExport>, fmt: DecimalFormat, now: Date, id: PersistentId)
    requires id != owner
    ensures ImportChanges(st, owner, vs, fmt, now).History(id) == st.History(id)
  {
    var cs := ImportedChanges(vs, st.nextId, owner, fmt, now);
    HavingConcat(st.valueChanges, cs, ChangeOwner, Some(id));
    HavingNone(cs, ChangeOwner, Some(id));
    assert st.History(id) + [] == st.History(id);
  }

  lemma {:induction false} ImportChangesValid(st: StoreState, owner: PersistentId, vs: seq<AssetValueChangeExport>, fmt: DecimalFormat, now: Date)
    requires st.Valid() && st.HasAsset(owner)
    ensures ImportChanges(st, owner, vs, fmt, now).Valid()
  {
    if vs != [] {
      var n := |vs| - 1;
      var p := ImportChanges(st, owner, vs[..n], fmt, now);
      ImportChangesValid(st, owner, vs[..n], fmt, now);
      InsertChangeValid(p, ImportedChange(vs[n], p.nextId, owner, fmt, now));
    }
  }

  lemma ImportAssetValid(st: StoreState, x: AssetExport, fmt: DecimalFormat, now: Date)
    requires st.Valid()
    ensures ImportAsset(st, x, fmt, now).Valid()
  {
    var a := ImportedAsset(x, st.nextId, fmt, now);
    InsertAssetValid(st, a);
    ImportChangesValid(st.InsertAsset(a), st.nextId, x.valueChanges, fmt, now);
  }

  lemma ImportAssetOwnersIssued(st: StoreState, x: AssetExport, fmt: DecimalFormat, now: Date)
    requires st.OwnersIssued()
    ensures ImportAsset(st, x, fmt, now).OwnersIssued()
  {
    var st1 := st.InsertAsset(ImportedAsset(x, st.nextId, fmt, now));
    var r := ImportAsset(st, x, fmt, now);
    var cs := ImportedChanges(x.valueChanges, st1.nextId, st.nextId, fmt, now);
    assert r.valueChanges == st.valueChanges + cs;
    forall k | 0 <= k < |r.valueChanges| && r.valueChanges[k].asset.Some?
      ensures r.valueChanges[k].asset.value < r.nextId
    {
      if k >= |st.valueChanges| {
        assert r.valueChanges[k] == cs[k - |st.valueChanges|];
      }
    }
  }

  /** The asset imported into a store has exactly the changes made from the record's nested changes as
      its history, in order. */
  lemma ImportAssetNewHistory(st: StoreState, x: AssetExport, fmt: DecimalFormat, now: Date)
    requires st.OwnersIssued()
    ensures ImportAsset(st, x, fmt, now).History(st.nextId) == ImportedChanges(x.valueChanges, st.nextId + 1, st.nextId, fmt, now)
  {
    var a := ImportedAsset(x, st.nextId, fmt, now);
    var st1 := st.InsertAsset(a);
    var cs := ImportedChanges(x.valueChanges, st.nextId + 1, st.nextId, fmt, now);
    assert st1.History(st.nextId) == [] by {
      InsertAssetHistory(st, a);
    }
    assert ImportAsset(st, x, fmt, now).History(st.nextId) == st1.History(st.nextId) + cs by {
      ImportChangesOwnerHistory(st1, st.nextId, x.valueChanges, fmt, now);
    }
    assert [] + cs == cs;
  }

  lemma ImportAssetOldHistory(st: StoreState, x: AssetExport, fmt: DecimalFormat, now: Date, id: PersistentId)
    requires id < st.nextId
    ensures ImportAsset(st, x, fmt, now).History(id) == st.History(id)
  {
    var a := ImportedAsset(x, st.nextId, fmt, now);
    ImportChangesOtherHistory(st.InsertAsset(a), st.nextId, x.valueChanges, fmt, now, id);
  }

  /** Importing asset records leaves every history that existed before unchanged. */
  lemma {:induction false} ImportAssetsKeepsHistories(st: StoreState, xs: seq<AssetExport>, fmt: DecimalFormat, now: Date, id: PersistentId)
    requires id < st.nextId
    ensures ImportAssets(st, xs, fmt, now).History(id) == st.History(id)
  {
    if xs != [] {
      var n := |xs| - 1;
      ImportAssetsKeepsHistories(st, xs[..n], fmt, now, id);
      ImportAssetOldHistory(ImportAssets(st, xs[..n], fmt, now), xs[n], fmt, now, id);
    }
  }

  lemma {:induction false} ImportAssetsValid(st: StoreState, xs: seq<AssetExport>, fmt: DecimalFormat, now: Date)
    requires st.Valid()
    ensures ImportAssets(st, xs, fmt, now).Valid()
  {
    if xs != [] {
      var n := |xs| - 1;
      ImportAssetsValid(st, xs[..n], fmt, now);
      ImportAssetValid(ImportAssets(st, xs[..n], fmt, now), xs[n], fmt, now);
    }
  }

  lemma {:induction false} ImportAssetsOwnersIssued(st: StoreState, xs: seq<AssetExport>, fmt: DecimalFormat, now: Date)
    requires st.OwnersIssued()
    ensures ImportAssets(st, xs, fmt, now).OwnersIssued()
  {
    if xs != [] {
      var n := |xs| - 1;
      ImportAssetsOwnersIssued(st, xs[..n], fmt, now);
      ImportAssetOwnersIssued(ImportAssets(st, xs[..n], fmt, now), xs[n], fmt, now);
    }
  }

  /** The history of the asset with identity aid is made, in order, from the nested changes of x, with
      the identities that follow aid. */
  ghost predicate HistoryMadeFrom(r: StoreState, aid: PersistentId, x: AssetExport, fmt: DecimalFormat, now: Date) {
    r.History(aid) == ImportedChanges(x.valueChanges, aid + 1, aid, fmt, now)
  }

  lemma ImportAssetMakesHistory(p: StoreState, x: AssetExport, fmt: DecimalFormat, now: Date)
    requires p.OwnersIssued()
    ensures HistoryMadeFrom(ImportAsset(p, x, fmt, now), p.nextId, x, fmt, now)
  {
    ImportAssetNewHistory(p, x, fmt, now);
  }

  lemma ImportAssetKeepsHistory(p: StoreState, x: AssetExport, y: AssetExport, fmt: DecimalFormat, now: Date, aid: PersistentId)
    requires aid < p.nextId && HistoryMadeFrom(p, aid, y, fmt, now)
    ensures HistoryMadeFrom(ImportAsset(p, x, fmt, now), aid, y, fmt, now)
  {
    ImportAssetOldHistory(p, x, fmt, now, aid);
  }

  /** The history of the i-th imported asset is made, in order, from the i-th record's nested changes. */
  lemma {:induction false} ImportAssetsHistory(st: StoreState, xs: seq<AssetExport>, fmt: DecimalFormat, now: Date, i: nat)
    requires st.OwnersIssued() && i < |xs|
    ensures var r := ImportAssets(st, xs, fmt, now);
      HistoryMadeFrom(r, r.assets[|st.assets| + i].id, xs[i], fmt, now)
  {
    var n := |xs| - 1;
    var p := ImportAssets(st, xs[..n], fmt, now);
    var r := ImportAsset(p, xs[n], fmt, now);
    assert ImportAssets(st, xs, fmt, now) == r;
    if i < n {
      var aid := p.assets[|st.assets| + i].id;
      assert r.assets[|st.assets| + i].id == aid;
      assert xs[..n][i] == xs[i];
      ImportAssetsRecords(st, xs[..n], fmt, now);
      ImportAssetsHistory(st, xs[..n], fmt, now, i);
      ImportAssetKeepsHistory(p, xs[n], xs[i], fmt, now, aid);
    } else {
      assert r.assets[|st.assets| + i].id == p.nextId;
      ImportAssetsOwnersIssued(st, xs[..n], fmt, now);
      ImportAssetMakesHistory(p, xs[n], fmt, now);
    }
  }
}
