/** What importing a snapshot promises as a whole: it is additive (the store only grows, and nothing
    already in it changes), it does not depend on the clock, and importing a freshly built snapshot into
    an empty store gives back, record for record, the snapshot it came from. */
module BackupProperties {
  import opened Foundation
  import opened Sorting
  import opened Keyed
  import opened Subscriptions
  import opened PersonalAssets
  import opened AssetValueChanges
  import opened Warranties
  import opened Store
  import opened Backup

  // ---------------------------------------------------------------------------------------------
  // Additivity

  lemma {:induction false} ImportSubscriptionsValid(st: StoreState, rs: seq<SubscriptionExport>, fmt: DecimalFormat, now: Date)
    requires st.Valid()
    ensures ImportSubscriptions(st, rs, fmt, now).Valid()
  {
    if rs != [] {
      var n := |rs| - 1;
      var p := ImportSubscriptions(st, rs[..n], fmt, now);
      ImportSubscriptionsValid(st, rs[..n], fmt, now);
      InsertSubscriptionValid(p, ImportedSubscription(rs[n], p.nextId, fmt, now));
    }
  }

  lemma {:induction false} ImportWarrantiesValid(st: StoreState, rs: seq<WarrantyExport>, now: Date)
    requires st.Valid()
    ensures ImportWarranties(st, rs, now).Valid()
  {
    if rs != [] {
      var n := |rs| - 1;
      var p := ImportWarranties(st, rs[..n], now);
      ImportWarrantiesValid(st, rs[..n], now);
      InsertWarrantyValid(p, ImportedWarranty(rs[n], p.nextId, now));
    }
  }

  /** A store that holds changes only for identities already handed out still does after subscriptions
      are imported, since they only raise the next identity. */
  lemma ImportSubscriptionsOwnersIssued(st: StoreState, rs: seq<SubscriptionExport>, fmt: DecimalFormat, now: Date)
    requires st.OwnersIssued()
    ensures ImportSubscriptions(st, rs, fmt, now).OwnersIssued()
  {
  }

  /** Import only inserts: each collection grows by exactly the snapshot's records (the value changes by
      the records nested in the asset records), and every object that was in the store before is still
      there, in its place and unchanged. */
  lemma ImportAdditive(st: StoreState, e: ContinuumExport, fmt: DecimalFormat, now: Date)
    ensures var r := Import(st, e, fmt, now);
      && |r.subscriptions| == |st.subscriptions| + |e.subscriptions|
      && |r.assets| == |st.assets| + |e.assets|
      && |r.valueChanges| == |st.valueChanges| + TotalChanges(e.assets)
      && |r.warranties| == |st.warranties| + |e.warranties|
      && r.subscriptions[..|st.subscriptions|] == st.subscriptions
      && r.assets[..|st.assets|] == st.assets
      && r.valueChanges[..|st.valueChanges|] == st.valueChanges
      && r.warranties[..|st.warranties|] == st.warranties
  {
  }

  /** Import keeps the store's invariant: identities stay unique and every change stays linked to a
      stored asset. */
  lemma ImportValid(st: StoreState, e: ContinuumExport, fmt: DecimalFormat, now: Date)
    requires st.Valid()
    ensures Import(st, e, fmt, now).Valid()
  {
    var s1 := ImportSubscriptions(st, e.subscriptions, fmt, now);
    ImportSubscriptionsValid(st, e.subscriptions, fmt, now);
    ImportAssetsValid(s1, e.assets, fmt, now);
    ImportWarrantiesValid(ImportAssets(s1, e.assets, fmt, now), e.warranties, now);
  }

  /** The history of every asset that was in the store before is left as it was. */
  lemma ImportKeepsHistories(st: StoreState, e: ContinuumExport, fmt: DecimalFormat, now: Date, id: PersistentId)
    requires id < st.nextId
    ensures Import(st, e, fmt, now).History(id) == st.History(id)
  {
    var s1 := ImportSubscriptions(st, e.subscriptions, fmt, now);
    ImportAssetsKeepsHistories(s1, e.assets, fmt, now, id);
  }

  /** Each imported change is owned by the asset imported just before it: the history of the i-th
      imported asset is made, in order, from the i-th asset record's nested changes, and those changes
      carry the identities that directly follow the asset's. */
  lemma ImportHistories(st: StoreState, e: ContinuumExport, fmt: DecimalFormat, now: Date, i: nat)
    requires st.OwnersIssued() && i < |e.assets|
    ensures var r := Import(st, e, fmt, now);
      var aid := r.assets[|st.assets| + i].id;
      r.History(aid) == ImportedChanges(e.assets[i].valueChanges, aid + 1, aid, fmt, now)
  {
    var s1 := ImportSubscriptions(st, e.subscriptions, fmt, now);
    ImportSubscriptionsOwnersIssued(st, e.subscriptions, fmt, now);
    var s2 := ImportAssets(s1, e.assets, fmt, now);
    var r := ImportWarranties(s2, e.warranties, now);
    assert r.assets == s2.assets && r.valueChanges == s2.valueChanges;
    var aid := s2.assets[|st.assets| + i].id;
    assert HistoryMadeFrom(s2, aid, e.assets[i], fmt, now) by {
      ImportAssetsHistory(s1, e.assets, fmt, now, i);
    }
    assert r.History(aid) == s2.History(aid);
  }

  /** Importing the same snapshot twice adds every record twice. */
  lemma ImportTwiceDoubles(st: StoreState, e: ContinuumExport, fmt: DecimalFormat, now: Date, now': Date)
    ensures var r := Import(Import(st, e, fmt, now), e, fmt, now');
      && |r.subscriptions| == |st.subscriptions| + 2 * |e.subscriptions|
      && |r.assets| == |st.assets| + 2 * |e.assets|
      && |r.valueChanges| == |st.valueChanges| + 2 * TotalChanges(e.assets)
      && |r.warranties| == |st.warranties| + 2 * |e.warranties|
  {
    ImportAdditive(st, e, fmt, now);
    ImportAdditive(Import(st, e, fmt, now), e, fmt, now');
  }

  // ---------------------------------------------------------------------------------------------
  // Clock independence: every construction-time default that `importInto` uses is overwritten

  lemma {:induction false} ImportSubscriptionsIgnoresClock(st: StoreState, rs: seq<SubscriptionExport>, fmt: DecimalFormat, now: Date, now': Date)
    ensures ImportSubscriptions(st, rs, fmt, now) == ImportSubscriptions(st, rs, fmt, now')
  {
    if rs != [] {
      ImportSubscriptionsIgnoresClock(st, rs[..|rs| - 1], fmt, now, now');
    }
  }

  lemma {:induction false} ImportChangesIgnoresClock(st: StoreState, owner: PersistentId, vs: seq<AssetValueChangeExport>, fmt: DecimalFormat, now: Date, now': Date)
    ensures ImportChanges(st, owner, vs, fmt, now) == ImportChanges(st, owner, vs, fmt, now')
  {
    if vs != [] {
      ImportChangesIgnoresClock(st, owner, vs[..|vs| - 1], fmt, now, now');
    }
  }

  lemma {:induction false} ImportAssetsIgnoresClock(st: StoreState, xs: seq<AssetExport>, fmt: DecimalFormat, now: Date, now': Date)
    ensures ImportAssets(st, xs, fmt, now) == ImportAssets(st, xs, fmt, now')
  {
    if xs != [] {
      var n := |xs| - 1;
      var p := ImportAssets(st, xs[..n], fmt, now);
      ImportAssetsIgnoresClock(st, xs[..n], fmt, now, now');
      assert ImportedAsset(xs[n], p.nextId, fmt, now) == ImportedAsset(xs[n], p.nextId, fmt, now');
      ImportChangesIgnoresClock(p.InsertAsset(ImportedAsset(xs[n], p.nextId, fmt, now)), p.nextId, xs[n].valueChanges, fmt, now, now');
    }
  }

  lemma {:induction false} ImportWarrantiesIgnoresClock(st: StoreState, rs: seq<WarrantyExport>, now: Date, now': Date)
    ensures ImportWarranties(st, rs, now) == ImportWarranties(st, rs, now')
  {
    if rs != [] {
      ImportWarrantiesIgnoresClock(st, rs[..|rs| - 1], now, now');
    }
  }

  /** The store after an import does not depend on when the import ran. */
  lemma ImportIgnoresClock(st: StoreState, e: ContinuumExport, fmt: DecimalFormat, now: Date, now': Date)
    ensures Import(st, e, fmt, now) == Import(st, e, fmt, now')
  {
    ImportSubscriptionsIgnoresClock(st, e.subscriptions, fmt, now, now');
    var s1 := ImportSubscriptions(st, e.subscriptions, fmt, now);
    ImportAssetsIgnoresClock(s1, e.assets, fmt, now, now');
    ImportWarrantiesIgnoresClock(ImportAssets(s1, e.assets, fmt, now), e.warranties, now, now');
  }

  // ---------------------------------------------------------------------------------------------
  // Round trip: records that read back, and a rebuilt snapshot

  /** Decimal text that parses, and that the parsed decimal prints back as. */
  predicate DecimalTextReadsBack(fmt: DecimalFormat, t: string) {
    fmt.parse(t).Some? && fmt.describe(fmt.parse(t).value) == t
  }

  /** A subscription record that import reads without falling back to a default. */
  predicate SubscriptionReadsBack(x: SubscriptionExport, fmt: DecimalFormat) {
    && DecimalTextReadsBack(fmt, x.amount)
    && BillingCycleFromRaw(x.billingCycle).Some?
    && SubscriptionCategoryFromRaw(x.category).Some?
  }

  predicate ChangeReadsBack(v: AssetValueChangeExport, fmt: DecimalFormat) {
    DecimalTextReadsBack(fmt, v.previousValue) && DecimalTextReadsBack(fmt, v.newValue)
  }

  predicate AssetReadsBack(x: AssetExport, fmt: DecimalFormat) {
    && DecimalTextReadsBack(fmt, x.currentValue)
    && AssetCategoryFromRaw(x.category).Some?
    && forall j :: 0 <= j < |x.valueChanges| ==> ChangeReadsBack(x.valueChanges[j], fmt)
  }

  /** Under the decimal law, everything a build writes reads back. */
  lemma DescribedReadsBack(fmt: DecimalFormat, d: Decimal)
    requires ParsesOwnOutput(fmt)
    ensures DecimalTextReadsBack(fmt, fmt.describe(d))
  {
    assert fmt.parse(fmt.describe(d)) == Some(d);
  }

  lemma ExportedSubscriptionReadsBack(s: Subscription, fmt: DecimalFormat)
    requires ParsesOwnOutput(fmt)
    ensures SubscriptionReadsBack(ExportSubscription(s, fmt), fmt)
  {
    DescribedReadsBack(fmt, s.amount);
    BillingCycleRawValueInverse(s.billingCycle, s.billingCycle);
    SubscriptionCategoryRawValueInverse(s.category, s.category);
  }

  lemma ExportedChangeReadsBack(c: AssetValueChange, fmt: DecimalFormat)
    requires ParsesOwnOutput(fmt)
    ensures ChangeReadsBack(ExportChange(c, fmt), fmt)
  {
    DescribedReadsBack(fmt, c.previousValue);
    DescribedReadsBack(fmt, c.newValue);
  }

  lemma ExportedAssetReadsBack(st: StoreState, a: PersonalAsset, fmt: DecimalFormat)
    requires ParsesOwnOutput(fmt)
    ensures AssetReadsBack(ExportAsset(st, a, fmt), fmt)
  {
    var x := ExportAsset(st, a, fmt);
    DescribedReadsBack(fmt, a.currentValue);
    AssetCategoryRawValueInverse(a.category, a.category);
    forall j | 0 <= j < |x.valueChanges|
      ensures ChangeReadsBack(x.valueChanges[j], fmt)
    {
      ExportedChangeReadsBack(st.History(a.id)[j], fmt);
    }
  }

  /** A subscription record that reads back is what exporting its imported subscription writes. */
  lemma SubscriptionRecordRoundTrip(x: SubscriptionExport, id: PersistentId, fmt: DecimalFormat, now: Date)
    requires SubscriptionReadsBack(x, fmt)
    ensures ExportSubscription(ImportedSubscription(x, id, fmt, now), fmt) == x
  {
  }

  lemma ChangeRecordRoundTrip(v: AssetValueChangeExport, id: PersistentId, owner: PersistentId, fmt: DecimalFormat, now: Date)
    requires ChangeReadsBack(v, fmt)
    ensures ExportChange(ImportedChange(v, id, owner, fmt, now), fmt) == v
  {
  }

  /** Nested change records that read back are what exporting the changes made from them writes. */
  lemma ChangeRecordsRoundTrip(vs: seq<AssetValueChangeExport>, first: PersistentId, owner: PersistentId, fmt: DecimalFormat, now: Date)
    requires forall j :: 0 <= j < |vs| ==> ChangeReadsBack(vs[j], fmt)
    ensures Map(ImportedChanges(vs, first, owner, fmt, now), ChangeExporter(fmt)) == vs
  {
    var cs := ImportedChanges(vs, first, owner, fmt, now);
    var m := Map(cs, ChangeExporter(fmt));
    forall j | 0 <= j < |vs|
      ensures m[j] == vs[j]
    {
      ChangeRecordRoundTrip(vs[j], first + j, owner, fmt, now);
    }
  }

  /** An asset record that reads back is what exporting its imported asset writes, once the asset's
      history is made from the record's nested changes. */
  lemma AssetRecordRoundTrip(x: AssetExport, id: PersistentId, w: StoreState, fmt: DecimalFormat, now: Date)
    requires AssetReadsBack(x, fmt) && HistoryMadeFrom(w, id, x, fmt, now)
    ensures ExportAsset(w, ImportedAsset(x, id, fmt, now), fmt) == x
  {
    ChangeRecordsRoundTrip(x.valueChanges, id + 1, id, fmt, now);
  }

  /** Imported subscriptions keep the records' createdAt order. */
  lemma ImportedSubscriptionsSorted(st: StoreState, rs: seq<SubscriptionExport>, fmt: DecimalFormat, now: Date)
    requires st.subscriptions == [] && SortedBy(rs, SubscriptionRecordCreated)
    ensures SortedBy(ImportSubscriptions(st, rs, fmt, now).subscriptions, SubscriptionCreated)
  {
    var ss := ImportSubscriptions(st, rs, fmt, now).subscriptions;
    forall i, j | 0 <= i < j < |ss|
      ensures SubscriptionCreated(ss[i]) <= SubscriptionCreated(ss[j])
    {
      assert SubscriptionRecordCreated(rs[i]) <= SubscriptionRecordCreated(rs[j]);
    }
  }

  /** Imported subscriptions export back to the records they were made from. */
  lemma ImportedSubscriptionsExportBack(st: StoreState, rs: seq<SubscriptionExport>, fmt: DecimalFormat, now: Date)
    requires st.subscriptions == []
    requires forall i :: 0 <= i < |rs| ==> SubscriptionReadsBack(rs[i], fmt)
    ensures Map(ImportSubscriptions(st, rs, fmt, now).subscriptions, SubscriptionExporter(fmt)) == rs
  {
    var m := Map(ImportSubscriptions(st, rs, fmt, now).subscriptions, SubscriptionExporter(fmt));
    forall i | 0 <= i < |rs|
      ensures m[i] == rs[i]
    {
      SubscriptionRecordRoundTrip(rs[i], st.nextId + i, fmt, now);
    }
  }

  /** Subscription records that read back, listed by ascending createdAt and imported into a store
      without subscriptions, are exported again as exactly the same records in the same order. */
  lemma SubscriptionsRoundTrip(st: StoreState, rs: seq<SubscriptionExport>, fmt: DecimalFormat, now: Date)
    requires st.subscriptions == [] && SortedBy(rs, SubscriptionRecordCreated)
    requires forall i :: 0 <= i < |rs| ==> SubscriptionReadsBack(rs[i], fmt)
    ensures Map(SortBy(ImportSubscriptions(st, rs, fmt, now).subscriptions, SubscriptionCreated), SubscriptionExporter(fmt)) == rs
  {
    ImportedSubscriptionsSorted(st, rs, fmt, now);
    SortBySorted(ImportSubscriptions(st, rs, fmt, now).subscriptions, SubscriptionCreated);
    ImportedSubscriptionsExportBack(st, rs, fmt, now);
  }

  lemma ImportedWarrantiesSorted(st: StoreState, rs: seq<WarrantyExport>, now: Date)
    requires st.warranties == [] && SortedBy(rs, WarrantyRecordCreated)
    ensures SortedBy(ImportWarranties(st, rs, now).warranties, WarrantyCreated)
  {
    var ws := ImportWarranties(st, rs, now).warranties;
    forall i, j | 0 <= i < j < |ws|
      ensures WarrantyCreated(ws[i]) <= WarrantyCreated(ws[j])
    {
      assert WarrantyRecordCreated(rs[i]) <= WarrantyRecordCreated(rs[j]);
    }
  }

  lemma ImportedWarrantiesExportBack(st: StoreState, rs: seq<WarrantyExport>, now: Date)
    requires st.warranties == []
    ensures Map(ImportWarranties(st, rs, now).warranties, ExportWarranty) == rs
  {
    var m := Map(ImportWarranties(st, rs, now).warranties, ExportWarranty);
    forall i | 0 <= i < |rs|
      ensures m[i] == rs[i]
    {
      WarrantyImportRules(rs[i], st.nextId + i, now);
    }
  }

  /** Warranty records listed by ascending createdAt and imported into a store without warranties are
      exported again as exactly the same records in the same order. */
  lemma WarrantiesRoundTrip(st: StoreState, rs: seq<WarrantyExport>, now: Date)
    requires st.warranties == [] && SortedBy(rs, WarrantyRecordCreated)
    ensures Map(SortBy(ImportWarranties(st, rs, now).warranties, WarrantyCreated), ExportWarranty) == rs
  {
    ImportedWarrantiesSorted(st, rs, now);
    SortBySorted(ImportWarranties(st, rs, now).warranties, WarrantyCreated);
    ImportedWarrantiesExportBack(st, rs, now);
  }

  /** Imported assets keep the records' createdAt order. */
  lemma ImportedAssetsSorted(st: StoreState, xs: seq<AssetExport>, fmt: DecimalFormat, now: Date)
    requires st.assets == [] && SortedBy(xs, AssetRecordCreated)
    ensures SortedBy(ImportAssets(st, xs, fmt, now).assets, AssetCreated)
  {
    var stored := ImportAssets(st, xs, fmt, now).assets;
    ImportAssetsRecords(st, xs, fmt, now);
    forall i, j | 0 <= i < j < |stored|
      ensures AssetCreated(stored[i]) <= AssetCreated(stored[j])
    {
      assert AssetRecordCreated(xs[i]) <= AssetRecordCreated(xs[j]);
    }
  }

  /** Imported assets export back, from any store w holding the same assets and changes, to the
      records they were made from, nested changes included. */
  lemma ImportedAssetsExportBack(st: StoreState, xs: seq<AssetExport>, w: StoreState, fmt: DecimalFormat, now: Date)
    requires st.assets == [] && st.OwnersIssued()
    requires forall i :: 0 <= i < |xs| ==> AssetReadsBack(xs[i], fmt)
    requires w.assets == ImportAssets(st, xs, fmt, now).assets
    requires w.valueChanges == ImportAssets(st, xs, fmt, now).valueChanges
    ensures Map(w.assets, AssetExporter(w, fmt)) == xs
  {
    var r := ImportAssets(st, xs, fmt, now);
    ImportAssetsRecords(st, xs, fmt, now);
    var m := Map(w.assets, AssetExporter(w, fmt));
    forall i | 0 <= i < |xs|
      ensures m[i] == xs[i]
    {
      var aid := w.assets[i].id;
      assert w.assets[i] == ImportedAsset(xs[i], aid, fmt, now);
      assert HistoryMadeFrom(w, aid, xs[i], fmt, now) by {
        ImportAssetsHistory(st, xs, fmt, now, i);
        assert w.History(aid) == r.History(aid);
      }
      AssetRecordRoundTrip(xs[i], aid, w, fmt, now);
    }
  }

  /** Asset records that read back, listed by ascending createdAt and imported into a store without
      assets, are exported again (from any store w holding the same assets and changes) as exactly the
      same records in the same order, nested changes included. */
  lemma AssetsRoundTrip(st: StoreState, xs: seq<AssetExport>, w: StoreState, fmt: DecimalFormat, now: Date)
    requires st.assets == [] && st.OwnersIssued() && SortedBy(xs, AssetRecordCreated)
    requires forall i :: 0 <= i < |xs| ==> AssetReadsBack(xs[i], fmt)
    requires w.assets == ImportAssets(st, xs, fmt, now).assets
    requires w.valueChanges == ImportAssets(st, xs, fmt, now).valueChanges
    ensures Map(SortBy(w.assets, AssetCreated), AssetExporter(w, fmt)) == xs
  {
    ImportedAssetsSorted(st, xs, fmt, now);
    SortBySorted(w.assets, AssetCreated);
    ImportedAssetsExportBack(st, xs, w, fmt, now);
  }

  /** Under the decimal law, records that are the exports of some subscriptions, in any order, read back. */
  lemma ExportedSubscriptionsReadBack(rs: seq<SubscriptionExport>, ss: seq<Subscription>, fmt: DecimalFormat)
    requires ParsesOwnOutput(fmt) && multiset(rs) == multiset(Map(ss, SubscriptionExporter(fmt)))
    ensures forall i :: 0 <= i < |rs| ==> SubscriptionReadsBack(rs[i], fmt)
  {
    var ms := Map(ss, SubscriptionExporter(fmt));
    forall i | 0 <= i < |rs|
      ensures SubscriptionReadsBack(rs[i], fmt)
    {
      assert rs[i] in multiset(ms);
      var k :| 0 <= k < |ms| && ms[k] == rs[i];
      ExportedSubscriptionReadsBack(ss[k], fmt);
    }
  }

  /** Under the decimal law, records that are the exports of some assets of st, in any order, read back,
      nested changes included. */
  lemma ExportedAssetsReadBack(xs: seq<AssetExport>, st: StoreState, as': seq<PersonalAsset>, fmt: DecimalFormat)
    requires ParsesOwnOutput(fmt) && multiset(xs) == multiset(Map(as', AssetExporter(st, fmt)))
    ensures forall i :: 0 <= i < |xs| ==> AssetReadsBack(xs[i], fmt)
  {
    var ma := Map(as', AssetExporter(st, fmt));
    forall i | 0 <= i < |xs|
      ensures AssetReadsBack(xs[i], fmt)
    {
      assert xs[i] in multiset(ma);
      var k :| 0 <= k < |ma| && ma[k] == xs[i];
      ExportedAssetReadsBack(st, as'[k], fmt);
    }
  }

  /** Restoring a backup into an empty store and building a snapshot again gives the same records, in
      the same order, as the snapshot restored: every exported field survives, nested value changes
      included, given that decimals parse back from their text. Only the export time differs. */
  lemma BuildImportRoundTrip(st: StoreState, fmt: DecimalFormat, now: Date, now': Date, now'': Date)
    requires ParsesOwnOutput(fmt)
    ensures var e := Build(st, fmt, now);
      var e' := Build(Import(EmptyStore, e, fmt, now'), fmt, now'');
      && e'.version == e.version
      && e'.subscriptions == e.subscriptions
      && e'.assets == e.assets
      && e'.warranties == e.warranties
  {
    var e := Build(st, fmt, now);
    var s1 := ImportSubscriptions(EmptyStore, e.subscriptions, fmt, now');
    var s2 := ImportAssets(s1, e.assets, fmt, now');
    var r := ImportWarranties(s2, e.warranties, now');
    ExportedSubscriptionsReadBack(e.subscriptions, st.subscriptions, fmt);
    ExportedAssetsReadBack(e.assets, st, st.assets, fmt);
    SubscriptionsRoundTrip(EmptyStore, e.subscriptions, fmt, now');
    AssetsRoundTrip(s1, e.assets, r, fmt, now');
    WarrantiesRoundTrip(s2, e.warranties, now');
  }
}
