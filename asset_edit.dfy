/** Continuum/Views/Assets/AssetEditView.swift: the form behind the asset editor and `save()`. Saving an
    edit overwrites the asset's fields in place, stamps updatedAt, and logs one value change exactly when
    the value differs; saving a new asset inserts it with an empty history. */
module AssetEdit {
  import opened Foundation
  import opened Text
  import opened Keyed
  import opened PersonalAssets
  import opened AssetValueChanges
  import opened Store

  /** The view's `@State` fields; the value is the text typed into the field, and the purchase date is
      only used when its toggle is on. */
  datatype AssetForm = AssetForm(
    name: string,
    currentValue: string,
    purchaseDate: Date,
    hasPurchaseDate: bool,
    category: AssetCategory,
    notes: string)

  /** The form as it first appears, before `.onAppear` runs. */
  function BlankForm(now: Date): AssetForm {
    AssetForm("", "", now, false, AssetCategory.Other, "")
  }

  lemma BlankFormDefaults(now: Date)
    ensures var f := BlankForm(now);
      f.name == "" && f.currentValue == "" && f.purchaseDate == now && !f.hasPurchaseDate
      && f.category == AssetCategory.Other && f.notes == ""
  {
  }

  /** `.onAppear` on an existing asset: the value as text, and the toggle on exactly when the asset has
      a purchase date (the picker then shows it; otherwise it keeps its initial now). */
  function FormFrom(a: PersonalAsset, fmt: DecimalFormat, now: Date): AssetForm {
    AssetForm(a.name, fmt.describe(a.currentValue), a.purchaseDate.GetOr(now), a.purchaseDate.Some?, a.category, a.notes)
  }

  /** The Save button is enabled when the name is not empty once trimmed. */
  predicate CanSave(f: AssetForm) {
    Trim(f.name) != ""
  }

  lemma CanSaveIff(f: AssetForm)
    ensures CanSave(f) <==> !AllWhitespace(f.name)
  {
    TrimEmptyIff(f.name);
  }

  /** `hasPurchaseDate ? purchaseDate : nil`. */
  function PickedPurchaseDate(f: AssetForm): (d: Option<Date>)
    ensures d.None? <==> !f.hasPurchaseDate
    ensures d.Some? ==> d.value == f.purchaseDate
  {
    if f.hasPurchaseDate then Some(f.purchaseDate) else None
  }

  /** The asset the view was opened on is in the store. */
  predicate Editable(st: StoreState, editing: Option<PersistentId>) {
    editing.Some? ==> IndexOf(st.assets, AssetId, editing.value).Some?
  }

  /** The asset after the edit branch's assignments. */
  function EditedAsset(a: PersonalAsset, f: AssetForm, value: Decimal, now: Date): PersonalAsset {
    a.(name := Trim(f.name), category := f.category, notes := f.notes, purchaseDate := PickedPurchaseDate(f),
       updatedAt := now, currentValue := value)
  }

  /** The change the edit branch logs: from the old value to the new one, dated now, linked to the asset. */
  function LoggedChange(a: PersonalAsset, value: Decimal, id: PersistentId, now: Date): AssetValueChange {
    NewAssetValueChange(id, a.currentValue, value, None, now).(asset := Some(a.id))
  }

  /** `save()` on the store. */
  function Saved(st: StoreState, editing: Option<PersistentId>, f: AssetForm, fmt: DecimalFormat, now: Date): StoreState
    requires Editable(st, editing)
  {
    var value := ParseOrZero(fmt, f.currentValue);
    match editing
    case Some(id) =>
      var k := IndexOf(st.assets, AssetId, id).value;
      var a := st.assets[k];
      var edited := st.SetAsset(k, EditedAsset(a, f, value, now));
      if value != a.currentValue then edited.InsertChange(LoggedChange(a, value, st.nextId, now)) else edited
    case None =>
      st.InsertAsset(NewPersonalAsset(st.nextId, Trim(f.name), value, PickedPurchaseDate(f), f.category, f.notes, now))
  }

  /** `save()` on the live model context, one assignment at a time as the view writes them. */
  method Save(ctx: ModelContext, editing: Option<PersistentId>, f: AssetForm, fmt: DecimalFormat, now: Date)
    requires Editable(ctx.State(), editing)
    modifies ctx
    ensures ctx.State() == Saved(old(ctx.State()), editing, f, fmt, now)
  {
    var value := ParseOrZero(fmt, f.currentValue);
    if editing.Some? {
      var k := IndexOf(ctx.assets, AssetId, editing.value).value;
      var a := ctx.assets[k];
      var previousValue := a.currentValue;
      a := a.(name := Trim(f.name));
      a := a.(category := f.category);
      a := a.(notes := f.notes);
      a := a.(purchaseDate := if f.hasPurchaseDate then Some(f.purchaseDate) else None);
      a := a.(updatedAt := now);
      if value != previousValue {
        var change := NewAssetValueChange(ctx.nextId, previousValue, value, None, now);
        change := change.(asset := Some(a.id));
        a := a.(currentValue := value);
        ctx.SetAsset(k, a);
        ctx.InsertChange(change);
      } else {
        a := a.(currentValue := value);
        ctx.SetAsset(k, a);
      }
    } else {
      var newAsset := NewPersonalAsset(ctx.nextId, Trim(f.name), value, PickedPurchaseDate(f), f.category, f.notes, now);
      ctx.InsertAsset(newAsset);
    }
  }

  /** The fields an edit writes: the trimmed name, the picked category, purchase date (none when the
      toggle is off) and notes, the parsed value (zero when the text does not parse), and updatedAt now. */
  predicate WrittenFrom(a: PersonalAsset, f: AssetForm, fmt: DecimalFormat, now: Date) {
    && a.name == Trim(f.name) && Trim(a.name) == a.name
    && a.category == f.category && a.notes == f.notes
    && (f.hasPurchaseDate ==> a.purchaseDate == Some(f.purchaseDate))
    && (!f.hasPurchaseDate ==> a.purchaseDate == None)
    && (fmt.parse(f.currentValue).None? ==> a.currentValue == 0.0)
    && (fmt.parse(f.currentValue).Some? ==> a.currentValue == fmt.parse(f.currentValue).value)
    && a.updatedAt == now
  }

  /** Editing overwrites the asset's fields where it stands (updatedAt too, even when the value stays)
      and keeps its identity and createdAt. */
  lemma SaveEditsInPlace(st: StoreState, id: PersistentId, f: AssetForm, fmt: DecimalFormat, now: Date)
    requires Editable(st, Some(id))
    ensures var k := IndexOf(st.assets, AssetId, id).value;
      var a := Saved(st, Some(id), f, fmt, now).assets[k];
      WrittenFrom(a, f, fmt, now) && a.id == id && a.createdAt == st.assets[k].createdAt
  {
    var k := IndexOf(st.assets, AssetId, id).value;
    SavedEditAsset(st, id, f, fmt, now);
    EditedAssetWritten(st.assets[k], f, fmt, now);
  }

  /** Whether or not a change is logged, the edited asset is what stands at its position afterwards. */
  lemma SavedEditAsset(st: StoreState, id: PersistentId, f: AssetForm, fmt: DecimalFormat, now: Date)
    requires Editable(st, Some(id))
    ensures var k := IndexOf(st.assets, AssetId, id).value;
      Saved(st, Some(id), f, fmt, now).assets[k] == EditedAsset(st.assets[k], f, ParseOrZero(fmt, f.currentValue), now)
  {
    var k := IndexOf(st.assets, AssetId, id).value;
    var a := st.assets[k];
    var value := ParseOrZero(fmt, f.currentValue);
    var edited := st.SetAsset(k, EditedAsset(a, f, value, now));
    if value != a.currentValue {
      var c := LoggedChange(a, value, st.nextId, now);
      assert edited.InsertChange(c).assets == edited.assets;
      assert Saved(st, Some(id), f, fmt, now) == edited.InsertChange(c);
    } else {
      assert Saved(st, Some(id), f, fmt, now) == edited;
    }
  }

  lemma EditedAssetWritten(a: PersonalAsset, f: AssetForm, fmt: DecimalFormat, now: Date)
    ensures WrittenFrom(EditedAsset(a, f, ParseOrZero(fmt, f.currentValue), now), f, fmt, now)
  {
    TrimIdempotent(f.name);
  }

  /** Editing inserts no asset, leaves every other asset, subscription and warranty alone, and keeps every
      change already stored in place. */
  lemma SaveEditTouchesNoOtherObject(st: StoreState, id: PersistentId, f: AssetForm, fmt: DecimalFormat, now: Date)
    requires Editable(st, Some(id))
    ensures var k := IndexOf(st.assets, AssetId, id).value;
      var r := Saved(st, Some(id), f, fmt, now);
      && |r.assets| == |st.assets|
      && (forall i :: 0 <= i < |st.assets| && i != k ==> r.assets[i] == st.assets[i])
      && r.subscriptions == st.subscriptions && r.warranties == st.warranties
      && |r.valueChanges| >= |st.valueChanges| && r.valueChanges[..|st.valueChanges|] == st.valueChanges
  {
  }

  /** When the value differs, exactly one change is logged: it goes from the old value to the new one,
      is dated now, and is appended to the asset's history, whose last new value is then the asset's
      current value; the changes already stored, and so every other asset's history, stay as they were. */
  lemma SaveLogsChange(st: StoreState, id: PersistentId, f: AssetForm, fmt: DecimalFormat, now: Date)
    requires Editable(st, Some(id))
    requires ParseOrZero(fmt, f.currentValue) != st.assets[IndexOf(st.assets, AssetId, id).value].currentValue
    ensures var k := IndexOf(st.assets, AssetId, id).value;
      var r := Saved(st, Some(id), f, fmt, now);
      var h := r.History(id);
      && |r.valueChanges| == |st.valueChanges| + 1
      && |h| == |st.History(id)| + 1 && h[..|h| - 1] == st.History(id)
      && h[|h| - 1].previousValue == st.assets[k].currentValue
      && h[|h| - 1].newValue == r.assets[k].currentValue
      && h[|h| - 1].date == now && h[|h| - 1].note == None && h[|h| - 1].id == st.nextId
      && r.nextId == st.nextId + 1
      && r.valueChanges[..|st.valueChanges|] == st.valueChanges
      && (forall other :: other != id ==> r.History(other) == st.History(other))
  {
    var k := IndexOf(st.assets, AssetId, id).value;
    var a := st.assets[k];
    var value := ParseOrZero(fmt, f.currentValue);
    var edited := st.SetAsset(k, EditedAsset(a, f, value, now));
    var c := LoggedChange(a, value, st.nextId, now);
    assert Saved(st, Some(id), f, fmt, now) == edited.InsertChange(c);
    InsertChangeHistory(edited, c, id);
    forall other | other != id
      ensures edited.InsertChange(c).History(other) == st.History(other)
    {
      InsertChangeHistory(edited, c, other);
    }
  }

  /** When the value is unchanged, no change is logged and the current value stays as it was. */
  lemma SaveLogsNothing(st: StoreState, id: PersistentId, f: AssetForm, fmt: DecimalFormat, now: Date)
    requires Editable(st, Some(id))
    requires ParseOrZero(fmt, f.currentValue) == st.assets[IndexOf(st.assets, AssetId, id).value].currentValue
    ensures var k := IndexOf(st.assets, AssetId, id).value;
      var r := Saved(st, Some(id), f, fmt, now);
      && r.valueChanges == st.valueChanges && r.nextId == st.nextId
      && r.assets[k].currentValue == st.assets[k].currentValue
  {
  }

  /** The current value of the asset at position k agrees with its history: when it has changes, the
      last one ends at the current value. */
  ghost predicate ValueAgreesWithHistory(st: StoreState, k: nat)
    requires k < |st.assets|
  {
    var h := st.History(st.assets[k].id);
    h != [] ==> h[|h| - 1].newValue == st.assets[k].currentValue
  }

  /** An edit that logs a change makes the current value agree with the history, and one that does not
      keeps an agreement that held before. */
  lemma SaveKeepsValueAgreement(st: StoreState, id: PersistentId, f: AssetForm, fmt: DecimalFormat, now: Date)
    requires Editable(st, Some(id))
    requires var k := IndexOf(st.assets, AssetId, id).value;
      ParseOrZero(fmt, f.currentValue) != st.assets[k].currentValue || ValueAgreesWithHistory(st, k)
    ensures ValueAgreesWithHistory(Saved(st, Some(id), f, fmt, now), IndexOf(st.assets, AssetId, id).value)
  {
    var k := IndexOf(st.assets, AssetId, id).value;
    SaveEditsInPlace(st, id, f, fmt, now);
    if ParseOrZero(fmt, f.currentValue) != st.assets[k].currentValue {
      SaveLogsChange(st, id, f, fmt, now);
    } else {
      SaveLogsNothing(st, id, f, fmt, now);
    }
  }

  /** Creating inserts exactly one asset, with the next identity, now as both timestamps, and an empty
      history; no change is logged. */
  lemma SaveCreatesOne(st: StoreState, f: AssetForm, fmt: DecimalFormat, now: Date)
    requires st.OwnersIssued()
    ensures var r := Saved(st, None, f, fmt, now);
      var a := r.assets[|st.assets|];
      && |r.assets| == |st.assets| + 1 && r.assets[..|st.assets|] == st.assets
      && WrittenFrom(a, f, fmt, now)
      && a.id == st.nextId && a.createdAt == now
      && r.History(a.id) == []
      && r.valueChanges == st.valueChanges
      && r.subscriptions == st.subscriptions && r.warranties == st.warranties
  {
    var value := ParseOrZero(fmt, f.currentValue);
    var a := NewPersonalAsset(st.nextId, Trim(f.name), value, PickedPurchaseDate(f), f.category, f.notes, now);
    InsertAssetHistory(st, a);
    assert Trim(Trim(f.name)) == Trim(f.name) by {
      TrimIdempotent(f.name);
    }
  }

  /** Saving keeps the store valid: the logged change is linked to an asset in the store. */
  lemma SaveValid(st: StoreState, editing: Option<PersistentId>, f: AssetForm, fmt: DecimalFormat, now: Date)
    requires st.Valid() && Editable(st, editing)
    ensures Saved(st, editing, f, fmt, now).Valid()
  {
    var value := ParseOrZero(fmt, f.currentValue);
    match editing
    case Some(id) =>
      var k := IndexOf(st.assets, AssetId, id).value;
      var a := st.assets[k];
      var edited := st.SetAsset(k, EditedAsset(a, f, value, now));
      SetAssetValid(st, k, EditedAsset(a, f, value, now));
      if value != a.currentValue {
        IndexOfSameKeys(edited.assets, st.assets, AssetId, id);
        InsertChangeValid(edited, LoggedChange(a, value, st.nextId, now));
      }
    case None =>
      InsertAssetValid(st, NewPersonalAsset(st.nextId, Trim(f.name), value, PickedPurchaseDate(f), f.category, f.notes, now));
  }

  /** Opening the editor on an asset whose name is already trimmed and saving without touching the form
      logs nothing and changes only updatedAt, given that decimals parse back from their text. */
  lemma ReopenSaveOnlyStamps(st: StoreState, id: PersistentId, fmt: DecimalFormat, now: Date)
    requires ParsesOwnOutput(fmt) && Editable(st, Some(id))
    requires var a := st.assets[IndexOf(st.assets, AssetId, id).value]; Trim(a.name) == a.name
    ensures var k := IndexOf(st.assets, AssetId, id).value;
      var a := st.assets[k];
      Saved(st, Some(id), FormFrom(a, fmt, now), fmt, now) == st.SetAsset(k, a.(updatedAt := now))
  {
    var k := IndexOf(st.assets, AssetId, id).value;
    var a := st.assets[k];
    assert fmt.parse(fmt.describe(a.currentValue)) == Some(a.currentValue);
    assert PickedPurchaseDate(FormFrom(a, fmt, now)) == a.purchaseDate;
  }
}
