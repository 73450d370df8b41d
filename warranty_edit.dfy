/** Continuum/Views/Warranties/WarrantyEditView.swift: the form behind the warranty editor, its
    save-enabled condition, and `save()`, which either overwrites the fields of the warranty the view
    was opened on or inserts one new warranty. */
module WarrantyEdit {
  import opened Foundation
  import opened Text
  import opened Keyed
  import opened Warranties
  import opened Store

  /** The view's `@State` fields. */
  datatype WarrantyForm = WarrantyForm(
    productName: string,
    purchaseDate: Date,
    expiryDate: Date,
    vendor: string,
    notes: string)

  /** The form as it first appears: bought now, expiring one calendar year from now. */
  function BlankForm(cal: Calendar, now: Date): WarrantyForm {
    WarrantyForm("", now, OneYearFrom(cal, now), "", "")
  }

  lemma BlankFormDefaults(cal: Calendar, now: Date)
    ensures var f := BlankForm(cal, now);
      && f.productName == "" && f.purchaseDate == now && f.vendor == "" && f.notes == ""
      && (cal.addingYears(1, now).Some? ==> f.expiryDate == cal.addingYears(1, now).value)
      && (cal.addingYears(1, now).None? ==> f.expiryDate == now)
  {
  }

  /** `.onAppear` on an existing warranty: the form shows its fields. */
  function FormFrom(w: Warranty): WarrantyForm {
    WarrantyForm(w.productName, w.purchaseDate, w.expiryDate, w.vendor, w.notes)
  }

  /** The Save button is enabled when the product name is not empty once trimmed. */
  predicate CanSave(f: WarrantyForm) {
    Trim(f.productName) != ""
  }

  lemma CanSaveIff(f: WarrantyForm)
    ensures CanSave(f) <==> !AllWhitespace(f.productName)
  {
    TrimEmptyIff(f.productName);
  }

  /** The warranty the view was opened on is in the store. */
  predicate Editable(st: StoreState, editing: Option<PersistentId>) {
    editing.Some? ==> IndexOf(st.warranties, WarrantyId, editing.value).Some?
  }

  /** `save()` on the store: the edit branch overwrites the five editable fields of the stored object in
      place; the create branch inserts one new warranty made with the construction time. */
  function Saved(st: StoreState, editing: Option<PersistentId>, f: WarrantyForm, now: Date): StoreState
    requires Editable(st, editing)
  {
    match editing
    case Some(id) =>
      var k := IndexOf(st.warranties, WarrantyId, id).value;
      st.SetWarranty(k, st.warranties[k].(
        productName := Trim(f.productName), purchaseDate := f.purchaseDate, expiryDate := f.expiryDate,
        vendor := Trim(f.vendor), notes := f.notes))
    case None =>
      st.InsertWarranty(NewWarranty(st.nextId, Trim(f.productName), f.purchaseDate, f.expiryDate,
        Trim(f.vendor), f.notes, now))
  }

  /** `save()` on the live model context, one assignment at a time as the view writes them. */
  method Save(ctx: ModelContext, editing: Option<PersistentId>, f: WarrantyForm, now: Date)
    requires Editable(ctx.State(), editing)
    modifies ctx
    ensures ctx.State() == Saved(old(ctx.State()), editing, f, now)
  {
    if editing.Some? {
      var k := IndexOf(ctx.warranties, WarrantyId, editing.value).value;
      var w := ctx.warranties[k];
      w := w.(productName := Trim(f.productName));
      w := w.(purchaseDate := f.purchaseDate);
      w := w.(expiryDate := f.expiryDate);
      w := w.(vendor := Trim(f.vendor));
      w := w.(notes := f.notes);
      ctx.SetWarranty(k, w);
    } else {
      var newWarranty := NewWarranty(ctx.nextId, Trim(f.productName), f.purchaseDate, f.expiryDate,
        Trim(f.vendor), f.notes, now);
      ctx.InsertWarranty(newWarranty);
    }
  }

  /** The fields `save()` writes from the form: product name and vendor trimmed (so that trimming
      them again changes nothing), the dates as picked and the notes verbatim. */
  predicate WrittenFrom(w: Warranty, f: WarrantyForm) {
    && w.productName == Trim(f.productName) && Trim(w.productName) == w.productName
    && w.vendor == Trim(f.vendor) && Trim(w.vendor) == w.vendor
    && w.purchaseDate == f.purchaseDate && w.expiryDate == f.expiryDate && w.notes == f.notes
  }

  /** Editing overwrites the warranty's fields from the form and never touches its identity or createdAt. */
  lemma SaveEditsInPlace(st: StoreState, id: PersistentId, f: WarrantyForm, now: Date)
    requires Editable(st, Some(id))
    ensures var k := IndexOf(st.warranties, WarrantyId, id).value;
      var w := Saved(st, Some(id), f, now).warranties[k];
      WrittenFrom(w, f) && w.id == id && w.createdAt == st.warranties[k].createdAt
  {
    assert Trim(Trim(f.productName)) == Trim(f.productName) by {
      TrimIdempotent(f.productName);
    }
    assert Trim(Trim(f.vendor)) == Trim(f.vendor) by {
      TrimIdempotent(f.vendor);
    }
  }

  /** Editing inserts nothing and leaves every other object as it was. */
  lemma SaveEditTouchesNothingElse(st: StoreState, id: PersistentId, f: WarrantyForm, now: Date)
    requires Editable(st, Some(id))
    ensures var k := IndexOf(st.warranties, WarrantyId, id).value;
      var r := Saved(st, Some(id), f, now);
      && |r.warranties| == |st.warranties|
      && (forall i :: 0 <= i < |st.warranties| && i != k ==> r.warranties[i] == st.warranties[i])
      && r.subscriptions == st.subscriptions && r.assets == st.assets && r.valueChanges == st.valueChanges
      && r.nextId == st.nextId
  {
  }

  /** Creating inserts exactly one warranty, with the next identity and now as its createdAt. */
  lemma SaveCreatesOne(st: StoreState, f: WarrantyForm, now: Date)
    ensures var r := Saved(st, None, f, now);
      && |r.warranties| == |st.warranties| + 1
      && r.warranties[..|st.warranties|] == st.warranties
      && WrittenFrom(r.warranties[|st.warranties|], f)
      && r.warranties[|st.warranties|].id == st.nextId
      && r.warranties[|st.warranties|].createdAt == now
      && r.subscriptions == st.subscriptions && r.assets == st.assets && r.valueChanges == st.valueChanges
  {
    assert Trim(Trim(f.productName)) == Trim(f.productName) by {
      TrimIdempotent(f.productName);
    }
    assert Trim(Trim(f.vendor)) == Trim(f.vendor) by {
      TrimIdempotent(f.vendor);
    }
  }

  lemma SaveValid(st: StoreState, editing: Option<PersistentId>, f: WarrantyForm, now: Date)
    requires st.Valid() && Editable(st, editing)
    ensures Saved(st, editing, f, now).Valid()
  {
    match editing
    case Some(id) =>
      var k := IndexOf(st.warranties, WarrantyId, id).value;
      SetWarrantyValid(st, k, Saved(st, editing, f, now).warranties[k]);
    case None =>
      InsertWarrantyValid(st, NewWarranty(st.nextId, Trim(f.productName), f.purchaseDate, f.expiryDate,
        Trim(f.vendor), f.notes, now));
  }

  /** Opening the editor on a warranty whose product name and vendor are already trimmed and saving
      without touching the form leaves the store exactly as it was. */
  lemma ReopenSaveUnchanged(st: StoreState, id: PersistentId, now: Date)
    requires Editable(st, Some(id))
    requires var w := st.warranties[IndexOf(st.warranties, WarrantyId, id).value];
      Trim(w.productName) == w.productName && Trim(w.vendor) == w.vendor
    ensures var w := st.warranties[IndexOf(st.warranties, WarrantyId, id).value];
      Saved(st, Some(id), FormFrom(w), now) == st
  {
    var k := IndexOf(st.warranties, WarrantyId, id).value;
    assert st.warranties[k := st.warranties[k]] == st.warranties;
  }

  /** Saving the same form twice over the same warranty is saving it once. */
  lemma SaveIdempotent(st: StoreState, id: PersistentId, f: WarrantyForm, now: Date)
    requires Editable(st, Some(id))
    ensures Editable(Saved(st, Some(id), f, now), Some(id))
    ensures Saved(Saved(st, Some(id), f, now), Some(id), f, now) == Saved(st, Some(id), f, now)
  {
    var k := IndexOf(st.warranties, WarrantyId, id).value;
    var r := Saved(st, Some(id), f, now);
    IndexOfSameKeys(r.warranties, st.warranties, WarrantyId, id);
    assert r.warranties[k := r.warranties[k]] == r.warranties;
  }
}
