/** Continuum/Views/Subscriptions/SubscriptionEditView.swift: the form behind the subscription editor,
    its save-enabled condition, and `save()`, which either overwrites the fields of the subscription the
    view was opened on or inserts one new subscription. */
module SubscriptionEdit {
  import opened Foundation
  import opened Text
  import opened Keyed
  import opened Subscriptions
  import opened Store

  /** The view's `@State` fields; the amount is the text typed into the field. */
  datatype SubscriptionForm = SubscriptionForm(
    name: string,
    amount: string,
    billingCycle: BillingCycle,
    nextDueDate: Date,
    category: SubscriptionCategory,
    notes: string,
    isSubscription: bool)

  /** The form as it first appears, before `.onAppear` runs. */
  function BlankForm(now: Date): SubscriptionForm {
    SubscriptionForm("", "", Monthly, now, SubscriptionCategory.Other, "", true)
  }

  lemma BlankFormDefaults(now: Date)
    ensures var f := BlankForm(now);
      f.name == "" && f.amount == "" && f.billingCycle == Monthly && f.nextDueDate == now
      && f.category == SubscriptionCategory.Other && f.notes == "" && f.isSubscription
  {
  }

  /** `.onAppear` on an existing subscription: the form shows its fields, the amount as text. */
  function FormFrom(s: Subscription, fmt: DecimalFormat): SubscriptionForm {
    SubscriptionForm(s.name, fmt.describe(s.amount), s.billingCycle, s.nextDueDate, s.category, s.notes, s.isSubscription)
  }

  /** The Save button is enabled when the name is not empty once trimmed. */
  predicate CanSave(f: SubscriptionForm) {
    Trim(f.name) != ""
  }

  /** Save is disabled exactly when the name holds nothing but spaces and tabs (or nothing at all). */
  lemma CanSaveIff(f: SubscriptionForm)
    ensures CanSave(f) <==> !AllWhitespace(f.name)
  {
    TrimEmptyIff(f.name);
  }

  /** The position of the subscription the view was opened on, which is in the store. */
  predicate Editable(st: StoreState, editing: Option<PersistentId>) {
    editing.Some? ==> IndexOf(st.subscriptions, SubscriptionId, editing.value).Some?
  }

  /** `save()` on the store: the edit branch overwrites the seven editable fields of the stored object
      in place; the create branch inserts one new subscription made with the construction time. */
  function Saved(st: StoreState, editing: Option<PersistentId>, f: SubscriptionForm, fmt: DecimalFormat, now: Date): StoreState
    requires Editable(st, editing)
  {
    var amountValue := ParseOrZero(fmt, f.amount);
    match editing
    case Some(id) =>
      var k := IndexOf(st.subscriptions, SubscriptionId, id).value;
      st.SetSubscription(k, st.subscriptions[k].(
        name := Trim(f.name), amount := amountValue, billingCycle := f.billingCycle,
        nextDueDate := f.nextDueDate, category := f.category, notes := f.notes,
        isSubscription := f.isSubscription))
    case None =>
      st.InsertSubscription(NewSubscription(st.nextId, Trim(f.name), amountValue, f.billingCycle,
        f.nextDueDate, f.category, f.notes, f.isSubscription, now))
  }

  /** `save()` on the live model context, one assignment at a time as the view writes them. */
  method Save(ctx: ModelContext, editing: Option<PersistentId>, f: SubscriptionForm, fmt: DecimalFormat, now: Date)
    requires Editable(ctx.State(), editing)
    modifies ctx
    ensures ctx.State() == Saved(old(ctx.State()), editing, f, fmt, now)
  {
    var amountValue := ParseOrZero(fmt, f.amount);
    if editing.Some? {
      var k := IndexOf(ctx.subscriptions, SubscriptionId, editing.value).value;
      var sub := ctx.subscriptions[k];
      sub := sub.(name := Trim(f.name));
      sub := sub.(amount := amountValue);
      sub := sub.(billingCycle := f.billingCycle);
      sub := sub.(nextDueDate := f.nextDueDate);
      sub := sub.(category := f.category);
      sub := sub.(notes := f.notes);
      sub := sub.(isSubscription := f.isSubscription);
      ctx.SetSubscription(k, sub);
    } else {
      var newSub := NewSubscription(ctx.nextId, Trim(f.name), amountValue, f.billingCycle, f.nextDueDate,
        f.category, f.notes, f.isSubscription, now);
      ctx.InsertSubscription(newSub);
    }
  }

  /** The fields `save()` writes from the form: the trimmed name (which trimming no longer changes),
      the parsed amount (zero when the text does not parse), and the rest as picked, notes verbatim. */
  predicate WrittenFrom(s: Subscription, f: SubscriptionForm, fmt: DecimalFormat) {
    && s.name == Trim(f.name) && Trim(s.name) == s.name
    && (fmt.parse(f.amount).None? ==> s.amount == 0.0)
    && (fmt.parse(f.amount).Some? ==> s.amount == fmt.parse(f.amount).value)
    && s.billingCycle == f.billingCycle && s.nextDueDate == f.nextDueDate && s.category == f.category
    && s.notes == f.notes && s.isSubscription == f.isSubscription
  }

  /** Editing overwrites the fields of the subscription with that identity from the form, and keeps its
      identity and createdAt. */
  lemma SaveEditsInPlace(st: StoreState, id: PersistentId, f: SubscriptionForm, fmt: DecimalFormat, now: Date)
    requires Editable(st, Some(id))
    ensures var k := IndexOf(st.subscriptions, SubscriptionId, id).value;
      var s := Saved(st, Some(id), f, fmt, now).subscriptions[k];
      WrittenFrom(s, f, fmt) && s.id == id && s.createdAt == st.subscriptions[k].createdAt
  {
    assert Trim(Trim(f.name)) == Trim(f.name) by {
      TrimIdempotent(f.name);
    }
  }

  /** Editing inserts nothing and leaves every other object as it was. */
  lemma SaveEditTouchesNothingElse(st: StoreState, id: PersistentId, f: SubscriptionForm, fmt: DecimalFormat, now: Date)
    requires Editable(st, Some(id))
    ensures var k := IndexOf(st.subscriptions, SubscriptionId, id).value;
      var r := Saved(st, Some(id), f, fmt, now);
      && |r.subscriptions| == |st.subscriptions|
      && (forall i :: 0 <= i < |st.subscriptions| && i != k ==> r.subscriptions[i] == st.subscriptions[i])
      && r.assets == st.assets && r.valueChanges == st.valueChanges && r.warranties == st.warranties
      && r.nextId == st.nextId
  {
  }

  /** Creating inserts exactly one subscription, with the next identity and now as its createdAt. */
  lemma SaveCreatesOne(st: StoreState, f: SubscriptionForm, fmt: DecimalFormat, now: Date)
    ensures var r := Saved(st, None, f, fmt, now);
      && |r.subscriptions| == |st.subscriptions| + 1
      && r.subscriptions[..|st.subscriptions|] == st.subscriptions
      && WrittenFrom(r.subscriptions[|st.subscriptions|], f, fmt)
      && r.subscriptions[|st.subscriptions|].id == st.nextId
      && r.subscriptions[|st.subscriptions|].createdAt == now
      && r.assets == st.assets && r.valueChanges == st.valueChanges && r.warranties == st.warranties
  {
    assert Trim(Trim(f.name)) == Trim(f.name) by {
      TrimIdempotent(f.name);
    }
  }

  /** Saving keeps the store valid. */
  lemma SaveValid(st: StoreState, editing: Option<PersistentId>, f: SubscriptionForm, fmt: DecimalFormat, now: Date)
    requires st.Valid() && Editable(st, editing)
    ensures Saved(st, editing, f, fmt, now).Valid()
  {
    var amountValue := ParseOrZero(fmt, f.amount);
    match editing
    case Some(id) =>
      var k := IndexOf(st.subscriptions, SubscriptionId, id).value;
      SetSubscriptionValid(st, k, Saved(st, editing, f, fmt, now).subscriptions[k]);
    case None =>
      InsertSubscriptionValid(st, NewSubscription(st.nextId, Trim(f.name), amountValue, f.billingCycle,
        f.nextDueDate, f.category, f.notes, f.isSubscription, now));
  }

  /** Opening the editor on a subscription whose name is already trimmed and saving without touching
      the form leaves the store exactly as it was, given that decimals parse back from their text. */
  lemma ReopenSaveUnchanged(st: StoreState, id: PersistentId, fmt: DecimalFormat, now: Date)
    requires ParsesOwnOutput(fmt) && Editable(st, Some(id))
    requires var s := st.subscriptions[IndexOf(st.subscriptions, SubscriptionId, id).value]; Trim(s.name) == s.name
    ensures var s := st.subscriptions[IndexOf(st.subscriptions, SubscriptionId, id).value];
      Saved(st, Some(id), FormFrom(s, fmt), fmt, now) == st
  {
    var k := IndexOf(st.subscriptions, SubscriptionId, id).value;
    var s := st.subscriptions[k];
    assert fmt.parse(fmt.describe(s.amount)) == Some(s.amount);
    assert st.subscriptions[k := s] == st.subscriptions;
  }
}
