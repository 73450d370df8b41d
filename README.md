# Continuum, modelled in Dafny

Continuum is an iOS app that keeps track of three things:

- recurring costs: subscriptions and recurring expenses, each with a billing cycle and a next due date;
- owned assets, each with a current value and a history of value changes;
- product warranties, each with an expiry date.

Everything is kept in a SwiftData store. This project models the rules at the core of the app:

- **Entities** (`subscription.dfy`, `personal_asset.dfy`, `asset_value_change.dfy`, `warranty.dfy`):
  - their constructors and defaults;
  - the raw-string enums and their failable lookups;
  - `monthlyEquivalent`, `isPastDue`, `isExpired`, `daysUntilExpiry`, `changeAmount`, and the ratio behind `changePercent`.
- **The store** (`store.dfy`): the SwiftData model context.
  - `StoreState` is the context as a value: four collections in insertion order, plus the next persistent identity.
  - `ModelContext` is the same state as a class whose methods change it in place.
  - An asset's `valueChanges` is derived as the inverse of each change's `asset` link (`History`).
  - Deleting an asset cascades to its changes.
  - `Valid` means identities are unique and no change is orphaned.
- **Backup and restore** (`export.dfy`, `export_properties.dfy`):
  - `ContinuumExport.build(from:)` fetches each collection in `createdAt` order and projects it to records; decimals become text and enums their raw values.
  - `importInto(_:)` runs as the three loops of the source, on the live context. It is proved equal to a pure `Import` function.
  - The lemmas prove that import:
    - is lenient;
    - is additive (re-importing duplicates every record);
    - is independent of the clock;
    - keeps the store valid;
    - rebuilds each asset's history from its nested records.
  - Restoring a freshly built backup into an empty store and building again gives back the same records in the same order.
- **The three editors** (`subscription_edit.dfy`, `asset_edit.dfy`, `warranty_edit.dfy`). For each:
  - the form and its initial values;
  - `.onAppear` (the form is filled from the object);
  - the save-enabled test (the name is not blank);
  - `save()`, both as a method on the live context and as a function on the store.
  
  Editing overwrites fields in place. Creating inserts exactly one object. The asset editor logs one value change exactly when the value differs.
- **The dashboard** (`dashboard.dfy`):
  - the monthly recurring total and the total assets value;
  - the two "next 30 days" lists, and the five rows of each that are shown;
  - the subscription count;
  - the breakdown sheet sorted by monthly cost.
- **Warranty status** (`warranty_detail.dfy`): the three-way Expired / "N days" / Valid rule shared by the detail screen and the list badges, and the vendor placeholder.

Supporting modules hold the generic pieces:

- `foundation.dfy`: Option, `Date`, `Calendar`, `Decimal`, and decimal text;
- `text.dfy`: `trimmingCharacters(in: .whitespaces)` and integer printing;
- `keyed.dfy`: filters by key, position lookup, and fresh identities;
- `sorting.dfy`: an insertion sort by key, `map`, and `prefix`.

How the platform is represented:

- **Dates** are whole seconds. The current time `now` is a parameter wherever the source calls `Date()`.
- **Calendar.** Adding days uses 86400-second days. Month and year addition come from a `Calendar` value that may fail, standing for `Calendar.current`.
- **Decimals.** `Decimal` is an exact number. `Decimal(string:)` and `"\(d)"` form a `DecimalFormat` value whose two functions are not interpreted. Where a round trip needs it, a lemma requires `ParsesOwnOutput`, the law that printed decimal text parses back to the same decimal.

## Model

| member | source | states |
|---|---|---|
| Foundation.ParseOrZero | Continuum/Views/Subscriptions/SubscriptionEditView.swift:80 | decimal text that does not parse becomes zero; text that parses gives its value |
| Text.TrimShape | Continuum/Views/Subscriptions/SubscriptionEditView.swift:82 | trimming keeps a contiguous middle part of the text; only whitespace is cut on either side |
| Text.TrimStart | Continuum/Views/Subscriptions/SubscriptionEditView.swift:82 | the leading part removed is all whitespace, the rest is a suffix of the text and starts with no whitespace |
| Text.TrimEnd | Continuum/Views/Subscriptions/SubscriptionEditView.swift:82 | the trailing part removed is all whitespace, the rest is a prefix of the text and ends with no whitespace |
| Text.TrimEnds | Continuum/Views/Warranties/WarrantyEditView.swift:68 | a trimmed text that is not empty neither starts nor ends with whitespace |
| Text.TrimEmptyIff | Continuum/Views/Subscriptions/SubscriptionEditView.swift:63 | the trimmed text is empty exactly when the text holds only whitespace |
| Text.TrimIdempotent | Continuum/Views/Subscriptions/SubscriptionEditView.swift:82 | trimming twice is trimming once |
| Text.TrimFixedPoints | Continuum/Views/Warranties/WarrantyEditView.swift:71 | trimming leaves a text unchanged exactly when it is empty or neither starts nor ends with whitespace |
| Text.NatToString | Continuum/Views/Warranties/WarrantyDetailView.swift:46 | `"\(n)"` for a count: at least one digit, all digits, no leading zero, and the digits denote n |
| Text.IntToString | Continuum/Views/Warranties/WarrantyDetailView.swift:46 | `"\(n)"` for an `Int`: the digits of n, after a minus sign when n is negative |
| Text.IntToStringInjective | Continuum/Views/Warranties/WarrantyListView.swift:86 | two day counts print the same exactly when they are equal, so the label shows the count itself |
| Keyed.HavingMembers | Continuum/Views/DashboardView.swift:30 | a filter selects exactly the elements that pass its test |
| Keyed.HavingMultiset | Continuum/Views/DashboardView.swift:37 | a filter keeps every occurrence of a passing element and drops all the others |
| Keyed.IndexOf | Continuum/Views/Assets/AssetEditView.swift:79 | the position of the first object with an identity, or none exactly when no object has it |
| Sorting.InsertBy | Continuum/Models/ContinuumExport.swift:109 | inserting into a sorted list adds exactly the one element |
| Sorting.InsertBySorted | Continuum/Models/ContinuumExport.swift:109 | inserting into a sorted list keeps it sorted |
| Sorting.SortBy | Continuum/Models/ContinuumExport.swift:109-111 | the fetch sorted by `createdAt` is a permutation of the collection, sorted by the key |
| Sorting.SortBySorted | Continuum/Models/ContinuumExport.swift:109-111 | a collection already in `createdAt` order is a fixed point of the sort: it comes back unchanged |
| Sorting.Prefix | Continuum/Views/DashboardView.swift:80 | `prefix(n)` is the first n elements, or all of them when there are fewer |
| Sorting.Map | Continuum/Models/ContinuumExport.swift:120-122 | `map` keeps the length and applies the function at every position |
| Sorting.MapSortBy | Continuum/Models/ContinuumExport.swift:120-122 | projecting with a function that keeps the sort key commutes with sorting |
| Subscriptions.BillingCycleFromRaw | Continuum/Models/Subscription.swift:12-17 | `BillingCycle(rawValue:)` finds the cycle with that raw string, or none exactly when no cycle has it |
| Subscriptions.BillingCycleRawValueInverse | Continuum/Models/Subscription.swift:12-17 | looking a cycle up by its raw value gives the cycle back; the raw strings are distinct |
| Subscriptions.SubscriptionCategoryFromRaw | Continuum/Models/Subscription.swift:31-40 | `SubscriptionCategory(rawValue:)` finds the category with that raw string, or none exactly when none has it |
| Subscriptions.SubscriptionCategoryRawValueInverse | Continuum/Models/Subscription.swift:31-40 | lookup by raw value inverts the raw value; the eight raw strings are distinct |
| Subscriptions.NextDueDateFrom | Continuum/Models/Subscription.swift:19-27 | weekly adds 7 days and biweekly 14, both strictly later; monthly and quarterly add 1 or 3 months and yearly adds 1 year through the calendar, keeping the date when that fails |
| Subscriptions.SubscriptionInitDefaults | Continuum/Models/Subscription.swift:53-70 | the default subscription: empty name, zero monthly amount due now, category other, a subscription, created now |
| Subscriptions.PastDueBoundary | Continuum/Models/Subscription.swift:73-75 | a due date equal to now is not past due; one second earlier is |
| Subscriptions.MonthlyEquivalent | Continuum/Models/Subscription.swift:78-86 | twelve monthly equivalents are one year of billing periods; monthly is the amount itself; a non-negative amount gives a non-negative cost |
| Subscriptions.MonthlyEquivalentLinear | Continuum/Models/Subscription.swift:78-86 | the monthly equivalent is zero for a zero amount and linear in the amount for every cycle |
| PersonalAssets.AssetCategoryFromRaw | Continuum/Models/PersonalAsset.swift:12-20 | `AssetCategory(rawValue:)` finds the category with that raw string, or none exactly when none has it |
| PersonalAssets.AssetCategoryRawValueInverse | Continuum/Models/PersonalAsset.swift:12-20 | lookup by raw value inverts the raw value; the seven raw strings are distinct |
| PersonalAssets.PersonalAssetInitDefaults | Continuum/Models/PersonalAsset.swift:35-49 | the default asset: empty name, zero value, no purchase date, category other, created and updated now |
| AssetValueChanges.AssetValueChangeInitDefaults | Continuum/Models/AssetValueChange.swift:20-29 | a new change is dated now, holds both values and is not yet linked to an asset |
| AssetValueChanges.ChangeAmount | Continuum/Models/AssetValueChange.swift:31-33 | the amount added to the previous value gives the new one; it is zero or positive exactly when the value stays or rises |
| AssetValueChanges.ChangeRatio | Continuum/Models/AssetValueChange.swift:35-38 | there is no ratio exactly when the previous value is zero; otherwise the ratio times the previous value is the change amount |
| Warranties.WarrantyInitDefaults | Continuum/Models/Warranty.swift:20-33 | the default warranty: bought now, expiring one calendar year later (or now when the calendar gives no date), created now |
| Warranties.ExpiredBoundary | Continuum/Models/Warranty.swift:35-37 | an expiry equal to now is not expired; one second earlier is |
| Warranties.DaysUntilExpiry | Continuum/Models/Warranty.swift:39-41 | the whole days from now to expiry, rounded toward zero; positive exactly when a full day is left, negative exactly when a full day has passed |
| Warranties.ExpiredHasNoDaysLeft | Continuum/Models/Warranty.swift:35-41 | an expired warranty has no whole day left |
| Warranties.DaysUntilExpiryMonotone | Continuum/Models/Warranty.swift:39-41 | a later expiry never has fewer days left |
| Store.EmptyStoreValid | Continuum/ContinuumApp.swift:13-25 | the empty store satisfies the invariant |
| Store.HistoryPointsBack | Continuum/Models/PersonalAsset.swift:32-33 | every change in an asset's `valueChanges` links back to that asset and is in the store |
| Store.ChangeInOwnersHistory | Continuum/Models/PersonalAsset.swift:32-33 | in a valid store every change belongs to a live asset and lies in its history |
| Store.InsertSubscriptionValid | Continuum/Views/Subscriptions/SubscriptionEditView.swift:99 | inserting a subscription with a fresh identity keeps the store valid |
| Store.InsertWarrantyValid | Continuum/Views/Warranties/WarrantyEditView.swift:81 | inserting a warranty with a fresh identity keeps the store valid |
| Store.InsertAssetValid | Continuum/Views/Assets/AssetEditView.swift:104 | inserting an asset keeps the store valid, and the asset is then found by its identity |
| Store.ValidOwnersIssued | Continuum/Models/AssetValueChange.swift:18 | in a valid store no change is linked to an identity not yet handed out |
| Store.InsertAssetHistory | Continuum/Models/PersonalAsset.swift:33 | a new asset starts with an empty `valueChanges`, and inserting it moves no other history |
| Store.InsertChangeValid | Continuum/Views/Assets/AssetEditView.swift:88-92 | inserting a change linked to a live asset keeps the store valid |
| Store.InsertChangeHistory | Continuum/Views/Assets/AssetEditView.swift:89-90 | a new change is appended to its asset's history and to no other |
| Store.DeleteAssetValid | Continuum/Models/PersonalAsset.swift:32 | deleting an asset with the cascade rule keeps the store valid |
| Store.DeleteAssetCascades | Continuum/Models/PersonalAsset.swift:32-33 | deleting an asset removes it and exactly the changes it owns; every other object and history stays |
| Store.DeleteSubscriptionValid | Continuum/Views/Subscriptions/SubscriptionListView.swift:34 | deleting keeps the store valid and removes exactly the subscription with that identity |
| Store.DeleteWarrantyValid | Continuum/Views/Warranties/WarrantyListView.swift:34 | deleting keeps the store valid and removes exactly the warranty with that identity |
| Store.SetSubscriptionValid | Continuum/Views/Subscriptions/SubscriptionEditView.swift:81-88 | overwriting a stored subscription's fields, identity kept, keeps the store valid |
| Store.SetAssetValid | Continuum/Views/Assets/AssetEditView.swift:79-95 | overwriting a stored asset's fields, identity kept, keeps the store valid |
| Store.SetWarrantyValid | Continuum/Views/Warranties/WarrantyEditView.swift:67-72 | overwriting a stored warranty's fields, identity kept, keeps the store valid |
| Store.ModelContext.constructor | Continuum/ContinuumApp.swift:13-25 | a fresh context is empty and valid |
| Store.ModelContext.InsertSubscription | Continuum/Views/Subscriptions/SubscriptionEditView.swift:99 | `insert` appends the subscription, whose identity is the next unused one, and advances the identity counter; a valid context stays valid |
| Store.ModelContext.InsertAsset | Continuum/Views/Assets/AssetEditView.swift:104 | `insert` appends the asset, whose identity is the next unused one, and advances the identity counter; a valid context stays valid |
| Store.ModelContext.InsertChange | Continuum/Views/Assets/AssetEditView.swift:92 | `insert` appends the change, whose identity is the next unused one, and advances the identity counter; a valid context stays valid when the change's asset is in the store |
| Store.ModelContext.InsertWarranty | Continuum/Views/Warranties/WarrantyEditView.swift:81 | `insert` appends the warranty, whose identity is the next unused one, and advances the identity counter; a valid context stays valid |
| Store.ModelContext.SetSubscription | Continuum/Views/Subscriptions/SubscriptionEditView.swift:81-88 | assigning to the stored subscription replaces it where it stands; a valid context stays valid when the identity is kept |
| Store.ModelContext.SetAsset | Continuum/Views/Assets/AssetEditView.swift:80-95 | assigning to the stored asset replaces it where it stands; a valid context stays valid when the identity is kept |
| Store.ModelContext.SetWarranty | Continuum/Views/Warranties/WarrantyEditView.swift:67-72 | assigning to the stored warranty replaces it where it stands; a valid context stays valid when the identity is kept |
| Store.ModelContext.DeleteAsset | Continuum/Views/Assets/AssetListView.swift:34 | deleting an asset cascades to its changes and keeps the context valid |
| Store.ModelContext.DeleteSubscription | Continuum/Views/Subscriptions/SubscriptionListView.swift:34 | deleting a subscription keeps the context valid |
| Store.ModelContext.DeleteWarranty | Continuum/Views/Warranties/WarrantyListView.swift:34 | deleting a warranty keeps the context valid |
| Backup.Build | Continuum/Models/ContinuumExport.swift:108-124 | the snapshot has version 1 and the export time; it holds one record per stored object, the exports of the collection in some order, sorted by `createdAt` |
| Backup.SubscriptionImportRules | Continuum/Models/ContinuumExport.swift:131-145 | an imported subscription takes the record's fields; an unparseable amount becomes zero, an unknown cycle monthly, an unknown category other; `createdAt` is the record's |
| Backup.AssetImportRules | Continuum/Models/ContinuumExport.swift:148-160 | an imported asset takes the record's fields, both timestamps included; an unparseable value becomes zero and an unknown category other |
| Backup.ChangeImportRules | Continuum/Models/ContinuumExport.swift:162-169 | an imported change takes the record's date and note, zero for unparseable values, and is linked to its owner |
| Backup.WarrantyImportRules | Continuum/Models/ContinuumExport.swift:172-181 | exporting an imported warranty gives the record back |
| Backup.SubscriptionRoundTrip | Continuum/Models/ContinuumExport.swift:35-44 | under the decimal law, a subscription survives export and import unchanged |
| Backup.AssetRoundTrip | Continuum/Models/ContinuumExport.swift:59-68 | under the decimal law, an asset's own fields survive export and import unchanged |
| Backup.ChangeRoundTrip | Continuum/Models/ContinuumExport.swift:77-82 | under the decimal law, a linked change survives export and import under its owner unchanged |
| Backup.WarrantyRoundTrip | Continuum/Models/ContinuumExport.swift:95-102 | a warranty survives export and import unchanged |
| Backup.ImportSubscriptions | Continuum/Models/ContinuumExport.swift:131-146 | the subscription loop appends one subscription per record, in record order, with consecutive fresh identities, and touches nothing else |
| Backup.ImportedChanges | Continuum/Models/ContinuumExport.swift:162-169 | one change per nested record, in order, with consecutive identities, all linked to the owner |
| Backup.ImportChanges | Continuum/Models/ContinuumExport.swift:162-169 | the nested loop appends exactly those changes and touches nothing else |
| Backup.ImportAsset | Continuum/Models/ContinuumExport.swift:148-169 | one pass of the asset loop appends the asset, then its changes |
| Backup.ImportAssets | Continuum/Models/ContinuumExport.swift:148-170 | the asset loop appends one asset per record and every nested change, and touches neither subscriptions nor warranties |
| Backup.ImportAssetsRecords | Continuum/Models/ContinuumExport.swift:148-170 | the i-th imported asset is made from the i-th record, with an identity handed out by the import |
| Backup.ImportWarranties | Continuum/Models/ContinuumExport.swift:172-182 | the warranty loop appends one warranty per record, in record order, and touches nothing else |
| Backup.ImportInto | Continuum/Models/ContinuumExport.swift:130-185 | `importInto` on the live context leaves it in the state `Import` describes |
| Backup.ImportSubscriptionsInto | Continuum/Models/ContinuumExport.swift:131-146 | the subscription loop on the context, with its loop invariant |
| Backup.ImportAssetsInto | Continuum/Models/ContinuumExport.swift:148-170 | the asset loop on the context, with its loop invariant |
| Backup.ImportAssetInto | Continuum/Models/ContinuumExport.swift:149-169 | one asset and its nested changes inserted on the context |
| Backup.ImportChangesInto | Continuum/Models/ContinuumExport.swift:162-169 | the nested change loop on the context, with its loop invariant |
| Backup.ImportWarrantiesInto | Continuum/Models/ContinuumExport.swift:172-182 | the warranty loop on the context, with its loop invariant |
| Backup.ImportChangesOwnerHistory | Continuum/Models/ContinuumExport.swift:167 | the nested changes land, in record order, at the end of the owner's history |
| Backup.ImportChangesOtherHistory | Continuum/Models/ContinuumExport.swift:167 | no nested change lands in another asset's history |
| Backup.ImportChangesValid | Continuum/Models/ContinuumExport.swift:162-169 | importing changes linked to a live asset keeps the store valid |
| Backup.ImportAssetValid | Continuum/Models/ContinuumExport.swift:148-169 | one pass of the asset loop keeps the store valid |
| Backup.ImportAssetOwnersIssued | Continuum/Models/ContinuumExport.swift:148-169 | one pass of the asset loop links changes only to identities already handed out |
| Backup.ImportAssetNewHistory | Continuum/Models/ContinuumExport.swift:160-169 | the new asset's history is exactly the changes made from its nested records |
| Backup.ImportAssetOldHistory | Continuum/Models/ContinuumExport.swift:160-169 | the history of an asset already in the store is left as it was |
| Backup.ImportAssetMakesHistory | Continuum/Models/ContinuumExport.swift:160-169 | after one pass the new asset's history is rebuilt from its record |
| Backup.ImportAssetKeepsHistory | Continuum/Models/ContinuumExport.swift:160-169 | a later pass keeps a history already rebuilt from its record |
| Backup.ImportAssetsKeepsHistories | Continuum/Models/ContinuumExport.swift:148-170 | the asset loop leaves every earlier history unchanged |
| Backup.ImportAssetsValid | Continuum/Models/ContinuumExport.swift:148-170 | the asset loop keeps the store valid |
| Backup.ImportAssetsOwnersIssued | Continuum/Models/ContinuumExport.swift:148-170 | the asset loop links changes only to identities already handed out |
| Backup.ImportAssetsHistory | Continuum/Models/ContinuumExport.swift:148-170 | the history of the i-th imported asset is made, in order, from the i-th record's nested changes |
| BackupProperties.ImportSubscriptionsValid | Continuum/Models/ContinuumExport.swift:131-146 | the subscription loop keeps the store valid |
| BackupProperties.ImportSubscriptionsOwnersIssued | Continuum/Models/ContinuumExport.swift:131-146 | the subscription loop links no change to an identity not yet handed out |
| BackupProperties.ImportWarrantiesValid | Continuum/Models/ContinuumExport.swift:172-182 | the warranty loop keeps the store valid |
| BackupProperties.ImportAdditive | Continuum/Models/ContinuumExport.swift:130-185 | import only appends: each collection grows by exactly the snapshot's records, and everything already stored stays in place |
| BackupProperties.ImportValid | Continuum/Models/ContinuumExport.swift:130-185 | import keeps the store valid |
| BackupProperties.ImportKeepsHistories | Continuum/Models/ContinuumExport.swift:130-185 | the history of every asset stored before the import is unchanged |
| BackupProperties.ImportHistories | Continuum/Models/ContinuumExport.swift:160-169 | each imported asset's history is made, in order, from its record's nested changes |
| BackupProperties.ImportTwiceDoubles | Continuum/Models/ContinuumExport.swift:130-185 | importing a snapshot twice adds every record twice |
| BackupProperties.ImportSubscriptionsIgnoresClock | Continuum/Models/ContinuumExport.swift:144 | the imported subscriptions do not depend on the time of the import |
| BackupProperties.ImportChangesIgnoresClock | Continuum/Models/ContinuumExport.swift:166 | the imported changes do not depend on the time of the import |
| BackupProperties.ImportAssetsIgnoresClock | Continuum/Models/ContinuumExport.swift:158-159 | the imported assets do not depend on the time of the import |
| BackupProperties.ImportWarrantiesIgnoresClock | Continuum/Models/ContinuumExport.swift:180 | the imported warranties do not depend on the time of the import |
| BackupProperties.ImportIgnoresClock | Continuum/Models/ContinuumExport.swift:130-185 | the store after an import does not depend on when the import ran |
| BackupProperties.DescribedReadsBack | Continuum/Models/ContinuumExport.swift:37 | under the decimal law, decimal text written by the export parses and prints back to itself |
| BackupProperties.ExportedSubscriptionReadsBack | Continuum/Models/ContinuumExport.swift:35-44 | under the decimal law, an exported subscription record is read without any fallback |
| BackupProperties.ExportedChangeReadsBack | Continuum/Models/ContinuumExport.swift:77-82 | under the decimal law, an exported change record is read without any fallback |
| BackupProperties.ExportedAssetReadsBack | Continuum/Models/ContinuumExport.swift:59-68 | under the decimal law, an exported asset record and its nested changes are read without any fallback |
| BackupProperties.SubscriptionRecordRoundTrip | Continuum/Models/ContinuumExport.swift:131-145 | a record read without fallback is what exporting its imported subscription writes |
| BackupProperties.ChangeRecordRoundTrip | Continuum/Models/ContinuumExport.swift:162-169 | a change record read without fallback is what exporting its imported change writes |
| BackupProperties.ChangeRecordsRoundTrip | Continuum/Models/ContinuumExport.swift:162-169 | nested records read without fallback are what exporting the changes made from them writes |
| BackupProperties.AssetRecordRoundTrip | Continuum/Models/ContinuumExport.swift:148-169 | an asset record read without fallback is what exporting its imported asset writes, nested history included |
| BackupProperties.ImportedSubscriptionsSorted | Continuum/Models/ContinuumExport.swift:144 | subscriptions imported from records in `createdAt` order are stored in `createdAt` order |
| BackupProperties.ImportedSubscriptionsExportBack | Continuum/Models/ContinuumExport.swift:131-146 | imported subscriptions export back to the records they came from |
| BackupProperties.SubscriptionsRoundTrip | Continuum/Models/ContinuumExport.swift:109-146 | sorted records imported into a store without subscriptions are fetched and exported back as the same list |
| BackupProperties.ImportedWarrantiesSorted | Continuum/Models/ContinuumExport.swift:180 | warranties imported from records in `createdAt` order are stored in `createdAt` order |
| BackupProperties.ImportedWarrantiesExportBack | Continuum/Models/ContinuumExport.swift:172-182 | imported warranties export back to the records they came from |
| BackupProperties.WarrantiesRoundTrip | Continuum/Models/ContinuumExport.swift:111-182 | sorted records imported into a store without warranties are fetched and exported back as the same list |
| BackupProperties.ImportedAssetsSorted | Continuum/Models/ContinuumExport.swift:158 | assets imported from records in `createdAt` order are stored in `createdAt` order |
| BackupProperties.ImportedAssetsExportBack | Continuum/Models/ContinuumExport.swift:148-170 | imported assets export back, with their nested changes, to the records they came from |
| BackupProperties.AssetsRoundTrip | Continuum/Models/ContinuumExport.swift:110-170 | sorted asset records imported into a store without assets are fetched and exported back as the same list |
| BackupProperties.ExportedSubscriptionsReadBack | Continuum/Models/ContinuumExport.swift:120 | under the decimal law, the subscription records of a build are all read without fallback |
| BackupProperties.ExportedAssetsReadBack | Continuum/Models/ContinuumExport.swift:121 | under the decimal law, the asset records of a build are all read without fallback |
| BackupProperties.BuildImportRoundTrip | Continuum/Models/ContinuumExport.swift:108-185 | under the decimal law, restoring a built snapshot into an empty store and building again gives the same version and the same records in the same order |
| SubscriptionEdit.BlankFormDefaults | Continuum/Views/Subscriptions/SubscriptionEditView.swift:15-21 | the form starts empty, monthly, due now, category other, as a subscription |
| SubscriptionEdit.CanSaveIff | Continuum/Views/Subscriptions/SubscriptionEditView.swift:63 | Save is enabled exactly when the name is not all whitespace |
| SubscriptionEdit.Save | Continuum/Views/Subscriptions/SubscriptionEditView.swift:79-102 | `save()` on the live context leaves the state `Saved` describes |
| SubscriptionEdit.SaveEditsInPlace | Continuum/Views/Subscriptions/SubscriptionEditView.swift:81-88 | editing writes the trimmed name, the parsed amount (zero if unparseable) and the picked fields; identity and `createdAt` stay |
| SubscriptionEdit.SaveEditTouchesNothingElse | Continuum/Views/Subscriptions/SubscriptionEditView.swift:81-88 | editing inserts nothing and leaves every other object as it was |
| SubscriptionEdit.SaveCreatesOne | Continuum/Views/Subscriptions/SubscriptionEditView.swift:90-99 | creating appends exactly one subscription written from the form, with the next identity, created now |
| SubscriptionEdit.SaveValid | Continuum/Views/Subscriptions/SubscriptionEditView.swift:79-100 | saving keeps the store valid |
| SubscriptionEdit.ReopenSaveUnchanged | Continuum/Views/Subscriptions/SubscriptionEditView.swift:66-88 | under the decimal law, reopening a subscription whose name is trimmed and saving leaves the store as it was |
| AssetEdit.BlankFormDefaults | Continuum/Views/Assets/AssetEditView.swift:15-20 | the form starts empty, without a purchase date, category other |
| AssetEdit.CanSaveIff | Continuum/Views/Assets/AssetEditView.swift:59 | Save is enabled exactly when the name is not all whitespace |
| AssetEdit.PickedPurchaseDate | Continuum/Views/Assets/AssetEditView.swift:84 | no purchase date exactly when the toggle is off; otherwise the picked date |
| AssetEdit.Save | Continuum/Views/Assets/AssetEditView.swift:76-107 | `save()` on the live context leaves the state `Saved` describes |
| AssetEdit.SaveEditsInPlace | Continuum/Views/Assets/AssetEditView.swift:79-95 | editing writes the trimmed name, the picked fields and the parsed value, and stamps `updatedAt` now; identity and `createdAt` stay |
| AssetEdit.SavedEditAsset | Continuum/Views/Assets/AssetEditView.swift:87-95 | logged change or not, the edited asset stands where the asset stood |
| AssetEdit.EditedAssetWritten | Continuum/Views/Assets/AssetEditView.swift:80-85 | the edited asset carries the trimmed name, the picked fields, the parsed value and `updatedAt` now |
| AssetEdit.SaveEditTouchesNoOtherObject | Continuum/Views/Assets/AssetEditView.swift:79-95 | editing inserts no asset, leaves other assets, subscriptions and warranties alone, and keeps every stored change in place |
| AssetEdit.SaveLogsChange | Continuum/Views/Assets/AssetEditView.swift:87-92 | when the value differs, exactly one change from the old value to the new one, dated now, is appended to the asset's history; the changes already stored and every other asset's history stay as they were |
| AssetEdit.SaveLogsNothing | Continuum/Views/Assets/AssetEditView.swift:93-95 | when the value is the same, no change is logged and the value stays |
| AssetEdit.SaveKeepsValueAgreement | Continuum/Views/Assets/AssetEditView.swift:87-95 | after an edit the last logged change ends at the current value, if that held before or a change was logged |
| AssetEdit.SaveCreatesOne | Continuum/Views/Assets/AssetEditView.swift:97-104 | creating appends exactly one asset written from the form, with the next identity and an empty history; no change is logged |
| AssetEdit.SaveValid | Continuum/Views/Assets/AssetEditView.swift:76-105 | saving keeps the store valid; the logged change is linked to a live asset |
| AssetEdit.ReopenSaveOnlyStamps | Continuum/Views/Assets/AssetEditView.swift:62-95 | under the decimal law, reopening an asset whose name is trimmed and saving changes only `updatedAt` and logs nothing |
| WarrantyEdit.BlankFormDefaults | Continuum/Views/Warranties/WarrantyEditView.swift:15-19 | the form starts empty, bought now, expiring one calendar year from now |
| WarrantyEdit.CanSaveIff | Continuum/Views/Warranties/WarrantyEditView.swift:52 | Save is enabled exactly when the product name is not all whitespace |
| WarrantyEdit.Save | Continuum/Views/Warranties/WarrantyEditView.swift:66-84 | `save()` on the live context leaves the state `Saved` describes |
| WarrantyEdit.SaveEditsInPlace | Continuum/Views/Warranties/WarrantyEditView.swift:67-72 | editing writes the trimmed product name and vendor, the dates and the notes; identity and `createdAt` stay |
| WarrantyEdit.SaveEditTouchesNothingElse | Continuum/Views/Warranties/WarrantyEditView.swift:67-72 | editing inserts nothing and leaves every other object as it was |
| WarrantyEdit.SaveCreatesOne | Continuum/Views/Warranties/WarrantyEditView.swift:74-81 | creating appends exactly one warranty written from the form, with the next identity, created now |
| WarrantyEdit.SaveValid | Continuum/Views/Warranties/WarrantyEditView.swift:66-82 | saving keeps the store valid |
| WarrantyEdit.ReopenSaveUnchanged | Continuum/Views/Warranties/WarrantyEditView.swift:55-72 | reopening a warranty whose name and vendor are trimmed and saving leaves the store as it was |
| WarrantyEdit.SaveIdempotent | Continuum/Views/Warranties/WarrantyEditView.swift:67-72 | saving the same form twice over the same warranty is the same as saving it once |
| WarrantyDetail.Classify | Continuum/Views/Warranties/WarrantyDetailView.swift:42-50 | expired exactly when `isExpired`; expiring exactly when not expired with at most 30 days left, never negative; valid exactly otherwise |
| WarrantyDetail.StatusTextCases | Continuum/Views/Warranties/WarrantyDetailView.swift:42-50 | the status reads "Expired", "Expires in N days" or "Valid", each exactly in its own case, so exactly one is shown |
| WarrantyDetail.BadgeTextCases | Continuum/Views/Warranties/WarrantyListView.swift:80-94 | the badge reads "Expired", "Nd left" or "Valid", each exactly in its own case |
| WarrantyDetail.BadgeAgreesWithStatus | Continuum/Views/Items/ItemListView.swift:282-294 | the badges and the detail status agree case by case |
| WarrantyDetail.VendorTextShown | Continuum/Views/Warranties/WarrantyDetailView.swift:18 | the vendor line is never blank: the vendor, or "—" when there is none |
| WarrantyDetail.SavedVendorText | Continuum/Views/Warranties/WarrantyEditView.swift:71 | after a save the dash appears when the typed vendor was only whitespace; otherwise the trimmed vendor is shown |
| Dashboard.SumConcat | Continuum/Views/DashboardView.swift:19-25 | the sum over two parts is the sum of the sums |
| Dashboard.SumSortBy | Continuum/Views/DashboardView.swift:169-171 | sorting changes the order of the terms, not their sum |
| Dashboard.SumInsertBy | Continuum/Views/DashboardView.swift:169-171 | inserting a term into a sorted list adds exactly its value to the sum |
| Dashboard.SumHavingWithout | Continuum/Views/DashboardView.swift:19-21 | splitting by a key splits the sum |
| Dashboard.SumBounds | Continuum/Views/DashboardView.swift:19-25 | with no negative terms the sum is not negative and no term exceeds it |
| Dashboard.MonthlyTotalCoversBothKinds | Continuum/Views/DashboardView.swift:19-21 | the monthly total is the subscriptions' monthly cost plus the recurring expenses' |
| Dashboard.MonthlyTotalBounds | Continuum/Views/DashboardView.swift:19-21 | with no negative amounts the total is not negative and covers each entry's monthly cost |
| Dashboard.MonthlyTotalInsert | Continuum/Views/DashboardView.swift:19-21 | a new entry raises the total by exactly its monthly equivalent |
| Dashboard.TotalAssetsValueConcat | Continuum/Views/DashboardView.swift:23-25 | the total value of two groups of assets is the sum of their totals |
| Dashboard.TotalAssetsValueBounds | Continuum/Views/DashboardView.swift:23-25 | with no negative values the total is not negative and no asset is worth more than it |
| Dashboard.ExpiringWarrantiesExactly | Continuum/Views/DashboardView.swift:27-32 | the list holds exactly the unexpired warranties expiring within 30 days, each as often as stored, earliest expiry first |
| Dashboard.ExpiringWarrantiesCounts | Continuum/Views/DashboardView.swift:29-31 | each qualifying warranty occurs as often as in the store and no other occurs |
| Dashboard.ExpiringWarrantiesDaysLeft | Continuum/Views/DashboardView.swift:27-32 | every listed warranty has between 0 and 30 whole days left |
| Dashboard.UpcomingRenewalsExactly | Continuum/Views/DashboardView.swift:34-39 | the list holds exactly the entries due within 30 days, each as often as stored, earliest due date first |
| Dashboard.UpcomingRenewalsCounts | Continuum/Views/DashboardView.swift:36-38 | each qualifying entry occurs as often as in the store and no other occurs |
| Dashboard.UpcomingRenewalsIncludePastDue | Continuum/Views/DashboardView.swift:37 | every past-due entry is among the upcoming renewals |
| Dashboard.SubscriptionCountCases | Continuum/Views/DashboardView.swift:63 | the count and the recurring expenses make up all entries; the count is all of them, or zero, exactly when every entry, or none, is a subscription |
| Dashboard.ShownComeFirst | Continuum/Views/DashboardView.swift:80 | of a sorted list the first min(5, n) rows are shown, and none is later than a row left out |
| Dashboard.ShownRenewalsDueSoonest | Continuum/Views/DashboardView.swift:80 | at most five renewals are shown, and they are the ones due soonest |
| Dashboard.ShownWarrantiesExpireSoonest | Continuum/Views/DashboardView.swift:107 | at most five warranties are shown, and they are the ones expiring soonest |
| Dashboard.SortedByMonthlyOrder | Continuum/Views/DashboardView.swift:169-171 | the breakdown is a permutation of the entries, by descending monthly cost |
| Dashboard.BreakdownAddsUpToTotal | Continuum/Views/DashboardView.swift:137-139 | the breakdown's rows add up to the total shown beneath them |
| Dashboard.ExpiringRowLabelAsWrittenMislabels | Continuum/Views/DashboardView.swift:117-125 | as written, a listed warranty expiring in one hour is not expired, yet its row says "Expired" |
| Dashboard.ExpiringRowLabelMatchesBadge | Continuum/Views/DashboardView.swift:117-125 | with the badge rule, no listed warranty reads "Expired"; each shows its 0 to 30 days left, as its list badge does |

## Left out

- The SwiftUI layer (layouts, navigation, sheets, `dismiss()`, colours, haptics) and the calendar screen are not modelled. They only present the values modelled here.
- JSON bytes, ISO-8601 dates, the file exporter and importer, and the export time's encoding are not modelled. The model works on the decoded records. The settings screen that drives backup and restore is not part of this model.
- `try`, fetch failures and `modelContext.save()` are not modelled: every fetch and save is taken to succeed. The SwiftData store has no other effect here.
- `importInto` does not check the snapshot's `version`. The model does not check it either.
- `formatCurrency` and the locale are not modelled. Totals are exact sums.
- Foundation.Decimal: modelled as an exact number, without Swift's 38-digit rounding.
- Foundation.DecimalFormat: decimal parsing and printing are not interpreted.
- The round trips through decimal text require `ParsesOwnOutput`: printed decimal text parses back to the same decimal. This law is assumed of `Decimal(string:)`, not proved.
- Subscriptions.NextDueDateFrom: month and year addition are left to the uninterpreted `Calendar`. Only the failure fallback and the 7- and 14-day cases are stated.
- Warranties.DaysUntilExpiry: counts whole 86400-second days, rounded toward zero, as `dateComponents([.day], from:to:)` counts elapsed days. Daylight-saving transitions and time zones are not modelled.
- AssetValueChanges.ChangeRatio: `changePercent` converts to `Double`, and that conversion is not modelled. The model keeps the exact ratio.
- Sorting.SortBy: an insertion sort on the key. Proved: it returns a permutation, sorted by the key, and a sequence already in key order comes back unchanged.
  - SwiftData's order for equal `createdAt` values is unspecified, and so is the order `sorted(by:)` gives equal keys on the dashboard. The model takes insertion order in both cases.
  - The round-trip lemmas rest on that last fact. They are proved for this sort only.
- InsertSubscription, InsertAsset, InsertChange, InsertWarranty (Store.ModelContext): the persistent identity that SwiftData assigns inside `insert` is modelled as a field of the object, which the caller fills with the context's next unused identity.
- Store.StoreState: a relationship array is modelled as the changes linked to the asset, in store order.
  - AssetEdit.Save: the source sets `change.asset = a` and also appends to `a.valueChanges`. The model records the single link, so the change appears once in the history.
- AssetEdit.Saved: the object the editor was opened on is given by its identity and must be in the store (`Editable`). The same holds for SubscriptionEdit.Saved and WarrantyEdit.Saved. In the app a live object is passed that SwiftUI obtained from the store.
- Dashboard.ThirtyDaysFromNow: day addition cannot fail here, so the `?? Date()` fallback is not modelled.

## Findings

| source | as written | input that shows it | evidently intended | confidence | as-written member | corrected member |
|---|---|---|---|---|---|---|
| Continuum/Views/DashboardView.swift:117-125 | an expiring-soon row shows "Nd left" only while `daysUntilExpiry > 0`, and "Expired" otherwise | a warranty whose expiry is one hour after now: it passes the list's not-expired filter, but has 0 whole days left | show "0d left" for a warranty that is not expired, as the list badges do (Continuum/Views/Warranties/WarrantyListView.swift:80-94); no warranty in this list is expired | medium, not executed | Dashboard.ExpiringRowLabelAsWrittenMislabels | Dashboard.ExpiringRowLabelMatchesBadge |
