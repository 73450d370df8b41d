/** Continuum/Models/PersonalAsset.swift: an owned item and its current value. Its `valueChanges`
    relationship is the inverse of `AssetValueChange.asset` and is kept by the store (see Store.History). */
module PersonalAssets {
  import opened Foundation

  datatype AssetCategory = Electronics | Vehicle | Property | Jewelry | Collectibles | Furniture | Other {
    function RawValue(): string {
      match this
      case Electronics => "Electronics"
      case Vehicle => "Vehicle"
      case Property => "Property"
      case Jewelry => "Jewelry"
      case Collectibles => "Collectibles"
      case Furniture => "Furniture"
      case Other => "Other"
    }
  }

  /** `AssetCategory(rawValue:)`. */
  function AssetCategoryFromRaw(s: string): (r: Option<AssetCategory>)
    ensures r.Some? ==> r.value.RawValue() == s
    ensures r.None? ==> forall c: AssetCategory :: c.RawValue() != s
  {
    if s == "Electronics" then Some(Electronics)
    else if s == "Vehicle" then Some(Vehicle)
    else if s == "Property" then Some(Property)
    else if s == "Jewelry" then Some(Jewelry)
    else if s == "Collectibles" then Some(Collectibles)
    else if s == "Furniture" then Some(Furniture)
    else if s == "Other" then Some(Other)
    else None
  }

  /** The seven raw strings are pairwise distinct: lookup by raw value inverts RawValue. */
  lemma AssetCategoryRawValueInverse(c: AssetCategory, d: AssetCategory)
    ensures AssetCategoryFromRaw(c.RawValue()) == Some(c)
    ensures c.RawValue() == d.RawValue() ==> c == d
  {
  }

  datatype PersonalAsset = PersonalAsset(
    id: PersistentId,
    name: string,
    currentValue: Decimal,
    purchaseDate: Option<Date>,
    category: AssetCategory,
    notes: string,
    createdAt: Date,
    updatedAt: Date)

  /** `PersonalAsset.init`: the fields as given; createdAt and updatedAt are both the construction time. */
  function NewPersonalAsset(
    id: PersistentId, name: string, currentValue: Decimal, purchaseDate: Option<Date>,
    category: AssetCategory, notes: string, now: Date): PersonalAsset
  {
    PersonalAsset(id, name, currentValue, purchaseDate, category, notes, now, now)
  }

  /** `PersonalAsset()` with every default argument. */
  function DefaultPersonalAsset(id: PersistentId, now: Date): PersonalAsset {
    NewPersonalAsset(id, "", 0.0, None, Other, "", now)
  }

  lemma PersonalAssetInitDefaults(id: PersistentId, now: Date)
    ensures var a := DefaultPersonalAsset(id, now);
      a.name == "" && a.currentValue == 0.0 && a.purchaseDate == None && a.category == Other
      && a.notes == "" && a.createdAt == now && a.updatedAt == now
  {
  }
}
