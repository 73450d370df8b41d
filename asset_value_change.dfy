/** Continuum/Models/AssetValueChange.swift: one recorded transition of an asset's value. */
module AssetValueChanges {
  import opened Foundation

  datatype AssetValueChange = AssetValueChange(
    id: PersistentId,
    date: Date,
    previousValue: Decimal,
    newValue: Decimal,
    note: Option<string>,
    asset: Option<PersistentId>)  // the owning asset, by identity

  /** `AssetValueChange.init`: dated now, and not yet linked to an asset. */
  function NewAssetValueChange(
    id: PersistentId, previousValue: Decimal, newValue: Decimal, note: Option<string>, now: Date): AssetValueChange
  {
    AssetValueChange(id, now, previousValue, newValue, note, None)
  }

  lemma AssetValueChangeInitDefaults(id: PersistentId, previousValue: Decimal, newValue: Decimal, now: Date)
    ensures var c := NewAssetValueChange(id, previousValue, newValue, None, now);
      c.date == now && c.note == None && c.asset == None
      && c.previousValue == previousValue && c.newValue == newValue
  {
  }

  /** `changeAmount`: what has to be added to the previous value to reach the new one. */
  function ChangeAmount(c: AssetValueChange): (r: Decimal)
    ensures c.previousValue + r == c.newValue
    ensures r == 0.0 <==> c.newValue == c.previousValue
    ensures r > 0.0 <==> c.newValue > c.previousValue
  {
    c.newValue - c.previousValue
  }

  /** The decimal ratio behind `changePercent`: absent exactly when the previous value is zero,
      otherwise the factor that scales the previous value to the change amount. */
  function ChangeRatio(c: AssetValueChange): (r: Option<Decimal>)
    ensures r.None? <==> c.previousValue == 0.0
    ensures r.Some? ==> r.value * c.previousValue == ChangeAmount(c)
  {
    if c.previousValue == 0.0 then None else Some((c.newValue - c.previousValue) / c.previousValue)
  }
}
