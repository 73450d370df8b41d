/** Continuum/Models/Warranty.swift: a time-bounded coverage record. */
module Warranties {
  import opened Foundation

  datatype Warranty = Warranty(
    id: PersistentId,
    productName: string,
    purchaseDate: Date,
    expiryDate: Date,
    vendor: string,
    notes: string,
    createdAt: Date)

  /** `Warranty.init`: the fields as given, createdAt the construction time. */
  function NewWarranty(
    id: PersistentId, productName: string, purchaseDate: Date, expiryDate: Date,
    vendor: string, notes: string, now: Date): Warranty
  {
    Warranty(id, productName, purchaseDate, expiryDate, vendor, notes, now)
  }

  /** The default expiry: one calendar year after now, or now when the calendar fails. */
  function OneYearFrom(cal: Calendar, now: Date): Date {
    cal.addingYears(1, now).GetOr(now)
  }

  /** `Warranty()` with every default argument. */
  function DefaultWarranty(id: PersistentId, cal: Calendar, now: Date): Warranty {
    NewWarranty(id, "", now, OneYearFrom(cal, now), "", "", now)
  }

  lemma WarrantyInitDefaults(id: PersistentId, cal: Calendar, now: Date)
    ensures var w := DefaultWarranty(id, cal, now);
      w.productName == "" && w.purchaseDate == now && w.vendor == "" && w.notes == ""
      && w.createdAt == now
      && (cal.addingYears(1, now).Some? ==> w.expiryDate == cal.addingYears(1, now).value)
      && (cal.addingYears(1, now).None? ==> w.expiryDate == now)
  {
  }

  /** `isExpired`: the expiry date lies strictly before now. */
  predicate IsExpired(w: Warranty, now: Date) {
    w.expiryDate < now
  }

  /** Expiry exactly at now is not expired; one second earlier is. */
  lemma ExpiredBoundary(w: Warranty, now: Date)
    ensures !IsExpired(w.(expiryDate := now), now)
    ensures IsExpired(w.(expiryDate := now - 1), now)
  {
  }

  /** `daysUntilExpiry`: the number of whole days from now to the expiry date, counted toward zero,
      as `dateComponents([.day], from: now, to: expiryDate)` does. */
  function DaysUntilExpiry(w: Warranty, now: Date): (r: int)
    ensures var diff := w.expiryDate - now;
      (diff >= 0 ==> 0 <= r * SecondsPerDay <= diff < r * SecondsPerDay + SecondsPerDay)
      && (diff < 0 ==> r * SecondsPerDay - SecondsPerDay < diff <= r * SecondsPerDay <= 0)
    ensures r > 0 <==> w.expiryDate - now >= SecondsPerDay
    ensures r < 0 <==> now - w.expiryDate >= SecondsPerDay
  {
    var diff := w.expiryDate - now;
    if diff >= 0 then diff / SecondsPerDay else -((-diff) / SecondsPerDay)
  }

  /** An expired warranty has no whole day left. */
  lemma ExpiredHasNoDaysLeft(w: Warranty, now: Date)
    requires IsExpired(w, now)
    ensures DaysUntilExpiry(w, now) <= 0
  {
  }

  /** For a fixed now, a later expiry date never has fewer days left. */
  lemma DaysUntilExpiryMonotone(w: Warranty, v: Warranty, now: Date)
    requires w.expiryDate <= v.expiryDate
    ensures DaysUntilExpiry(w, now) <= DaysUntilExpiry(v, now)
  {
    var a, b := DaysUntilExpiry(w, now), DaysUntilExpiry(v, now);
    assert a > b ==> a * SecondsPerDay >= b * SecondsPerDay + SecondsPerDay;
  }
}
