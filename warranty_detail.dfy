/** Continuum/Views/Warranties/WarrantyDetailView.swift: the status line and the vendor line of the
    warranty detail screen, and the status badge the warranty lists show with the same three-way rule. */
module WarrantyDetail {
  import opened Foundation
  import opened Text
  import opened Keyed
  import opened Warranties
  import opened WarrantyEdit
  import opened Store

  /** The three-way classification shared by the detail screen and the list badges. */
  datatype Status = StatusExpired | StatusExpiring(days: int) | StatusValid

  /** Expired first; otherwise expiring when at most 30 whole days are left (30 included); else valid.
      An expiring warranty never shows a negative number of days. */
  function Classify(w: Warranty, now: Date): (st: Status)
    ensures st.StatusExpired? <==> IsExpired(w, now)
    ensures st.StatusExpiring? <==> !IsExpired(w, now) && DaysUntilExpiry(w, now) <= 30
    ensures st.StatusValid? <==> !IsExpired(w, now) && DaysUntilExpiry(w, now) > 30
    ensures st.StatusExpiring? ==> st.days == DaysUntilExpiry(w, now) && 0 <= st.days <= 30
  {
    if IsExpired(w, now) then StatusExpired
    else if DaysUntilExpiry(w, now) <= 30 then StatusExpiring(DaysUntilExpiry(w, now))
    else StatusValid
  }

  /** `statusText` of the detail screen. */
  function StatusText(w: Warranty, now: Date): string {
    match Classify(w, now)
    case StatusExpired => "Expired"
    case StatusExpiring(days) => "Expires in " + IntToString(days) + " days"
    case StatusValid => "Valid"
  }

  /** The status reads "Expired" exactly when the warranty is expired, "Expires in N days" with N the
      days left exactly when it is not expired and at most 30 days are left, and "Valid" exactly
      otherwise; the three texts differ, so exactly one of them is shown. */
  lemma StatusTextCases(w: Warranty, now: Date)
    ensures var r, d := StatusText(w, now), DaysUntilExpiry(w, now);
      && (r == "Expired" <==> IsExpired(w, now))
      && (r == "Expires in " + IntToString(d) + " days" <==> !IsExpired(w, now) && d <= 30)
      && (r == "Valid" <==> !IsExpired(w, now) && d > 30)
  {
    var d := DaysUntilExpiry(w, now);
    var soon := "Expires in " + IntToString(d) + " days";
    assert soon[6] == 's' && soon[0] == 'E';
    assert soon != "Expired" && soon != "Valid";
  }

  /** `statusBadge` of the warranty list and of the warranty rows of the item list. */
  function BadgeText(w: Warranty, now: Date): string {
    match Classify(w, now)
    case StatusExpired => "Expired"
    case StatusExpiring(days) => IntToString(days) + "d left"
    case StatusValid => "Valid"
  }

  lemma BadgeTextCases(w: Warranty, now: Date)
    ensures var r, d := BadgeText(w, now), DaysUntilExpiry(w, now);
      && (r == "Expired" <==> IsExpired(w, now))
      && (r == IntToString(d) + "d left" <==> !IsExpired(w, now) && d <= 30)
      && (r == "Valid" <==> !IsExpired(w, now) && d > 30)
  {
    var d := DaysUntilExpiry(w, now);
    var left := IntToString(d) + "d left";
    assert left[|left| - 1] == 't';
    assert left != "Expired" && left != "Valid";
  }

  /** The badges and the detail screen agree: a warranty is badged expired, or valid, exactly when its
      detail screen says so, and otherwise both show the same number of days. */
  lemma BadgeAgreesWithStatus(w: Warranty, now: Date)
    ensures BadgeText(w, now) == "Expired" <==> StatusText(w, now) == "Expired"
    ensures BadgeText(w, now) == "Valid" <==> StatusText(w, now) == "Valid"
    ensures BadgeText(w, now) == IntToString(DaysUntilExpiry(w, now)) + "d left"
        <==> StatusText(w, now) == "Expires in " + IntToString(DaysUntilExpiry(w, now)) + " days"
  {
    StatusTextCases(w, now);
    BadgeTextCases(w, now);
  }

  /** The vendor line: an empty vendor is shown as an em dash. */
  function VendorText(w: Warranty): string {
    if w.vendor == [] then "—" else w.vendor
  }

  /** The vendor line is never blank: it is the vendor, or the dash when there is none. */
  lemma VendorTextShown(w: Warranty)
    ensures var r := VendorText(w);
      r != [] && (w.vendor != [] ==> r == w.vendor) && (w.vendor == [] ==> r == "—")
  {
  }

  /** For a warranty saved from the editor the vendor is stored trimmed, so the dash appears whenever
      the typed vendor held only whitespace, and otherwise the trimmed vendor is shown. */
  lemma SavedVendorText(st: StoreState, editing: Option<PersistentId>, f: WarrantyForm, now: Date)
    requires Editable(st, editing)
    ensures var r := Saved(st, editing, f, now);
      var k := if editing.Some? then IndexOf(st.warranties, WarrantyId, editing.value).value else |st.warranties|;
      k < |r.warranties|
      && (AllWhitespace(f.vendor) ==> VendorText(r.warranties[k]) == "—")
      && (!AllWhitespace(f.vendor) ==> VendorText(r.warranties[k]) == Trim(f.vendor))
  {
    TrimEmptyIff(f.vendor);
    match editing
    case Some(id) => SaveEditsInPlace(st, id, f, now);
    case None => SaveCreatesOne(st, f, now);
  }
}
