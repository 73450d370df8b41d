/** Continuum/Views/DashboardView.swift: the summary figures, the two "next 30 days" lists and the
    monthly breakdown sheet of the dashboard, all computed from the store's collections and now. */
module Dashboard {
  import opened Foundation
  import opened Text
  import opened Keyed
  import opened Sorting
  import opened Subscriptions
  import opened PersonalAssets
  import opened Warranties
  import opened WarrantyDetail

  /** `reduce(0) { $0 + f($1) }`: the running sum from the front, one element at a time. */
  function Sum<T>(s: seq<T>, f: T -> Decimal): Decimal {
    if s == [] then 0.0 else Sum(s[..|s| - 1], f) + f(s[|s| - 1])
  }

  lemma {:induction false} SumConcat<T>(s: seq<T>, t: seq<T>, f: T -> Decimal)
    ensures Sum(s + t, f) == Sum(s, f) + Sum(t, f)
  {
    if t == [] {
      assert s + t == s;
    } else {
      var n := |t| - 1;
      assert (s + t)[..|s + t| - 1] == s + t[..n];
      SumConcat(s, t[..n], f);
    }
  }

  lemma SumInsertBy<T>(x: T, s: seq<T>, f: T -> Decimal, key: T -> real)
    ensures Sum(InsertBy(x, s, key), f) == f(x) + Sum(s, f)
    decreases |s|
  {
    assert Sum([x], f) == f(x) by {
      assert [x][..0] == [];
    }
    if s == [] || key(x) <= key(s[0]) {
      SumConcat([x], s, f);
    } else {
      assert Sum([s[0]], f) == f(s[0]) by {
        assert [s[0]][..0] == [];
      }
      SumInsertBy(x, s[1..], f, key);
      SumConcat([s[0]], InsertBy(x, s[1..], key), f);
      SumConcat([s[0]], s[1..], f);
      assert s == [s[0]] + s[1..];
    }
  }

  /** Sorting changes the order of the terms, not their sum. */
  lemma {:induction false} SumSortBy<T>(s: seq<T>, f: T -> Decimal, key: T -> real)
    ensures Sum(SortBy(s, key), f) == Sum(s, f)
  {
    if s != [] {
      SumSortBy(s[1..], f, key);
      SumInsertBy(s[0], SortBy(s[1..], key), f, key);
      assert Sum([s[0]], f) == f(s[0]) by {
        assert [s[0]][..0] == [];
      }
      SumConcat([s[0]], s[1..], f);
      assert s == [s[0]] + s[1..];
    }
  }

  /** Splitting a sequence by a key splits its sum. */
  lemma {:induction false} SumHavingWithout<T(!new), K>(s: seq<T>, f: T -> Decimal, key: T -> K, k: K)
    ensures Sum(s, f) == Sum(Having(s, key, k), f) + Sum(Without(s, key, k), f)
  {
    if s != [] {
      var p, x := s[..|s| - 1], s[|s| - 1];
      SumHavingWithout(p, f, key, k);
      if key(x) == k {
        assert Without(s, key, k) == Without(p, key, k) + [];
        assert Without(p, key, k) + [] == Without(p, key, k);
        assert Having(s, key, k) == Having(p, key, k) + [x];
        assert (Having(p, key, k) + [x])[..|Having(p, key, k)|] == Having(p, key, k);
      } else {
        assert Having(s, key, k) == Having(p, key, k) + [];
        assert Having(p, key, k) + [] == Having(p, key, k);
        assert Without(s, key, k) == Without(p, key, k) + [x];
        assert (Without(p, key, k) + [x])[..|Without(p, key, k)|] == Without(p, key, k);
      }
    }
  }

  /** With no negative terms the sum is not negative, and no single term exceeds it. */
  lemma {:induction false} SumBounds<T>(s: seq<T>, f: T -> Decimal)
    requires forall i :: 0 <= i < |s| ==> f(s[i]) >= 0.0
    ensures Sum(s, f) >= 0.0
    ensures forall i :: 0 <= i < |s| ==> f(s[i]) <= Sum(s, f)
  {
    if s != [] {
      var p := s[..|s| - 1];
      SumBounds(p, f);
      assert forall i :: 0 <= i < |p| ==> p[i] == s[i];
    }
  }

  /** `monthlyRecurringTotal`: the monthly equivalents of every entry, subscriptions and recurring
      expenses alike. */
  function MonthlyRecurringTotal(subs: seq<Subscription>): Decimal {
    Sum(subs, MonthlyEquivalent)
  }

  function CountsAsSubscription(s: Subscription): bool {
    s.isSubscription
  }

  /** The total is the subscriptions' monthly cost plus the recurring expenses' monthly cost. */
  lemma MonthlyTotalCoversBothKinds(subs: seq<Subscription>)
    ensures MonthlyRecurringTotal(subs)
      == Sum(Having(subs, CountsAsSubscription, true), MonthlyEquivalent) + Sum(Without(subs, CountsAsSubscription, true), MonthlyEquivalent)
  {
    SumHavingWithout(subs, MonthlyEquivalent, CountsAsSubscription, true);
  }

  /** With no negative amounts the total is not negative and covers each entry's monthly cost. */
  lemma MonthlyTotalBounds(subs: seq<Subscription>)
    requires forall i :: 0 <= i < |subs| ==> subs[i].amount >= 0.0
    ensures MonthlyRecurringTotal(subs) >= 0.0
    ensures forall i :: 0 <= i < |subs| ==> MonthlyEquivalent(subs[i]) <= MonthlyRecurringTotal(subs)
  {
    SumBounds(subs, MonthlyEquivalent);
  }

  /** Adding one entry raises the total by exactly its monthly equivalent. */
  lemma MonthlyTotalInsert(subs: seq<Subscription>, s: Subscription)
    ensures MonthlyRecurringTotal(subs + [s]) == MonthlyRecurringTotal(subs) + MonthlyEquivalent(s)
  {
    assert (subs + [s])[..|subs|] == subs;
  }

  function AssetValue(a: PersonalAsset): Decimal {
    a.currentValue
  }

  /** `totalAssetsValue`: the current values of every asset. */
  function TotalAssetsValue(assets: seq<PersonalAsset>): Decimal {
    Sum(assets, AssetValue)
  }

  /** The total of two groups of assets is the sum of their totals. */
  lemma TotalAssetsValueConcat(s: seq<PersonalAsset>, t: seq<PersonalAsset>)
    ensures TotalAssetsValue(s + t) == TotalAssetsValue(s) + TotalAssetsValue(t)
  {
    SumConcat(s, t, AssetValue);
  }

  /** With no negative values the total is not negative and no asset is worth more than it. */
  lemma TotalAssetsValueBounds(assets: seq<PersonalAsset>)
    requires forall i :: 0 <= i < |assets| ==> assets[i].currentValue >= 0.0
    ensures TotalAssetsValue(assets) >= 0.0
    ensures forall i :: 0 <= i < |assets| ==> assets[i].currentValue <= TotalAssetsValue(assets)
  {
    SumBounds(assets, AssetValue);
  }

  /** `thirtyDaysFromNow`; day addition never fails here, so the `?? Date()` fallback is not reached. */
  function ThirtyDaysFromNow(now: Date): Date {
    AddingDays(30, now)
  }

  /** The filter of `expiringWarranties`. */
  predicate ExpiringSoon(w: Warranty, now: Date) {
    !IsExpired(w, now) && w.expiryDate <= ThirtyDaysFromNow(now)
  }

  function ExpiringSoonAt(now: Date): Warranty -> bool {
    w => ExpiringSoon(w, now)
  }

  function ExpiryKey(w: Warranty): real {
    w.expiryDate as real
  }

  /** `expiringWarranties`: the filtered warranties sorted by expiry date, earliest first. */
  function ExpiringWarranties(ws: seq<Warranty>, now: Date): seq<Warranty> {
    SortBy(Having(ws, ExpiringSoonAt(now), true), ExpiryKey)
  }

  /** The list holds exactly the warranties that are not expired and expire within 30 days, each as
      often as in the store, earliest expiry first. */
  lemma ExpiringWarrantiesExactly(ws: seq<Warranty>, now: Date)
    ensures var r := ExpiringWarranties(ws, now);
      && (forall w :: w in r <==> w in ws && !IsExpired(w, now) && w.expiryDate <= now + 30 * SecondsPerDay)
      && (forall w :: multiset(r)[w] == if ExpiringSoon(w, now) then multiset(ws)[w] else 0)
      && (forall i, j :: 0 <= i < j < |r| ==> r[i].expiryDate <= r[j].expiryDate)
  {
    ExpiringWarrantiesCounts(ws, now);
    var r := ExpiringWarranties(ws, now);
    forall w
      ensures w in r <==> w in ws && !IsExpired(w, now) && w.expiryDate <= now + 30 * SecondsPerDay
    {
      assert w in r <==> multiset(r)[w] > 0;
      assert w in ws <==> multiset(ws)[w] > 0;
    }
    forall i, j | 0 <= i < j < |r|
      ensures r[i].expiryDate <= r[j].expiryDate
    {
      assert ExpiryKey(r[i]) <= ExpiryKey(r[j]);
    }
  }

  lemma ExpiringWarrantiesCounts(ws: seq<Warranty>, now: Date)
    ensures forall w :: multiset(ExpiringWarranties(ws, now))[w] == if ExpiringSoon(w, now) then multiset(ws)[w] else 0
  {
    HavingMultiset(ws, ExpiringSoonAt(now), true);
  }

  /** Every listed warranty has between 0 and 30 whole days left. */
  lemma ExpiringWarrantiesDaysLeft(ws: seq<Warranty>, now: Date)
    ensures forall w :: w in ExpiringWarranties(ws, now) ==> 0 <= DaysUntilExpiry(w, now) <= 30
  {
    ExpiringWarrantiesExactly(ws, now);
  }

  /** The filter of `upcomingRenewals`: no lower bound, so past-due entries are included. */
  predicate DueSoon(s: Subscription, now: Date) {
    s.nextDueDate <= ThirtyDaysFromNow(now)
  }

  function DueSoonAt(now: Date): Subscription -> bool {
    s => DueSoon(s, now)
  }

  function DueKey(s: Subscription): real {
    s.nextDueDate as real
  }

  /** `upcomingRenewals`: the entries due within 30 days sorted by due date, earliest first. */
  function UpcomingRenewals(subs: seq<Subscription>, now: Date): seq<Subscription> {
    SortBy(Having(subs, DueSoonAt(now), true), DueKey)
  }

  /** The list holds exactly the entries due within 30 days, each as often as in the store, earliest
      due date first. */
  lemma UpcomingRenewalsExactly(subs: seq<Subscription>, now: Date)
    ensures var r := UpcomingRenewals(subs, now);
      && (forall s :: s in r <==> s in subs && s.nextDueDate <= now + 30 * SecondsPerDay)
      && (forall s :: multiset(r)[s] == if DueSoon(s, now) then multiset(subs)[s] else 0)
      && (forall i, j :: 0 <= i < j < |r| ==> r[i].nextDueDate <= r[j].nextDueDate)
  {
    UpcomingRenewalsCounts(subs, now);
    var r := UpcomingRenewals(subs, now);
    forall s
      ensures s in r <==> s in subs && s.nextDueDate <= now + 30 * SecondsPerDay
    {
      assert s in r <==> multiset(r)[s] > 0;
      assert s in subs <==> multiset(subs)[s] > 0;
    }
    forall i, j | 0 <= i < j < |r|
      ensures r[i].nextDueDate <= r[j].nextDueDate
    {
      assert DueKey(r[i]) <= DueKey(r[j]);
    }
  }

  lemma UpcomingRenewalsCounts(subs: seq<Subscription>, now: Date)
    ensures forall s :: multiset(UpcomingRenewals(subs, now))[s] == if DueSoon(s, now) then multiset(subs)[s] else 0
  {
    HavingMultiset(subs, DueSoonAt(now), true);
  }

  /** Every past-due entry is among the upcoming renewals. */
  lemma UpcomingRenewalsIncludePastDue(subs: seq<Subscription>, now: Date)
    ensures forall s :: s in subs && IsPastDue(s, now) ==> s in UpcomingRenewals(subs, now)
  {
    UpcomingRenewalsExactly(subs, now);
  }

  /** The "Subscriptions" card: the number of entries marked as subscriptions. */
  function SubscriptionCount(subs: seq<Subscription>): nat {
    |Having(subs, CountsAsSubscription, true)|
  }

  /** The count plus the recurring expenses make up every entry; it is the number of entries exactly
      when every entry is a subscription, and zero exactly when none is. */
  lemma SubscriptionCountCases(subs: seq<Subscription>)
    ensures SubscriptionCount(subs) + |Without(subs, CountsAsSubscription, true)| == |subs|
    ensures SubscriptionCount(subs) == |subs| <==> forall i :: 0 <= i < |subs| ==> subs[i].isSubscription
    ensures SubscriptionCount(subs) == 0 <==> forall i :: 0 <= i < |subs| ==> !subs[i].isSubscription
  {
    HavingWithoutSplit(subs, CountsAsSubscription, true);
    HavingMembers(subs, CountsAsSubscription, true);
    WithoutMembers(subs, CountsAsSubscription, true);
    if forall i :: 0 <= i < |subs| ==> subs[i].isSubscription {
      HavingAll(subs, CountsAsSubscription, true);
    }
    if forall i :: 0 <= i < |subs| ==> !subs[i].isSubscription {
      HavingNone(subs, CountsAsSubscription, true);
    }
    if SubscriptionCount(subs) == |subs| {
      forall i | 0 <= i < |subs|
        ensures subs[i].isSubscription
      {
        assert subs[i] !in Without(subs, CountsAsSubscription, true);
      }
    }
    if SubscriptionCount(subs) == 0 {
      forall i | 0 <= i < |subs|
        ensures !subs[i].isSubscription
      {
        assert subs[i] !in Having(subs, CountsAsSubscription, true);
      }
    }
  }

  /** `prefix(5)`: the rows the dashboard shows of a list. */
  function Shown<T>(s: seq<T>): seq<T> {
    Prefix(s, 5)
  }

  /** Of a sorted list, the shown rows are the first ones, and none is later than a row left out. */
  lemma ShownComeFirst<T>(s: seq<T>, key: T -> real)
    requires SortedBy(s, key)
    ensures var r := Shown(s);
      && |r| == (if |s| < 5 then |s| else 5) && r == s[..|r|]
      && (forall i, j :: 0 <= i < |r| <= j < |s| ==> key(r[i]) <= key(s[j]))
  {
    var r := Shown(s);
    forall i, j | 0 <= i < |r| <= j < |s|
      ensures key(r[i]) <= key(s[j])
    {
      assert r[i] == s[i];
    }
  }

  /** At most five renewals are shown, and they are the ones due soonest. */
  lemma ShownRenewalsDueSoonest(subs: seq<Subscription>, now: Date)
    ensures var all := UpcomingRenewals(subs, now);
      var r := Shown(all);
      && |r| == (if |all| < 5 then |all| else 5)
      && (forall i :: 0 <= i < |r| ==> r[i] == all[i])
      && (forall i, j :: 0 <= i < |r| <= j < |all| ==> r[i].nextDueDate <= all[j].nextDueDate)
  {
    var all := UpcomingRenewals(subs, now);
    ShownComeFirst(all, DueKey);
    var r := Shown(all);
    forall i, j | 0 <= i < |r| <= j < |all|
      ensures r[i].nextDueDate <= all[j].nextDueDate
    {
      assert DueKey(r[i]) <= DueKey(all[j]);
    }
  }

  /** At most five warranties are shown, and they are the ones expiring soonest. */
  lemma ShownWarrantiesExpireSoonest(ws: seq<Warranty>, now: Date)
    ensures var all := ExpiringWarranties(ws, now);
      var r := Shown(all);
      && |r| == (if |all| < 5 then |all| else 5)
      && (forall i :: 0 <= i < |r| ==> r[i] == all[i])
      && (forall i, j :: 0 <= i < |r| <= j < |all| ==> r[i].expiryDate <= all[j].expiryDate)
  {
    var all := ExpiringWarranties(ws, now);
    ShownComeFirst(all, ExpiryKey);
    var r := Shown(all);
    forall i, j | 0 <= i < |r| <= j < |all|
      ensures r[i].expiryDate <= all[j].expiryDate
    {
      assert ExpiryKey(r[i]) <= ExpiryKey(all[j]);
    }
  }

  /** Descending monthly cost, as an ascending key. */
  function MonthlyDescendingKey(s: Subscription): real {
    -MonthlyEquivalent(s)
  }

  /** `sortedByMonthly`: the breakdown sheet's rows, the most expensive first. */
  function SortedByMonthly(subs: seq<Subscription>): seq<Subscription> {
    SortBy(subs, MonthlyDescendingKey)
  }

  /** The breakdown lists every entry, each as often as in the store, by descending monthly cost. */
  lemma SortedByMonthlyOrder(subs: seq<Subscription>)
    ensures var r := SortedByMonthly(subs);
      && multiset(r) == multiset(subs)
      && (forall i, j :: 0 <= i < j < |r| ==> MonthlyEquivalent(r[i]) >= MonthlyEquivalent(r[j]))
  {
    var r := SortedByMonthly(subs);
    forall i, j | 0 <= i < j < |r|
      ensures MonthlyEquivalent(r[i]) >= MonthlyEquivalent(r[j])
    {
      assert MonthlyDescendingKey(r[i]) <= MonthlyDescendingKey(r[j]);
    }
  }

  /** The rows of the breakdown sheet add up to the total it shows beneath them. */
  lemma BreakdownAddsUpToTotal(subs: seq<Subscription>)
    ensures Sum(SortedByMonthly(subs), MonthlyEquivalent) == MonthlyRecurringTotal(subs)
  {
    SumSortBy(subs, MonthlyEquivalent, MonthlyDescendingKey);
  }

  /** The trailing label of an expiring-soon row, as written: "Nd left" while a whole day is left,
      "Expired" otherwise. */
  function ExpiringRowLabelAsWritten(w: Warranty, now: Date): string {
    if DaysUntilExpiry(w, now) > 0 then IntToString(DaysUntilExpiry(w, now)) + "d left" else "Expired"
  }

  /** A warranty expiring in one hour is listed as expiring soon, is not expired, and yet its row says
      "Expired". */
  lemma ExpiringRowLabelAsWrittenMislabels()
    ensures var now, w := 0, Warranty(0, "", 0, 3600, "", "", 0);
      w in ExpiringWarranties([w], now) && !IsExpired(w, now) && ExpiringRowLabelAsWritten(w, now) == "Expired"
  {
    var w := Warranty(0, "", 0, 3600, "", "", 0);
    ExpiringWarrantiesExactly([w], 0);
  }

  /** The row label with the rule of the list badges: "Expired" only for an expired warranty. */
  function ExpiringRowLabel(w: Warranty, now: Date): string {
    if IsExpired(w, now) then "Expired" else IntToString(DaysUntilExpiry(w, now)) + "d left"
  }

  /** No listed warranty is labelled "Expired": each shows its days left, between 0 and 30, exactly
      as its list badge does. */
  lemma ExpiringRowLabelMatchesBadge(ws: seq<Warranty>, now: Date)
    ensures forall w :: w in ExpiringWarranties(ws, now) ==>
      && ExpiringRowLabel(w, now) != "Expired"
      && ExpiringRowLabel(w, now) == IntToString(DaysUntilExpiry(w, now)) + "d left"
      && 0 <= DaysUntilExpiry(w, now) <= 30
      && ExpiringRowLabel(w, now) == BadgeText(w, now)
  {
    ExpiringWarrantiesExactly(ws, now);
    forall w | w in ExpiringWarranties(ws, now)
      ensures ExpiringRowLabel(w, now) != "Expired" && ExpiringRowLabel(w, now) == BadgeText(w, now)
    {
      var left := IntToString(DaysUntilExpiry(w, now)) + "d left";
      assert left[|left| - 1] == 't';
    }
  }
}
