/** Continuum/Models/Subscription.swift: billing cycles, categories and the derived fields of a subscription. */
module Subscriptions {
  import opened Foundation

  datatype BillingCycle = Weekly | Biweekly | Monthly | Quarterly | Yearly {
    /** The enum's raw string, which the backup file stores. */
    function RawValue(): string {
      match this
      case Weekly => "Weekly"
      case Biweekly => "Bi-weekly"
      case Monthly => "Monthly"
      case Quarterly => "Quarterly"
      case Yearly => "Yearly"
    }

    /** How many billing periods fit in one year. */
    function PeriodsPerYear(): nat {
      match this
      case Weekly => 52
      case Biweekly => 26
      case Monthly => 12
      case Quarterly => 4
      case Yearly => 1
    }
  }

  /** `BillingCycle(rawValue:)`: the synthesized failable initializer. */
  function BillingCycleFromRaw(s: string): (r: Option<BillingCycle>)
    ensures r.Some? ==> r.value.RawValue() == s
    ensures r.None? ==> forall c: BillingCycle :: c.RawValue() != s
  {
    if s == "Weekly" then Some(Weekly)
    else if s == "Bi-weekly" then Some(Biweekly)
    else if s == "Monthly" then Some(Monthly)
    else if s == "Quarterly" then Some(Quarterly)
    else if s == "Yearly" then Some(Yearly)
    else None
  }

  /** Looking a cycle up by its raw value gives the cycle back, so the five raw strings are pairwise distinct. */
  lemma BillingCycleRawValueInverse(c: BillingCycle, d: BillingCycle)
    ensures BillingCycleFromRaw(c.RawValue()) == Some(c)
    ensures c.RawValue() == d.RawValue() ==> c == d
  {
  }

  datatype SubscriptionCategory = Streaming | Software | Utilities | Insurance | Rent | Loan | Membership | Other {
    function RawValue(): string {
      match this
      case Streaming => "Streaming"
      case Software => "Software"
      case Utilities => "Utilities"
      case Insurance => "Insurance"
      case Rent => "Rent"
      case Loan => "Loan"
      case Membership => "Membership"
      case Other => "Other"
    }
  }

  /** `SubscriptionCategory(rawValue:)`. */
  function SubscriptionCategoryFromRaw(s: string): (r: Option<SubscriptionCategory>)
    ensures r.Some? ==> r.value.RawValue() == s
    ensures r.None? ==> forall c: SubscriptionCategory :: c.RawValue() != s
  {
    if s == "Streaming" then Some(Streaming)
    else if s == "Software" then Some(Software)
    else if s == "Utilities" then Some(Utilities)
    else if s == "Insurance" then Some(Insurance)
    else if s == "Rent" then Some(Rent)
    else if s == "Loan" then Some(Loan)
    else if s == "Membership" then Some(Membership)
    else if s == "Other" then Some(Other)
    else None
  }

  /** The eight category raw strings are pairwise distinct: lookup by raw value inverts RawValue. */
  lemma SubscriptionCategoryRawValueInverse(c: SubscriptionCategory, d: SubscriptionCategory)
    ensures SubscriptionCategoryFromRaw(c.RawValue()) == Some(c)
    ensures c.RawValue() == d.RawValue() ==> c == d
  {
  }

  /** `BillingCycle.nextDueDateFrom`: day cycles add whole days; month and year cycles go through the
      calendar and keep the date when the calendar fails. */
  function NextDueDateFrom(c: BillingCycle, cal: Calendar, d: Date): (r: Date)
    ensures c == Weekly ==> r == d + 7 * SecondsPerDay
    ensures c == Biweekly ==> r == d + 14 * SecondsPerDay
    ensures (c == Weekly || c == Biweekly) ==> r > d
    ensures c == Monthly ==> r == cal.addingMonths(1, d).GetOr(d)
    ensures c == Quarterly ==> r == cal.addingMonths(3, d).GetOr(d)
    ensures c == Yearly ==> r == cal.addingYears(1, d).GetOr(d)
  {
    match c
    case Weekly => AddingDays(7, d)
    case Biweekly => AddingDays(14, d)
    case Monthly => cal.addingMonths(1, d).GetOr(d)
    case Quarterly => cal.addingMonths(3, d).GetOr(d)
    case Yearly => cal.addingYears(1, d).GetOr(d)
  }

  /** A subscription (isSubscription) or a recurring expense (not isSubscription). */
  datatype Subscription = Subscription(
    id: PersistentId,
    name: string,
    amount: Decimal,
    billingCycle: BillingCycle,
    nextDueDate: Date,
    category: SubscriptionCategory,
    notes: string,
    isSubscription: bool,
    createdAt: Date)

  /** `Subscription.init`: every field as given, and createdAt the construction time. */
  function NewSubscription(
    id: PersistentId, name: string, amount: Decimal, billingCycle: BillingCycle, nextDueDate: Date,
    category: SubscriptionCategory, notes: string, isSubscription: bool, now: Date): Subscription
  {
    Subscription(id, name, amount, billingCycle, nextDueDate, category, notes, isSubscription, now)
  }

  /** `Subscription()` with every default argument. */
  function DefaultSubscription(id: PersistentId, now: Date): Subscription {
    NewSubscription(id, "", 0.0, Monthly, now, Other, "", true, now)
  }

  lemma SubscriptionInitDefaults(id: PersistentId, now: Date)
    ensures var s := DefaultSubscription(id, now);
      s.name == "" && s.amount == 0.0 && s.billingCycle == Monthly && s.nextDueDate == now
      && s.category == Other && s.notes == "" && s.isSubscription && s.createdAt == now
  {
  }

  /** `isPastDue`: the due date lies strictly before now. */
  predicate IsPastDue(s: Subscription, now: Date) {
    s.nextDueDate < now
  }

  /** A due date equal to now is not past due; one second earlier is. */
  lemma PastDueBoundary(s: Subscription, now: Date)
    ensures !IsPastDue(s.(nextDueDate := now), now)
    ensures IsPastDue(s.(nextDueDate := now - 1), now)
  {
  }

  /** `monthlyEquivalent`: the cost of one year of billing periods, spread over twelve months. */
  function MonthlyEquivalent(s: Subscription): (r: Decimal)
    ensures 12.0 * r == s.amount * s.billingCycle.PeriodsPerYear() as real
    ensures s.billingCycle == Monthly ==> r == s.amount
    ensures s.amount >= 0.0 ==> r >= 0.0
  {
    match s.billingCycle
    case Weekly => s.amount * 52.0 / 12.0
    case Biweekly => s.amount * 26.0 / 12.0
    case Monthly => s.amount
    case Quarterly => s.amount / 3.0
    case Yearly => s.amount / 12.0
  }

  /** The monthly equivalent is zero for a zero amount and linear in the amount, for every cycle. */
  lemma MonthlyEquivalentLinear(s: Subscription, a: Decimal, b: Decimal, k: Decimal)
    ensures MonthlyEquivalent(s.(amount := 0.0)) == 0.0
    ensures MonthlyEquivalent(s.(amount := a + b)) == MonthlyEquivalent(s.(amount := a)) + MonthlyEquivalent(s.(amount := b))
    ensures MonthlyEquivalent(s.(amount := k * a)) == k * MonthlyEquivalent(s.(amount := a))
  {
  }
}
