/** Option, the stand-ins for Foundation's Date, Calendar and Decimal, and object identity. */
module Foundation {

  datatype Option<T> = None | Some(value: T) {
    /** Swift's `x ?? default`. */
    function GetOr(default: T): T {
      if Some? then value else default
    }
  }

  /** A point in time, in whole seconds from a fixed reference date. */
  type Date = int

  /** The length of a day, used for the fixed day additions (+7, +14, +30 days). */
  const SecondsPerDay: int := 86400

  /** `Calendar.current.date(byAdding: .day, value: n, to: d)`, with days of fixed length. */
  function AddingDays(n: int, d: Date): Date {
    d + n * SecondsPerDay
  }

  /** Month and year addition of `Calendar.current`, left uninterpreted. Each may fail (`nil`). */
  datatype Calendar = Calendar(
    addingMonths: (int, Date) -> Option<Date>,
    addingYears: (int, Date) -> Option<Date>)

  /** Swift's `Decimal`, as an exact number: its 38-digit rounding is not modelled. */
  type Decimal = real

  /** `Decimal(string:)` and the string interpolation `"\(d)"`, left uninterpreted. */
  datatype DecimalFormat = DecimalFormat(
    parse: string -> Option<Decimal>,
    describe: Decimal -> string)

  /** The law the round trips rely on: a described decimal parses back to itself. It is assumed, not proved. */
  ghost predicate ParsesOwnOutput(f: DecimalFormat) {
    forall d :: f.parse(f.describe(d)) == Some(d)
  }

  /** `Decimal(string: s) ?? 0`: text that does not parse becomes zero. */
  function ParseOrZero(f: DecimalFormat, s: string): (d: Decimal)
    ensures f.parse(s).None? ==> d == 0.0
    ensures f.parse(s).Some? ==> d == f.parse(s).value
  {
    f.parse(s).GetOr(0.0)
  }

  /** The persistent identifier SwiftData gives an object when it is inserted. */
  type PersistentId = nat
}
