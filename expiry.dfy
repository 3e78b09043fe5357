/** `calculateExpiryDate`: the listing duration an owner picks, turned into an offset from the creation time. */
module Expiry {

  /** A calendar offset; months are kept symbolic (no day-of-month rollover is modelled). */
  datatype Offset = Days(n: nat) | Months(n: nat)

  /** The stored `expiryDate`: the instant `from` moved forward by `after`. */
  datatype ExpiryDate = ExpiryDate(from: int, after: Offset)

  /** The duration names the switch recognises. */
  const KnownDurations: set<string> := {"1day", "1week", "1month", "2months", "3months"}

  /** The offsets those names stand for. */
  const KnownOffsets: set<Offset> := {Days(1), Days(7), Months(1), Months(2), Months(3)}

  /** The switch: each known name adds its offset; anything else (the default branch) adds one month. */
  function DurationOffset(duration: string): (r: Offset)
    ensures r in KnownOffsets
    ensures duration !in KnownDurations ==> r == Months(1)
  {
    match duration
    case "1day" => Days(1)
    case "1week" => Days(7)
    case "1month" => Months(1)
    case "2months" => Months(2)
    case "3months" => Months(3)
    case _ => Months(1)
  }

  /** The name of each offset the switch produces: the inverse of `DurationOffset` on known names. */
  function DurationName(o: Offset): (name: string)
    requires o in KnownOffsets
    ensures name in KnownDurations
  {
    match o
    case Days(n) => if n == 1 then "1day" else "1week"
    case Months(n) => if n == 1 then "1month" else if n == 2 then "2months" else "3months"
  }

  /** Every known name maps to an offset that maps back to it: distinct names give distinct expiries. */
  lemma DurationRoundTrip(duration: string)
    requires duration in KnownDurations
    ensures DurationName(DurationOffset(duration)) == duration
  {
  }

  /** Every offset the switch produces is reached from exactly its own name. */
  lemma OffsetRoundTrip(o: Offset)
    requires o in KnownOffsets
    ensures DurationOffset(DurationName(o)) == o
  {
  }

  /** `calculateExpiryDate(duration)` evaluated at the instant `now`. */
  function CalculateExpiryDate(duration: string, now: int): (r: ExpiryDate)
    ensures r.from == now && r.after in KnownOffsets
    ensures duration !in KnownDurations ==> r.after == Months(1)
  {
    ExpiryDate(now, DurationOffset(duration))
  }
}
