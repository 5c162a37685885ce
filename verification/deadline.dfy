/**
 * Deadline classification of AssignmentsList: whether an assignment is overdue,
 * approaching its deadline, or on track, and the card styling derived from it.
 * Timestamps are integer milliseconds; the component's two `new Date()` calls
 * are one `now` parameter.
 */
module Deadline {

  /** Milliseconds in a day, `1000 * 60 * 60 * 24`. */
  const DayMs: int := 86_400_000

  /** `Math.ceil(diffTime / DayMs)` with `diffTime = due - now`: the least whole
      number of days that covers the time left. */
  function DiffDays(due: int, now: int): (days: int)
    ensures DayMs * (days - 1) < due - now <= DayMs * days
  {
    -((now - due) / DayMs)
  }

  /** `isPastDeadline`: the deadline lies strictly before now, so a deadline
      at exactly now is not past, and a past one is at most zero days away. */
  function IsPastDeadline(due: int, now: int): (overdue: bool)
    ensures overdue <==> due - now < 0
    ensures overdue ==> DiffDays(due, now) <= 0
  {
    due < now
  }

  /** `isApproachingDeadline`: the rounded-up day count lies in 0..3. Because of
      the rounding up, this also holds for a deadline missed by less than a day. */
  function IsApproachingDeadline(due: int, now: int): (approaching: bool)
    ensures approaching <==> -DayMs < due - now <= 3 * DayMs
  {
    var days := DiffDays(due, now);
    days <= 3 && days >= 0
  }

  datatype Status = Overdue | Approaching | OnTrack {
    /** Position along the time axis: later deadlines never have a smaller rank. */
    function Rank(): nat {
      match this
      case Overdue => 0
      case Approaching => 1
      case OnTrack => 2
    }
  }

  /** The render's precedence: overdue first, then approaching, else on track. */
  function Classify(due: int, now: int): (s: Status)
    ensures s == Overdue <==> due < now
    ensures s == Approaching <==> 0 <= due - now <= 3 * DayMs
    ensures s == OnTrack <==> 3 * DayMs < due - now
  {
    if IsPastDeadline(due, now) then Overdue
    else if IsApproachingDeadline(due, now) then Approaching
    else OnTrack
  }

  /** What an assignment card shows that depends on the deadline: the border
      colour, the top stripe, the badge colours, the badge text, and the style
      of the due-date line. */
  datatype CardStyle = CardStyle(
    border: string,
    stripe: string,
    badge: string,
    text: string,
    dateText: string)

  /** The five attributes as the render computes them: each one its own
      conditional over the two flags. */
  function CardStyleOf(isOverdue: bool, isApproaching: bool): CardStyle {
    CardStyle(
      border := if isOverdue then "border-red-300" else if isApproaching then "border-yellow-300" else "border-gray-200",
      stripe := if isOverdue then "bg-red-600" else if isApproaching then "bg-yellow-500" else "bg-purple-600",
      badge := if isOverdue then "bg-red-100 text-red-800"
               else if isApproaching then "bg-yellow-100 text-yellow-800"
               else "bg-green-100 text-green-800",
      text := if isOverdue then "Vencida" else if isApproaching then "Próxima a vencer" else "En plazo",
      dateText := if isOverdue then "text-red-600 font-medium" else "text-gray-600")
  }

  /** One consistent style per status: the reference the card is checked against. */
  function Palette(s: Status): CardStyle {
    match s
    case Overdue =>
      CardStyle("border-red-300", "bg-red-600", "bg-red-100 text-red-800", "Vencida", "text-red-600 font-medium")
    case Approaching =>
      CardStyle("border-yellow-300", "bg-yellow-500", "bg-yellow-100 text-yellow-800", "Próxima a vencer", "text-gray-600")
    case OnTrack =>
      CardStyle("border-gray-200", "bg-purple-600", "bg-green-100 text-green-800", "En plazo", "text-gray-600")
  }

  /** The deadline-dependent part of one assignment card. All five attributes
      follow one status, and the badge text is exactly one of three. */
  function Card(due: int, now: int): (c: CardStyle)
    ensures c == Palette(Classify(due, now))
    ensures c.text == "Vencida" <==> due < now
    ensures c.text == "Próxima a vencer" <==> 0 <= due - now <= 3 * DayMs
    ensures c.text == "En plazo" <==> 3 * DayMs < due - now
    ensures c.dateText == "text-red-600 font-medium" <==> due < now
  {
    CardStyleOf(IsPastDeadline(due, now), IsApproachingDeadline(due, now))
  }

  /** A deadline exactly at `now` is not overdue: it is approaching. */
  lemma DueNowIsApproaching(now: int)
    ensures !IsPastDeadline(now, now)
    ensures Classify(now, now) == Approaching
    ensures Card(now, now).text == "Próxima a vencer"
  {
  }

  /** A deadline missed by less than a day still satisfies `isApproachingDeadline`,
      but the overdue test takes precedence, so the card says "Vencida". */
  lemma LateByLessThanADay(due: int, now: int)
    requires now - DayMs < due < now
    ensures IsApproachingDeadline(due, now)
    ensures Classify(due, now) == Overdue
    ensures Card(due, now).text == "Vencida"
  {
  }

  /** A deadline missed by a whole day or more is no longer approaching. */
  lemma LateByADayOrMore(due: int, now: int)
    requires due <= now - DayMs
    ensures !IsApproachingDeadline(due, now)
  {
  }

  /** For a fixed now, moving a deadline later never moves its card back from
      "En plazo" to "Próxima a vencer" or from "Próxima a vencer" to "Vencida". */
  lemma ClassifyMonotone(due1: int, due2: int, now: int)
    requires due1 <= due2
    ensures Classify(due1, now).Rank() <= Classify(due2, now).Rank()
  {
  }

  /** Sample deadlines: two days ahead, an hour ago, ten days ahead. */
  lemma ClassifyExamples(now: int)
    ensures Card(now + 2 * DayMs, now).text == "Próxima a vencer"
    ensures Card(now - 3_600_000, now).text == "Vencida"
    ensures Card(now + 10 * DayMs, now).text == "En plazo"
  {
  }
}
