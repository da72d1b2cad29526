/**
 * The interval-overlap test the character view uses to pick which alliance
 * periods to show under a corporation. Bounds are date-time strings or the
 * literal "now".
 *
 * Date-times are modelled abstractly: a `LocalDateTime` is a point on a
 * totally ordered line (an integer count of ticks of local date and time),
 * the ISO offset date-time parser is a parameter that may reject its input,
 * and the UTC clock is a parameter. The model reads it once per call, so
 * every "now" bound of one call stands for the same instant; the source reads
 * the clock afresh for each "now" bound.
 */
module ComparisonService {
  import opened Wrappers

  /** A local date and time, ordered as `java.time.LocalDateTime` orders them. */
  type LocalDateTime = int

  /** What the ISO offset date-time parser reads: the local date-time and its UTC offset. */
  datatype OffsetDateTime = OffsetDateTime(local: LocalDateTime, offsetSeconds: int)

  /** The bound that stands for the current instant. */
  const Now: string := "now"

  /**
   * One bound: "now" is the current UTC time; anything else is parsed as an ISO
   * offset date-time, of which only the local date and time are kept. `None` is
   * the parse exception.
   */
  function ParseDate(time: string, clock: LocalDateTime, iso: string -> Option<OffsetDateTime>): Option<LocalDateTime> {
    if time == Now then Some(clock)
    else match iso(time)
      case Some(odt) => Some(odt.local)
      case None => None
  }

  /** Inclusive-bound overlap of [startA, endA] and [startB, endB]. */
  predicate Overlaps(startA: LocalDateTime, endA: LocalDateTime, startB: LocalDateTime, endB: LocalDateTime) {
    !(startA > endB) && !(endA < startB)
  }

  /**
   * Whether the periods [startA, endA] and [startB, endB] overlap. `None` when
   * any bound fails to parse: the exception escapes and there is no result.
   */
  function IsTimeWithinRange(startA: string, endA: string, startB: string, endB: string,
                             clock: LocalDateTime, iso: string -> Option<OffsetDateTime>): (r: Option<bool>)
    ensures r.Some? <==> forall b :: b in [startA, endA, startB, endB] ==> ParseDate(b, clock, iso).Some?
  {
    var sa := ParseDate(startA, clock, iso);
    var ea := ParseDate(endA, clock, iso);
    var sb := ParseDate(startB, clock, iso);
    var eb := ParseDate(endB, clock, iso);
    if sa.None? || ea.None? || sb.None? || eb.None? then None
    else Some(Overlaps(sa.value, ea.value, sb.value, eb.value))
  }

  /** Whether the instant `t` lies in the period [start, end]. */
  predicate Within(t: LocalDateTime, start: LocalDateTime, end: LocalDateTime) {
    start <= t <= end
  }

  /** Two well-formed periods overlap exactly when some instant lies in both. */
  lemma OverlapsIffCommonInstant(startA: LocalDateTime, endA: LocalDateTime, startB: LocalDateTime, endB: LocalDateTime)
    requires startA <= endA && startB <= endB
    ensures Overlaps(startA, endA, startB, endB) <==>
            exists t :: Within(t, startA, endA) && Within(t, startB, endB)
  {
    if Overlaps(startA, endA, startB, endB) {
      var t := if startA < startB then startB else startA;
      assert Within(t, startA, endA) && Within(t, startB, endB);
    }
  }

  /**
   * On bounds that parse, into periods whose start is not after their end, the
   * answer is whether some instant lies in both periods.
   */
  lemma IsTimeWithinRangeIffCommonInstant(startA: string, endA: string, startB: string, endB: string,
                                          clock: LocalDateTime, iso: string -> Option<OffsetDateTime>)
    requires forall b :: b in [startA, endA, startB, endB] ==> ParseDate(b, clock, iso).Some?
    requires ParseDate(startA, clock, iso).value <= ParseDate(endA, clock, iso).value
    requires ParseDate(startB, clock, iso).value <= ParseDate(endB, clock, iso).value
    ensures IsTimeWithinRange(startA, endA, startB, endB, clock, iso) == Some(true) <==>
            exists t :: Within(t, ParseDate(startA, clock, iso).value, ParseDate(endA, clock, iso).value)
                     && Within(t, ParseDate(startB, clock, iso).value, ParseDate(endB, clock, iso).value)
  {
    OverlapsIffCommonInstant(ParseDate(startA, clock, iso).value, ParseDate(endA, clock, iso).value,
                             ParseDate(startB, clock, iso).value, ParseDate(endB, clock, iso).value);
  }

  /** Swapping the two periods does not change the answer, parse failures included. */
  lemma IsTimeWithinRangeSymmetric(startA: string, endA: string, startB: string, endB: string,
                                   clock: LocalDateTime, iso: string -> Option<OffsetDateTime>)
    ensures IsTimeWithinRange(startA, endA, startB, endB, clock, iso)
         == IsTimeWithinRange(startB, endB, startA, endA, clock, iso)
  {
  }

  /** A period whose bounds parse, start not after end, overlaps itself. */
  lemma IsTimeWithinRangeReflexive(start: string, end: string, clock: LocalDateTime, iso: string -> Option<OffsetDateTime>)
    requires ParseDate(start, clock, iso).Some? && ParseDate(end, clock, iso).Some?
    requires ParseDate(start, clock, iso).value <= ParseDate(end, clock, iso).value
    ensures IsTimeWithinRange(start, end, start, end, clock, iso) == Some(true)
  {
  }

  /** Periods that only touch, the first ending at the instant the second starts, overlap. */
  lemma TouchingPeriodsOverlap(startA: LocalDateTime, endA: LocalDateTime, startB: LocalDateTime, endB: LocalDateTime)
    requires startA <= endA && endA == startB && startB <= endB
    ensures Overlaps(startA, endA, startB, endB)
  {
  }

  /** A bound "now" reads the clock, whatever the parser would make of the string. */
  lemma NowReadsTheClock(clock: LocalDateTime, iso: string -> Option<OffsetDateTime>)
    ensures ParseDate(Now, clock, iso) == Some(clock)
  {
  }

  /** Two bounds with the same local date-time compare alike whatever their offsets. */
  lemma OffsetIsIgnored(s: string, t: string, clock: LocalDateTime, iso: string -> Option<OffsetDateTime>)
    requires s != Now && t != Now
    requires iso(s).Some? && iso(t).Some? && iso(s).value.local == iso(t).value.local
    ensures ParseDate(s, clock, iso) == ParseDate(t, clock, iso)
  {
  }

  /** A bound that is neither "now" nor accepted by the parser leaves the call without a result. */
  lemma MalformedBoundFails(startA: string, endA: string, startB: string, endB: string,
                            clock: LocalDateTime, iso: string -> Option<OffsetDateTime>)
    requires exists b :: b in [startA, endA, startB, endB] && b != Now && iso(b).None?
    ensures IsTimeWithinRange(startA, endA, startB, endB, clock, iso) == None
  {
  }
}
