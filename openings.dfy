/** Job openings: the duration clamp and the two opening generators (SelectionDataSimulation.py:34-37, 51-67). */
module Openings {
  import opened Wrappers
  import opened CharLists
  import opened Dates
  import opened OrgStructure

  /** Stands for the base64 uuid string of `new_uuid`: any supply of fresh, distinct values will do. */
  type OpeningId = nat

  /** The 0/1 `filled` column. */
  type Flag = x: int | 0 <= x <= 1

  /** An opening row: [open_id, post_date, branch, department, filled, fill_date, duration]. */
  datatype Opening = Opening(
    id: OpeningId,
    postDate: Day,
    branch: CodePoint,
    department: string,
    filled: Flag,
    fillDate: Option<Day>,
    duration: nat)

  /** The date invariants of an opening generated on day `today`. */
  predicate ValidOpening(o: Opening, today: Day)
  {
    (o.filled == 1 <==> o.fillDate.Some?)
    && (o.filled == 0 ==> o.postDate == today - o.duration)
    && (o.filled == 1 ==>
          o.fillDate.value == o.postDate + o.duration
          && today - o.duration - RANGE_OF_DATA_YRS * 365 <= o.postDate <= today - o.duration - 1)
  }

  /** `new_opening_duration` once the rounded normal draw is `sample`: the draw clamped below at 0. */
  function NewOpeningDuration(sample: int): (d: nat)
    ensures d >= sample
    ensures d == sample || d == 0
  {
    if sample < 0 then 0 else sample
  }

  /** `generate_unfilled_opening`: a role still open, posted `duration` days before today. */
  function GenerateUnfilledOpening(id: OpeningId, brn: Branch, dpt: Department, today: Day, durationSample: int): (o: Opening)
    ensures ValidOpening(o, today) && o.filled == 0 && o.fillDate == None
    ensures o.postDate == today - o.duration && o.duration == NewOpeningDuration(durationSample)
    ensures o.id == id && o.branch == brn.id && o.department == dpt.name
  {
    var dur := NewOpeningDuration(durationSample);
    var postDate := today + -1 * dur;
    Opening(id, postDate, brn.id, dpt.name, 0, None, dur)
  }

  /**
   * `generate_filled_opening`: a role posted `duration + extraDays` days ago and filled `duration` days after
   * posting, so at least one day before today; `extraDays` is the draw `randint(1, RANGE_OF_DATA_YRS * 365)`.
   */
  function GenerateFilledOpening(id: OpeningId, brn: Branch, dpt: Department, today: Day, durationSample: int, extraDays: int): (o: Opening)
    requires 1 <= extraDays <= RANGE_OF_DATA_YRS * 365
    ensures ValidOpening(o, today) && o.filled == 1
    ensures o.postDate == today - (o.duration + extraDays) && o.duration == NewOpeningDuration(durationSample)
    ensures o.fillDate.Some? && o.fillDate.value - o.postDate == o.duration && o.fillDate.value <= today - 1
    ensures o.id == id && o.branch == brn.id && o.department == dpt.name
  {
    var dur := NewOpeningDuration(durationSample);
    var daysAgo := dur + extraDays;
    var postDate := today + -1 * daysAgo;
    var fillDate := postDate + dur;
    Opening(id, postDate, brn.id, dpt.name, 1, Some(fillDate), dur)
  }
}
