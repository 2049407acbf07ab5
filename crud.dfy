/** How stale a tracked job application is (backend/crud.py,
    `get_job_staleness`). Dates are day numbers, so the difference of two
    dates is a number of days; "today" is a parameter. */
module Crud {
  import opened Text

  /** The two dates of a job the computation looks at. */
  datatype JobDates = JobDates(lastUpdate: Option<int>, applicationDate: Option<int>)

  /** `days_since_update` (absent when the job has no date) and `staleness_level`. */
  datatype Staleness = Staleness(daysSinceUpdate: Option<int>, level: string)

  /** The colour for a number of days: under a week green, under two yellow,
      under three orange, otherwise red. */
  function LevelFor(days: int): string {
    if days < 7 then "green" else if days < 14 then "yellow" else if days < 21 then "orange" else "red"
  }

  /** `last_update or application_date`. */
  function ReferenceDate(job: JobDates): Option<int> {
    if job.lastUpdate.Some? then job.lastUpdate else job.applicationDate
  }

  function JobStaleness(job: JobDates, today: int): (r: Staleness)
    ensures r.daysSinceUpdate.None? <==> job.lastUpdate.None? && job.applicationDate.None?
    ensures r.level == "gray" <==> r.daysSinceUpdate.None?
    ensures job.lastUpdate.Some? ==> r.daysSinceUpdate == Some(today - job.lastUpdate.value)
    ensures job.lastUpdate.None? && job.applicationDate.Some? ==>
              r.daysSinceUpdate == Some(today - job.applicationDate.value)
    ensures r.daysSinceUpdate.Some? ==> r.level == LevelFor(r.daysSinceUpdate.value)
  {
    match ReferenceDate(job)
    case None => Staleness(None, "gray")
    case Some(reference) =>
      var days := today - reference;
      Staleness(Some(days), LevelFor(days))
  }

  /** The colours in order of urgency. */
  function Urgency(level: string): nat {
    if level == "green" then 0 else if level == "yellow" then 1 else if level == "orange" then 2 else 3
  }

  /** Each colour covers exactly its band of days. */
  lemma LevelBands(days: int)
    ensures LevelFor(days) == "green" <==> days < 7
    ensures LevelFor(days) == "yellow" <==> 7 <= days < 14
    ensures LevelFor(days) == "orange" <==> 14 <= days < 21
    ensures LevelFor(days) == "red" <==> 21 <= days
  {
  }

  /** More days since the last activity never make a job look fresher. */
  lemma LevelMonotone(d1: int, d2: int)
    requires d1 <= d2
    ensures Urgency(LevelFor(d1)) <= Urgency(LevelFor(d2))
  {
  }

  /** Waiting longer with the same reference date never lowers the urgency. */
  lemma StalenessGrowsWithTime(job: JobDates, today: int, later: int)
    requires today <= later && ReferenceDate(job).Some?
    ensures Urgency(JobStaleness(job, today).level) <= Urgency(JobStaleness(job, later).level)
  {
    LevelMonotone(today - ReferenceDate(job).value, later - ReferenceDate(job).value);
  }

  /** A reference date in the future gives a negative day count, which is green. */
  lemma FutureReferenceIsGreen(job: JobDates, today: int)
    requires ReferenceDate(job).Some? && ReferenceDate(job).value > today
    ensures JobStaleness(job, today).level == "green"
    ensures JobStaleness(job, today).daysSinceUpdate.value < 0
  {
  }
}
