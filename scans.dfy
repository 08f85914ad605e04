/**
 * What the scripts know about one radar scan once py-ART has read it, the
 * volume/survey classification by pulse-repetition frequency, the sweep
 * merge decision, and the record of one RadxConvert invocation.
 */
module Scans {
  import opened Wrappers

  /** A timezone-naive `datetime`, field by field. */
  datatype Timestamp = Timestamp(year: nat, month: nat, day: nat, hour: nat, minute: nat,
                                 second: nat, microsecond: nat)
  {
    /** The ranges a Python `datetime` admits (day 31 is allowed in every month here). */
    predicate Valid() {
      1 <= year <= 9999 && 1 <= month <= 12 && 1 <= day <= 31 &&
      hour < 24 && minute < 60 && second < 60 && microsecond < 1000000
    }
  }

  /** `a < b` on `datetime` values: field by field, most significant first. */
  predicate Earlier(a: Timestamp, b: Timestamp) {
    if a.year != b.year then a.year < b.year
    else if a.month != b.month then a.month < b.month
    else if a.day != b.day then a.day < b.day
    else if a.hour != b.hour then a.hour < b.hour
    else if a.minute != b.minute then a.minute < b.minute
    else if a.second != b.second then a.second < b.second
    else a.microsecond < b.microsecond
  }

  /** `a < b` once both are truncated to the minute. */
  predicate MinuteEarlier(a: Timestamp, b: Timestamp) {
    if a.year != b.year then a.year < b.year
    else if a.month != b.month then a.month < b.month
    else if a.day != b.day then a.day < b.day
    else if a.hour != b.hour then a.hour < b.hour
    else a.minute < b.minute
  }

  predicate SameMinute(a: Timestamp, b: Timestamp) {
    a.year == b.year && a.month == b.month && a.day == b.day &&
    a.hour == b.hour && a.minute == b.minute
  }

  /** Two scans in the same minute are never in minute order, whatever their seconds. */
  lemma MinuteOrderCoarsens(a: Timestamp, b: Timestamp)
    ensures MinuteEarlier(a, b) ==> Earlier(a, b)
    ensures SameMinute(a, b) ==> !MinuteEarlier(a, b) && !MinuteEarlier(b, a)
    ensures !SameMinute(a, b) ==> (MinuteEarlier(a, b) <==> Earlier(a, b))
  {
  }

  /**
   * A scan as the scripts see it after `pyart.io.read`:
   * - `nsweeps`: the number of sweeps;
   * - `prf`: `None` when the instrument parameters carry no "prt", else the
   *   pulse-repetition frequency 1/mean(prt) already rounded to whole hertz;
   * - `elevation`: the first sweep's fixed angle rounded to 0.1 degree, in tenths;
   * - `time`: `datetime_from_radar`.
   */
  datatype Radar = Radar(nsweeps: nat, prf: Option<int>, elevation: int, time: Timestamp)

  /** The py-ART calls the scripts rely on, passed in: reading a file, and `join_radar`. */
  datatype PyArt = PyArt(read: string -> Radar, join: (Radar, Radar) -> Radar)

  /** Hertz; above it a scan is a volume scan. */
  const VolumePrfThreshold: real := 623.5

  datatype ScanType = Volume | Survey

  /** `prf > 623.5` on the rounded PRF. */
  function Classify(prf: int): (t: ScanType)
    ensures t == Volume <==> prf >= 624
    ensures t == Survey <==> prf <= 623
  {
    if prf as real > VolumePrfThreshold then Volume else Survey
  }

  /** Classification of a read scan; `None` when it has no PRT and is skipped. */
  function ClassifyRadar(r: Radar): (t: Option<ScanType>)
    ensures t.None? <==> r.prf.None?
    ensures t == Some(Volume) <==> r.prf.Some? && r.prf.value >= 624
  {
    if r.prf.None? then None else Some(Classify(r.prf.value))
  }

  /**
   * Whether a new single-sweep scan is joined with the cached one: its
   * rounded elevation is strictly higher and its time strictly later.
   */
  predicate MergeEligible(newer: Radar, cached: Radar): (m: bool)
    ensures m ==> newer.elevation != cached.elevation && newer.time != cached.time
    ensures m ==> !Earlier(newer.time, cached.time)
  {
    newer.elevation > cached.elevation && Earlier(cached.time, newer.time)
  }

  /** The merge relation is a strict order: never reflexive, never both ways, so equal elevations never merge. */
  lemma MergeStrict(a: Radar, b: Radar, c: Radar)
    ensures a.elevation == b.elevation ==> !MergeEligible(a, b) && !MergeEligible(b, a)
    ensures MergeEligible(a, b) ==> !MergeEligible(b, a)
    ensures MergeEligible(a, b) && MergeEligible(b, c) ==> MergeEligible(a, c)
  {
  }

  /** A path as its components; relative paths simply lack the leading root components. */
  type Path = seq<string>

  /** One `RadxConvert -f <source> -params <params> -outdir <outdir> -outname <outname>` call. */
  datatype Conversion = Conversion(source: Path, params: Path, outdir: Path, outname: string)
  {
    /** The file the conversion writes. */
    function Output(): Path { outdir + [outname] }
  }
}
