/**
 * Metric extraction: the four category records derived from one audit
 * report, each scored out of 100 and classified against the optimal value.
 */
module Metrics {
  import opened Wrappers

  /** One entry of the report's `audits` map; only its display string is read. */
  datatype AuditDetail = AuditDetail(displayValue: Option<string>)

  /**
   * The audit engine's report (`lhr`): each category key maps to its raw
   * score between 0 and 1, each audit key maps to its detail entry.
   */
  datatype Report = Report(categories: map<string, real>, audits: map<string, AuditDetail>)

  /** The score at or above which a category meets the optimal value. */
  const OPTIMAL: real := 80.0

  /** The stand-in for a performance sub-metric without a display string. */
  const NOT_AVAILABLE: string := "N/A"

  const FIRST_CONTENTFUL_PAINT: string := "first-contentful-paint"
  const LARGEST_CONTENTFUL_PAINT: string := "largest-contentful-paint"
  const CUMULATIVE_LAYOUT_SHIFT: string := "cumulative-layout-shift"
  const SPEED_INDEX: string := "speed-index"

  /** The audit entries the performance record reads. */
  const PERFORMANCE_AUDITS: set<string> :=
    {FIRST_CONTENTFUL_PAINT, LARGEST_CONTENTFUL_PAINT, CUMULATIVE_LAYOUT_SHIFT, SPEED_INDEX}

  /** The category entries extraction reads. */
  const CATEGORY_KEYS: set<string> := {"performance", "accessibility", "best-practices", "seo"}

  datatype Status = MeetsOptimalValue | NeedsImprovement {
    /** The text the payload carries. */
    function Label(): string {
      match this
      case MeetsOptimalValue => "Meets Optimal Value"
      case NeedsImprovement => "Needs Improvement"
    }
  }

  datatype Category = Performance | Accessibility | BestPractices | Seo {
    /** The key of the category in the report. */
    function Key(): string {
      match this
      case Performance => "performance"
      case Accessibility => "accessibility"
      case BestPractices => "best-practices"
      case Seo => "seo"
    }

    /** The fixed description the category record carries. */
    function Description(): string {
      match this
      case Performance => "A score for page speed and optimization"
      case Accessibility => "A score of accessibility of the website for users with disabilities"
      case BestPractices => "A score assessing adherence to web development best practices"
      case Seo => "A score indicating how well the site is optimized for search engines"
    }
  }

  /** The display strings only the performance record carries. */
  datatype PerformanceDetails = PerformanceDetails(fcp: string, lcp: string, cls: string, speedIndex: string)

  /** One category record of the payload. */
  datatype CategoryMetric = CategoryMetric(
    url: string,
    description: string,
    score: real,
    optimal: real,
    status: Status,
    details: Option<PerformanceDetails>,
    timestamp: string)

  /** The four category records of one run. */
  datatype Metrics = Metrics(
    performance: CategoryMetric,
    accessibility: CategoryMetric,
    bestPractices: CategoryMetric,
    seo: CategoryMetric)
  {
    function Of(c: Category): CategoryMetric {
      match c
      case Performance => performance
      case Accessibility => accessibility
      case BestPractices => bestPractices
      case Seo => seo
    }
  }

  /** The TypeError extraction throws when the report lacks an entry it reads. */
  datatype ExtractError = MissingCategory(key: string) | MissingAudit(key: string)

  /** The status of a score out of 100; the boundary belongs to the optimal side. */
  function Classify(score: real): Status {
    if score >= OPTIMAL then MeetsOptimalValue else NeedsImprovement
  }

  /** `lhr.categories[key].score * 100`, or the error reading a missing category. */
  function ScoreOf(report: Report, c: Category): Result<real, ExtractError> {
    if c.Key() in report.categories then Success(report.categories[c.Key()] * 100.0)
    else Failure(MissingCategory(c.Key()))
  }

  /** `displayValue || "N/A"`: an absent or empty display string gives the sentinel. */
  function OrNotAvailable(displayValue: Option<string>): (r: string)
    ensures r != ""
    ensures r == NOT_AVAILABLE || displayValue == Some(r)
    ensures displayValue.Some? && displayValue.value != "" ==> r == displayValue.value
    ensures displayValue.None? || displayValue == Some("") ==> r == NOT_AVAILABLE
  {
    if displayValue.Some? && displayValue.value != "" then displayValue.value else NOT_AVAILABLE
  }

  /** `lhr.audits[key].displayValue || "N/A"`, or the error reading a missing entry. */
  function DisplayOf(report: Report, key: string): Result<string, ExtractError> {
    if key in report.audits then Success(OrNotAvailable(report.audits[key].displayValue))
    else Failure(MissingAudit(key))
  }

  /** The record of category `c` with the given score out of 100. */
  function Record(c: Category, url: string, score: real, details: Option<PerformanceDetails>, timestamp: string): CategoryMetric {
    CategoryMetric(url, c.Description(), score, OPTIMAL, Classify(score), details, timestamp)
  }

  /**
   * The four category records of `report`, read in the order the source
   * reads them, all stamped with the same `url` and `timestamp`.
   */
  function Extract(report: Report, url: string, timestamp: string): Result<Metrics, ExtractError> {
    var performance :- ScoreOf(report, Performance);
    var fcp :- DisplayOf(report, FIRST_CONTENTFUL_PAINT);
    var lcp :- DisplayOf(report, LARGEST_CONTENTFUL_PAINT);
    var cls :- DisplayOf(report, CUMULATIVE_LAYOUT_SHIFT);
    var speedIndex :- DisplayOf(report, SPEED_INDEX);
    var accessibility :- ScoreOf(report, Accessibility);
    var bestPractices :- ScoreOf(report, BestPractices);
    var seo :- ScoreOf(report, Seo);
    var details := PerformanceDetails(fcp, lcp, cls, speedIndex);
    Success(Metrics(
      Record(Performance, url, performance, Some(details), timestamp),
      Record(Accessibility, url, accessibility, None, timestamp),
      Record(BestPractices, url, bestPractices, None, timestamp),
      Record(Seo, url, seo, None, timestamp)))
  }

  /** Every report key extraction reads is present. */
  predicate HasRequiredEntries(report: Report) {
    CATEGORY_KEYS <= report.categories.Keys && PERFORMANCE_AUDITS <= report.audits.Keys
  }

  /** The status rule on a raw score: meets the optimal value iff `raw * 100 >= 80`. */
  lemma StatusRule(raw: real)
    ensures Classify(raw * 100.0) == MeetsOptimalValue <==> raw * 100.0 >= 80.0
    ensures Classify(raw * 100.0) == NeedsImprovement <==> raw * 100.0 < 80.0
  {
  }

  /** Worked examples: 0.873 gives 87.3 and meets, 0.8 meets, 0.42 gives 42 and needs improvement. */
  lemma StatusExamples()
    ensures 0.873 * 100.0 == 87.3 && Classify(0.873 * 100.0) == MeetsOptimalValue
    ensures 0.8 * 100.0 == 80.0 && Classify(0.8 * 100.0) == MeetsOptimalValue
    ensures 0.42 * 100.0 == 42.0 && Classify(0.42 * 100.0) == NeedsImprovement
    ensures MeetsOptimalValue.Label() == "Meets Optimal Value"
    ensures NeedsImprovement.Label() == "Needs Improvement"
  {
  }

  /** Extraction succeeds exactly when the report holds every entry it reads. */
  lemma ExtractSucceedsIff(report: Report, url: string, timestamp: string)
    ensures Extract(report, url, timestamp).Success? <==> HasRequiredEntries(report)
  {
    var present := (forall c: Category :: c.Key() in report.categories)
      && FIRST_CONTENTFUL_PAINT in report.audits && LARGEST_CONTENTFUL_PAINT in report.audits
      && CUMULATIVE_LAYOUT_SHIFT in report.audits && SPEED_INDEX in report.audits;
    assert HasRequiredEntries(report) <==> present by {
      assert CATEGORY_KEYS == {Performance.Key(), Accessibility.Key(), BestPractices.Key(), Seo.Key()};
    }
    if present {
      assert ScoreOf(report, Performance).Success? && ScoreOf(report, Accessibility).Success?;
      assert ScoreOf(report, BestPractices).Success? && ScoreOf(report, Seo).Success?;
    }
  }

  /** A failed extraction names an entry that is read and missing. */
  lemma ExtractErrorIsMissingEntry(report: Report, url: string, timestamp: string)
    requires Extract(report, url, timestamp).Failure?
    ensures var e := Extract(report, url, timestamp).error;
      || (e.MissingCategory? && e.key in CATEGORY_KEYS && e.key !in report.categories)
      || (e.MissingAudit? && e.key in PERFORMANCE_AUDITS && e.key !in report.audits)
  {
  }

  /**
   * The records form one snapshot: every record carries the run's `url` and
   * `timestamp`, the optimal value 80, its category's description, its raw
   * score times 100 and the status of that score; only the performance
   * record has details.
   */
  lemma ExtractSnapshot(report: Report, url: string, timestamp: string, c: Category)
    requires Extract(report, url, timestamp).Success?
    ensures c.Key() in report.categories
    ensures var r := Extract(report, url, timestamp).value.Of(c);
      && r.url == url
      && r.timestamp == timestamp
      && r.optimal == OPTIMAL
      && r.description == c.Description()
      && r.score == report.categories[c.Key()] * 100.0
      && (r.status == MeetsOptimalValue <==> r.score >= OPTIMAL)
      && (r.details.Some? <==> c == Performance)
  {
  }

  /**
   * Each performance sub-metric is the audit's display string when that is
   * present and non-empty, and `"N/A"` otherwise.
   */
  lemma PerformanceDetailsFallback(report: Report, url: string, timestamp: string, key: string)
    requires Extract(report, url, timestamp).Success?
    requires key in PERFORMANCE_AUDITS
    ensures key in report.audits
    ensures var d := Extract(report, url, timestamp).value.performance.details.value;
      var shown := if key == FIRST_CONTENTFUL_PAINT then d.fcp
        else if key == LARGEST_CONTENTFUL_PAINT then d.lcp
        else if key == CUMULATIVE_LAYOUT_SHIFT then d.cls
        else d.speedIndex;
      var v := report.audits[key].displayValue;
      && (v.Some? && v.value != "" ==> shown == v.value)
      && (v == None || v == Some("") ==> shown == NOT_AVAILABLE)
  {
  }

  /**
   * Display strings never decide whether extraction fails: two reports with
   * the same scores and the same audit keys both succeed or both fail, with
   * the same scores and statuses.
   */
  lemma DisplayValuesNeverFail(r1: Report, r2: Report, url: string, timestamp: string)
    requires r1.categories == r2.categories && r1.audits.Keys == r2.audits.Keys
    ensures Extract(r1, url, timestamp).Success? == Extract(r2, url, timestamp).Success?
    ensures Extract(r1, url, timestamp).Success? ==>
      forall c: Category ::
        && Extract(r1, url, timestamp).value.Of(c).score == Extract(r2, url, timestamp).value.Of(c).score
        && Extract(r1, url, timestamp).value.Of(c).status == Extract(r2, url, timestamp).value.Of(c).status
  {
    ExtractSucceedsIff(r1, url, timestamp);
    ExtractSucceedsIff(r2, url, timestamp);
    if Extract(r1, url, timestamp).Success? {
      forall c: Category
        ensures Extract(r1, url, timestamp).value.Of(c).score == Extract(r2, url, timestamp).value.Of(c).score
        ensures Extract(r1, url, timestamp).value.Of(c).status == Extract(r2, url, timestamp).value.Of(c).status
      {
        ExtractSnapshot(r1, url, timestamp, c);
        ExtractSnapshot(r2, url, timestamp, c);
      }
    }
  }
}
