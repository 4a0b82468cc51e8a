/** The dashboard figures and the insights (green score and recommendation)
    computed over the stored records. */
module Aggregator {
  import opened Records
  import opened Grouping
  import opened Recommendations

  /** The fixed divisor of the monthly average, whatever dates are present. */
  const MonthsPerYear: real := 12.0

  datatype Figures = Figures(
    total: real,
    avgMonthly: real,
    contributors: seq<Group>,
    byScope: seq<Group>)

  /** The dashboard of one business for one caller. With no matching record
      it fails; otherwise the total is the sum over exactly the caller's
      records of that business, the monthly average is a twelfth of it, and
      the per-category and per-scope breakdowns each add up to the total. */
  function Dashboard(rows: seq<EmissionRecord>, businessId: string, userId: string): (r: Result<Figures>)
    ensures r.Err? <==> Select(rows, businessId, userId) == []
    ensures r.Err? ==> r.error == NotFound
    ensures r.Ok? ==>
      var sel := Select(rows, businessId, userId);
      && r.value.total == Total(sel)
      && r.value.avgMonthly * MonthsPerYear == r.value.total
      && r.value.contributors == GroupBy(sel, SourceCategory)
      && r.value.byScope == GroupBy(sel, Scope)
      && GroupTotal(r.value.contributors) == r.value.total
      && GroupTotal(r.value.byScope) == r.value.total
  {
    var sel := Select(rows, businessId, userId);
    if sel == [] then Err(NotFound)
    else
      var total := Total(sel);
      Ok(Figures(total, total / MonthsPerYear, GroupBy(sel, SourceCategory), GroupBy(sel, Scope)))
  }

  /** The mean, over the businesses of one sector, of each business's total,
      taken over every stored record of that sector whoever stored it. It is
      the sector's total divided by its number of distinct businesses; an
      empty sector (whose mean is undefined) reads as 0. */
  function SectorAverage(rows: seq<EmissionRecord>, businessType: string): (avg: real)
    ensures var sector := Where(rows, BusinessType, businessType);
      && (sector == [] ==> avg == 0.0)
      && (sector != [] ==>
            |Values(sector, BusinessId)| > 0
            && avg == Total(sector) / (|Values(sector, BusinessId)| as real))
  {
    var sector := Where(rows, BusinessType, businessType);
    var perBusiness := GroupBy(sector, BusinessId);
    if sector != [] then
      assert KeyOf(sector[0], BusinessId) in Values(sector, BusinessId);
      GroupTotal(perBusiness) / (|perBusiness| as real)
    else
      0.0
  }

  /** The sector average does not look at who stored a record: two tables
      that differ only in the callers' identities give the same average. */
  lemma SectorAverageIgnoresUserId(rows: seq<EmissionRecord>, other: seq<EmissionRecord>, businessType: string)
    requires Anonymous(rows) == Anonymous(other)
    ensures SectorAverage(rows, businessType) == SectorAverage(other, businessType)
  {
    var a := Where(rows, BusinessType, businessType);
    var b := Where(other, BusinessType, businessType);
    WhereAnonymous(rows, BusinessType, businessType);
    WhereAnonymous(other, BusinessType, businessType);
    assert Anonymous(a) == Anonymous(b);
    TotalAnonymous(a);
    TotalAnonymous(b);
    ValuesAnonymous(a, BusinessId);
    ValuesAnonymous(b, BusinessId);
  }

  /** `max(0, min(100, x))`. */
  function Clamp(x: real): (y: real)
    ensures 0.0 <= y <= 100.0
    ensures 0.0 <= x <= 100.0 ==> y == x
    ensures x < 0.0 ==> y == 0.0
    ensures x > 100.0 ==> y == 100.0
  {
    var capped := if x < 100.0 then x else 100.0;
    if capped > 0.0 then capped else 0.0
  }

  /** The green score of a business total against its sector average: 100
      when the average is not positive, otherwise the percentage by which
      the total falls short of the average, clamped to [0, 100]. */
  function GreenScore(total: real, sectorAverage: real): (score: real)
    ensures 0.0 <= score <= 100.0
    ensures sectorAverage <= 0.0 ==> score == 100.0
    ensures sectorAverage > 0.0 && total <= 0.0 ==> score == 100.0
    ensures sectorAverage > 0.0 && total >= sectorAverage ==> score == 0.0
    ensures sectorAverage > 0.0 && 0.0 <= total <= sectorAverage ==>
      score * sectorAverage == (sectorAverage - total) * 100.0
  {
    var raw := if sectorAverage > 0.0 then (1.0 - total / sectorAverage) * 100.0 else 100.0;
    Clamp(raw)
  }

  /** A larger total never earns a better score. */
  lemma GreenScoreAntitone(lower: real, higher: real, sectorAverage: real)
    requires lower <= higher
    ensures GreenScore(higher, sectorAverage) <= GreenScore(lower, sectorAverage)
  {
    if sectorAverage > 0.0 {
      assert lower / sectorAverage <= higher / sectorAverage by {
        assert higher / sectorAverage - lower / sectorAverage == (higher - lower) / sectorAverage;
      }
    }
  }

  /** The tip for an activity: the lookup for the category of the first
      record of that activity. */
  function ActivityTip(sel: seq<EmissionRecord>, activity: string): string
    requires activity in Values(sel, Activity)
  {
    Recommendation(activity, sel[FirstWhere(sel, Activity, activity)].sourceCategory)
  }

  /** The tip for a business's top activity: among the activities of `sel`
      one whose summed emissions are largest is picked, and the tip is the
      one for the category of the first record of that activity. */
  function TopActivityTip(sel: seq<EmissionRecord>): (tip: string)
    requires sel != []
    ensures var acts := GroupBy(sel, Activity);
      exists i :: 0 <= i < |acts|
        && (forall j :: 0 <= j < |acts| ==> acts[j].sum <= acts[i].sum)
        && acts[i].key in Values(sel, Activity)
        && tip == ActivityTip(sel, acts[i].key)
  {
    var acts := GroupBy(sel, Activity);
    assert KeyOf(sel[0], Activity) in KeySet(acts);
    var top := ArgMax(acts);
    assert acts[top] in acts;
    assert acts[top].key in Values(sel, Activity);
    ActivityTip(sel, acts[top].key)
  }

  datatype Insight = Insight(greenScore: real, recommendation: string)

  /** The insights of one business for one caller. With no matching record
      it fails. Otherwise the score compares the caller's total with the
      average of the sector named by the first matching record, and the tip
      is the one for the caller's top activity. */
  function Insights(rows: seq<EmissionRecord>, businessId: string, userId: string): (r: Result<Insight>)
    ensures r.Err? <==> Select(rows, businessId, userId) == []
    ensures r.Err? ==> r.error == NotFound
    ensures r.Ok? ==> 0.0 <= r.value.greenScore <= 100.0
    ensures r.Ok? ==>
      var sel := Select(rows, businessId, userId);
      && r.value.greenScore == GreenScore(Total(sel), SectorAverage(rows, sel[0].businessType))
      && r.value.recommendation == TopActivityTip(sel)
  {
    var sel := Select(rows, businessId, userId);
    if sel == [] then Err(NotFound)
    else
      var businessType := sel[0].businessType;
      Ok(Insight(GreenScore(Total(sel), SectorAverage(rows, businessType)), TopActivityTip(sel)))
  }
}
