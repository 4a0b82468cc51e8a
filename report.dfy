/** The figures the PDF report prints: the business type, the total, the
    monthly average, the per-category contributors and the tip for the
    category that contributes most. */
module Report {
  import opened Records
  import opened Grouping
  import opened Recommendations
  import opened Aggregator

  datatype ReportFigures = ReportFigures(
    businessType: string,
    total: real,
    avgMonthly: real,
    contributors: seq<Group>,
    topCategory: string,
    recommendation: string)

  /** The report of one business for one caller. With no matching record it
      fails. Otherwise the top category is one whose contributor sum is
      largest (the first such group), and the tip is looked up for it with an
      empty activity label. */
  function Report(rows: seq<EmissionRecord>, businessId: string, userId: string): (r: Result<ReportFigures>)
    ensures r.Err? <==> Select(rows, businessId, userId) == []
    ensures r.Err? ==> r.error == NotFound
    ensures r.Ok? ==>
      var sel := Select(rows, businessId, userId);
      var f := r.value;
      && f.businessType == sel[0].businessType
      && f.total == Total(sel)
      && f.avgMonthly * MonthsPerYear == f.total
      && f.contributors == GroupBy(sel, SourceCategory)
      && GroupTotal(f.contributors) == f.total
      && f.topCategory in Values(sel, SourceCategory)
      && f.topCategory == TopKey(f.contributors)
      && f.recommendation == Recommendation("", f.topCategory)
  {
    var sel := Select(rows, businessId, userId);
    if sel == [] then Err(NotFound)
    else
      var total := Total(sel);
      var contributors := GroupBy(sel, SourceCategory);
      assert KeyOf(sel[0], SourceCategory) in KeySet(contributors);
      var category := TopKey(contributors);
      Ok(ReportFigures(sel[0].businessType, total, total / MonthsPerYear, contributors,
                       category, Recommendation("", category)))
  }

  /** The report prints the dashboard's figures and fails exactly when the
      dashboard does. */
  lemma ReportAgreesWithDashboard(rows: seq<EmissionRecord>, businessId: string, userId: string)
    ensures Report(rows, businessId, userId).Ok? == Dashboard(rows, businessId, userId).Ok?
    ensures Report(rows, businessId, userId).Ok? ==>
      var f := Report(rows, businessId, userId).value;
      var d := Dashboard(rows, businessId, userId).value;
      f.total == d.total && f.avgMonthly == d.avgMonthly && f.contributors == d.contributors
  {
  }
}
