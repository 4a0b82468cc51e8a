/** Scenario simulation and the forecast's input series: percentage
    reductions applied per source category to a copy of the caller's records,
    an optional single-category filter, and the per-date sums the
    forecasting model is fitted to. */
module Simulator {
  import opened Records
  import opened Grouping

  /** Four reduction knobs, in percent, and the category to forecast
      (`"all"` keeps every category). A request that omits a field gets
      no reduction, or every category. */
  datatype Scenario = Scenario(
    wasteReduction: real := 0.0,
    solarPercentage: real := 0.0,
    transportReduction: real := 0.0,
    commuteReduction: real := 0.0,
    sourceCategory: string := "all")

  /** The request schema admits knobs between 0 and 100 inclusive. */
  predicate ValidScenario(s: Scenario)
  {
    && 0.0 <= s.wasteReduction <= 100.0
    && 0.0 <= s.solarPercentage <= 100.0
    && 0.0 <= s.transportReduction <= 100.0
    && 0.0 <= s.commuteReduction <= 100.0
  }

  /** The knob that governs a category, if any: waste, electricity (through
      the solar share), transport and commute. */
  function Knob(category: string, s: Scenario): Option<real>
  {
    if category == "waste" then Some(s.wasteReduction)
    else if category == "electricity" then Some(s.solarPercentage)
    else if category == "transport" then Some(s.transportReduction)
    else if category == "commute" then Some(s.commuteReduction)
    else None
  }

  /** `emissions *= (1 - pct / 100)`. */
  function Scaled(r: EmissionRecord, pct: real): EmissionRecord
  {
    r.(emissionsKg := r.emissionsKg * (1.0 - pct / 100.0))
  }

  /** One record under the scenario: only the emissions of a category with a
      knob change, by that knob's percentage; every other field, and every
      record of another category, stays as it was. */
  function AdjustRow(r: EmissionRecord, s: Scenario): (a: EmissionRecord)
    ensures a.(emissionsKg := r.emissionsKg) == r
    ensures r.sourceCategory == "waste" ==> a.emissionsKg == r.emissionsKg * (1.0 - s.wasteReduction / 100.0)
    ensures r.sourceCategory == "electricity" ==> a.emissionsKg == r.emissionsKg * (1.0 - s.solarPercentage / 100.0)
    ensures r.sourceCategory == "transport" ==> a.emissionsKg == r.emissionsKg * (1.0 - s.transportReduction / 100.0)
    ensures r.sourceCategory == "commute" ==> a.emissionsKg == r.emissionsKg * (1.0 - s.commuteReduction / 100.0)
    ensures Knob(r.sourceCategory, s).None? ==> a == r
  {
    match Knob(r.sourceCategory, s)
    case None => r
    case Some(pct) => Scaled(r, pct)
  }

  /** The simulated table: every record adjusted, in the same order. */
  function Adjusted(rs: seq<EmissionRecord>, s: Scenario): (out: seq<EmissionRecord>)
    ensures |out| == |rs|
    ensures forall i :: 0 <= i < |rs| ==> out[i] == AdjustRow(rs[i], s)
  {
    if rs == [] then [] else [AdjustRow(rs[0], s)] + Adjusted(rs[1..], s)
  }

  /** With every knob at 0 the simulation changes nothing. */
  lemma {:induction false} ZeroScenarioIsIdentity(rs: seq<EmissionRecord>, s: Scenario)
    requires s.wasteReduction == 0.0 && s.solarPercentage == 0.0
    requires s.transportReduction == 0.0 && s.commuteReduction == 0.0
    ensures Adjusted(rs, s) == rs
  {
    if rs != [] {
      ZeroScenarioIsIdentity(rs[1..], s);
      assert rs == [rs[0]] + rs[1..];
    }
  }

  /** Adjusting keeps each record's category, so filtering by category and
      adjusting can be done in either order. */
  lemma {:induction false} AdjustedWhereCategory(rs: seq<EmissionRecord>, s: Scenario, category: string)
    ensures Where(Adjusted(rs, s), SourceCategory, category) == Adjusted(Where(rs, SourceCategory, category), s)
  {
    if rs != [] {
      AdjustedWhereCategory(rs[1..], s, category);
      assert Adjusted(rs, s)[1..] == Adjusted(rs[1..], s);
      if rs[0].sourceCategory == category {
        assert Where(rs, SourceCategory, category) == [rs[0]] + Where(rs[1..], SourceCategory, category);
      } else {
        assert Where(rs, SourceCategory, category) == Where(rs[1..], SourceCategory, category);
      }
    }
  }

  /** A knob at 100 removes its category's whole contribution. */
  lemma {:induction false} FullReductionZeroesCategory(rs: seq<EmissionRecord>, s: Scenario, category: string)
    requires Knob(category, s) == Some(100.0)
    ensures Total(Where(Adjusted(rs, s), SourceCategory, category)) == 0.0
  {
    AdjustedWhereCategory(rs, s, category);
    AllZero(Where(rs, SourceCategory, category), s, category);
  }

  lemma {:induction false} AllZero(rs: seq<EmissionRecord>, s: Scenario, category: string)
    requires Knob(category, s) == Some(100.0)
    requires forall x :: x in rs ==> x.sourceCategory == category
    ensures Total(Adjusted(rs, s)) == 0.0
  {
    if rs != [] {
      AllZero(rs[1..], s, category);
      assert rs[0] in rs;
      assert Adjusted(rs, s)[1..] == Adjusted(rs[1..], s);
    }
  }

  /** A scenario is valid exactly when every knob a category can be scaled
      by lies between 0 and 100. */
  lemma ValidScenarioBoundsEveryKnob(s: Scenario)
    ensures ValidScenario(s) <==>
      forall category :: Knob(category, s).Some? ==> 0.0 <= Knob(category, s).value <= 100.0
  {
    assert Knob("waste", s) == Some(s.wasteReduction);
    assert Knob("electricity", s) == Some(s.solarPercentage);
    assert Knob("transport", s) == Some(s.transportReduction);
    assert Knob("commute", s) == Some(s.commuteReduction);
  }

  /** Keeping a share between 0 and 1 of a non-negative quantity. */
  lemma ReductionBetween(e: real, pct: real)
    requires e >= 0.0 && 0.0 <= pct <= 100.0
    ensures 0.0 <= e * (1.0 - pct / 100.0) <= e
  {
    var keep := 1.0 - pct / 100.0;
    assert 0.0 <= keep <= 1.0;
    assert e * keep <= e * 1.0;
  }

  /** One record under a valid scenario keeps between none and all of its
      non-negative emissions. */
  lemma AdjustRowBetween(r: EmissionRecord, s: Scenario)
    requires ValidScenario(s)
    requires r.emissionsKg >= 0.0
    ensures 0.0 <= AdjustRow(r, s).emissionsKg <= r.emissionsKg
  {
    match Knob(r.sourceCategory, s)
    case None =>
    case Some(pct) => ReductionBetween(r.emissionsKg, pct);
  }

  /** With knobs in range and non-negative emissions, the simulated total
      lies between 0 and the original total. */
  lemma {:induction false} ScenarioNeverIncreases(rs: seq<EmissionRecord>, s: Scenario)
    requires ValidScenario(s)
    requires forall i :: 0 <= i < |rs| ==> rs[i].emissionsKg >= 0.0
    ensures 0.0 <= Total(Adjusted(rs, s)) <= Total(rs)
  {
    if rs != [] {
      ScenarioNeverIncreases(rs[1..], s);
      var sim := Adjusted(rs, s);
      assert sim[1..] == Adjusted(rs[1..], s);
      assert Total(sim) == sim[0].emissionsKg + Total(Adjusted(rs[1..], s));
      AdjustRowBetween(rs[0], s);
    }
  }

  /** One category's pass over one row: scaled when it has that category. */
  function Pass(r: EmissionRecord, category: string, pct: real): EmissionRecord
  {
    if r.sourceCategory == category then Scaled(r, pct) else r
  }

  /** The four passes, in the source's order, amount to the scenario's
      adjustment of each row: a pass never changes a category, so each row
      is scaled at most once. */
  lemma FourPasses(r: EmissionRecord, s: Scenario)
    ensures Pass(Pass(Pass(Pass(r, "waste", s.wasteReduction), "electricity", s.solarPercentage),
                      "transport", s.transportReduction), "commute", s.commuteReduction)
         == AdjustRow(r, s)
  {
  }

  /** `table.loc[table['source_category'] == category, 'emissions_kgCO2e'] *= (1 - pct / 100)`
      on the copied table. */
  method ReduceCategory(table: array<EmissionRecord>, category: string, pct: real)
    modifies table
    ensures forall i :: 0 <= i < table.Length ==> table[i] == Pass(old(table[i]), category, pct)
  {
    for i := 0 to table.Length
      invariant forall j :: 0 <= j < i ==> table[j] == Pass(old(table[j]), category, pct)
      invariant forall j :: i <= j < table.Length ==> table[j] == old(table[j])
    {
      if table[i].sourceCategory == category {
        table[i] := Scaled(table[i], pct);
      }
    }
  }

  /** Copy the caller's records of a business and apply the four knobs in
      place, one category pass after the other. Fails when the caller has no
      record of that business. */
  method Simulate(rows: seq<EmissionRecord>, businessId: string, userId: string, s: Scenario)
    returns (r: Result<seq<EmissionRecord>>)
    ensures Select(rows, businessId, userId) == [] ==> r == Err(InsufficientData)
    ensures Select(rows, businessId, userId) != [] ==> r == Ok(Adjusted(Select(rows, businessId, userId), s))
  {
    var sel := Select(rows, businessId, userId);
    if sel == [] {
      return Err(InsufficientData);
    }
    var table := new EmissionRecord[|sel|](i requires 0 <= i < |sel| => sel[i]);
    ghost var t0 := table[..];
    ReduceCategory(table, "waste", s.wasteReduction);
    ghost var t1 := table[..];
    ReduceCategory(table, "electricity", s.solarPercentage);
    ghost var t2 := table[..];
    ReduceCategory(table, "transport", s.transportReduction);
    ghost var t3 := table[..];
    ReduceCategory(table, "commute", s.commuteReduction);
    forall i | 0 <= i < |sel| ensures table[i] == AdjustRow(sel[i], s) {
      assert t0[i] == sel[i];
      assert t1[i] == Pass(t0[i], "waste", s.wasteReduction);
      assert t2[i] == Pass(t1[i], "electricity", s.solarPercentage);
      assert t3[i] == Pass(t2[i], "transport", s.transportReduction);
      FourPasses(sel[i], s);
    }
    assert table[..] == Adjusted(sel, s);
    r := Ok(table[..]);
  }

  /** The rows kept for the forecast: all of them, or one category's. */
  function Kept(sim: seq<EmissionRecord>, category: string): (kept: seq<EmissionRecord>)
    ensures category == "all" ==> kept == sim
    ensures category != "all" ==> forall x :: x in kept <==> x in sim && x.sourceCategory == category
    ensures category != "all" ==> forall x {:trigger multiset(kept)[x]} ::
      multiset(kept)[x] == (if x.sourceCategory == category then multiset(sim)[x] else 0)
  {
    if category == "all" then sim else Where(sim, SourceCategory, category)
  }

  /** The forecast's input: an out-of-range knob is refused, a caller with no
      record of the business or a series of fewer than two distinct dates has
      too little data, and otherwise the series holds one point per date
      with the simulated emissions of that date summed. */
  method PrepareForecast(rows: seq<EmissionRecord>, businessId: string, userId: string, s: Scenario)
    returns (r: Result<seq<Group>>)
    ensures !ValidScenario(s) ==> r == Err(InvalidScenario)
    ensures ValidScenario(s) && Select(rows, businessId, userId) == [] ==> r == Err(InsufficientData)
    ensures ValidScenario(s) && Select(rows, businessId, userId) != [] ==>
      var kept := Kept(Adjusted(Select(rows, businessId, userId), s), s.sourceCategory);
      && (|Values(kept, Date)| < 2 ==> r == Err(InsufficientData))
      && (|Values(kept, Date)| >= 2 ==> r == Ok(GroupBy(kept, Date)))
    ensures r.Ok? ==> |r.value| >= 2
  {
    if !ValidScenario(s) {
      return Err(InvalidScenario);
    }
    var sim := Simulate(rows, businessId, userId, s);
    if sim.Err? {
      return Err(sim.error);
    }
    var kept := Kept(sim.value, s.sourceCategory);
    var series := GroupBy(kept, Date);
    if |series| < 2 {
      return Err(InsufficientData);
    }
    r := Ok(series);
  }

  /** The request with every field left out is valid and simulates to the
      caller's records, all of them kept. */
  lemma DefaultScenarioKeepsRecords(rs: seq<EmissionRecord>)
    ensures ValidScenario(Scenario())
    ensures Kept(Adjusted(rs, Scenario()), Scenario().sourceCategory) == rs
  {
    ZeroScenarioIsIdentity(rs, Scenario());
  }

  /** Electricity at 100 kg and waste at 50 kg on one date, with half the
      electricity replaced by solar and all waste avoided, simulate to 50 kg
      and 0 kg; the single date is too little for a forecast. */
  lemma {:induction false} SingleDateExample(electricity: EmissionRecord, waste: EmissionRecord)
    requires electricity.sourceCategory == "electricity" && electricity.emissionsKg == 100.0
    requires waste.sourceCategory == "waste" && waste.emissionsKg == 50.0
    requires electricity.date == waste.date
    ensures var s := Scenario(100.0, 50.0, 0.0, 0.0, "all");
      var sim := Adjusted([electricity, waste], s);
      && sim[0].emissionsKg == 50.0
      && sim[1].emissionsKg == 0.0
      && |Values(Kept(sim, s.sourceCategory), Date)| < 2
  {
    var s := Scenario(100.0, 50.0, 0.0, 0.0, "all");
    var sim := Adjusted([electricity, waste], s);
    assert sim[0].date == electricity.date && sim[1].date == waste.date;
    assert Values(sim, Date) == {electricity.date} by {
      assert forall x :: x in sim ==> x == sim[0] || x == sim[1];
      assert sim[0] in sim;
    }
  }
}
