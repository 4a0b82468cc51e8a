/** The static recommendation table keyed by source category. */
module Recommendations {

  const SolarTip := "Consider installing solar panels to reduce reliance on the grid."
  const RouteTip := "Optimize delivery routes and consider using more fuel-efficient vehicles."
  const RecyclingTip := "Implement a recycling program and compost organic waste."
  const DefaultTip := "Review your energy consumption and identify areas for reduction."

  const Table: map<string, string> := map[
    "electricity" := SolarTip,
    "transport" := RouteTip,
    "waste" := RecyclingTip,
    "default" := DefaultTip]

  /** The tip for a category, falling back to the default entry. The activity
      label is accepted and plays no part in the choice. */
  function Recommendation(activity: string, category: string): (tip: string)
    ensures category == "electricity" ==> tip == SolarTip
    ensures category == "transport" ==> tip == RouteTip
    ensures category == "waste" ==> tip == RecyclingTip
    ensures category != "electricity" && category != "transport" && category != "waste"
            ==> tip == DefaultTip
    ensures tip in Table.Values
  {
    if category in Table then Table[category] else Table["default"]
  }

  /** Only the category decides the tip; commute, which has a scenario knob,
      has no table entry of its own. */
  lemma RecommendationIgnoresActivity(a1: string, a2: string, category: string)
    ensures Recommendation(a1, category) == Recommendation(a2, category)
    ensures Recommendation(a1, "commute") == DefaultTip
  {
  }
}
