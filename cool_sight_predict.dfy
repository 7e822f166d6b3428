/** The predictive-maintenance dashboard's classifiers: the colour of a health score,
    the status badge, the efficiency and alert labels, and the urgent highlight of a
    maintenance recommendation. CSS class strings are modelled as tags. */
module Predict {
  import opened ArrayOps

  datatype HealthColor = Emerald | Yellow | Red

  /** `getHealthColor`. */
  function HealthColorOf(score: int): HealthColor {
    if score >= 80 then Emerald
    else if score >= 60 then Yellow
    else Red
  }

  /** The colour bands: 80 and up, 60 to 79, below 60. */
  lemma HealthBands(score: int)
    ensures HealthColorOf(score) == Emerald <==> 80 <= score
    ensures HealthColorOf(score) == Yellow <==> 60 <= score < 80
    ensures HealthColorOf(score) == Red <==> score < 60
  {
  }

  datatype EfficiencyLabel = Optimal | Good | Poor

  /** The "Energy Efficiency" cell: strict comparisons against 80 and 60. */
  function EfficiencyLabelOf(score: int): EfficiencyLabel {
    if score > 80 then Optimal
    else if score > 60 then Good
    else Poor
  }

  /** Colour and efficiency label use different boundaries: they agree everywhere but at
      exactly 80 (emerald yet "Good") and exactly 60 (yellow yet "Poor"). */
  lemma EfficiencyLabelVersusColor(score: int)
    ensures EfficiencyLabelOf(score) == Optimal <==> HealthColorOf(score) == Emerald && score != 80
    ensures EfficiencyLabelOf(score) == Good <==> (HealthColorOf(score) == Yellow && score != 60) || score == 80
    ensures EfficiencyLabelOf(score) == Poor <==> HealthColorOf(score) == Red || score == 60
    ensures HealthColorOf(80) == Emerald && EfficiencyLabelOf(80) == Good
  {
  }

  datatype BadgeVariant = ExcellentBadge | GoodBadge | WarningBadge | CriticalBadge

  /** `variants[status] || variants.good`. */
  function StatusVariant(status: string): BadgeVariant {
    if status == "excellent" then ExcellentBadge
    else if status == "good" then GoodBadge
    else if status == "warning" then WarningBadge
    else if status == "critical" then CriticalBadge
    else GoodBadge
  }

  /** Each known status has its own variant; every other status falls back to "good". */
  lemma StatusVariantFallback(status: string)
    ensures status != "excellent" && status != "warning" && status != "critical" ==> StatusVariant(status) == GoodBadge
    ensures StatusVariant(status) == ExcellentBadge <==> status == "excellent"
    ensures StatusVariant(status) == WarningBadge <==> status == "warning"
    ensures StatusVariant(status) == CriticalBadge <==> status == "critical"
  {
  }

  /** `toUpperCase` on one character, for the ASCII letters. */
  function UpperCase(c: char): char {
    if 'a' <= c <= 'z' then (c as int - 'a' as int + 'A' as int) as char else c
  }

  /** `status.charAt(0).toUpperCase() + status.slice(1)`. */
  function StatusLabel(status: string): (r: string)
    ensures |r| == |status|
    ensures |status| > 0 ==> r[0] == UpperCase(status[0]) && r[1..] == status[1..]
  {
    if |status| == 0 then "" else [UpperCase(status[0])] + status[1..]
  }

  /** The badge of the seeded statuses. */
  lemma StatusLabelExamples()
    ensures StatusLabel("warning") == "Warning" && StatusLabel("good") == "Good"
    ensures StatusLabel("") == ""
  {
  }

  /** The "Alerts" cell. */
  function AlertsLabel(status: string): (r: string)
    ensures r == "2 Active" <==> status == "warning"
    ensures r != "2 Active" ==> r == "None"
  {
    if status == "warning" then "2 Active" else "None"
  }

  /** A maintenance recommendation is drawn as urgent when its text contains "URGENT". */
  predicate IsUrgent(recommendation: string) {
    Includes(recommendation, "URGENT")
  }

  lemma UrgentIffContainsMarker(recommendation: string)
    ensures IsUrgent(recommendation) <==> exists i :: 0 <= i <= |recommendation| && "URGENT" <= recommendation[i..]
  {
    IncludesIffOccurs(recommendation, "URGENT");
  }

  lemma UrgentExamples()
    ensures IsUrgent("URGENT: Schedule maintenance within 48 hours")
    ensures !IsUrgent("URGEN")
  {
    var text := "URGENT: Schedule maintenance within 48 hours";
    UrgentIffContainsMarker(text);
    assert "URGENT" <= text[0..];
    var short := "URGEN";
    UrgentIffContainsMarker(short);
    forall i | 0 <= i <= |short| ensures !("URGENT" <= short[i..]) {
      assert |short[i..]| < |"URGENT"|;
    }
  }
}
