/** The settings-recommendation engine: from the categories present in a fridge
    inventory to cooler settings, an ordered list of justifications and two
    benefit scores. The two `Math.random()` draws are parameters in [0, 1). */
module Recommendations {
  import opened ArrayOps

  datatype Category = Meat | Dairy | Vegetables | Fruits | Beverages | Other

  datatype DetectedItem = DetectedItem(name: string, quantity: string, confidence: int, category: Category)

  datatype EnergyMode = Eco | Standard | Performance

  datatype CoolerSettings = CoolerSettings(
    temperature: int,   // degrees Celsius
    humidity: int,      // percent
    airflow: int,       // percent
    defrostCycle: int,  // hours
    energyMode: EnergyMode)

  /** The monthly-savings string of the source is not part of this record. */
  datatype Recommendation = Recommendation(
    settings: CoolerSettings,
    reasoning: seq<string>,
    energyEfficiency: int,
    foodPreservation: int)

  const BaseTemperature := 3
  const BaseHumidity := 65
  const BaseAirflow := 60
  const DefrostHours := 8

  const Baseline := CoolerSettings(BaseTemperature, BaseHumidity, BaseAirflow, DefrostHours, Eco)

  predicate HasPerishables(items: seq<DetectedItem>) {
    exists i :: 0 <= i < |items| && (items[i].category == Meat || items[i].category == Dairy)
  }

  predicate HasVegetables(items: seq<DetectedItem>) {
    exists i :: 0 <= i < |items| && items[i].category == Vegetables
  }

  predicate HasFruits(items: seq<DetectedItem>) {
    exists i :: 0 <= i < |items| && items[i].category == Fruits
  }

  /** The set of categories that occur in an inventory. */
  function CategoriesOf(items: seq<DetectedItem>): set<Category> {
    set i | 0 <= i < |items| :: items[i].category
  }

  /** The sequential adjustments of the baseline, one clamp per step. */
  function DeriveSettings(hasPerishables: bool, hasVegetables: bool, hasFruits: bool): CoolerSettings
  {
    var temperature := if hasPerishables then Max(1, BaseTemperature - 1) else BaseTemperature;
    var humidity := if hasPerishables then Min(70, BaseHumidity + 5) else BaseHumidity;
    var humidity := if hasVegetables then Min(85, humidity + 10) else humidity;
    var airflow := if hasFruits then Min(80, BaseAirflow + 15) else BaseAirflow;
    CoolerSettings(temperature, humidity, airflow, DefrostHours,
                   if hasPerishables then Standard else Eco)
  }

  /** The settings chosen for an inventory. */
  function SettingsFor(items: seq<DetectedItem>): CoolerSettings {
    DeriveSettings(HasPerishables(items), HasVegetables(items), HasFruits(items))
  }

  predicate SettingsInRange(s: CoolerSettings) {
    && 1 <= s.temperature <= 3
    && 65 <= s.humidity <= 85
    && 60 <= s.airflow <= 80
    && s.defrostCycle == DefrostHours
  }

  // ----- reasoning sentences -----

  const PerishableReason := "Lower temperature recommended for meat and dairy preservation"
  const VegetableReason := "Increased humidity to prevent vegetable dehydration"
  const FruitReason := "Enhanced airflow to prevent fruit ripening acceleration"

  function EnergyModeName(m: EnergyMode): string {
    match m
    case Eco => "eco"
    case Standard => "standard"
    case Performance => "performance"
  }

  /** Template-literal rendering of a non-negative integer. */
  function DecimalString(n: nat): string {
    var digit := ["0", "1", "2", "3", "4", "5", "6", "7", "8", "9"][n % 10];
    if n < 10 then digit else DecimalString(n / 10) + digit
  }

  function EnergyReason(m: EnergyMode): string {
    EnergyModeName(m) + " energy mode selected for optimal efficiency"
  }

  function DefrostReason(hours: nat): string {
    "Defrost cycle set to " + DecimalString(hours) + " hours based on usage pattern"
  }

  /** `[...].filter(Boolean)` on an array whose entries are `false` (None) or a sentence.
      `filter(Boolean)` would also drop an empty string, which `Compact` keeps; the engine's
      five sentences are all non-empty, so the two agree on every array it builds. */
  function Compact(xs: seq<Option<string>>): seq<string>
  {
    if |xs| == 0 then []
    else (if xs[0].Some? then [xs[0].value] else []) + Compact(xs[1..])
  }

  function Reasoning(hasPerishables: bool, hasVegetables: bool, hasFruits: bool, s: CoolerSettings): seq<string>
    requires s.defrostCycle >= 0
  {
    Compact([
      Flagged(hasPerishables, PerishableReason),
      Flagged(hasVegetables, VegetableReason),
      Flagged(hasFruits, FruitReason),
      Some(EnergyReason(s.energyMode)),
      Some(DefrostReason(s.defrostCycle))])
  }

  function Sentence(present: bool, sentence: string): seq<string> {
    if present then [sentence] else []
  }

  function FlagCount(a: bool, b: bool, c: bool): nat {
    (if a then 1 else 0) + (if b then 1 else 0) + (if c then 1 else 0)
  }

  function Flagged(present: bool, sentence: string): Option<string> {
    if present then Some(sentence) else None
  }

  /** Filtering the five-entry array of the engine, whatever its sentences are. */
  lemma CompactLayout(p: bool, v: bool, f: bool, x: string, y: string, z: string, e: string, d: string)
    ensures Compact([Flagged(p, x), Flagged(v, y), Flagged(f, z), Some(e), Some(d)])
            == Sentence(p, x) + Sentence(v, y) + Sentence(f, z) + [e, d]
  {
    var a, b, c := Flagged(p, x), Flagged(v, y), Flagged(f, z);
    var tail := [Some(e), Some(d)];
    assert Compact(tail) == [e, d] by {
      assert tail[1..] == [Some(d)];
      assert [Some(d)][1..] == [];
      assert Compact([Some(d)]) == [d] + Compact([]);
    }
    var r2 := [c] + tail;
    assert r2[1..] == tail;
    var r1 := [b] + r2;
    assert r1[1..] == r2;
    var r0 := [a] + r1;
    assert r0[1..] == r1;
    assert r0 == [a, b, c, Some(e), Some(d)];
    assert Compact(r2) == Sentence(f, z) + [e, d];
    assert Compact(r1) == Sentence(v, y) + (Sentence(f, z) + [e, d]);
    assert Compact(r0) == Sentence(p, x) + (Sentence(v, y) + (Sentence(f, z) + [e, d]));
  }

  /** The filtered list keeps the conditional sentences of the true flags in the
      order perishable, vegetable, fruit, then always the energy-mode and defrost sentences. */
  lemma ReasoningLayout(p: bool, v: bool, f: bool, s: CoolerSettings)
    requires s.defrostCycle >= 0
    ensures Reasoning(p, v, f, s)
            == Sentence(p, PerishableReason) + Sentence(v, VegetableReason) + Sentence(f, FruitReason)
               + [EnergyReason(s.energyMode), DefrostReason(s.defrostCycle)]
    ensures |Reasoning(p, v, f, s)| == 2 + FlagCount(p, v, f)
  {
    CompactLayout(p, v, f, PerishableReason, VegetableReason, FruitReason,
                  EnergyReason(s.energyMode), DefrostReason(s.defrostCycle));
  }

  // ----- scores -----

  /** `Math.floor(draw * 15) + 85`. */
  function EnergyEfficiency(draw: real): (r: int)
    requires 0.0 <= draw < 1.0
    ensures 85 <= r <= 99
  {
    (draw * 15.0).Floor + 85
  }

  /** `Math.floor(draw * 10) + 90`. */
  function FoodPreservation(draw: real): (r: int)
    requires 0.0 <= draw < 1.0
    ensures 90 <= r <= 99
  {
    (draw * 10.0).Floor + 90
  }

  /** Both ends of each score range are reached, and 100 is reached by neither. */
  lemma ScoreRangesAreExact()
    ensures EnergyEfficiency(0.0) == 85 && EnergyEfficiency(14.0 / 15.0) == 99
    ensures FoodPreservation(0.0) == 90 && FoodPreservation(0.9) == 99
    ensures forall d: real :: 0.0 <= d < 1.0 ==> EnergyEfficiency(d) != 100 && FoodPreservation(d) != 100
  {
    assert (14.0 / 15.0) * 15.0 == 14.0;
    assert 0.9 * 10.0 == 9.0;
  }

  // ----- the engine -----

  /** `generateRecommendations(items)`, with the two random draws as parameters. */
  function GenerateRecommendations(items: seq<DetectedItem>, efficiencyDraw: real, preservationDraw: real): (r: Recommendation)
    requires 0.0 <= efficiencyDraw < 1.0 && 0.0 <= preservationDraw < 1.0
    ensures SettingsInRange(r.settings)
    ensures r.settings.energyMode == Standard <==> HasPerishables(items)
    ensures r.settings.energyMode == Eco <==> !HasPerishables(items)
    ensures |r.reasoning| == 2 + FlagCount(HasPerishables(items), HasVegetables(items), HasFruits(items))
    ensures r.reasoning[|r.reasoning| - 2..] == [EnergyReason(r.settings.energyMode), DefrostReason(DefrostHours)]
    ensures 85 <= r.energyEfficiency <= 99 && 90 <= r.foodPreservation <= 99
  {
    var p, v, f := HasPerishables(items), HasVegetables(items), HasFruits(items);
    var settings := DeriveSettings(p, v, f);
    ReasoningLayout(p, v, f, settings);
    Recommendation(settings, Reasoning(p, v, f, settings),
                   EnergyEfficiency(efficiencyDraw), FoodPreservation(preservationDraw))
  }

  // ----- properties of the settings -----

  /** An inventory with no meat, dairy, vegetables or fruits (in particular the empty
      one, or one of beverages and other items only) gets the baseline settings. */
  lemma BaselineWithoutBoostingCategories(items: seq<DetectedItem>)
    requires forall i :: 0 <= i < |items| ==> items[i].category == Beverages || items[i].category == Other
    ensures SettingsFor(items) == Baseline
    ensures SettingsFor(items) == CoolerSettings(3, 65, 60, 8, Eco)
  {
  }

  /** Perishables are exactly what lowers the temperature to 2 and selects the standard mode;
      "performance" is never chosen. */
  lemma PerishablesDecideTemperatureAndMode(items: seq<DetectedItem>)
    ensures HasPerishables(items) <==> SettingsFor(items).temperature == 2
    ensures HasPerishables(items) ==> SettingsFor(items).humidity >= 70 && SettingsFor(items).energyMode == Standard
    ensures !HasPerishables(items) ==> SettingsFor(items).temperature == 3 && SettingsFor(items).energyMode == Eco
    ensures SettingsFor(items).energyMode != Performance
  {
  }

  /** Vegetables add 10 to the humidity: 75 without perishables, 80 with them. */
  lemma VegetablesRaiseHumidity(items: seq<DetectedItem>)
    ensures SettingsFor(items).humidity
            == if HasVegetables(items) then (if HasPerishables(items) then 80 else 75)
               else (if HasPerishables(items) then 70 else 65)
  {
  }

  /** Fruits raise the airflow from 60 to 75. */
  lemma FruitsRaiseAirflow(items: seq<DetectedItem>)
    ensures SettingsFor(items).airflow == if HasFruits(items) then 75 else 60
  {
  }

  lemma FlagsFollowCategories(items: seq<DetectedItem>)
    ensures HasPerishables(items) <==> Meat in CategoriesOf(items) || Dairy in CategoriesOf(items)
    ensures HasVegetables(items) <==> Vegetables in CategoriesOf(items)
    ensures HasFruits(items) <==> Fruits in CategoriesOf(items)
  {
    var cats := CategoriesOf(items);
    if Meat in cats {
      var i :| 0 <= i < |items| && items[i].category == Meat;
    }
    if Dairy in cats {
      var i :| 0 <= i < |items| && items[i].category == Dairy;
    }
    if Vegetables in cats {
      var i :| 0 <= i < |items| && items[i].category == Vegetables;
    }
    if Fruits in cats {
      var i :| 0 <= i < |items| && items[i].category == Fruits;
    }
  }

  /** The recommendation depends only on which categories are present: reordering,
      duplicating or renaming items, or changing quantities and confidences, changes nothing
      but the random scores. */
  lemma RecommendationDependsOnlyOnCategories(a: seq<DetectedItem>, b: seq<DetectedItem>, e: real, p: real)
    requires CategoriesOf(a) == CategoriesOf(b)
    requires 0.0 <= e < 1.0 && 0.0 <= p < 1.0
    ensures GenerateRecommendations(a, e, p) == GenerateRecommendations(b, e, p)
  {
    FlagsFollowCategories(a);
    FlagsFollowCategories(b);
  }

  /** Scenario: a single dairy item. */
  lemma DairyScenario(item: DetectedItem)
    requires item.category == Dairy
    ensures SettingsFor([item]) == CoolerSettings(2, 70, 60, 8, Standard)
  {
    assert HasPerishables([item]) by { assert [item][0].category == Dairy; }
  }

  /** Scenario: a single fruit item. */
  lemma FruitScenario(item: DetectedItem)
    requires item.category == Fruits
    ensures SettingsFor([item]) == CoolerSettings(3, 65, 75, 8, Eco)
  {
    assert HasFruits([item]) by { assert [item][0].category == Fruits; }
  }

  /** Scenario: dairy, vegetables and fruits together. */
  lemma MixedScenario(d: DetectedItem, v: DetectedItem, f: DetectedItem)
    requires d.category == Dairy && v.category == Vegetables && f.category == Fruits
    ensures SettingsFor([d, v, f]) == CoolerSettings(2, 80, 75, 8, Standard)
  {
    var items := [d, v, f];
    assert HasPerishables(items) by { assert items[0].category == Dairy; }
    assert HasVegetables(items) by { assert items[1].category == Vegetables; }
    assert HasFruits(items) by { assert items[2].category == Fruits; }
  }
}
