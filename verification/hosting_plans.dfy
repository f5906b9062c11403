/**
 * The plan comparison page of `src/pages/HostingPlans.jsx`: four plans priced
 * per month or per year, the yearly saving shown as a rounded percentage, and
 * a feature table whose cells show a check mark for a truthy value.
 *
 * Prices are integer cents; the saving is the exact rational percentage
 * rounded the way `Math.round` rounds, half up.
 */
module HostingPlans {
  import opened Optional
  import opened Text

  datatype Cycle = Monthly | Yearly

  /** A feature cell: `true`/`false`, a count such as 25, or a text such as "100 GB". */
  datatype FeatureValue = Flag(on: bool) | Count(n: nat) | Label(text: string)

  datatype Plan = Plan(name: string, monthlyCents: nat, yearlyCents: nat, features: map<string, FeatureValue>, popular: bool)

  /** The keys of the feature table, in display order. */
  const FeatureKeys: seq<string> := [
    "websites", "storage", "bandwidth", "databases", "emailAccounts", "ssl", "backups",
    "support", "cpanel", "oneClickInstall", "freeDomain", "migration", "prioritySupport"
  ]

  const Plans: seq<Plan> := [
    Plan("Starter", 299, 2999, map[
      "websites" := Count(1), "storage" := Label("10 GB"), "bandwidth" := Label("Unlimited"),
      "databases" := Count(5), "emailAccounts" := Count(5), "ssl" := Flag(true), "backups" := Flag(false),
      "support" := Label("24/7"), "cpanel" := Flag(true), "oneClickInstall" := Flag(true),
      "freeDomain" := Flag(true), "migration" := Flag(false), "prioritySupport" := Flag(false)], false),
    Plan("Professional", 499, 4999, map[
      "websites" := Label("Unlimited"), "storage" := Label("100 GB"), "bandwidth" := Label("Unlimited"),
      "databases" := Count(25), "emailAccounts" := Count(25), "ssl" := Flag(true), "backups" := Flag(true),
      "support" := Label("24/7"), "cpanel" := Flag(true), "oneClickInstall" := Flag(true),
      "freeDomain" := Flag(true), "migration" := Flag(true), "prioritySupport" := Flag(false)], true),
    Plan("Business", 899, 8999, map[
      "websites" := Label("Unlimited"), "storage" := Label("500 GB"), "bandwidth" := Label("Unlimited"),
      "databases" := Label("Unlimited"), "emailAccounts" := Label("Unlimited"), "ssl" := Flag(true), "backups" := Flag(true),
      "support" := Label("24/7"), "cpanel" := Flag(true), "oneClickInstall" := Flag(true),
      "freeDomain" := Flag(true), "migration" := Flag(true), "prioritySupport" := Flag(true)], false),
    Plan("Enterprise", 1999, 19999, map[
      "websites" := Label("Unlimited"), "storage" := Label("1 TB"), "bandwidth" := Label("Unlimited"),
      "databases" := Label("Unlimited"), "emailAccounts" := Label("Unlimited"), "ssl" := Flag(true), "backups" := Flag(true),
      "support" := Label("24/7"), "cpanel" := Flag(true), "oneClickInstall" := Flag(true),
      "freeDomain" := Flag(true), "migration" := Flag(true), "prioritySupport" := Flag(true)], false)
  ]

  /** `getPrice`: the price of the selected cycle. */
  function Price(plan: Plan, cycle: Cycle): nat
  {
    match cycle
    case Monthly => plan.monthlyCents
    case Yearly => plan.yearlyCents
  }

  /** The unit after the price. */
  function PriceSuffix(cycle: Cycle): (s: string)
    ensures s == "mo" <==> cycle == Monthly
    ensures cycle == Yearly ==> s == "yr"
  {
    if cycle == Monthly then "mo" else "yr"
  }

  /**
   * `getSavings`: 0 for monthly billing; for yearly billing the percentage by
   * which the yearly price undercuts twelve monthly prices, rounded half up.
   * A zero monthly price divides by zero and yields no number (`None`).
   */
  function Savings(plan: Plan, cycle: Cycle): (r: Option<int>)
    ensures cycle == Monthly ==> r == Some(0)
    ensures cycle == Yearly ==> (r.None? <==> plan.monthlyCents == 0)
    ensures cycle == Yearly && r.Some? ==>
      var d := 12 * plan.monthlyCents;
      var n := 100 * (d - plan.yearlyCents);
      2 * r.value * d <= 2 * n + d < 2 * (r.value + 1) * d
  {
    match cycle
    case Monthly => Some(0)
    case Yearly =>
      var d := 12 * plan.monthlyCents;
      if d == 0 then None
      else Some((2 * 100 * (d - plan.yearlyCents) + d) / (2 * d))
  }

  /** A product with a positive factor has the sign of the other factor. */
  lemma PositiveFactor(a: int, d: int)
    requires d > 0 && a * d > 0
    ensures a > 0
  {
  }

  lemma ScaleAtLeast(p: int, d: int)
    requires d > 0 && p >= 1
    ensures p * d >= d
  {
  }

  lemma ScaleAtMost(p: int, d: int)
    requires d > 0 && p <= 0
    ensures p * d <= 0
  {
  }

  /** The saving is at most the whole price, and never negative when the yearly price does not exceed twelve months'. */
  lemma SavingsBounded(plan: Plan)
    requires plan.monthlyCents > 0
    ensures Savings(plan, Yearly).value <= 100
    ensures plan.yearlyCents <= 12 * plan.monthlyCents ==> Savings(plan, Yearly).value >= 0
  {
    var d := 12 * plan.monthlyCents;
    var x := 200 * (d - plan.yearlyCents) + d;
    var p := Savings(plan, Yearly).value;
    assert 2 * p * d <= x <= 201 * d;
    assert (202 - 2 * p) * d > 0;
    PositiveFactor(202 - 2 * p, d);
    if plan.yearlyCents <= d {
      assert x < 2 * (p + 1) * d;
      assert (2 * (p + 1)) * d > 0;
      PositiveFactor(2 * (p + 1), d);
    }
  }

  /** "Save N%" appears exactly when billing is yearly and the rounded saving is positive. */
  predicate ShowsSavingsNote(plan: Plan, cycle: Cycle)
  {
    cycle == Yearly && Savings(plan, cycle).Some? && Savings(plan, cycle).value > 0
  }

  /** The note shows exactly when the yearly discount is at least half a percent of twelve months. */
  lemma SavingsNoteIff(plan: Plan)
    requires plan.monthlyCents > 0
    ensures ShowsSavingsNote(plan, Yearly) <==> 200 * Price(plan, Yearly) <= 199 * (12 * Price(plan, Monthly))
  {
    var d := 12 * plan.monthlyCents;
    var x := 200 * (d - plan.yearlyCents) + d;
    var p := Savings(plan, Yearly).value;
    if p > 0 {
      ScaleAtLeast(p, d);
      assert x >= 2 * p * d >= 2 * d;
    } else {
      ScaleAtMost(p, d);
      assert x < 2 * (p + 1) * d == 2 * p * d + 2 * d <= 2 * d;
    }
  }

  /** Monthly billing never shows the note. */
  lemma MonthlyHasNoNote(plan: Plan)
    ensures !ShowsSavingsNote(plan, Monthly)
  {
  }

  /** The four plans save 16, 17, 17 and 17 percent on yearly billing: within the advertised "up to 20%". */
  lemma PlanSavings()
    ensures Savings(Plans[0], Yearly) == Some(16)
    ensures Savings(Plans[1], Yearly) == Some(17)
    ensures Savings(Plans[2], Yearly) == Some(17)
    ensures Savings(Plans[3], Yearly) == Some(17)
    ensures forall i :: 0 <= i < |Plans| ==> ShowsSavingsNote(Plans[i], Yearly) && Savings(Plans[i], Yearly).value <= 20
  {
    assert (2 * 100 * (3588 - 2999) + 3588) / (2 * 3588) == 16;
    assert (2 * 100 * (5988 - 4999) + 5988) / (2 * 5988) == 17;
    assert (2 * 100 * (10788 - 8999) + 10788) / (2 * 10788) == 17;
    assert (2 * 100 * (23988 - 19999) + 23988) / (2 * 23988) == 17;
  }

  /** JavaScript truthiness of a feature value; a missing key is `undefined`, which is falsy. */
  predicate Truthy(v: Option<FeatureValue>)
  {
    match v
    case None => false
    case Some(Flag(b)) => b
    case Some(Count(n)) => n != 0
    case Some(Label(t)) => t != ""
  }

  function FeatureOf(plan: Plan, key: string): Option<FeatureValue>
  {
    if key in plan.features then Some(plan.features[key]) else None
  }

  /**
   * One row of the feature table: whether it shows a check mark, and the text
   * after the label. `true` reads "Yes"; `false` and a missing value render
   * nothing; a count or a text is shown as it is.
   */
  function FeatureCell(plan: Plan, key: string): (r: (bool, string))
    ensures r.0 <==> Truthy(FeatureOf(plan, key))
    ensures FeatureOf(plan, key) == Some(Flag(true)) ==> r.1 == "Yes"
    ensures FeatureOf(plan, key) == Some(Flag(false)) || FeatureOf(plan, key) == None ==> r.1 == ""
    ensures FeatureOf(plan, key).Some? && FeatureOf(plan, key).value.Label? ==> r.1 == FeatureOf(plan, key).value.text
    ensures FeatureOf(plan, key).Some? && FeatureOf(plan, key).value.Count? ==>
      IsDigits(r.1) && DecimalValue(r.1) == FeatureOf(plan, key).value.n
  {
    var v := FeatureOf(plan, key);
    var text := match v
      case None => ""
      case Some(Flag(b)) => if b then "Yes" else ""
      case Some(Count(n)) => Decimal(n)
      case Some(Label(t)) => t;
    (Truthy(v), text)
  }

  /** A plan without a feature shows a cross, not a check mark. */
  lemma MissingFeatureIsCrossed(plan: Plan, key: string)
    requires key !in plan.features
    ensures !FeatureCell(plan, key).0 && FeatureCell(plan, key).1 == ""
  {
  }

  /** Every plan defines every row of the table, and exactly one plan is marked popular. */
  lemma PlansAreComplete()
    ensures forall i, k :: 0 <= i < |Plans| && 0 <= k < |FeatureKeys| ==> FeatureKeys[k] in Plans[i].features
    ensures forall i :: 0 <= i < |Plans| ==> (Plans[i].popular <==> i == 1)
  {
  }

  /** Every plan's yearly price is below twelve of its monthly prices, so each shows the savings note. */
  lemma YearlyUndercutsMonthly()
    ensures forall i :: 0 <= i < |Plans| ==> Price(Plans[i], Yearly) < 12 * Price(Plans[i], Monthly)
    ensures forall i :: 0 <= i < |Plans| ==> ShowsSavingsNote(Plans[i], Yearly)
  {
    forall i | 0 <= i < |Plans|
      ensures ShowsSavingsNote(Plans[i], Yearly)
    {
      SavingsNoteIff(Plans[i]);
    }
  }
}
