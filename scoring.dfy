/** The scoring engine: turns a selection into an estimated salary and an
    itemized breakdown of where it comes from. */
module Scoring {
  import opened Coefficients
  import opened Text
  import Skills

  /** One row of the breakdown shown under the estimate. */
  datatype Line = Line(title: string, amount: int)

  /** The sum of the per-skill amounts, one term per listed skill. */
  function SkillSum(t: Table, skills: seq<string>): int
  {
    if skills == [] then 0 else Lookup(t.skills, skills[0]) + SkillSum(t, skills[1..])
  }

  /** The estimated salary of a selection. */
  function Total(t: Table, sel: Selection): int
  {
    t.base + Lookup(t.seniority, sel.seniority) + Lookup(t.location, sel.location)
      + Lookup(t.industry, sel.industry) + SkillSum(t, sel.skills)
  }

  function SkillsLabel(count: nat): string
  {
    "Skills Bonus (" + DecimalString(count) + ")"
  }

  /** The breakdown of a selection: base, seniority, location and industry
      always, then one aggregated skills line when the skills add something. */
  function Breakdown(t: Table, sel: Selection): seq<Line>
  {
    var fixed := [
      Line("Base Salary", t.base),
      Line("Seniority: " + sel.seniority, Lookup(t.seniority, sel.seniority)),
      Line("Location: " + sel.location, Lookup(t.location, sel.location)),
      Line("Industry: " + sel.industry, Lookup(t.industry, sel.industry))];
    var sum := SkillSum(t, sel.skills);
    if sum > 0 then fixed + [Line(SkillsLabel(|sel.skills|), sum)] else fixed
  }

  function SumAmounts(lines: seq<Line>): int
  {
    if lines == [] then 0 else lines[0].amount + SumAmounts(lines[1..])
  }

  lemma {:induction false} SkillSumAppend(t: Table, skills: seq<string>, skill: string)
    ensures SkillSum(t, skills + [skill]) == SkillSum(t, skills) + Lookup(t.skills, skill)
  {
    if skills != [] {
      assert (skills + [skill])[1..] == skills[1..] + [skill];
      SkillSumAppend(t, skills[1..], skill);
    }
  }

  /** `calculateSalary`: a running total that starts at the base amount, a
      list of breakdown lines that grows as each category is looked up, and a
      loop that adds up the amounts of the selected skills. */
  method CalculateSalary(t: Table, sel: Selection) returns (total: int, details: seq<Line>)
    ensures total == Total(t, sel)
    ensures details == Breakdown(t, sel)
  {
    total := t.base;
    details := [];
    details := details + [Line("Base Salary", t.base)];

    var seniorityBonus := Lookup(t.seniority, sel.seniority);
    total := total + seniorityBonus;
    details := details + [Line("Seniority: " + sel.seniority, seniorityBonus)];

    var locationBonus := Lookup(t.location, sel.location);
    total := total + locationBonus;
    details := details + [Line("Location: " + sel.location, locationBonus)];

    var industryBonus := Lookup(t.industry, sel.industry);
    total := total + industryBonus;
    details := details + [Line("Industry: " + sel.industry, industryBonus)];

    var skillBonusTotal := 0;
    var i := 0;
    while i < |sel.skills|
      invariant 0 <= i <= |sel.skills|
      invariant skillBonusTotal == SkillSum(t, sel.skills[..i])
    {
      SkillSumAppend(t, sel.skills[..i], sel.skills[i]);
      assert sel.skills[..i + 1] == sel.skills[..i] + [sel.skills[i]];
      skillBonusTotal := skillBonusTotal + Lookup(t.skills, sel.skills[i]);
      i := i + 1;
    }
    assert sel.skills[..i] == sel.skills;
    total := total + skillBonusTotal;
    if skillBonusTotal > 0 {
      details := details + [Line(SkillsLabel(|sel.skills|), skillBonusTotal)];
    }
  }

  /** The breakdown always opens with the same four rows in the same order,
      and has a fifth, aggregated skills row exactly when the skills add a
      positive amount; that row carries the number of selected skills and
      their summed amount. */
  lemma BreakdownShape(t: Table, sel: Selection)
    ensures var b := Breakdown(t, sel);
      && 4 <= |b| <= 5
      && b[0] == Line("Base Salary", t.base)
      && b[1] == Line("Seniority: " + sel.seniority, Lookup(t.seniority, sel.seniority))
      && b[2] == Line("Location: " + sel.location, Lookup(t.location, sel.location))
      && b[3] == Line("Industry: " + sel.industry, Lookup(t.industry, sel.industry))
      && (|b| == 5 <==> SkillSum(t, sel.skills) > 0)
      && (|b| == 5 ==> b[4] == Line(SkillsLabel(|sel.skills|), SkillSum(t, sel.skills)))
  {
  }

  /** Skills with non-negative amounts never add up to a negative bonus. */
  lemma {:induction false} SkillSumNonNegative(t: Table, skills: seq<string>)
    requires NonNegative(t.skills)
    ensures SkillSum(t, skills) >= 0
  {
    if skills != [] {
      SkillSumNonNegative(t, skills[1..]);
    }
  }

  /** The rows of the breakdown add up to the total exactly when the skills
      bonus is not negative: a negative bonus is added to the total but gets
      no row, because the skills row is only emitted for a positive bonus. */
  lemma Reconciliation(t: Table, sel: Selection)
    ensures SumAmounts(Breakdown(t, sel)) == Total(t, sel) <==> SkillSum(t, sel.skills) >= 0
  {
    var b := Breakdown(t, sel);
    var sum := SkillSum(t, sel.skills);
    assert SumAmounts(b[4..]) == (if sum > 0 then sum else 0);
    assert SumAmounts(b[3..]) == b[3].amount + SumAmounts(b[4..]);
    assert SumAmounts(b[2..]) == b[2].amount + SumAmounts(b[3..]);
    assert SumAmounts(b[1..]) == b[1].amount + SumAmounts(b[2..]);
  }

  /** With skill amounts that are never negative, as in the shipped table,
      the breakdown always reconciles with the total. */
  lemma ReconciliationNonNegative(t: Table, sel: Selection)
    requires NonNegative(t.skills)
    ensures SumAmounts(Breakdown(t, sel)) == Total(t, sel)
  {
    SkillSumNonNegative(t, sel.skills);
    Reconciliation(t, sel);
  }

  lemma SalaryTableReconciles(sel: Selection)
    ensures SumAmounts(Breakdown(SalaryTable, sel)) == Total(SalaryTable, sel)
  {
    SalaryTableSkillsNonNegative();
    ReconciliationNonNegative(SalaryTable, sel);
  }

  /** A choice missing from its category has a zero row and leaves the total
      as if that category did not exist. */
  lemma UnknownChoiceContributesNothing(t: Table, sel: Selection)
    requires sel.location !in t.location
    ensures Breakdown(t, sel)[2].amount == 0
    ensures Total(t, sel) == t.base + Lookup(t.seniority, sel.seniority)
                             + Lookup(t.industry, sel.industry) + SkillSum(t, sel.skills)
  {
  }

  /** For selections without repeated skills, a chip click moves the total
      by exactly that skill's amount: down when it was selected, up when not. */
  lemma {:induction false} ToggleMovesTotal(t: Table, sel: Selection, skill: string)
    requires Skills.NoDuplicates(sel.skills)
    ensures Total(t, sel.(skills := Skills.Toggle(sel.skills, skill)))
         == Total(t, sel) + (if skill in sel.skills then -Lookup(t.skills, skill)
                             else Lookup(t.skills, skill))
  {
    if skill in sel.skills {
      SkillSumWithoutOnce(t, sel.skills, skill);
    } else {
      SkillSumAppend(t, sel.skills, skill);
    }
  }

  lemma {:induction false} SkillSumWithoutOnce(t: Table, skills: seq<string>, skill: string)
    requires Skills.NoDuplicates(skills)
    requires skill in skills
    ensures SkillSum(t, Skills.Without(skills, skill)) == SkillSum(t, skills) - Lookup(t.skills, skill)
  {
    if skills[0] == skill {
      assert skill !in skills[1..];
      Skills.WithoutAbsent(skills[1..], skill);
    } else {
      SkillSumWithoutOnce(t, skills[1..], skill);
    }
  }

  /** Senior / Remote / Technology / [SQL]: 160000 with five rows. */
  lemma SeniorRemoteExample()
    ensures var sel := Selection("Senior", "Remote", "Technology", ["SQL"]);
      Total(SalaryTable, sel) == 160000 && |Breakdown(SalaryTable, sel)| == 5
  {
  }

  /** The initial selection: 150000 with four rows. */
  lemma DefaultSelectionExample()
    ensures Total(SalaryTable, DefaultSelection) == 150000
    ensures |Breakdown(SalaryTable, DefaultSelection)| == 4
  {
  }
}
