/** Advice selection: which fixed list of recommendations the report shows,
    decided by which category of the breakdown strictly exceeds both others. */
module Advice {
  import opened Footprint
  import opened Lines

  datatype Option<T> = None | Some(value: T)

  /** The three categories of the breakdown the advice rule compares. */
  datatype Category = EnergyUse | WasteProduction | BusinessTravel

  function Value(b: Breakdown, c: Category): real {
    match c
    case EnergyUse => b.energy
    case WasteProduction => b.waste
    case BusinessTravel => b.travel
  }

  /** The guard of a category's branch: two strict comparisons against the
      other two categories. */
  predicate Dominates(b: Breakdown, c: Category) {
    match c
    case EnergyUse => b.energy > b.waste && b.energy > b.travel
    case WasteProduction => b.waste > b.energy && b.waste > b.travel
    case BusinessTravel => b.travel > b.energy && b.travel > b.waste
  }

  // Each line is spelled as short literal pieces so the verifier can see its
  // characters; the value is the same text (README.md, "Modelling decisions").
  // The *WellFormed lemmas further down state each line's number and that it
  // holds no newline, one line per lemma to keep each proof small.
  const EnergyTip1: string :=
    "1. " + "Reduce energy " + "consumption by " + "implementing " + "energy-efficient " +
      "practices and " + "using renewable " + "energy sources."
  const EnergyTip2: string :=
    "2. " + "Encourage the " + "use of " + "energy-saving " + "devices and " +
      "appliances."
  const EnergyTip3: string :=
    "3. " + "Conduct energy " + "audits to " + "identify areas " + "for improvement."
  const EnergyAdvice: seq<string> := [EnergyTip1, EnergyTip2, EnergyTip3]

  const WasteTip1: string :=
    "1. " + "Implement a " + "comprehensive " + "recycling " + "program to " +
      "reduce waste " + "production."
  const WasteTip2: string :=
    "2. " + "Educate " + "employees about " + "waste reduction " + "and proper " +
      "recycling " + "techniques."
  const WasteTip3: string :=
    "3. " + "Explore " + "opportunities " + "to compost " + "organic waste."
  const WasteAdvice: seq<string> := [WasteTip1, WasteTip2, WasteTip3]

  const TravelTip1: string :=
    "1. " + "Promote remote " + "work and " + "virtual " + "meetings to " +
      "reduce business " + "travel."
  const TravelTip2: string :=
    "2. " + "Encourage the " + "use of public " + "transportation, " + "carpooling, and " +
      "biking."
  const TravelTip3: string :=
    "3. " + "Invest in " + "fuel-efficient " + "or electric " + "vehicles for " +
      "business travel."
  const TravelAdvice: seq<string> := [TravelTip1, TravelTip2, TravelTip3]

  const FallbackTip1: string :=
    "1. " + "Continue to " + "monitor and " + "optimize energy " + "usage, waste " +
      "production, and " + "business travel."
  const FallbackTip2: string :=
    "2. " + "Engage " + "employees in " + "sustainability " + "initiatives and " +
      "create a " + "culture of " + "environmental " + "responsibility."
  const FallbackAdvice: seq<string> := [FallbackTip1, FallbackTip2]

  function CategoryAdvice(c: Category): seq<string> {
    match c
    case EnergyUse => EnergyAdvice
    case WasteProduction => WasteAdvice
    case BusinessTravel => TravelAdvice
  }

  /** The category strictly above both others, if there is one. */
  function DominantCategory(b: Breakdown): (r: Option<Category>)
    ensures r.Some? ==> Dominates(b, r.value)
    ensures r.None? ==> forall c :: !Dominates(b, c)
  {
    if Dominates(b, EnergyUse) then Some(EnergyUse)
    else if Dominates(b, WasteProduction) then Some(WasteProduction)
    else if Dominates(b, BusinessTravel) then Some(BusinessTravel)
    else None
  }

  /** The advice lines the report shows for a breakdown. */
  function AdviceLines(b: Breakdown): seq<string> {
    match DominantCategory(b)
    case Some(c) => CategoryAdvice(c)
    case None => FallbackAdvice
  }

  /** generate_advice: three independent guarded blocks that each append a
      category's three lines, then the two fallback lines if nothing was
      appended, then the newline join. */
  method GenerateAdvice(b: Breakdown) returns (text: string)
    ensures text == JoinLines(AdviceLines(b))
  {
    var advice: seq<string> := [];
    if b.energy > b.waste && b.energy > b.travel {
      advice := advice + [EnergyTip1];
      advice := advice + [EnergyTip2];
      advice := advice + [EnergyTip3];
      assert advice == EnergyAdvice;
    }
    if b.waste > b.energy && b.waste > b.travel {
      assert advice == [];
      advice := advice + [WasteTip1];
      advice := advice + [WasteTip2];
      advice := advice + [WasteTip3];
      assert advice == WasteAdvice;
    }
    if b.travel > b.energy && b.travel > b.waste {
      assert advice == [];
      advice := advice + [TravelTip1];
      advice := advice + [TravelTip2];
      advice := advice + [TravelTip3];
      assert advice == TravelAdvice;
    }
    assert advice == [] <==> DominantCategory(b).None?;
    if advice == [] {
      advice := advice + [FallbackTip1];
      advice := advice + [FallbackTip2];
      assert advice == FallbackAdvice;
    }
    assert advice == AdviceLines(b);
    text := JoinLines(advice);
  }

  // ---------------------------------------------------------------------------
  // The dominance rule

  /** The two comparisons of a guard say exactly that the category is the
      strict maximum of the three. */
  lemma DominatesIffStrictMaximum(b: Breakdown, c: Category)
    ensures Dominates(b, c) <==> forall d :: d != c ==> Value(b, c) > Value(b, d)
  {
    if forall d :: d != c ==> Value(b, c) > Value(b, d) {
      match c
      case EnergyUse =>
        assert Value(b, c) > Value(b, WasteProduction) && Value(b, c) > Value(b, BusinessTravel);
      case WasteProduction =>
        assert Value(b, c) > Value(b, EnergyUse) && Value(b, c) > Value(b, BusinessTravel);
      case BusinessTravel =>
        assert Value(b, c) > Value(b, EnergyUse) && Value(b, c) > Value(b, WasteProduction);
    }
  }

  /** At most one of the three guards holds. */
  lemma AtMostOneDominates(b: Breakdown, c: Category, d: Category)
    requires Dominates(b, c) && Dominates(b, d)
    ensures c == d
  {
  }

  lemma AdviceListsDistinct()
    ensures EnergyAdvice != WasteAdvice && EnergyAdvice != TravelAdvice && WasteAdvice != TravelAdvice
    ensures forall c :: CategoryAdvice(c) != FallbackAdvice
  {
    assert EnergyAdvice[0][3] == 'R';
    assert WasteAdvice[0][3] == 'I';
    assert TravelAdvice[0][3] == 'P';
  }

  /** A category's advice is shown exactly when that category strictly
      exceeds both others. */
  lemma CategoryAdviceIffDominates(b: Breakdown, c: Category)
    ensures AdviceLines(b) == CategoryAdvice(c) <==> Dominates(b, c)
  {
    AdviceListsDistinct();
    if Dominates(b, c) {
      var r := DominantCategory(b);
      AtMostOneDominates(b, r.value, c);
    }
  }

  /** The fallback is shown exactly when no category strictly exceeds both others. */
  lemma FallbackIffNoDominant(b: Breakdown)
    ensures AdviceLines(b) == FallbackAdvice <==> forall c :: !Dominates(b, c)
  {
    AdviceListsDistinct();
  }

  /** When the largest value is shared by two categories, only the fallback is shown. */
  lemma TiedMaximumGivesFallback(b: Breakdown, c: Category, d: Category)
    requires c != d && Value(b, c) == Value(b, d)
    requires forall e :: Value(b, e) <= Value(b, c)
    ensures AdviceLines(b) == FallbackAdvice
  {
    forall e ensures !Dominates(b, e) {
      DominatesIffStrictMaximum(b, e);
      if e == c {
        assert !(Value(b, c) > Value(b, d));
      } else {
        assert !(Value(b, e) > Value(b, c));
      }
    }
    FallbackIffNoDominant(b);
  }

  // ---------------------------------------------------------------------------
  // The shape of the advice

  function NumberPrefix(k: nat): string
    requires k < 9
  {
    [('1' as int + k) as char, '.', ' ']
  }

  /** Line k starts with "k+1. ". */
  predicate Numbered(lines: seq<string>)
    requires |lines| < 10
  {
    forall k :: 0 <= k < |lines| ==> NumberPrefix(k) <= lines[k]
  }

  lemma EnergyTip1WellFormed()
    ensures NumberPrefix(0) <= EnergyTip1 && Newline !in EnergyTip1
  {
    assert NumberPrefix(0) == "1. ";
  }

  lemma EnergyTip2WellFormed()
    ensures NumberPrefix(1) <= EnergyTip2 && Newline !in EnergyTip2
  {
    assert NumberPrefix(1) == "2. ";
  }

  lemma EnergyTip3WellFormed()
    ensures NumberPrefix(2) <= EnergyTip3 && Newline !in EnergyTip3
  {
    assert NumberPrefix(2) == "3. ";
  }

  lemma EnergyAdviceWellFormed()
    ensures |EnergyAdvice| == 3 && Numbered(EnergyAdvice) && NoNewlines(EnergyAdvice)
  {
    EnergyTip1WellFormed();
    EnergyTip2WellFormed();
    EnergyTip3WellFormed();
  }

  lemma WasteTip1WellFormed()
    ensures NumberPrefix(0) <= WasteTip1 && Newline !in WasteTip1
  {
    assert NumberPrefix(0) == "1. ";
  }

  lemma WasteTip2WellFormed()
    ensures NumberPrefix(1) <= WasteTip2 && Newline !in WasteTip2
  {
    assert NumberPrefix(1) == "2. ";
  }

  lemma WasteTip3WellFormed()
    ensures NumberPrefix(2) <= WasteTip3 && Newline !in WasteTip3
  {
    assert NumberPrefix(2) == "3. ";
  }

  lemma WasteAdviceWellFormed()
    ensures |WasteAdvice| == 3 && Numbered(WasteAdvice) && NoNewlines(WasteAdvice)
  {
    WasteTip1WellFormed();
    WasteTip2WellFormed();
    WasteTip3WellFormed();
  }

  lemma TravelTip1WellFormed()
    ensures NumberPrefix(0) <= TravelTip1 && Newline !in TravelTip1
  {
    assert NumberPrefix(0) == "1. ";
  }

  lemma TravelTip2WellFormed()
    ensures NumberPrefix(1) <= TravelTip2 && Newline !in TravelTip2
  {
    assert NumberPrefix(1) == "2. ";
  }

  lemma TravelTip3WellFormed()
    ensures NumberPrefix(2) <= TravelTip3 && Newline !in TravelTip3
  {
    assert NumberPrefix(2) == "3. ";
  }

  lemma TravelAdviceWellFormed()
    ensures |TravelAdvice| == 3 && Numbered(TravelAdvice) && NoNewlines(TravelAdvice)
  {
    TravelTip1WellFormed();
    TravelTip2WellFormed();
    TravelTip3WellFormed();
  }

  lemma FallbackTip1WellFormed()
    ensures NumberPrefix(0) <= FallbackTip1 && Newline !in FallbackTip1
  {
    assert NumberPrefix(0) == "1. ";
  }

  lemma FallbackTip2WellFormed()
    ensures NumberPrefix(1) <= FallbackTip2 && Newline !in FallbackTip2
  {
    assert NumberPrefix(1) == "2. ";
  }

  lemma FallbackAdviceWellFormed()
    ensures |FallbackAdvice| == 2 && Numbered(FallbackAdvice) && NoNewlines(FallbackAdvice)
  {
    FallbackTip1WellFormed();
    FallbackTip2WellFormed();
  }

  /** A category's advice has three lines numbered "1. " to "3. ", the
      fallback two numbered "1. " and "2. "; no line holds a newline. */
  lemma AdviceShape(b: Breakdown)
    ensures var lines := AdviceLines(b);
      (DominantCategory(b).Some? ==> |lines| == 3) &&
      (DominantCategory(b).None? ==> |lines| == 2) &&
      Numbered(lines) && NoNewlines(lines)
  {
    match DominantCategory(b)
    case Some(EnergyUse) => EnergyAdviceWellFormed();
    case Some(WasteProduction) => WasteAdviceWellFormed();
    case Some(BusinessTravel) => TravelAdviceWellFormed();
    case None => FallbackAdviceWellFormed();
  }

  /** The returned text is never empty, has one newline fewer than lines, ends
      with the last line (no trailing newline), and splits back into the lines. */
  lemma AdviceTextShape(b: Breakdown)
    ensures var lines := AdviceLines(b);
      var text := JoinLines(lines);
      |text| > 0 &&
      text[|text| - 1] != Newline &&
      CountNewlines(text) == |lines| - 1 &&
      SplitLines(text) == lines
  {
    var lines := AdviceLines(b);
    var text := JoinLines(lines);
    AdviceShape(b);
    JoinEnds(lines);
    var last := lines[|lines| - 1];
    assert text[|text| - |last|..] == last;
    assert text[|text| - 1] == last[|last| - 1];
    assert last[|last| - 1] in last;
    JoinNewlineCount(lines);
    SplitJoinRoundTrip(lines);
  }

  // ---------------------------------------------------------------------------
  // Scenarios

  /** In the office scenario travel dominates, so the travel advice is shown. */
  lemma OfficeScenarioAdvice()
    ensures AdviceLines(CalculateFootprint(Inputs(100.0, 50.0, 0.0, 200.0, 50.0, 10000.0, 8.0), DefaultFactors))
         == TravelAdvice
  {
    OfficeScenario();
  }

  /** With only unrecycled waste the waste advice is shown. */
  lemma WasteOnlyScenarioAdvice()
    ensures AdviceLines(CalculateFootprint(Inputs(0.0, 0.0, 0.0, 10.0, 0.0, 0.0, 0.0), DefaultFactors))
         == WasteAdvice
  {
    var b := CalculateFootprint(Inputs(0.0, 0.0, 0.0, 10.0, 0.0, 0.0, 0.0), DefaultFactors);
    assert b == Breakdown(0.0, 68.4, 0.0, 68.4) by {
      WasteOnlyScenario();
    }
    assert Dominates(b, WasteProduction);
  }

  /** All-zero answers tie all three categories at 0, so the fallback is shown. */
  lemma ZeroInputsAdvice(f: Factors)
    ensures AdviceLines(CalculateFootprint(Inputs(0.0, 0.0, 0.0, 0.0, 0.0, 0.0, 0.0), f)) == FallbackAdvice
  {
    ZeroInputsGiveZeroBreakdown(f);
  }
}
