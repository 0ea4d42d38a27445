# Carbon footprint calculator: emission model and advice selection

This project models the two pieces of domain logic in the carbon footprint
monitoring tool (`main.py`).

1. The emission calculation. Seven answers go in: the monthly electricity,
   gas and fuel bills in euros, the monthly waste in kg, the recycled share
   in percent, the km travelled per year, and the fuel efficiency in
   litres per 100 km. Five conversion factors are fixed when the calculator
   is created. The result is a breakdown of annual kgCO2 into energy, waste,
   travel and total.
2. The advice selection. Three fixed, numbered recommendation lists belong
   to the three categories. The report shows a category's list when that
   category strictly exceeds both others. Otherwise it shows a two-line
   generic list. The chosen lines are joined with newlines.

Files:

- `footprint.dfy` (module `Footprint`). The factors, the inputs and the
  breakdown are datatypes. Each of the three formulas is a function over
  `real`. `CalculateFootprint` combines them. The lemmas prove
  non-negativity; linearity in each bill, the waste mass, the distance and
  the fuel efficiency; an affine dependence on the recycled share; the
  recycling threshold; the zero case and the two worked scenarios.
- `lines.dfy` (module `Lines`). `JoinLines` models Python's `"\n".join`.
  Its inverse `SplitLines` splits a text at newlines. The lemmas prove the
  round trip, the newline count and where the joined text starts and ends.
- `advice.dfy` (module `Advice`). `DominantCategory` and `AdviceLines` are
  the reference definition of which lines are shown. The method
  `GenerateAdvice` follows the source step by step: three independent
  guarded blocks append to a local sequence, the fallback is added when
  that sequence is still empty, and the lines are joined. The method is
  proved to return `JoinLines(AdviceLines(b))`. The lemmas prove mutual
  exclusion, the if-and-only-if conditions, the tie-goes-to-fallback rule
  and the shape of the text.

Modelling decisions:

- The calculator sets its five factors once, in its constructor
  (main.py:13-17), and never updates them. So they are an immutable
  `Factors` value passed to each formula, and `DefaultFactors` holds the
  source's literals. No class is needed.
- Quantities are exact `real`s. Python's `/` on these floats is true
  division, so `recycle_percent / 100` and `km_year / 100` are real
  division here too.
- The waste formula (main.py:47) subtracts `recycle_percent / 100` from
  the per-kg factor, not from the mass × factor product. So the waste figure is zero at 57 % recycling with the default
  factors, and negative above that for any positive mass. Nothing clamps it.
- The input prompt only accepts non-negative numbers (main.py:24-25), so
  lemmas that need non-negative inputs say so with `ValidInputs`. The
  formulas themselves are total and have no precondition, as in the source.
- Each advice line (the constants `EnergyTip1` … `FallbackTip2`) is written
  as a sum of short string literals. The value is the same text as the
  source's literal. The verifier can only inspect the characters of short
  literals, so each line also has its own small lemma
  (`EnergyTip1WellFormed` and so on) saying that it starts with its number
  and holds no newline.
- `DefaultFactors` and the eleven advice-line constants are constants, not
  functions, so they have no row of their own below. The rows of
  `Footprint.DefaultWasteThreshold`, `Footprint.OfficeScenario` and the four
  `…AdviceWellFormed` lemmas state what is proved about them.

## Model

| member | source | states |
|---|---|---|
| `Footprint.EnergyCO2` | main.py:46 | defines the energy figure: (electricity bill × electricity factor + gas bill × gas factor + fuel bill × fuel factor) × 12 (properties in the energy lemmas below) |
| `Footprint.WasteCO2` | main.py:47 | defines the waste figure: waste kg × (waste factor − recycled percent / 100) × 12, with no clamping (properties in the waste lemmas below) |
| `Footprint.TravelCO2` | main.py:48 | defines the travel figure: km per year / 100 × litres per 100 km × travel factor (properties in the travel lemmas below) |
| `Footprint.CalculateFootprint` | main.py:46-57 | the breakdown's energy, waste and travel entries are the three category formulas, and its total is exactly their sum |
| `Footprint.EnergyIsSumOfContributions` | main.py:46 | the energy figure is the sum over the three bills of bill × factor × 12 |
| `Footprint.EnergyNonNegative` | main.py:46 | non-negative bills and factors give a non-negative energy figure |
| `Footprint.EnergyLinearInBill` | main.py:46 | scaling any one bill by k scales that bill's contribution by k and leaves the rest of the energy figure unchanged |
| `Footprint.WasteWithoutRecycling` | main.py:47 | with 0 % recycled the waste figure is mass × waste factor × 12 |
| `Footprint.WasteVanishesAtThreshold` | main.py:47 | a recycled share of 100 × waste factor makes the waste figure 0 for every mass |
| `Footprint.WasteNonNegativeUpToThreshold` | main.py:47 | for non-negative mass and a recycled share at most 100 × waste factor, the waste figure is not negative |
| `Footprint.WasteNegativeAboveThreshold` | main.py:47 | for positive mass and a recycled share above 100 × waste factor, the waste figure is negative (no clamping) |
| `Footprint.DefaultWasteThreshold` | main.py:47 | with `DefaultFactors` (the literals of main.py:13-17, waste factor 0.57): zero at exactly 57 %, negative above 57 % for positive mass, non-negative up to 57 % |
| `Footprint.WasteLinearInMass` | main.py:47 | scaling the waste mass by k scales the waste figure by k |
| `Footprint.WasteAffineInRecycling` | main.py:47 | raising the recycled share by d lowers the waste figure by mass × d × 12 / 100 |
| `Footprint.TravelNonNegative` | main.py:48 | non-negative distance, efficiency and factor give a non-negative travel figure |
| `Footprint.TravelLinear` | main.py:48 | scaling the yearly km, or the fuel efficiency, by k scales the travel figure by k |
| `Footprint.ZeroInputsGiveZeroBreakdown` | main.py:46-57 | all-zero answers give an all-zero breakdown, for any factors |
| `Footprint.BreakdownNonNegative` | main.py:46-51 | valid answers with recycling up to the threshold give four non-negative figures |
| `Footprint.OfficeScenario` | main.py:46-51 | the answers (100, 50, 0, 200, 50, 10000, 8) with `DefaultFactors` (0.0005, 0.0053, 2.32, 0.57, 2.31 as at main.py:13-17) give energy 3.78, waste 168, travel 1848, total 2019.78 |
| `Footprint.WasteOnlyScenario` | main.py:46-51 | 10 kg of unrecycled waste and nothing else give waste 68.4, total 68.4, the rest 0 |
| `Lines.JoinLines` | main.py:160 | defines `"\n".join`: the lines with one newline between each two and none after the last; the empty list joins to "" (properties in the three lemmas below) |
| `Lines.SplitJoinRoundTrip` | main.py:160 | splitting the newline join of one or more newline-free lines at newlines gives back exactly those lines |
| `Lines.JoinNewlineCount` | main.py:160 | the join of n newline-free lines holds exactly n − 1 newlines |
| `Lines.JoinEnds` | main.py:160 | the joined text starts with the first line and ends with the last line, so no newline follows the last line |
| `Advice.Dominates` | main.py:141-151 | defines each branch guard as written: the category's value is strictly greater than each of the other two |
| `Advice.DominantCategory` | main.py:141-154 | a category is returned only if it strictly exceeds both others; None only if no category does |
| `Advice.AdviceLines` | main.py:141-158 | the reference definition of the shown lines: the dominant category's three lines, otherwise the two fallback lines (characterised by the iff lemmas below) |
| `Advice.GenerateAdvice` | main.py:137-160 | the three independent blocks and the empty-list fallback return exactly the newline join of `AdviceLines(b)` |
| `Advice.DominatesIffStrictMaximum` | main.py:141-151 | a branch's two strict comparisons hold iff that category's value exceeds every other category's |
| `Advice.AtMostOneDominates` | main.py:141-154 | no two of the three branch conditions can hold at once |
| `Advice.CategoryAdviceIffDominates` | main.py:141-154 | a category's three lines are the advice iff that category strictly exceeds both others |
| `Advice.FallbackIffNoDominant` | main.py:156-158 | the two fallback lines are the advice iff no category strictly exceeds both others |
| `Advice.TiedMaximumGivesFallback` | main.py:141-158 | when two categories share the largest value (for example all three equal), only the fallback is given |
| `Advice.EnergyAdviceWellFormed` | main.py:142-144 | the energy list (`EnergyTip1`-`EnergyTip3`) has three lines, numbered "1. " to "3. ", none holding a newline |
| `Advice.WasteAdviceWellFormed` | main.py:147-149 | the waste list (`WasteTip1`-`WasteTip3`) has three lines, numbered "1. " to "3. ", none holding a newline |
| `Advice.TravelAdviceWellFormed` | main.py:152-154 | the travel list (`TravelTip1`-`TravelTip3`) has three lines, numbered "1. " to "3. ", none holding a newline |
| `Advice.FallbackAdviceWellFormed` | main.py:157-158 | the fallback list (`FallbackTip1`, `FallbackTip2`) has two lines, numbered "1. " and "2. ", none holding a newline |
| `Advice.AdviceShape` | main.py:139-158 | a category branch gives 3 lines and the fallback 2; line k starts with "k+1. "; no line holds a newline |
| `Advice.AdviceTextShape` | main.py:156-160 | the returned text is never empty, does not end in a newline, has one newline fewer than it has lines, and splits back into those lines |
| `Advice.OfficeScenarioAdvice` | main.py:151-154 | in the office scenario travel dominates and the travel advice is given |
| `Advice.WasteOnlyScenarioAdvice` | main.py:146-149 | in the waste-only scenario the waste advice is given |
| `Advice.ZeroInputsAdvice` | main.py:156-158 | all-zero answers tie all categories at 0 and give the fallback advice |

## Left out

- `get_input` (main.py:19-28) is left out: it is an interactive retry loop over `input()`. The model keeps only what it guarantees, that every answer is a non-negative number (`ValidInputs`).
- The prompting in `calculate_footprint` (main.py:33-43) is console I/O. The model starts from the seven answers as an `Inputs` value.
- `PDFReport` and `generate_report` (main.py:61-135) are left out. They lay out a PDF through the external `fpdf` library and write it to a file. This includes the two-decimal formatting of the figures (main.py:115-118).
- `main` (main.py:161-172) is left out. It only orchestrates and does console I/O.
- The unused `json` import (main.py:4) has no behaviour to model.
- All members of `Footprint`: the model uses exact real arithmetic, while the source uses IEEE-754 doubles. So the source's results can differ from the model's in the last bits. Overflow to ±infinity (and NaN totals) for very large finite inputs is not modelled either: with a fuel bill of 1e308, main.py:46 gives `inf`; with a huge waste mass and more than 57 % recycled, main.py:47 gives `-inf`, and main.py:51 can then add `inf` and `-inf` into a NaN total. The model returns finite reals for all of these. A tie that holds exactly over the reals may also not hold in floating point, so a different advice branch could be chosen there.
- Inputs that are not finite (NaN, infinity) cannot occur over `real`. `float()` accepts "nan" and "inf", and the prompt's `< 0` test does not reject them. The model does not cover these values.
