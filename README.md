# FINKET savings simulator, modelled in Dafny

FINKET is a Streamlit financial-education dashboard. Its only computational
part is the "Simulador de Ahorro e Inversión" panel. The user enters a savings
goal (`meta`), a horizon in months (`plazo`, 1 to 60), current savings
(`inicial`) and a monthly contribution (`mensual`), and picks one of two
strategies. The panel then:

1. takes a nominal annual rate (`tasa`) from the strategy: 10% for
   "CETES (Renta Fija)", 12% for any other label;
2. runs a loop `plazo` times: the contribution is added to the running balance
   (`acumulado`), the balance is multiplied by `1 + tasa/12`, and the new
   balance is appended to the charted list `valores`;
3. deflates the final balance by a fixed 4.5% annual inflation over
   `plazo/12` years (`valor_real`);
4. shows a success message when `valor_real >= meta`, and a warning otherwise.

`simulator.dfy` (module `Simulator`) models this block:

- the strategy as the datatype `Strategy`, with `ParseStrategy` reading the
  selector label and `Rate` giving the rate;
- the compounding as the recursive specification functions `Balance` (the
  running balance after `n` months) and `Trajectory` (the charted list);
- the loop as the method `Simulate`, whose `while` loop keeps
  `accumulated == Balance(..., i)` and `values == Trajectory(..., i)`;
- the inflation adjustment as `RealValue`, and the goal test as `GoalOutcome`;
- the whole panel as the method `RunSimulator`.

Money is modelled with exact `real` values. The deflator
`(1 + 0.045) ** (plazo / 12)` has a fractional exponent, which Dafny cannot
evaluate. It is therefore a parameter `deflator`, characterised rather than
computed. `ValidDeflator` requires it to be above 1 and to satisfy
`Pow(deflator, 12) == Pow(1.045, plazo)`: it is the positive twelfth root of
`1.045 ** plazo`, which is exactly `1.045 ** (plazo / 12)`.
`ValidDeflatorUnique` proves that at most one value meets this, so the real
value and the goal outcome are determined by the inputs. `ValidDeflator` also
states the consequences `Pow(1.045, plazo / 12) <= deflator <= Pow(1.045,
plazo / 12 + 1)`, and `deflator == Pow(1.045, plazo / 12)` for whole years.

The loop cannot change its inputs `inicial`, `mensual`, `tasa` and `plazo`:
Dafny method parameters are immutable. The only things `Simulate` produces are
its two outputs, `accumulated` and `values`.

## Model

| member | source | states |
|---|---|---|
| `Simulator.ParseStrategy` | finket_app.py:84-86 | The strategy is fixed income exactly when the label equals "CETES (Renta Fija)". Every other label gives the variable-income strategy. |
| `Simulator.Rate` | finket_app.py:86 | The rate is always either 0.10 or 0.12, and it lies strictly between 0 and 1. |
| `Simulator.RateSelection` | finket_app.py:84-86 | The rate picked from a label is 0.10 if and only if the label is the CETES one, and 0.12 if and only if it is not. The second selector option gives the variable-income strategy. |
| `Simulator.Step` | finket_app.py:92 | No contract. Defines one month of the loop: `(prev + mensual) * (1 + tasa/12)`. |
| `Simulator.Balance` | finket_app.py:88-92 | No contract. Defines `acumulado` after `n` passes of the loop: `inicial` for `n = 0`, then `Step` of the previous balance. |
| `Simulator.Trajectory` | finket_app.py:89-93 | The charted list has exactly `plazo` entries, one appended per iteration. |
| `Simulator.TrajectoryShape` | finket_app.py:88-93 | Entry `k` of the charted list is the balance after month `k + 1`. |
| `Simulator.TrajectoryRecurrence` | finket_app.py:88-93 | The first entry is `(inicial + mensual) * (1 + tasa/12)`. Every later entry is `(previous entry + mensual) * (1 + tasa/12)`. |
| `Simulator.TrajectorySingleMonth` | finket_app.py:91-93 | A one-month horizon charts exactly the single value `(inicial + mensual) * (1 + tasa/12)`. |
| `Simulator.StepGrows` | finket_app.py:92 | With non-negative inputs, one month never leaves less than the previous balance plus the contribution. |
| `Simulator.BalanceCoversContributions` | finket_app.py:88-93 | With non-negative inputs, the balance after `n` months is at least `inicial + n * mensual`. In particular it is never negative. |
| `Simulator.BalanceMonotone` | finket_app.py:88-93 | With non-negative inputs, the balance never decreases from one month to a later one. |
| `Simulator.TrajectoryNonNegativeSorted` | finket_app.py:88-93 | With non-negative inputs, every charted entry is at least 0 and the list is non-decreasing. The first entry is at least `inicial`. |
| `Simulator.ZeroSavingsStayZero` | finket_app.py:88-93 | With no initial savings and no contribution, the balance stays 0 for every horizon and rate. |
| `Simulator.Simulate` | finket_app.py:88-93 | The loop returns the final balance `Balance(plazo)` and the list `Trajectory(plazo)`, of length `plazo`. For `plazo >= 1` the final balance is the last entry of the list. For an empty loop it is `inicial`. |
| `Simulator.Pow` | finket_app.py:95 | No contract. Defines `base` raised to a natural power, used for the deflator over whole years. |
| `Simulator.PowAboveOne` | finket_app.py:95 | A base above 1 raised to a positive whole power is above 1. |
| `Simulator.ValidDeflator` | finket_app.py:87-95 | No contract. Characterises `(1 + inflacion) ** (plazo / 12)`: D > 1 and D^12 == 1.045^plazo. It also states `1.045^(plazo div 12) <= D <= 1.045^(plazo div 12 + 1)`, and D == 1.045^(plazo/12) when plazo is a multiple of 12. |
| `Simulator.ValidDeflatorUnique` | finket_app.py:87-95 | Two deflators that both meet `ValidDeflator` for the same horizon are equal. So the deflator, the real value and the goal outcome are fixed by the inputs. |
| `Simulator.WholeYearDeflator` | finket_app.py:87-95 | For a whole number of years, `1.045 ** years` meets every requirement of `ValidDeflator`: its twelfth power is `1.045 ** plazo`, and it is above 1. |
| `Simulator.RealValue` | finket_app.py:95 | The real value times the deflator gives back the nominal balance. A non-negative balance deflates to a value between 0 and the balance. A positive balance deflates to a strictly smaller value. |
| `Simulator.GoalOutcome` | finket_app.py:101-104 | The success message is chosen if and only if the real value is at least the goal. The warning is chosen if and only if it is below the goal. |
| `Simulator.RunSimulator` | finket_app.py:80-104 | Takes widget-constrained inputs: non-negative whole amounts and a horizon from 1 to 60. It computes the final balance and the list from the selected rate. The list has `plazo` non-negative, non-decreasing entries, starts at least at `inicial` and ends at the final balance. The real value is between 0 and the final balance and times the deflator gives the balance back. The real value times `1.045^(plazo div 12 + 1)` is at least the final balance. Success is shown exactly when the real value reaches the goal. |
| `Simulator.NothingSavedReachesOnlyZeroGoal` | finket_app.py:88-104 | With zero initial savings and zero contribution, the goal is reached if and only if it is 0, whatever the strategy, horizon and deflator. |

## Left out

- `ValidDeflator`: the deflator `(1 + 0.045) ** (plazo / 12)` is characterised, not computed. It is a parameter that must be the unique positive D with D^12 == 1.045^plazo. Dafny has no fractional real power to evaluate it with, and the model proves no existence of that root except for whole years (`WholeYearDeflator`).
- Floating-point rounding: every amount is an exact `real`. Python float rounding in the loop and in the division is not modelled.
- `load_base64_image` (finket_app.py:8-15): file reading and base64 encoding of the image assets.
- `aplicar_fondo`, the sidebar menu and the page markup (finket_app.py:18-79): CSS and HTML emission. Their only logic is string equality on the menu label.
- The input widgets (finket_app.py:80-84). Their constraints are preconditions and parameter types of `RunSimulator`: `nat` amounts and `1 <= months <= 60`.
- The currency display `f"${x:,.2f}"` of the two metrics (finket_app.py:97-99): float formatting for display only.
- The matplotlib chart (finket_app.py:106-114): a foreign plotting library. The model only produces the list that the chart plots.
- The static content panels (links, tips, news portals, company history; finket_app.py:115-385). These are literal data, printed without transformation.
- The unused `feedparser` import.
