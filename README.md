# Shield friction calculator: verified model of the calculation chain

This project models the geomechanical core of a shield friction calculator
for tunnel-boring machines (TBMs). The calculator estimates the resistance
on the machine's cylindrical shield as it advances through soil. The model
covers the two input bundles and the eight steps of the chain, in their
fixed order:

1. Vertical stress `rho * g * h`, with `g = 9.81`.
2. Horizontal stress by one of three lateral earth pressure methods:
   At Rest (`K0 * sv`), Active (`Ka * sv - 2c * sqrt(Ka)`) and Passive
   (`Kp * sv + 2c * sqrt(Kp)`). Here `Ka = tan^2(pi/4 - phi/2)` and
   `Kp = tan^2(pi/4 + phi/2)`.
3. Hydrostatic pore pressure below the water table, with water density 1000.
4. Effective stress. The chain passes the horizontal stress in as the total
   stress.
5. Lateral area of the shield, `pi * D * L`.
6. Normal force. Face pressure is added to the effective stress before the
   sum is scaled by the area.
7. Coulomb shield friction.
8. Total resistance: friction plus the machine's weight.

Files:

- `properties.dfy` (module `Properties`): the soil and machine bundles as
  immutable datatypes, and the degrees-to-radians conversion applied once
  when the soil bundle is built.
- `stresses.dfy` (module `StressCalculator`): one function per step.
- `results.dfy` (module `ResultsAggregator`): the composed chain, which
  returns every intermediate value, and the lemmas that relate its steps.

How the numbers are modelled:

- All quantities are Dafny `real`.
- `math.pi` is the constant `PI = 3.141592653589793`, the digits Python
  prints for it. Almost every contract needs only that `PI` is a fixed
  positive real. The exception is `DefaultScenario`: it states the forces
  as exact multiples of `PI`, and its decimal bounds on the normal force and
  the total resistance rely on the first eight digits of `PI`.
- `math.tan` is foreign code. It is passed to the calculator as a parameter
  `tan: real -> real`, and nothing is assumed about its values.
- `math.sqrt(tan(x)**2)` is modelled as `|tan(x)|`. `ActiveRoot` and
  `PassiveRoot` prove that this is the non-negative square root of the
  coefficient.
- Only the three labels `"At Rest"`, `"Active"` and `"Passive"` select a
  method. `calculate_horizontal_stress` falls off its if/elif chain for any
  other label and returns `None`. `HorizontalStress` models this as an
  `Option` that is `None`.
- In the source, `None` would make the next step (`None - pore_pressure`)
  raise an exception. `Evaluate` therefore returns `None` for the whole
  chain. The dashboard's select box offers only the three labels, so this
  path cannot be reached from the user interface.

Facts about the code that the model keeps:

- Pore pressure is positive only when the depth is greater than the water
  table depth, and it is then proportional to `depth - waterTableDepth`
  (fric.py:39-41). At or above the water table it is zero.
- An unknown method label is not reported as an error. The dispatch returns
  `None` (fric.py:26-34), as described above.
- For the default inputs the normal force is exactly `14354400 * pi`, about
  45,095,678 N. The shield friction is about 13,528,703 N and the total
  resistance about 18,528,703 N. `DefaultScenario` proves the exact values.
- `TbmProperties` (fric.py:15-20) stores diameter, length, weight and face
  pressure exactly as given. The model uses the datatype's own constructor
  for it, so it has no separate function and no row below.

## Model

| member | source | states |
|---|---|---|
| Properties.Radians | fric.py:12 | converting back to degrees gives the input angle; 0 degrees maps to 0 and only 0 does; an angle in [0, 90) degrees lands in [0, pi/2) radians |
| Properties.NewSoilProperties | fric.py:8-13 | density, cohesion and K0 are kept as given; the friction angle is stored in radians, and converting it back gives the degree input; [0, 90) degrees becomes [0, pi/2) |
| StressCalculator.VerticalStress | fric.py:22-24 | zero at zero depth or zero density; non-negative for non-negative density and depth; for positive density, positive exactly when the depth is positive |
| StressCalculator.VerticalStressAdditiveInDepth | fric.py:22-24 | the stress at depth h1 + h2 is the sum of the stresses at h1 and at h2 |
| StressCalculator.VerticalStressScales | fric.py:22-24 | scaling depth, or scaling density, by k scales the vertical stress by k (doubling either doubles it) |
| StressCalculator.ParseMethod | fric.py:27-32 | a method is selected exactly when the label is one of "At Rest", "Active", "Passive", and the selected method's name is that label |
| StressCalculator.ParseMethodName | fric.py:27-32 | dispatching on a method's own label selects that method |
| StressCalculator.ActiveCoefficient | fric.py:30 | Ka is never negative |
| StressCalculator.PassiveCoefficient | fric.py:33 | Kp is never negative |
| StressCalculator.ActiveRoot | fric.py:31 | the value used for sqrt(Ka) is non-negative and squares to Ka |
| StressCalculator.PassiveRoot | fric.py:34 | the value used for sqrt(Kp) is non-negative and squares to Kp |
| StressCalculator.LateralStress | fric.py:27-34 | At Rest gives K0 * sv, so K0 = 1 gives sv; with cohesion >= 0, Active stays at or below Ka * sv and Passive at or above Kp * sv (non-negative for sv >= 0); without cohesion both reduce to coefficient times sv |
| StressCalculator.HorizontalStress | fric.py:26-34 | no value exactly when the label is not one of the three; otherwise the lateral stress of the method the label names |
| StressCalculator.ActiveStressLowerBound | fric.py:29-31 | for positive vertical stress the unclamped Active stress is never below -c^2 / sv, whatever tan returns |
| StressCalculator.ActiveBoundAttained | fric.py:29-31 | the Active stress is not clamped: when sqrt(Ka) = c / sv it equals -c^2 / sv exactly, so the floor is reached and the stress is negative for any non-zero cohesion |
| StressCalculator.ZeroFrictionAngle | fric.py:29-34 | at a zero friction angle, if tan(pi/4) has magnitude 1, Active gives sv - 2c and Passive gives sv + 2c |
| StressCalculator.PorePressure | fric.py:36-41 | never negative; zero exactly when depth <= water table depth; equals 1000 * 9.81 * max(0, depth - water table depth) |
| StressCalculator.PorePressureMonotone | fric.py:36-41 | pore pressure never decreases with depth |
| StressCalculator.EffectiveStress | fric.py:43-44 | effective stress plus pore pressure is the total stress; a non-negative pore pressure never raises it above the total |
| StressCalculator.ShieldSurfaceArea | fric.py:46-47 | non-negative for non-negative dimensions, positive for positive ones, and zero exactly when the diameter or the length is zero |
| StressCalculator.NormalForce | fric.py:49-51 | zero exactly when effective stress plus face pressure is zero or the area is zero; non-negative when that sum and the dimensions are non-negative |
| StressCalculator.ShieldFriction | fric.py:53-54 | friction divided by a non-zero normal force is the coefficient; friction is zero exactly when the normal force or the coefficient is zero; non-negative for non-negative inputs |
| StressCalculator.ShieldFrictionLinear | fric.py:53-54 | the friction of the sum of two normal forces is the sum of their frictions, and scaling the normal force by k scales the friction by k |
| StressCalculator.ShieldFrictionMonotone | fric.py:53-54 | with a non-negative coefficient, a larger normal force never gives less friction |
| StressCalculator.TotalResistance | fric.py:56-57 | resistance minus weight is the shield friction; resistance is at least the weight exactly when the friction is non-negative |
| ResultsAggregator.Evaluate | fric.py:188-194 | no result exactly when the method label is unknown; otherwise every intermediate is linked to the previous ones, with effective stress taken from the horizontal stress, normal force (sigma' + Pf) * pi * D * L, friction mu * N and resistance friction plus weight |
| ResultsAggregator.EffectiveStressAgainstWaterTable | fric.py:189-191 | effective stress equals horizontal stress at or above the water table and is strictly smaller below it |
| StressCalculator.ResistanceMonotoneInFacePressure | fric.py:49-57 | for steps 6 to 8 with mu, D, L >= 0, raising the face pressure by d raises the total resistance by exactly mu * d * pi * D * L, so it never lowers it |
| ResultsAggregator.ResistanceAtLeastWeight | fric.py:188-194 | with mu, D, L >= 0 and effective stress plus face pressure >= 0, the total resistance is at least the machine's weight |
| ResultsAggregator.DefaultScenario | fric.py:165-194 | the default inputs with At Rest give 176580, 88290, 49050 and 39240 Pa, normal force 14354400 * pi, friction 4306320 * pi and resistance 4306320 * pi + 5000000 |

## Left out

- The Streamlit dashboard is not modelled: input collection in the sidebar,
  the button, printing the results (fric.py:160-203, 215) and
  `display_formulas` (fric.py:59-98). These are presentation and I/O.
- The matplotlib drawing and animation are not modelled:
  `create_tbm_animation` and the redraw loop (fric.py:100-158, 205-213).
  They are foreign library calls whose only effect is a picture.
- Floating-point rounding is not modelled. All arithmetic is exact over the
  reals, so results that are exact here may differ from Python's in the
  last digits.
- The values of `math.tan` are not modelled, because `tan` is an arbitrary
  parameter. The Active and Passive results are therefore stated only
  through their sign and bound structure, and through the zero-angle case
  under the hypothesis `|tan(pi/4)| = 1`.
- `math.sqrt` is not modelled as a general function. It is only ever
  applied to a square, so it is modelled as the absolute value of the
  number being squared.
- The source does not validate its inputs (negative depth, angles outside
  [0, 90) degrees, negative dimensions), and neither does the model. Each
  sign property carries its own hypotheses instead.
- Determinism of the chain (two evaluations with the same inputs agree) is
  not stated as a lemma. `Evaluate` is a Dafny function, so it holds by
  construction.
