# Thermal balance of a PWR nuclear power plant — Dafny model

This project models the core of NPP-THC, a desktop tool that computes the thermal
balance of a pressurised-water-reactor power plant. The model covers five parts:

- **The design input and the result records** (`parameters.dfy`, module `Parameters`).
  These are the input record with its derived default and its reference design point,
  the per-pass trace record, the detailed record and its heater, extraction and reheater
  rows.
- **The solver `Calculator::calculate`**:
  - `stages.dfy`, module `Stages`: the straight-line stage relations evaluated before the
    loops, and the helpers `calc_fwx`, `calc_esx` and `calc_rhx`.
  - `calc.dfy`, module `Calc`: the two nested convergence loops (condensate flow inside,
    plant efficiency outside), the trace they leave, the detailed record stored afterwards,
    and `get_results`.
  - The solver is a class whose methods run the loops with `while`. They are proved
    against the recursive specification functions `Inner` and `Outer`.
- **The text form of the input** (`input_type.dfy`, module `InputType`). It holds one
  string per field, and the two conversions between the numeric and the text record.
  Efficiencies and loss fractions are shown in percent.
- **The input tab** (`input_tab.dfy`, module `InputTab`). This is a class holding the text
  record. Its `Update` handles three messages: load a record, clear every field, or edit
  one field.
- **The Markdown report** (`result_formatter.dfy`, module `ResultFormatter`). The report
  is described as a sequence of pieces: fixed text, labelled numbers, and numbered group
  headings. The methods append the rendered text to a string, as the source does. They
  are proved to produce exactly the rendering of that sequence.

The external collaborators are parameters of the model:

- the IAPWS-IF97 steam tables, the natural logarithm and the outcome of a division by
  zero (`Steam.Env`, in `steam.dfy`);
- number formatting and parsing (`InputType.Text`);
- the four-decimal formatting of the report (`fmt`).

Everything is stated for every choice of these functions.

## Model

| member | source | states |
|---|---|---|
| Parameters.Default | calc/src/parameters.rs:5-83 | the derived default input has every field zero, so not every input-only divisor of the solver is nonzero |
| Parameters.FromDefault | calc/src/parameters.rs:91-133 | the reference design point has 7 heaters (4 low-pressure, 2 high-pressure), every efficiency in (0, 1], assumed efficiency 1 and condensate flow 1200, lies in the documented ranges and makes every input-only divisor nonzero |
| Parameters.DefaultResult2 | calc/src/parameters.rs:189-408 | the derived default of the detailed record has every one of its 100 numbers zero and empty row lists |
| Parameters.EmptyResults | calc/src/parameters.rs:135-141 | the derived default results have an empty trace and the default detailed record |
| Steam.ConvergedAtFixedPoint | calc/src/lib.rs:246 | the relative convergence test accepts a value equal to its predecessor (nonzero, positive tolerance) |
| Steam.ConvergedBound | calc/src/lib.rs:279 | for a positive predecessor, the relative test holds exactly when the absolute change is below tolerance times the predecessor |
| Stages.CoolantStage | calc/src/lib.rs:29-31 | outlet temperature is saturation minus subcooling; inlet is outlet minus the core temperature rise |
| Stages.LiveSteamStage | calc/src/lib.rs:34-38 | live steam state from pressure and quality; log-mean temperature difference of the steam generator |
| Stages.CondenserStage | calc/src/lib.rs:41-42 | condensing temperature is cooling-water inlet plus its rise plus the terminal difference; pressure is its saturation pressure |
| Stages.HpTurbineStage | calc/src/lib.rs:46-54 | HP inlet pressure after the live-steam loss, isenthalpic inlet, exhaust pressure ratio, exhaust drop equals mechanical times internal efficiency times the ideal drop |
| Stages.ReheatStage | calc/src/lib.rs:60-81 | separator and reheater pressures at 99/98/97 % of the HP exhaust (strictly decreasing); the two reheaters share the enthalpy rise equally; heating steam at the HP inlet state; drain enthalpy saturated liquid at the separator drain pressure and the second reheater's inlet temperature looked up from its pressure and enthalpy |
| Stages.LpTurbineStage | calc/src/lib.rs:85-94 | LP inlet pressure is `dp_f` times the reheater-outlet pressure and its enthalpy the reheater outlet's; exhaust pressure is condenser pressure over (1 - loss); isentropic expansion scaled by the LP efficiency; inlet temperature and exhaust dryness looked up from the inlet and exhaust states |
| Stages.FeedwaterRiseStage | calc/src/lib.rs:97-104 | the theoretical rise divides saturated water minus condensate into z + 1 parts; the optimum feedwater lies one rise below saturation; the actual rise is split into z parts |
| Stages.PumpsStage | calc/src/lib.rs:107-116 | deaerator at the separator drain pressure; HP and LP rises split the gaps over z_h and z_l + 1; condensate-pump pressure and the per-heater loss |
| Stages.CalcFwx | calc/src/lib.rs:514-531 | a heater echoes its inlet; outlet pressure is (inlet + loss) / 2 as written; outlet enthalpy rises by the HP rise; the drain lies theta_hu above the outlet temperature |
| Stages.CalcEsx | calc/src/lib.rs:534-541 | extraction pressure is the drain pressure over (1 - loss); extraction enthalpy is efficiency times the ideal drop from the HP inlet, as written |
| Stages.CalcRhx | calc/src/lib.rs:544-549 | a reheater tap echoes pressure and quality and takes temperature, enthalpy and drain enthalpy from the steam tables |
| Stages.HeaterChain | calc/src/lib.rs:119-144 | each heater takes its inlet from the previous one's outlet; the first LP heater starts at the condensate pump, the first HP heater at the feed pump |
| Stages.DrainsUseHighPressureDifference | calc/src/lib.rs:119-144 | every one of the six heaters, low-pressure included, has its drain theta_hu above its outlet temperature (theta_lu is never used) |
| Stages.ExtractionsFromHpInlet | calc/src/lib.rs:148-160 | all six extraction points expand from the HP inlet state, each at its own heater's drain pressure |
| Calc.FeedPumpBalance | calc/src/lib.rs:192-200 | pump head is the pressure rise from deaerator to pump outlet; the drive turbine's steam times its enthalpy drop covers the shaft power |
| Calc.TopLpBalance | calc/src/lib.rs:202-203 | the fourth LP heater's extraction steam, condensing to its drain with heater efficiency, heats the condensate |
| Calc.CascadeLpAsWritten | calc/src/lib.rs:204-212 | with the source's grouping, the water-side duty of a lower LP heater is not divided: only the cascaded drain heat is |
| Calc.LowPressureStage | calc/src/lib.rs:202-212 | the four LP extraction flows are computed top-down, each lower heater receiving the drains of all heaters above it |
| Calc.LpTurbineSteamBalance | calc/src/lib.rs:213-217 | LP turbine steam covers 60 % of the electric output after losses, plus the work the extractions do not do |
| Calc.ReheaterBalance | calc/src/lib.rs:219-220 | each reheater's heating steam, condensing with heater efficiency, supplies the LP steam's reheat |
| Calc.TopHpBalance | calc/src/lib.rs:222-223 | the seventh heater's extraction plus the second reheater's drain heat the feedwater |
| Calc.LowerHpAsWritten | calc/src/lib.rs:224-226 | with the source's grouping, only the cascaded drain term of the sixth heater is divided |
| Calc.HighPressureStage | calc/src/lib.rs:219-228 | the reheater steams, the two HP extractions and the separator drain, each in terms of its own balance |
| Calc.SeparatorBalance | calc/src/lib.rs:228 | separator drain is the moisture removed between inlet quality and the dried quality |
| Calc.DeaeratorBalance | calc/src/lib.rs:231-235 | deaerator energy balance, with the HP exhaust enthalpy as the heating steam's |
| Calc.HpTurbineSteamBalance | calc/src/lib.rs:237-241 | HP turbine steam covers 40 % of the output plus the extractions and the first reheater tap |
| Calc.PassBalance | calc/src/lib.rs:243-245 | a pass's live steam is pump-turbine plus second-reheater plus HP steam; its condensate is feedwater minus every other inflow |
| Calc.InnerStopsAtFirstAccepted | calc/src/lib.rs:191-252 | the inner loop returns the first iterate whose condensate flow meets the 1 % tolerance, and each pass starts from the previous pass's flows |
| Calc.ThermalPowerInvertsSteamOutput | calc/src/lib.rs:171-173 | the reactor power recomputed after the inner loop (253-254) equals the power the live-steam flow was derived from |
| Calc.PassRecord | calc/src/lib.rs:256-278 | the trace record holds the assumed efficiency, reactor power, live steam, condensate and feedwater flows, and every flow of the last inner pass |
| Calc.OuterTrace | calc/src/lib.rs:170-284 | the outer loop pushes one record per pass, at most one per allowed pass; the first record assumes the given efficiency and each later one `ne / q_r` of the record before; each record's live steam and reactor power follow from its efficiency, and its flows passed the inner loop's test |
| Calc.OuterStopsAtFirstAccepted | calc/src/lib.rs:279-283 | the outer loop stops at the first record whose efficiency meets the 0.1 % tolerance; every earlier record fails it |
| Calc.FixedPointPassesOnce | calc/src/lib.rs:279-283 | when the recomputed efficiency equals the assumed one, the outer loop stops after one record |
| Calc.OuterMakesOnePass | calc/src/lib.rs:253-283 | as written, when the rated power `ne`, the assumed efficiency, the primary-loop energy-utilisation coefficient `n_1` and the steam generator's heat per unit of steam are all nonzero, the outer loop makes one pass: it converges exactly when the inner loop does, keeps the efficiency and records `q_r = ne / ne_npp`, because the recomputed power equals the power used |
| Calc.HeaterRow | calc/src/lib.rs:378-417 | a heater row copies the heater, except that the outlet-enthalpy column holds the outlet pressure and the drain pressure is never assigned |
| Calc.ExtractionRow | calc/src/lib.rs:450-491 | an extraction row copies pressure, quality and enthalpies; its temperature is never assigned |
| Calc.Result2Of | calc/src/lib.rs:287-508 | the detailed record has 4 LP and 2 HP heater rows, 2 HP and 4 LP extraction rows and 2 reheater rows, in order; eta_li repeats n_hi; h_deao is the deaerator outlet of line 133 |
| Calc.Calculator.constructor | calc/src/lib.rs:19-24 | a new solver holds the input and empty results |
| Calc.Calculator.Calculate | calc/src/lib.rs:27-511 | runs both loops; the trace, the updated condensate flow and efficiency, and the detailed record are those of the specification `Outer`; the other inputs are unchanged |
| Calc.Calculator.CalculateFor | calc/src/lib.rs:170-508 | the same, for a plant state already derived from the input |
| Calc.Calculator.InnerLoop | calc/src/lib.rs:191-252 | the while loop ends in the state of the specification `Inner` and writes the accepted condensate flow back |
| Calc.Calculator.OuterPass | calc/src/lib.rs:171-283 | one outer pass pushes exactly the record of `StepOf` and updates the condensate flow |
| Calc.Calculator.Run | calc/src/lib.rs:170-284 | the outer while loop appends exactly the records of `Outer` and leaves its final condensate flow and efficiency |
| Calc.Calculator.GetResults | calc/src/lib.rs:569-575 | no results exactly when the trace is empty; otherwise the results themselves |
| InputType.ParseOrZero | src/npp_tabs/input/input_type.rs:169-172 | a string reads as the number it parses to, or zero |
| InputType.ToText | src/npp_tabs/input/input_type.rs:125-167 | each string is the shown value of the field of the same name, times 100 for the 20 percent fields |
| InputType.FromText | src/npp_tabs/input/input_type.rs:169-211 | each number is the parse (or zero) of the string of the same name, divided by 100 for the percent fields |
| InputType.EmptyText | src/npp_tabs/input/input_type.rs:45-123 | the derived default text record has every field empty |
| InputType.TextRoundTrip | src/npp_tabs/input/input_type.rs:125-211 | reading back a shown record gives the record again, whenever every shown number parses as itself |
| InputType.EmptyTextReadsZero | src/npp_tabs/input/input_type.rs:169-211 | the all-empty text record reads as the all-zero default input, as the empty string does not parse |
| InputType.EditOf | src/npp_tabs/input/input_type.rs:4-43 | every field has an edit message, and the field it names is recovered from it |
| InputTab.SetTextGetText | src/npp_tabs/input.rs:30-67 | an edit sets the named field to the new text and keeps every other field |
| InputTab.SetTextReadsOneField | src/npp_tabs/input.rs:30-67 | after an edit, only the named field reads differently, as the parse of the new text |
| InputTab.InputTab.constructor | src/npp_tabs/input.rs:20-23 | a new tab holds the all-empty text record |
| InputTab.InputTab.Update | src/npp_tabs/input.rs:26-70 | loading shows the record; clearing empties every field; an edit replaces exactly the named field's text |
| ResultFormatter.NatStrValue | src/npp_tabs/result/result_formatter.rs:15 | the decimal digits written for a group number denote exactly that number |
| ResultFormatter.GroupsPrefix | src/npp_tabs/result/result_formatter.rs:117-119 | the group of the element at index i is numbered i + 1 and follows the groups of all earlier elements |
| ResultFormatter.Result1Pieces | src/npp_tabs/result/result_formatter.rs:121-198 | a trace record is reported as 21 unindented labelled numbers, from eta_enpp to g_zc2, ending with a blank line |
| ResultFormatter.FwFieldPieces | src/npp_tabs/result/result_formatter.rs:16-51 | a heater row is reported as 9 labelled numbers indented by four spaces |
| ResultFormatter.HesFieldPieces | src/npp_tabs/result/result_formatter.rs:62-72 | an extraction row is reported as 5 labelled numbers indented by four spaces |
| ResultFormatter.RhxFieldPieces | src/npp_tabs/result/result_formatter.rs:83-102 | a reheater tap row is reported as 5 labelled numbers indented by four spaces |
| ResultFormatter.TableOnePieces | src/npp_tabs/result/result_formatter.rs:205-273 | appendix table one: a heading and 20 labelled numbers |
| ResultFormatter.TableTwoPieces | src/npp_tabs/result/result_formatter.rs:275-380 | appendix table two: a heading and 27 labelled numbers |
| ResultFormatter.FirstReheaterPieces | src/npp_tabs/result/result_formatter.rs:382-402 | first-reheater table: a heading and 5 labelled numbers |
| ResultFormatter.SecondReheaterPieces | src/npp_tabs/result/result_formatter.rs:404-444 | second-reheater table: a heading and 10 labelled numbers |
| ResultFormatter.LowPressureCylinderPieces | src/npp_tabs/result/result_formatter.rs:446-472 | LP cylinder table: a heading and 8 labelled numbers |
| ResultFormatter.RegenerationPieces | src/npp_tabs/result/result_formatter.rs:474-547 | regeneration table: a heading and 19 labelled numbers |
| ResultFormatter.DeaeratorPieces | src/npp_tabs/result/result_formatter.rs:551-567 | deaerator table: a heading and 4 labelled numbers |
| ResultFormatter.FeedPumpPieces | src/npp_tabs/result/result_formatter.rs:569-581 | feed-pump table: a heading and 3 labelled numbers |
| ResultFormatter.HpExtractionPieces | src/npp_tabs/result/result_formatter.rs:585-593 | HP extraction table: a heading and 2 labelled numbers |
| ResultFormatter.LpExtractionPieces | src/npp_tabs/result/result_formatter.rs:596-604 | LP extraction table: a heading and 2 labelled numbers |
| ResultFormatter.MainShape | src/npp_tabs/result/result_formatter.rs:114-199 | no trace gives only the notice; otherwise 21 numbers per record, and numbered group headings (one per record) only when there is more than one record |
| ResultFormatter.SectionShape | src/npp_tabs/result/result_formatter.rs:11-54 | a non-empty parameter section starts with its title, has one numbered group heading per row and n numbers per row |
| ResultFormatter.EmptySection | src/npp_tabs/result/result_formatter.rs:12 | an empty row list adds nothing, not even the title |
| ResultFormatter.FormatFwParams | src/npp_tabs/result/result_formatter.rs:11-54 | appends exactly the heater section to the buffer, keeping the existing text as a prefix |
| ResultFormatter.FormatHesParams | src/npp_tabs/result/result_formatter.rs:57-75 | appends exactly the extraction section to the buffer, keeping the existing text as a prefix |
| ResultFormatter.FormatRhxParams | src/npp_tabs/result/result_formatter.rs:78-105 | appends exactly the reheater section to the buffer, keeping the existing text as a prefix |
| ResultFormatter.FormatMainResults | src/npp_tabs/result/result_formatter.rs:114-199 | appends exactly the main-results part |
| ResultFormatter.FormatMachineTables | src/npp_tabs/result/result_formatter.rs:202-547 | appends the appendix title and its first six tables |
| ResultFormatter.FormatFeedwaterSystem | src/npp_tabs/result/result_formatter.rs:549-611 | appends the feedwater-system part with its parameter sections in source order |
| ResultFormatter.FormatAppendix | src/npp_tabs/result/result_formatter.rs:202-611 | appends exactly the appendix |
| ResultFormatter.FormatResultToMarkdown | src/npp_tabs/result/result_formatter.rs:108-613 | the report is the rendering of the document: the two titles, the main results, then the appendix; it begins with the two titles |
| ResultFormatter.DocumentBegins | src/npp_tabs/result/result_formatter.rs:108-113 | every report begins with the report title followed by the main-results title |

## Left out

- Floating point: `f64` arithmetic is modelled on exact reals. The percent conversion
  multiplies and then divides by 100, and is exact here. Rounding, infinities and NaN are
  not modelled, except that a division by zero yields the unspecified `Env.nonFinite`,
  which may be any real. A non-finite intermediate (a division by zero inside a pass) can
  therefore pass the model's convergence tests, where the program's comparison fails and
  its loop never ends.
- The steam tables (seuif97), `f64::ln`, `to_string`, `parse::<f64>` and the four-decimal
  `fmt_f64` are function parameters. No property of IF97 or of decimal formatting is
  modelled.
- Calc.Calculator.Calculate: the source loops are unbounded. The model bounds the outer
  loop by `fuel` passes and each inner loop by `budget` passes, and returns `false` when
  an allowance runs out. The source would then keep looping.
- Fields the source never assigns (`p_roxk` of a heater row, `t_hesx` of an extraction
  row) take the unspecified `Env.unset`. The struct literals at calc/src/lib.rs:378-417 and
  450-491 omit these fields and have no `..Default::default()`, although the structs declare
  them (calc/src/parameters.rs:429, 435). As written that code does not compile, and it
  gives those fields no value.
- Calculator errors: `calculate` always returns `Ok`, so the result is a flag for the
  fuel bound only.
- `save_parameters_to_file` and `save_results_to_file`: JSON file I/O, not modelled.
- `Display` for the input record and the serde derives: formatting and serialisation,
  not modelled.
- The GUI: the `view` and `content` functions of the tabs, the `Tab` trait
  implementations, the application's message routing, and the focus and scroll state.
- ResultFormatter.FormatResultToMarkdown: the `&mut String` buffer is an in-and-out
  string parameter. The one source function is split into `FormatMainResults`,
  `FormatMachineTables` and `FormatFeedwaterSystem` to keep the proofs small; the text
  appended is the same.
- Source behaviour kept as written, where the code departs from its evident design:
  - the heater rows put the outlet pressure in the outlet-enthalpy column;
  - `eta_li` repeats `n_hi`;
  - low-pressure heaters use `theta_hu`;
  - the cascaded LP and HP extraction formulas divide only the drain term;
  - the extraction enthalpy is efficiency times the ideal drop, not the inlet minus it;
  - the outer loop converges on its first pass;
  - `h_deao` in the detailed record is the deaerator outlet of line 133, not the
    saturated value of line 108;
  - the LP inlet pressure is `dp_f * p_rh2z` (calc/src/lib.rs:85), so with the reference
    `dp_f = 0.01` it is 1 % of the reheater-outlet pressure, not the 2 % loss the comment
    on line 84 describes;
  - the report labels the extraction temperature "(p_hesx)";
  - the report leaves a blank line between a heater row's drain enthalpy and drain
    pressure.
