/** The two nested convergence loops of `Calculator::calculate` (calc/src/lib.rs), the
    detailed result record it stores afterwards, and the `Calculator` object with its
    `calculate` and `get_results` operations. */
module Calc {
  import opened Wrappers
  import opened Steam
  import opened Parameters
  import opened Stages

  /** Relative tolerance of the inner (condensate-flow) loop. */
  const InnerTol: real := 0.01
  /** Relative tolerance of the outer (plant-efficiency) loop. */
  const OuterTol: real := 0.001

  // ---------------------------------------------------------------------------
  // One pass of the inner loop

  /** The feed pump: head, mean density, useful power, shaft power and the steam its
      driving turbine consumes. */
  datatype FeedPump = FeedPump(h_fwp: real, rho_fwp: real, n_fwpp: real, n_fwpt: real, g_fwps: real)

  /** The feed pump for feedwater flow `g_fw`. */
  function FeedPumpStage(env: Env, s: Plant, p: CalcInputParameters, g_fw: real): FeedPump
  {
    var h_fwp := s.train.p_fwpo - s.pumps.p_dea;
    var rho_fwp := 0.5 * (env.px(s.pumps.p_dea, 0.0, OD) + env.px(s.train.p_fwpo, 0.0, OD));
    var n_fwpp := Div(env, g_fw * h_fwp, rho_fwp);
    var n_fwpt := Div(env, n_fwpp, p.n_fwpp * p.n_fwpti * p.n_fwptm * p.n_fwptg);
    var g_fwps := Div(env, 1000.0 * n_fwpt, s.h_a);
    FeedPump(h_fwp, rho_fwp, n_fwpp, n_fwpt, g_fwps)
  }

  /** The pump head is the pressure rise from the deaerator to the pump outlet and the
      density the mean of the saturated-water densities at both ends; the useful power,
      over the four efficiencies, is the shaft power, which the driving turbine's steam
      delivers over the adiabatic drop `h_a`. */
  lemma FeedPumpBalance(env: Env, s: Plant, p: CalcInputParameters, g_fw: real)
    ensures var u := FeedPumpStage(env, s, p, g_fw);
      && u.h_fwp == s.train.p_fwpo - s.pumps.p_dea
      && u.rho_fwp == 0.5 * (env.px(s.pumps.p_dea, 0.0, OD) + env.px(s.train.p_fwpo, 0.0, OD))
      && (u.rho_fwp != 0.0 ==> u.n_fwpp * u.rho_fwp == g_fw * u.h_fwp)
      && (p.n_fwpp * p.n_fwpti * p.n_fwptm * p.n_fwptg != 0.0 ==>
            u.n_fwpt * (p.n_fwpp * p.n_fwpti * p.n_fwptm * p.n_fwptg) == u.n_fwpp)
      && (s.h_a != 0.0 ==> u.g_fwps * s.h_a == 1000.0 * u.n_fwpt)
  {
  }

  /** Extraction steam of the fourth (topmost) low-pressure heater for condensate flow
      `g_cd`. */
  function TopLpSteam(env: Env, p: CalcInputParameters, g_cd: real,
                      fw: CalcFWParameters, es: Extraction): real
  {
    Div(env, g_cd * (fw.h_fwxo - fw.h_fwxi), p.n_h * (es.h_esx - fw.h_roxk))
  }

  /** The topmost heater's extraction steam, condensing to its drain with heater
      efficiency `n_h`, heats the whole condensate flow. */
  lemma TopLpBalance(env: Env, p: CalcInputParameters, g_cd: real,
                     fw: CalcFWParameters, es: Extraction)
    requires p.n_h * (es.h_esx - fw.h_roxk) != 0.0
    ensures TopLpSteam(env, p, g_cd, fw, es) * (p.n_h * (es.h_esx - fw.h_roxk))
            == g_cd * (fw.h_fwxo - fw.h_fwxi)
  {
  }

  /** Extraction steam of a lower low-pressure heater `fw`, whose shell also receives
      `drains`, the drain flow cascaded from the heater `up` above it. */
  function CascadeLpSteam(env: Env, p: CalcInputParameters, g_cd: real, drains: real,
                          fw: CalcFWParameters, up: CalcFWParameters, es: Extraction): real
  {
    g_cd * (fw.h_fwxo - fw.h_fwxi)
    - Div(env, p.n_h * drains * (up.h_roxk - fw.h_roxk), p.n_h * (es.h_esx - fw.h_roxk))
  }

  /** As the source groups it, the water-side duty `g_cd * dh` of a lower heater is not
      divided by the extraction enthalpy drop; only the heat the cascaded drains release
      (from the upper drain enthalpy down to this one) is. What is subtracted from the
      duty is therefore that drain heat measured in units of extraction steam. */
  lemma CascadeLpAsWritten(env: Env, p: CalcInputParameters, g_cd: real, drains: real,
                           fw: CalcFWParameters, up: CalcFWParameters, es: Extraction)
    requires p.n_h * (es.h_esx - fw.h_roxk) != 0.0
    ensures (g_cd * (fw.h_fwxo - fw.h_fwxi) - CascadeLpSteam(env, p, g_cd, drains, fw, up, es))
              * (p.n_h * (es.h_esx - fw.h_roxk))
            == p.n_h * drains * (up.h_roxk - fw.h_roxk)
  {
  }

  /** The four low-pressure extraction flows. */
  datatype LpFlows = LpFlows(g_les4: real, g_les3: real, g_les2: real, g_les1: real)

  /** The low-pressure heaters for condensate flow `g_cd`, from the fourth down to the
      first; each lower heater receives the drains of all the heaters above it. */
  function LowPressureStage(env: Env, s: Plant, p: CalcInputParameters, g_cd: real): (l: LpFlows)
    ensures l.g_les4 == TopLpSteam(env, p, g_cd, s.train.fw4, s.ext.les4)
    ensures l.g_les3 == CascadeLpSteam(env, p, g_cd, l.g_les4, s.train.fw3, s.train.fw4, s.ext.les3)
    ensures l.g_les2 == CascadeLpSteam(env, p, g_cd, l.g_les3 + l.g_les4,
                                       s.train.fw2, s.train.fw3, s.ext.les2)
    ensures l.g_les1 == CascadeLpSteam(env, p, g_cd, l.g_les2 + l.g_les3 + l.g_les4,
                                       s.train.fw1, s.train.fw2, s.ext.les1)
  {
    var t := s.train;
    var x := s.ext;
    var g_les4 := TopLpSteam(env, p, g_cd, t.fw4, x.les4);
    var g_les3 := CascadeLpSteam(env, p, g_cd, g_les4, t.fw3, t.fw4, x.les3);
    var g_les2 := CascadeLpSteam(env, p, g_cd, g_les3 + g_les4, t.fw2, t.fw3, x.les2);
    var g_les1 := CascadeLpSteam(env, p, g_cd, g_les2 + g_les3 + g_les4, t.fw1, t.fw2, x.les1);
    LpFlows(g_les4, g_les3, g_les2, g_les1)
  }

  /** LP turbine steam for the low-pressure extraction flows `l`. */
  function LpTurbineSteam(env: Env, s: Plant, p: CalcInputParameters, l: LpFlows): real
  {
    Div(env, 0.6 * 1000.0 * p.ne, p.n_m * p.n_ge)
    + l.g_les4 * (s.ext.les4.h_esx - s.lp.h_lz)
    + l.g_les3 * (s.ext.les3.h_esx - s.lp.h_lz)
    + l.g_les2 * (s.ext.les2.h_esx - s.lp.h_lz)
    + l.g_les1 * (s.ext.les1.h_esx - s.lp.h_lz)
  }

  /** The LP turbine steam covers the LP share (0.6) of the electric output, after the
      mechanical and generator efficiencies, plus the work the extraction steam would
      have done between its extraction point and the LP exhaust. */
  lemma LpTurbineSteamBalance(env: Env, s: Plant, p: CalcInputParameters, l: LpFlows)
    requires p.n_m * p.n_ge != 0.0
    ensures (LpTurbineSteam(env, s, p, l)
               - l.g_les4 * (s.ext.les4.h_esx - s.lp.h_lz)
               - l.g_les3 * (s.ext.les3.h_esx - s.lp.h_lz)
               - l.g_les2 * (s.ext.les2.h_esx - s.lp.h_lz)
               - l.g_les1 * (s.ext.les1.h_esx - s.lp.h_lz)) * (p.n_m * p.n_ge)
            == 0.6 * 1000.0 * p.ne
  {
  }

  /** Heating steam of one reheater stage, tapped at `rhx`, for LP steam flow `g_sl`. */
  function ReheaterSteam(env: Env, p: CalcInputParameters, g_sl: real, dh_rh: real,
                         rhx: CalcRHXParameters): real
  {
    Div(env, g_sl * dh_rh, p.n_h * (rhx.h_rhx - rhx.h_zsx))
  }

  /** The heating steam, condensing from its tap enthalpy to saturated water with heater
      efficiency `n_h`, raises the LP steam by the stage rise `dh_rh`. */
  lemma ReheaterBalance(env: Env, p: CalcInputParameters, g_sl: real, dh_rh: real,
                        rhx: CalcRHXParameters)
    requires p.n_h * (rhx.h_rhx - rhx.h_zsx) != 0.0
    ensures ReheaterSteam(env, p, g_sl, dh_rh, rhx) * (p.n_h * (rhx.h_rhx - rhx.h_zsx))
            == g_sl * dh_rh
  {
  }

  /** Extraction steam of the seventh (topmost) high-pressure heater `fw`, whose shell
      also receives `g_zc2`, the second reheater's drain. */
  function TopHpSteam(env: Env, p: CalcInputParameters, g_fw: real, g_zc2: real,
                      fw: CalcFWParameters, es: Extraction, rh2: CalcRHXParameters): real
  {
    Div(env, g_fw * (fw.h_fwxo - fw.h_fwxi) - p.n_h * g_zc2 * (rh2.h_zsx - fw.h_roxk),
        p.n_h * (es.h_esx - fw.h_roxk))
  }

  /** The seventh heater's extraction steam and the second reheater's drain, both
      condensing to the heater's drain enthalpy, together heat the feedwater flow. */
  lemma TopHpBalance(env: Env, p: CalcInputParameters, g_fw: real, g_zc2: real,
                     fw: CalcFWParameters, es: Extraction, rh2: CalcRHXParameters)
    requires p.n_h * (es.h_esx - fw.h_roxk) != 0.0
    ensures TopHpSteam(env, p, g_fw, g_zc2, fw, es, rh2) * (p.n_h * (es.h_esx - fw.h_roxk))
            + p.n_h * g_zc2 * (rh2.h_zsx - fw.h_roxk)
            == g_fw * (fw.h_fwxo - fw.h_fwxi)
  {
  }

  /** Extraction steam of the sixth high-pressure heater `fw`, whose shell also receives
      the first reheater's drain `g_zc1` and, from the seventh heater `up`, the drains
      `g_zc2 + g_hes7`. */
  function LowerHpSteam(env: Env, p: CalcInputParameters, g_fw: real, g_zc1: real,
                        drains: real, fw: CalcFWParameters, up: CalcFWParameters,
                        es: Extraction, rh1: CalcRHXParameters): real
  {
    (g_fw * (fw.h_fwxo - fw.h_fwxi) - p.n_h * g_zc1 * (rh1.h_zsx - fw.h_roxk))
    - Div(env, p.n_h * drains * (up.h_roxk - fw.h_roxk), p.n_h * (es.h_esx - fw.h_roxk))
  }

  /** As the source groups it, the feedwater duty less the first reheater's drain heat is
      not divided by the extraction enthalpy drop; only the heat of the drains cascaded
      from the seventh heater is. */
  lemma LowerHpAsWritten(env: Env, p: CalcInputParameters, g_fw: real, g_zc1: real,
                         drains: real, fw: CalcFWParameters, up: CalcFWParameters,
                         es: Extraction, rh1: CalcRHXParameters)
    requires p.n_h * (es.h_esx - fw.h_roxk) != 0.0
    ensures (g_fw * (fw.h_fwxo - fw.h_fwxi) - p.n_h * g_zc1 * (rh1.h_zsx - fw.h_roxk)
               - LowerHpSteam(env, p, g_fw, g_zc1, drains, fw, up, es, rh1))
              * (p.n_h * (es.h_esx - fw.h_roxk))
            == p.n_h * drains * (up.h_roxk - fw.h_roxk)
  {
  }

  /** Separator drain for LP steam `g_sl`. */
  function SeparatorDrain(env: Env, g_sl: real, r: Reheat): real
  {
    Div(env, g_sl * (r.x_rh1i - r.x_spi), r.x_spi)
  }

  /** The separator drain is the moisture removed between the separator inlet quality
      `x_spi` and the reheater inlet quality `x_rh1i`. */
  lemma SeparatorBalance(env: Env, g_sl: real, r: Reheat)
    requires r.x_spi != 0.0
    ensures SeparatorDrain(env, g_sl, r) * r.x_spi == g_sl * (r.x_rh1i - r.x_spi)
  {
  }

  /** The reheater heating steam, the two high-pressure extraction flows and the
      separator drain. */
  datatype HpFlows = HpFlows(g_zc1: real, g_zc2: real, g_hes7: real, g_hes6: real, g_uw: real)

  /** The reheaters, the high-pressure heaters and the separator for LP steam `g_sl` and
      feedwater flow `g_fw`: the first reheater is tapped at the seventh heater's
      extraction, the second at the HP inlet; the seventh heater takes the second
      reheater's drain, and the sixth the first reheater's drain and everything the
      seventh heater drains. */
  function HighPressureStage(env: Env, s: Plant, p: CalcInputParameters, g_fw: real, g_sl: real)
    : (h: HpFlows)
    ensures h.g_zc1 == ReheaterSteam(env, p, g_sl, s.rh.dh_rh, s.rh1)
    ensures h.g_zc2 == ReheaterSteam(env, p, g_sl, s.rh.dh_rh, s.rh2)
    ensures h.g_hes7 == TopHpSteam(env, p, g_fw, h.g_zc2, s.train.fw7, s.ext.hes7, s.rh2)
    ensures h.g_hes6 == LowerHpSteam(env, p, g_fw, h.g_zc1, h.g_zc2 + h.g_hes7,
                                     s.train.fw6, s.train.fw7, s.ext.hes6, s.rh1)
    ensures h.g_uw == SeparatorDrain(env, g_sl, s.rh)
  {
    var t := s.train;
    var x := s.ext;
    var g_zc1 := ReheaterSteam(env, p, g_sl, s.rh.dh_rh, s.rh1);
    var g_zc2 := ReheaterSteam(env, p, g_sl, s.rh.dh_rh, s.rh2);
    var g_hes7 := TopHpSteam(env, p, g_fw, g_zc2, t.fw7, x.hes7, s.rh2);
    var g_hes6 := LowerHpSteam(env, p, g_fw, g_zc1, g_zc2 + g_hes7, t.fw6, t.fw7, x.hes6, s.rh1);
    var g_uw := SeparatorDrain(env, g_sl, s.rh);
    HpFlows(g_zc1, g_zc2, g_hes7, g_hes6, g_uw)
  }

  /** Deaerator heating steam for condensate `g_cd`, feedwater `g_fw` and the high-pressure
      flows `h`. */
  function DeaeratorSteam(env: Env, s: Plant, g_cd: real, g_fw: real, h: HpFlows): real
  {
    Div(env, g_fw * s.train.h_deao - h.g_uw * s.rh.h_uw - g_cd * s.rise.h_cd
             - (h.g_zc1 + h.g_zc2 + h.g_hes6 + h.g_hes7) * s.train.fw6.h_roxk,
        s.hp.h_hz)
  }

  /** Deaerator energy balance, with the HP exhaust enthalpy as the heating steam's: the
      heating steam, the separator drain, the condensate and the high-pressure drains
      (all at the sixth heater's drain enthalpy) bring in what the feedwater leaves with. */
  lemma DeaeratorBalance(env: Env, s: Plant, g_cd: real, g_fw: real, h: HpFlows)
    requires s.hp.h_hz != 0.0
    ensures DeaeratorSteam(env, s, g_cd, g_fw, h) * s.hp.h_hz + h.g_uw * s.rh.h_uw
            + g_cd * s.rise.h_cd + (h.g_zc1 + h.g_zc2 + h.g_hes6 + h.g_hes7) * s.train.fw6.h_roxk
            == g_fw * s.train.h_deao
  {
  }

  /** HP turbine steam for the high-pressure flows `h`. */
  function HpTurbineSteam(env: Env, s: Plant, p: CalcInputParameters, h: HpFlows): real
  {
    Div(env, Div(env, 0.4 * 1000.0 * p.ne, p.n_m * p.n_ge)
             + h.g_hes7 * (s.ext.hes7.h_esx - s.hp.h_hz)
             + h.g_hes6 * (s.ext.hes6.h_esx - s.hp.h_hz)
             + h.g_zc1 * (s.rh1.h_rhx - s.hp.h_hz),
        s.hp.h_hi - s.hp.h_hz)
  }

  /** The HP turbine steam, expanding from `h_hi` to `h_hz`, delivers the HP share (0.4) of
      the electric output plus the work the high-pressure extraction steam and the first
      reheater's heating steam would have done down to the HP exhaust. */
  lemma HpTurbineSteamBalance(env: Env, s: Plant, p: CalcInputParameters, h: HpFlows)
    requires s.hp.h_hi - s.hp.h_hz != 0.0 && p.n_m * p.n_ge != 0.0
    ensures (HpTurbineSteam(env, s, p, h) * (s.hp.h_hi - s.hp.h_hz)
               - h.g_hes7 * (s.ext.hes7.h_esx - s.hp.h_hz)
               - h.g_hes6 * (s.ext.hes6.h_esx - s.hp.h_hz)
               - h.g_zc1 * (s.rh1.h_rhx - s.hp.h_hz)) * (p.n_m * p.n_ge)
            == 0.4 * 1000.0 * p.ne
  {
  }

  /** Everything one pass of the inner loop computes. `d_s`, `g_fw1` and `g_cd1` are the
      live-steam consumption, feedwater flow and condensate flow the pass derives back
      from the extraction flows. */
  datatype Flows = Flows(
    pump: FeedPump, lp: LpFlows, g_sl: real, hp: HpFlows,
    g_sdea: real, g_sh: real, d_s: real, g_fw1: real, g_cd1: real)

  /** One pass of the inner loop for an assumed condensate flow `g_cd` and feedwater flow
      `g_fw`. */
  function Pass(env: Env, s: Plant, p: CalcInputParameters, g_cd: real, g_fw: real): Flows
  {
    var pump := FeedPumpStage(env, s, p, g_fw);
    var lp := LowPressureStage(env, s, p, g_cd);
    var g_sl := LpTurbineSteam(env, s, p, lp);
    var hp := HighPressureStage(env, s, p, g_fw, g_sl);
    var g_sdea := DeaeratorSteam(env, s, g_cd, g_fw, hp);
    var g_sh := HpTurbineSteam(env, s, p, hp);
    var d_s := pump.g_fwps + hp.g_zc2 + g_sh;
    var g_fw1 := (1.0 + p.zeta_d) * d_s;
    var g_cd1 := g_fw1 - g_sdea - hp.g_uw - (hp.g_hes6 + hp.g_hes7 + hp.g_zc1 + hp.g_zc2);
    Flows(pump, lp, g_sl, hp, g_sdea, g_sh, d_s, g_fw1, g_cd1)
  }

  /** The live steam a pass derives is what the pump turbine, the second reheater and the
      HP turbine consume, and the condensate flow it derives closes the feedwater mass
      balance: feedwater = condensate + deaerator steam + separator drain + the
      high-pressure heater and reheater drains. */
  lemma PassBalance(env: Env, s: Plant, p: CalcInputParameters, g_cd: real, g_fw: real)
    ensures var f := Pass(env, s, p, g_cd, g_fw);
      && f.d_s == f.pump.g_fwps + f.hp.g_zc2 + f.g_sh
      && f.g_fw1 == f.g_cd1 + f.g_sdea + f.hp.g_uw + f.hp.g_hes6 + f.hp.g_hes7 + f.hp.g_zc1 + f.hp.g_zc2
  {
  }

  // ---------------------------------------------------------------------------
  // The inner loop: condensate flow

  /** One pass of the inner loop as a function of the assumed condensate and feedwater
      flows, for a fixed plant and design input: `PassOf(env, s, p)`. The loop relations
      below are stated for any such pass. */
  type PassFn = (real, real) -> Flows

  function PassOf(env: Env, s: Plant, p: CalcInputParameters): (pass: PassFn)
    ensures forall g_cd, g_fw :: pass(g_cd, g_fw) == Pass(env, s, p, g_cd, g_fw)
  {
    (g_cd, g_fw) => Pass(env, s, p, g_cd, g_fw)
  }

  /** How the inner loop ended: whether a pass met the tolerance, the condensate and
      feedwater flows it ended with, the last pass, and how many passes it made. */
  datatype InnerRun = InnerRun(converged: bool, g_cd: real, g_fw: real, flows: Flows, passes: nat)

  /** The inner loop from condensate flow `g_cd` and feedwater flow `g_fw`, allowed at
      most `fuel` passes. A pass whose derived condensate flow is within `InnerTol` of the
      assumed one ends the loop with the assumed flows; otherwise the derived flows are
      assumed next. When the allowance is spent the loop stops with the last derived
      flows, where the source would go on. */
  function Inner(pass: PassFn, g_cd: real, g_fw: real, fuel: nat): InnerRun
    requires fuel >= 1
    decreases fuel
  {
    var f := pass(g_cd, g_fw);
    if Converged(f.g_cd1, g_cd, InnerTol) then InnerRun(true, g_cd, g_fw, f, 1)
    else if fuel == 1 then InnerRun(false, f.g_cd1, f.g_fw1, f, 1)
    else
      var r := Inner(pass, f.g_cd1, f.g_fw1, fuel - 1);
      r.(passes := r.passes + 1)
  }

  /** The flows after `k` passes that each assume what the previous one derived, whatever
      the tolerance test says. */
  function Iterate(pass: PassFn, g_cd: real, g_fw: real, k: nat): (real, real)
    decreases k
  {
    if k == 0 then (g_cd, g_fw)
    else
      var f := pass(g_cd, g_fw);
      Iterate(pass, f.g_cd1, f.g_fw1, k - 1)
  }

  /** Whether a pass from the flows `st` meets the inner tolerance. */
  predicate Accepts(pass: PassFn, st: (real, real))
  {
    Converged(pass(st.0, st.1).g_cd1, st.0, InnerTol)
  }

  /** The inner loop stops at the first accepted iterate: every earlier iterate is
      rejected; on convergence the loop returns that iterate and the pass made from it;
      otherwise it made all `fuel` passes and returns the iterate after the last. */
  lemma {:induction false} InnerStopsAtFirstAccepted(pass: PassFn, g_cd: real, g_fw: real, fuel: nat)
    requires fuel >= 1
    ensures var r := Inner(pass, g_cd, g_fw, fuel);
      && 1 <= r.passes <= fuel
      && (forall j :: 0 <= j < r.passes - 1 ==> !Accepts(pass, Iterate(pass, g_cd, g_fw, j)))
      && (r.converged ==>
            && (r.g_cd, r.g_fw) == Iterate(pass, g_cd, g_fw, r.passes - 1)
            && Accepts(pass, (r.g_cd, r.g_fw))
            && r.flows == pass(r.g_cd, r.g_fw))
      && (!r.converged ==>
            && r.passes == fuel
            && !Accepts(pass, Iterate(pass, g_cd, g_fw, fuel - 1))
            && (r.g_cd, r.g_fw) == Iterate(pass, g_cd, g_fw, fuel))
    decreases fuel
  {
    var f := pass(g_cd, g_fw);
    if !Converged(f.g_cd1, g_cd, InnerTol) && fuel > 1 {
      InnerStopsAtFirstAccepted(pass, f.g_cd1, f.g_fw1, fuel - 1);
      var r := Inner(pass, f.g_cd1, f.g_fw1, fuel - 1);
      forall j | 0 <= j < r.passes
        ensures Iterate(pass, g_cd, g_fw, j + 1) == Iterate(pass, f.g_cd1, f.g_fw1, j)
      {
      }
      assert Iterate(pass, g_cd, g_fw, 0) == (g_cd, g_fw);
    } else if !Converged(f.g_cd1, g_cd, InnerTol) {
      assert Iterate(pass, g_cd, g_fw, 1) == (f.g_cd1, f.g_fw1);
    }
  }

  // ---------------------------------------------------------------------------
  // The outer loop: plant efficiency

  /** The live-steam flow the steam generator delivers for the reactor power `ne /
      ne_npp`, with loop efficiency `n_1`, after the blowdown share `zeta_d`. */
  function SteamOutput(env: Env, s: Plant, p: CalcInputParameters, ne_npp: real): real
  {
    Div(env, 1000.0 * Div(env, p.ne, ne_npp) * p.n_1,
        (s.steam.h_fh - s.rise.h_s) + (1.0 + p.zeta_d) * (s.rise.h_s - s.rise.h_fw))
  }

  /** The reactor power recomputed from the live-steam flow `d_s`. */
  function ThermalPower(env: Env, s: Plant, p: CalcInputParameters, d_s: real): real
  {
    Div(env, d_s * (s.steam.h_fh - s.rise.h_fw) + p.zeta_d * d_s * (s.rise.h_s - s.rise.h_fw),
        1000.0 * p.n_1)
  }

  /** The steam generator's heat balance per unit of live steam: superheating from
      saturated water to live steam plus heating the feedwater to saturation, the latter
      also for the blowdown. */
  function SgHeatPerSteam(s: Plant, p: CalcInputParameters): real
  {
    (s.steam.h_fh - s.rise.h_s) + (1.0 + p.zeta_d) * (s.rise.h_s - s.rise.h_fw)
  }

  /** The power recomputed after the loop is the power the live-steam flow was derived
      from: both use the same steam-generator heat balance, so whenever the divisions are
      defined the recomputation gives back `ne / ne_npp` exactly. */
  lemma ThermalPowerInvertsSteamOutput(env: Env, s: Plant, p: CalcInputParameters, ne_npp: real)
    requires ne_npp != 0.0 && p.n_1 != 0.0 && SgHeatPerSteam(s, p) != 0.0
    ensures ThermalPower(env, s, p, SteamOutput(env, s, p, ne_npp)) == p.ne / ne_npp
  {
    var D := SgHeatPerSteam(s, p);
    var q := p.ne / ne_npp;
    var d := SteamOutput(env, s, p, ne_npp);
    assert d == 1000.0 * q * p.n_1 / D;
    assert d * D == 1000.0 * q * p.n_1;
    calc {
      d * (s.steam.h_fh - s.rise.h_fw) + p.zeta_d * d * (s.rise.h_s - s.rise.h_fw);
      d * ((s.steam.h_fh - s.rise.h_fw) + p.zeta_d * (s.rise.h_s - s.rise.h_fw));
      { assert (s.steam.h_fh - s.rise.h_fw) + p.zeta_d * (s.rise.h_s - s.rise.h_fw) == D; }
      d * D;
      1000.0 * q * p.n_1;
    }
  }

  /** The trace record of one outer pass (lines 256-278): the efficiency assumed, the
      recomputed reactor power, the live steam, the flows of the accepted inner pass, the
      condensate and feedwater flows it was made from. The reheater steam flows appear
      twice, as `g_srh1`/`g_srh2` and as `g_zc1`/`g_zc2`. */
  function PassRecord(ne_npp: real, q_r: real, d_s: real, g_cd: real, g_fw: real, f: Flows)
    : (r: CalcResult1)
    ensures r.eta_enpp == ne_npp && r.q_r == q_r && r.d_s == d_s
    ensures r.g_cd == g_cd && r.g_fw == g_fw
    ensures r.g_srh1 == r.g_zc1 == f.hp.g_zc1 && r.g_srh2 == r.g_zc2 == f.hp.g_zc2
    ensures r.g_shp == f.g_sh && r.g_slp == f.g_sl && r.g_sfwp == f.pump.g_fwps
    ensures r.h_fwp == f.pump.h_fwp && r.g_sdea == f.g_sdea && r.g_uw == f.hp.g_uw
    ensures r.g_hes7 == f.hp.g_hes7 && r.g_hes6 == f.hp.g_hes6
    ensures r.g_les4 == f.lp.g_les4 && r.g_les3 == f.lp.g_les3
    ensures r.g_les2 == f.lp.g_les2 && r.g_les1 == f.lp.g_les1
  {
    CalcResult1(
      eta_enpp := ne_npp, q_r := q_r, d_s := d_s, g_shp := f.g_sh, g_slp := f.g_sl,
      g_srh1 := f.hp.g_zc1, g_srh2 := f.hp.g_zc2, g_sdea := f.g_sdea, g_sfwp := f.pump.g_fwps,
      g_fw := g_fw, h_fwp := f.pump.h_fwp, g_hes7 := f.hp.g_hes7, g_hes6 := f.hp.g_hes6,
      g_les4 := f.lp.g_les4, g_les3 := f.lp.g_les3, g_les2 := f.lp.g_les2, g_les1 := f.lp.g_les1,
      g_cd := g_cd, g_uw := f.hp.g_uw, g_zc1 := f.hp.g_zc1, g_zc2 := f.hp.g_zc2)
  }

  /** The reactor-side relations the outer loop uses, for a fixed plant and design input:
      the electric power `ne`, the live steam for an assumed efficiency, the feedwater for
      a live-steam flow (live steam plus blowdown), and the reactor power recomputed from a
      live-steam flow. `BalanceOf(env, s, p)` gives them for a plant. */
  datatype Balance = Balance(ne: real, steam: real -> real, feed: real -> real, power: real -> real)

  function BalanceOf(env: Env, s: Plant, p: CalcInputParameters): (b: Balance)
    ensures b.ne == p.ne
    ensures forall ne_npp :: b.steam(ne_npp) == SteamOutput(env, s, p, ne_npp)
    ensures forall d_s :: b.feed(d_s) == (1.0 + p.zeta_d) * d_s
    ensures forall d_s :: b.power(d_s) == ThermalPower(env, s, p, d_s)
  {
    Balance(p.ne, ne_npp => SteamOutput(env, s, p, ne_npp), d_s => (1.0 + p.zeta_d) * d_s,
            d_s => ThermalPower(env, s, p, d_s))
  }

  /** The inner loop as a function of the assumed condensate and feedwater flows, for a
      fixed pass and allowance: `InnerOf(pass, budget)`. */
  type InnerFn = (real, real) -> InnerRun

  /** Whether `inner` is the inner loop over `pass` with allowance `budget`. */
  ghost predicate Runs(inner: InnerFn, pass: PassFn, budget: nat)
    requires budget >= 1
  {
    forall g_cd, g_fw {:trigger Inner(pass, g_cd, g_fw, budget)} :: inner(g_cd, g_fw) == Inner(pass, g_cd, g_fw, budget)
  }

  function InnerOf(pass: PassFn, budget: nat): (inner: InnerFn)
    requires budget >= 1
    ensures Runs(inner, pass, budget)
  {
    (g_cd, g_fw) => Inner(pass, g_cd, g_fw, budget)
  }

  /** How the outer loop ended: whether the efficiency test passed, the records it pushed,
      and the condensate flow and efficiency it left in the design input. */
  datatype OuterRun = OuterRun(converged: bool, trace: seq<CalcResult1>, g_cd: real, ne_npp: real)

  /** What one outer pass computes from the assumed condensate flow and efficiency: the
      live steam, the inner loop's run from the feedwater it needs, the recomputed reactor
      power and efficiency, and the record the pass pushes when its inner loop is
      accepted. */
  datatype OuterStep = OuterStep(d_s: real, run: InnerRun, q_r: real, n_ennp1: real, rec: CalcResult1)

  function StepOf(env: Env, b: Balance, inner: InnerFn, g_cd: real, ne_npp: real): (st: OuterStep)
    ensures st.d_s == b.steam(ne_npp) && st.run == inner(g_cd, b.feed(st.d_s))
    ensures st.q_r == b.power(st.d_s) && st.n_ennp1 == Div(env, b.ne, st.q_r)
    ensures st.rec.eta_enpp == ne_npp && st.rec.q_r == st.q_r && st.rec.d_s == st.d_s
    ensures st.rec.g_cd == st.run.g_cd && st.rec.g_fw == st.run.g_fw
  {
    var d_s := b.steam(ne_npp);
    var r := inner(g_cd, b.feed(d_s));
    var q_r := b.power(d_s);
    OuterStep(d_s, r, q_r, Div(env, b.ne, q_r), PassRecord(ne_npp, q_r, d_s, r.g_cd, r.g_fw, r.flows))
  }

  /** The outer loop from condensate flow `g_cd` and assumed efficiency `ne_npp`, allowed
      at most `fuel` passes, with `inner` as its inner loop. Each pass derives the live
      steam and feedwater from the reactor power, runs the inner loop, recomputes the
      reactor power, pushes a record and tests the efficiency `ne / q_r` against the
      assumed one. When the inner loop runs out of passes the outer loop stops without a
      record. */
  function Outer(env: Env, b: Balance, inner: InnerFn, g_cd: real, ne_npp: real, fuel: nat): OuterRun
    requires fuel >= 1
    decreases fuel
  {
    var st := StepOf(env, b, inner, g_cd, ne_npp);
    if !st.run.converged then OuterRun(false, [], st.run.g_cd, ne_npp)
    else if Converged(st.n_ennp1, ne_npp, OuterTol) then OuterRun(true, [st.rec], st.run.g_cd, ne_npp)
    else if fuel == 1 then OuterRun(false, [st.rec], st.run.g_cd, st.n_ennp1)
    else
      var o := Outer(env, b, inner, st.run.g_cd, st.n_ennp1, fuel - 1);
      o.(trace := [st.rec] + o.trace)
  }

  /** The trace the outer loop leaves: at most one record per allowed outer pass; the
      first assumes the given efficiency and each later one the efficiency `ne / q_r` of
      the record before; each record's live steam and reactor power come from its
      efficiency, and each was made from an inner pass that met the inner tolerance. */
  lemma {:induction false} OuterTrace(env: Env, b: Balance, pass: PassFn, budget: nat, inner: InnerFn,
                                      g_cd: real, ne_npp: real, fuel: nat)
    requires budget >= 1 && fuel >= 1 && Runs(inner, pass, budget)
    ensures var o := Outer(env, b, inner, g_cd, ne_npp, fuel);
      && |o.trace| <= fuel
      && (o.trace != [] ==> o.trace[0].eta_enpp == ne_npp)
      && (forall k :: 0 < k < |o.trace| ==> o.trace[k].eta_enpp == Div(env, b.ne, o.trace[k - 1].q_r))
      && (forall k :: 0 <= k < |o.trace| ==>
            && o.trace[k].d_s == b.steam(o.trace[k].eta_enpp)
            && o.trace[k].q_r == b.power(o.trace[k].d_s)
            && Accepts(pass, (o.trace[k].g_cd, o.trace[k].g_fw)))
    decreases fuel
  {
    var d_s := b.steam(ne_npp);
    var r := inner(g_cd, b.feed(d_s));
    InnerStopsAtFirstAccepted(pass, g_cd, b.feed(d_s), budget);
    if r.converged {
      var q_r := b.power(d_s);
      var n_ennp1 := Div(env, b.ne, q_r);
      if !Converged(n_ennp1, ne_npp, OuterTol) && fuel > 1 {
        OuterTrace(env, b, pass, budget, inner, r.g_cd, n_ennp1, fuel - 1);
        var o := Outer(env, b, inner, r.g_cd, n_ennp1, fuel - 1);
        var rec := PassRecord(ne_npp, q_r, d_s, r.g_cd, r.g_fw, r.flows);
        assert Outer(env, b, inner, g_cd, ne_npp, fuel).trace == [rec] + o.trace;
      }
    }
  }

  /** The outer loop stops at the first record whose efficiency test passes: every record
      but the last failed it; on convergence the last passed it and its efficiency is the
      one left in the input. */
  lemma {:induction false} OuterStopsAtFirstAccepted(env: Env, b: Balance, inner: InnerFn,
                                                     g_cd: real, ne_npp: real, fuel: nat)
    requires fuel >= 1
    ensures var o := Outer(env, b, inner, g_cd, ne_npp, fuel);
      && (forall k :: 0 <= k < |o.trace| - 1 ==>
            !Converged(Div(env, b.ne, o.trace[k].q_r), o.trace[k].eta_enpp, OuterTol))
      && (o.converged ==>
            && o.trace != []
            && Converged(Div(env, b.ne, o.trace[|o.trace| - 1].q_r), o.trace[|o.trace| - 1].eta_enpp, OuterTol)
            && o.ne_npp == o.trace[|o.trace| - 1].eta_enpp)
    decreases fuel
  {
    var d_s := b.steam(ne_npp);
    var r := inner(g_cd, b.feed(d_s));
    if r.converged {
      var q_r := b.power(d_s);
      var n_ennp1 := Div(env, b.ne, q_r);
      if !Converged(n_ennp1, ne_npp, OuterTol) && fuel > 1 {
        OuterStopsAtFirstAccepted(env, b, inner, r.g_cd, n_ennp1, fuel - 1);
        var o := Outer(env, b, inner, r.g_cd, n_ennp1, fuel - 1);
        var rec := PassRecord(ne_npp, q_r, d_s, r.g_cd, r.g_fw, r.flows);
        assert Outer(env, b, inner, g_cd, ne_npp, fuel).trace == [rec] + o.trace;
      }
    }
  }

  /** Because the recomputed reactor power equals the one the live steam was derived from,
      the outer loop makes a single pass whenever the divisions involved are defined: its
      efficiency test then compares `ne_npp` with itself. It converges exactly when the
      inner loop does, leaves the efficiency unchanged and records `q_r = ne / ne_npp`. */
  lemma OuterMakesOnePass(env: Env, s: Plant, p: CalcInputParameters, inner: InnerFn,
                          g_cd: real, ne_npp: real, fuel: nat)
    requires fuel >= 1
    requires p.ne != 0.0 && ne_npp != 0.0 && p.n_1 != 0.0 && SgHeatPerSteam(s, p) != 0.0
    ensures var o := Outer(env, BalanceOf(env, s, p), inner, g_cd, ne_npp, fuel);
            var r := inner(g_cd, (1.0 + p.zeta_d) * SteamOutput(env, s, p, ne_npp));
      && o.converged == r.converged
      && |o.trace| == (if r.converged then 1 else 0)
      && o.ne_npp == ne_npp && o.g_cd == r.g_cd
      && (o.trace != [] ==> o.trace[0].q_r == p.ne / ne_npp)
  {
    var b := BalanceOf(env, s, p);
    ThermalPowerInvertsSteamOutput(env, s, p, ne_npp);
    var q := p.ne / ne_npp;
    assert q != 0.0 && p.ne / q == ne_npp;
    assert b.power(b.steam(ne_npp)) == q;
    assert b.feed(b.steam(ne_npp)) == (1.0 + p.zeta_d) * SteamOutput(env, s, p, ne_npp);
    FixedPointPassesOnce(env, b, inner, g_cd, ne_npp, fuel);
  }

  /** The generic step behind `OuterMakesOnePass`: when the recomputed efficiency is the
      assumed one, the outer loop stops after its first inner loop. */
  lemma FixedPointPassesOnce(env: Env, b: Balance, inner: InnerFn, g_cd: real, ne_npp: real, fuel: nat)
    requires fuel >= 1 && ne_npp != 0.0
    requires Div(env, b.ne, b.power(b.steam(ne_npp))) == ne_npp
    ensures var o := Outer(env, b, inner, g_cd, ne_npp, fuel);
            var r := inner(g_cd, b.feed(b.steam(ne_npp)));
      && o.converged == r.converged
      && |o.trace| == (if r.converged then 1 else 0)
      && o.ne_npp == ne_npp && o.g_cd == r.g_cd
      && (o.trace != [] ==> o.trace[0].q_r == b.power(b.steam(ne_npp)))
  {
    ConvergedAtFixedPoint(ne_npp, OuterTol);
  }

  // ---------------------------------------------------------------------------
  // The detailed record

  /** A heater row of the detailed record. As written, the outlet-enthalpy column holds
      the outlet pressure, and the bleed-pressure column is never assigned. */
  function HeaterRow(env: Env, fw: CalcFWParameters): (row: CalcFWParameters)
    ensures row.h_fwxo == fw.p_fwxo && row.p_roxk == env.unset
    ensures row.p_fwxi == fw.p_fwxi && row.h_fwxi == fw.h_fwxi && row.t_fwxi == fw.t_fwxi
    ensures row.p_fwxo == fw.p_fwxo && row.t_fwxo == fw.t_fwxo
    ensures row.t_roxk == fw.t_roxk && row.h_roxk == fw.h_roxk
  {
    fw.(h_fwxo := fw.p_fwxo, p_roxk := env.unset)
  }

  /** An extraction row of the detailed record; its temperature column is never assigned. */
  function ExtractionRow(env: Env, e: Extraction): (row: CalcHESParameters)
    ensures row.t_hesx == env.unset
    ensures row.p_hesx == e.p_esx && row.x_hesx == e.x_esx
    ensures row.h_hesxs == e.h_esxs && row.h_hesx == e.h_esx
  {
    CalcHESParameters(env.unset, e.p_esx, e.x_esx, e.h_esxs, e.h_esx)
  }

  /** The detailed record the solver stores after convergence: the design input's
      constants, every intermediate state of the plant, the heater rows low-pressure first,
      the extraction rows of the high-pressure heaters (sixth, seventh) and the
      low-pressure ones (first to fourth), and the two reheater taps. The low-pressure
      internal efficiency column repeats the high-pressure one; both deaerator-outlet
      columns hold the enthalpy after the deaerator's rise; the duplicated columns agree;
      each heater row keeps its heater's inlet and outlet temperatures, with the
      outlet-enthalpy column holding the outlet pressure. */
  function Result2Of(env: Env, p: CalcInputParameters, s: Plant): (r: CalcResult2)
    ensures |r.lfwx| == 4 && |r.hfwx| == 2 && |r.hhes| == 2 && |r.lhes| == 4 && |r.rhx| == 2
    ensures r.eta_li == r.eta_hi == p.n_hi
    ensures r.h_deao == r.h_deao1 == s.train.h_deao
    ensures r.p_dea1 == r.p_dea && r.s_hi1 == r.s_hi && r.h_hi1 == r.h_hi
    ensures r.s_li1 == r.s_li && r.h_li1 == r.h_li
    ensures r.rhx == [s.rh1, s.rh2]
    ensures r.p_rh1hs == r.rhx[0].p_rhx && r.x_rh1hs == r.rhx[0].x_rhx
    ensures r.hhes[0].p_hesx == s.ext.hes6.p_esx && r.hhes[1].p_hesx == s.ext.hes7.p_esx
    ensures r.lhes[0].p_hesx == s.ext.les1.p_esx && r.lhes[3].p_hesx == s.ext.les4.p_esx
    ensures forall k :: 0 <= k < 4 ==> r.lhes[k].t_hesx == env.unset
    ensures r.lfwx[0].t_fwxi == s.train.fw1.t_fwxi && r.lfwx[3].t_fwxo == s.train.fw4.t_fwxo
    ensures r.hfwx[0].t_fwxi == s.train.fw6.t_fwxi && r.hfwx[1].t_fwxo == s.train.fw7.t_fwxo
    ensures forall k :: 0 <= k < 4 ==> r.lfwx[k].h_fwxo == r.lfwx[k].p_fwxo
  {
    CalcResult2(
      ne := p.ne, eta_1 := p.n_1, x_fh := p.x_fh, zeta_d := p.zeta_d,
      eta_hi := p.n_hi, eta_li := p.n_hi, eta_m := p.n_m, eta_ge := p.n_ge,
      dp_fh := p.dp_fh, dp_rh := s.rh.dp_rh, dp_ej := p.dp_ej, dp_cd := p.dp_cd,
      theta_hu := p.theta_hu, theta_lu := p.theta_lu, eta_h := p.n_h,
      eta_fwpp := p.n_fwpp, eta_fwpti := p.n_fwpti, eta_fwptm := p.n_fwptm, eta_fwptg := p.n_fwptg,
      t_sw1 := p.t_sw1, p_c := p.p_c, t_cs := s.coolant.t_cs, dt_sub := p.dt_sub,
      t_co := s.coolant.t_co, dt_c := p.dt_c, t_ci := s.coolant.t_ci, p_s := p.p_s,
      t_fh := s.steam.t_fh, dt_m := s.steam.dt_m, dt_sw := p.dt_sw, dt := p.dt,
      t_cd := s.cond.t_cd, p_cd := s.cond.p_cd,
      p_hi := s.hp.p_hi, x_hi := s.hp.x_hi, h_fh := s.steam.h_fh, s_fh := s.steam.s_fh,
      s_hi := s.hp.s_hi, p_hz := s.hp.p_hz, x_hz := s.hp.x_hz, h_hi := s.hp.h_hi,
      h_hzs := s.hp.h_hzs, h_hz := s.hp.h_hz,
      p_spi := s.rh.p_spi, x_spi := s.rh.x_spi, p_uw := s.rh.p_uw, h_uw := s.rh.h_uw,
      p_rh1i := s.rh.p_rh1i, x_rh1i := s.rh.x_rh1i, h_rh1i := s.rh.h_rh1i,
      p_rh1hs := s.rh1.p_rhx, x_rh1hs := s.rh1.x_rhx,
      p_rh2i := s.rh.p_rh2i, t_rh2i := s.rh.t_rh2i, p_rh2z := s.rh.p_rh2z,
      t_rh2z := s.rh.t_rh2z, h_rh2z := s.rh.h_rh2z, dh_rh := s.rh.dh_rh,
      h_rh1z := s.rh.h_rh1z, h_rh2i := s.rh.h_rh2i, p_rh2hs := s.rh.p_rh2hs, x_rh2hs := s.rh.x_rh2hs,
      p_li := s.lp.p_li, t_li := s.lp.t_li, p_lz := s.lp.p_lz, x_lz := s.lp.x_lz,
      s_li := s.lp.s_li, h_li := s.lp.h_li, h_lzs := s.lp.h_lzs, h_lz := s.lp.h_lz,
      z := p.z, z_l := p.z_l, z_h := p.z_h,
      dh_fw := s.rise.dh_fw, h_s := s.rise.h_s, h_cd := s.rise.h_cd, dh_fwop := s.rise.dh_fwop,
      h_fwop := s.rise.h_fwop, t_fwop := s.rise.t_fwop, t_fw := s.rise.t_fw, h_fw := s.rise.h_fw,
      dh_fwh := s.pumps.dh_fwh, p_dea := s.pumps.p_dea, h_deao := s.train.h_deao,
      dh_fwl := s.pumps.dh_fwl, p_cwp := s.pumps.p_cwp, h_cwp := s.pumps.h_cwp,
      dp_cws := s.pumps.dp_cws, dp_fi := s.pumps.dp_fi,
      lfwx := [HeaterRow(env, s.train.fw1), HeaterRow(env, s.train.fw2),
               HeaterRow(env, s.train.fw3), HeaterRow(env, s.train.fw4)],
      h_deai := s.train.h_deai, h_deao1 := s.train.h_deao, t_dea := s.train.t_dea,
      p_dea1 := s.pumps.p_dea, p_fwpo := s.train.p_fwpo, h_fwpo := s.train.h_fwpo,
      p_fwi := s.train.p_fwi,
      hfwx := [HeaterRow(env, s.train.fw6), HeaterRow(env, s.train.fw7)],
      s_hi1 := s.hp.s_hi, h_hi1 := s.hp.h_hi,
      hhes := [ExtractionRow(env, s.ext.hes6), ExtractionRow(env, s.ext.hes7)],
      s_li1 := s.lp.s_li, h_li1 := s.lp.h_li,
      lhes := [ExtractionRow(env, s.ext.les1), ExtractionRow(env, s.ext.les2),
               ExtractionRow(env, s.ext.les3), ExtractionRow(env, s.ext.les4)],
      rhx := [s.rh1, s.rh2])
  }

  // ---------------------------------------------------------------------------
  // The solver object

  /** The solver: the design input, whose assumed condensate flow and efficiency the
      iteration overwrites, and the results it accumulates. */
  class Calculator {
    var params: CalcInputParameters
    var results: CalcResultParamters

    /** A solver for `params` with no results yet. */
    constructor(params: CalcInputParameters)
      ensures this.params == params && results == EmptyResults()
    {
      this.params := params;
      results := EmptyResults();
    }

    /** Runs both loops for the design input, with the inner loop allowed `budget` passes
        per entry and the outer loop `fuel` passes; the answer says whether the outer
        test was met within them. The records of every outer pass are appended to the
        trace already held; the last assumed condensate flow and efficiency are left in
        the design input, nothing else of it changes; on convergence the detailed record
        of the plant is stored. */
    method Calculate(env: Env, budget: nat, fuel: nat) returns (converged: bool)
      requires budget >= 1 && fuel >= 1
      modifies this
      ensures var p := old(params);
              var s := PlantStages(env, p);
              var o := Outer(env, BalanceOf(env, s, p), InnerOf(PassOf(env, s, p), budget), p.g_cd, p.ne_npp, fuel);
        && converged == o.converged
        && params == p.(g_cd := o.g_cd, ne_npp := o.ne_npp)
        && results.result1 == old(results.result1) + o.trace
        && results.result2 == (if converged then Result2Of(env, p, s) else old(results.result2))
    {
      var s := PlantStages(env, params);
      converged := CalculateFor(env, s, budget, fuel);
    }

    /** `Calculate` once the plant state `s` has been derived from the design input. The
        loops change only the design input's `g_cd` and `ne_npp`, which the plant state
        and the detailed record do not read. */
    method CalculateFor(env: Env, s: Plant, budget: nat, fuel: nat) returns (converged: bool)
      requires budget >= 1 && fuel >= 1
      modifies this
      ensures var p := old(params);
              var o := Outer(env, BalanceOf(env, s, p), InnerOf(PassOf(env, s, p), budget), p.g_cd, p.ne_npp, fuel);
        && converged == o.converged
        && params == p.(g_cd := o.g_cd, ne_npp := o.ne_npp)
        && results.result1 == old(results.result1) + o.trace
        && results.result2 == (if converged then Result2Of(env, p, s) else old(results.result2))
    {
      var p0 := params;
      var pass := PassOf(env, s, p0);
      converged := Run(env, BalanceOf(env, s, p0), pass, budget, InnerOf(pass, budget), fuel);
      if converged {
        results := results.(result2 := Result2Of(env, p0, s));
      }
    }

    /** The inner loop from the assumed condensate flow in the design input and the
        feedwater flow `g_fw`: leaves the last assumed condensate flow in the design
        input and returns the feedwater flow and the pass it ended with. */
    method InnerLoop(pass: PassFn, g_fw: real, budget: nat) returns (accepted: bool, g_fw1: real, f: Flows)
      requires budget >= 1
      modifies this
      ensures var r := Inner(pass, old(params).g_cd, g_fw, budget);
        && accepted == r.converged && g_fw1 == r.g_fw && f == r.flows
        && params == old(params).(g_cd := r.g_cd)
        && unchanged(this`results)
    {
      ghost var target := Inner(pass, params.g_cd, g_fw, budget);
      g_fw1 := g_fw;
      var left := budget;
      while true
        invariant 1 <= left <= budget
        invariant params == old(params).(g_cd := params.g_cd)
        invariant unchanged(this`results)
        invariant var r := Inner(pass, params.g_cd, g_fw1, left);
          && r.converged == target.converged && r.g_cd == target.g_cd
          && r.g_fw == target.g_fw && r.flows == target.flows
        decreases left
      {
        f := pass(params.g_cd, g_fw1);
        if Converged(f.g_cd1, params.g_cd, InnerTol) {
          return true, g_fw1, f;
        }
        params := params.(g_cd := f.g_cd1);
        g_fw1 := f.g_fw1;
        if left == 1 {
          return false, g_fw1, f;
        }
        left := left - 1;
      }
    }

    /** One pass of the outer loop, for the assumed efficiency in the design input: runs
        the inner loop from the live steam that efficiency gives and, when it is accepted,
        appends the pass's record; returns the recomputed efficiency. */
    method OuterPass(env: Env, b: Balance, pass: PassFn, budget: nat, ghost inner: InnerFn)
      returns (accepted: bool, n_ennp1: real)
      requires budget >= 1 && Runs(inner, pass, budget)
      modifies this
      ensures var st := StepOf(env, b, inner, old(params).g_cd, old(params).ne_npp);
        && accepted == st.run.converged
        && params == old(params).(g_cd := st.run.g_cd)
        && n_ennp1 == st.n_ennp1
        && results == if accepted then old(results).(result1 := old(results).result1 + [st.rec])
                      else old(results)
    {
      var d_s := b.steam(params.ne_npp);
      var g_fw, f;
      accepted, g_fw, f := InnerLoop(pass, b.feed(d_s), budget);
      var q_r := b.power(d_s);
      n_ennp1 := Div(env, b.ne, q_r);
      if accepted {
        results := results.(result1 := results.result1 + [PassRecord(params.ne_npp, q_r, d_s, params.g_cd, g_fw, f)]);
      }
    }

    /** The two loops, for the reactor-side relations `b` and the inner pass `pass` of the
        plant: appends the record of every outer pass and leaves the last assumed
        condensate flow and efficiency in the design input. */
    method Run(env: Env, b: Balance, pass: PassFn, budget: nat, ghost inner: InnerFn, fuel: nat)
      returns (converged: bool)
      requires budget >= 1 && fuel >= 1 && Runs(inner, pass, budget)
      modifies this
      ensures var o := Outer(env, b, inner, old(params).g_cd, old(params).ne_npp, fuel);
        && converged == o.converged
        && params == old(params).(g_cd := o.g_cd, ne_npp := o.ne_npp)
        && results == old(results).(result1 := old(results).result1 + o.trace)
    {
      ghost var target := Outer(env, b, inner, params.g_cd, params.ne_npp, fuel);
      ghost var p0 := params;
      ghost var results0 := results;
      var outerLeft := fuel;
      while true
        invariant 1 <= outerLeft <= fuel
        invariant params == p0.(g_cd := params.g_cd, ne_npp := params.ne_npp)
        invariant results == results0.(result1 := results.result1)
        invariant var o := Outer(env, b, inner, params.g_cd, params.ne_npp, outerLeft);
          && target.converged == o.converged && target.g_cd == o.g_cd && target.ne_npp == o.ne_npp
          && results0.result1 + target.trace == results.result1 + o.trace
        decreases outerLeft
      {
        ghost var o := Outer(env, b, inner, params.g_cd, params.ne_npp, outerLeft);
        ghost var r1 := results.result1;
        var accepted, n_ennp1 := OuterPass(env, b, pass, budget, inner);
        if !accepted {
          return false;
        }
        ghost var rec := results.result1[|results.result1| - 1];
        assert results.result1 == r1 + [rec];
        if Converged(n_ennp1, params.ne_npp, OuterTol) {
          break;
        }
        params := params.(ne_npp := n_ennp1);
        if outerLeft == 1 {
          return false;
        }
        ghost var o' := Outer(env, b, inner, params.g_cd, n_ennp1, outerLeft - 1);
        assert o == o'.(trace := [rec] + o'.trace);
        assert r1 + o.trace == results.result1 + o'.trace;
        outerLeft := outerLeft - 1;
      }
      converged := true;
    }

    /** The results, once at least one outer pass has been recorded. */
    function GetResults(): (r: Option<CalcResultParamters>)
      reads this
      ensures r.None? <==> results.result1 == []
      ensures r.Some? ==> r.value == results
    {
      if results.result1 == [] then None else Some(results)
    }
  }
}
