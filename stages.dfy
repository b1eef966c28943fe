/** The straight-line stage relations of the thermal-balance solver (calc/src/lib.rs):
    everything `Calculator::calculate` evaluates before its convergence loops, and the
    three per-stage helpers `calc_fwx`, `calc_esx` and `calc_rhx`. Each stage block is a
    function of the design input, of the upstream blocks and of the steam tables; each
    record keeps the names the solver gives its quantities. */
module Stages {
  import opened Steam
  import opened Parameters

  // ---------------------------------------------------------------------------
  // Primary coolant, live steam and condenser

  datatype Coolant = Coolant(t_cs: real, t_co: real, t_ci: real)

  /** Coolant outlet and inlet temperatures below the saturation temperature at the
      coolant pressure. */
  function CoolantStage(env: Env, p: CalcInputParameters): (c: Coolant)
    ensures c.t_cs == env.px(p.p_c, 0.0, OT)
    ensures c.t_cs - c.t_co == p.dt_sub && c.t_co - c.t_ci == p.dt_c
  {
    var t_cs := env.px(p.p_c, 0.0, OT);
    var t_co := t_cs - p.dt_sub;
    var t_ci := t_co - p.dt_c;
    Coolant(t_cs, t_co, t_ci)
  }

  datatype LiveSteam = LiveSteam(t_s: real, t_fh: real, h_fh: real, s_fh: real, dt_m: real)

  /** Steam-generator outlet state at the steam pressure and outlet quality, and the
      log-mean temperature difference across the steam generator. */
  function LiveSteamStage(env: Env, p: CalcInputParameters, c: Coolant): (s: LiveSteam)
    ensures s.t_s == env.px(p.p_s, 1.0, OT)
    ensures s.t_fh == env.px(p.p_s, p.x_fh, OT) && s.h_fh == env.px(p.p_s, p.x_fh, OH)
    ensures s.s_fh == env.px(p.p_s, p.x_fh, OS)
    ensures var lnRatio := env.ln(Div(env, c.t_co - s.t_s, c.t_ci - s.t_s));
      lnRatio != 0.0 ==> s.dt_m * lnRatio == c.t_co - c.t_ci
  {
    var t_s := env.px(p.p_s, 1.0, OT);
    var t_fh := env.px(p.p_s, p.x_fh, OT);
    var h_fh := env.px(p.p_s, p.x_fh, OH);
    var s_fh := env.px(p.p_s, p.x_fh, OS);
    var dt_m := Div(env, c.t_co - c.t_ci, env.ln(Div(env, c.t_co - t_s, c.t_ci - t_s)));
    LiveSteam(t_s, t_fh, h_fh, s_fh, dt_m)
  }

  datatype Condenser = Condenser(t_cd: real, p_cd: real)

  /** Condensing temperature: cooling-water inlet plus its rise plus the terminal
      difference; the condenser pressure is the saturation pressure there. */
  function CondenserStage(env: Env, p: CalcInputParameters): (k: Condenser)
    ensures k.t_cd - p.t_sw1 == p.dt_sw + p.dt
    ensures k.p_cd == env.tx(k.t_cd, 0.0, OP)
  {
    var t_cd := p.t_sw1 + p.dt_sw + p.dt;
    Condenser(t_cd, env.tx(t_cd, 0.0, OP))
  }

  // ---------------------------------------------------------------------------
  // Turbines and the moisture separator / reheater

  datatype HpTurbine = HpTurbine(
    dp_fh: real, p_hi: real, h_hi: real, x_hi: real, s_hi: real,
    p_hz: real, h_hzs: real, h_hz: real, x_hz: real)

  /** HP turbine: inlet pressure after the live-steam loss, isoenthalpic inlet, exhaust at
      a fixed fraction of the inlet pressure, and the actual enthalpy drop equal to the
      mechanical and internal efficiencies times the isentropic drop. */
  function HpTurbineStage(env: Env, p: CalcInputParameters, ls: LiveSteam): (t: HpTurbine)
    ensures t.p_hi == p.p_s * (1.0 - p.dp_fh)
    ensures t.h_hi == ls.h_fh
    ensures t.s_hi == env.ph(t.p_hi, t.h_hi, OS) && t.x_hi == env.ph(t.p_hi, t.h_hi, OX)
    ensures t.p_hz == p.dp_hz * t.p_hi
    ensures t.h_hzs == env.ps(t.p_hz, t.s_hi, OH)
    ensures t.h_hi - t.h_hz == p.n_m * p.n_hi * (t.h_hi - t.h_hzs)
    ensures t.x_hz == env.ph(t.p_hz, t.h_hz, OX)
  {
    var dp_fh := p.dp_fh * p.p_s;
    var p_hi := p.p_s - dp_fh;
    var h_hi := ls.h_fh;
    var x_hi := env.ph(p_hi, h_hi, OX);
    var s_hi := env.ph(p_hi, h_hi, OS);
    var p_hz := p.dp_hz * p_hi;
    var h_hzs := env.ps(p_hz, s_hi, OH);
    var h_hz := h_hi - p.n_m * p.n_hi * (h_hi - h_hzs);
    var x_hz := env.ph(p_hz, h_hz, OX);
    HpTurbine(dp_fh, p_hi, h_hi, x_hi, s_hi, p_hz, h_hzs, h_hz, x_hz)
  }

  datatype Reheat = Reheat(
    dp_rh: real, p_spi: real, x_spi: real, p_uw: real, h_uw: real,
    p_rh1i: real, x_rh1i: real, h_rh1i: real,
    p_rh2i: real, p_rh2z: real, t_rh2z: real, h_rh2z: real, dh_rh: real,
    h_rh1z: real, h_rh2i: real, t_rh2i: real, p_rh2hs: real, x_rh2hs: real)

  /** Moisture separator and two-stage reheater: fixed fractions of the HP exhaust
      pressure, 98% of the moisture removed, and the total enthalpy rise split equally
      between the two reheater stages. */
  function ReheatStage(env: Env, p: CalcInputParameters, ls: LiveSteam, hp: HpTurbine): (r: Reheat)
    ensures r.p_spi == hp.p_hz && r.x_spi == hp.x_hz
    ensures r.p_uw == r.p_rh1i == 0.99 * hp.p_hz
    ensures r.h_uw == env.px(r.p_uw, 0.0, OH)
    ensures r.p_rh2i == 0.98 * hp.p_hz && r.p_rh2z == 0.97 * hp.p_hz
    ensures hp.p_hz > 0.0 ==> r.p_rh1i > r.p_rh2i > r.p_rh2z > 0.0
    ensures 1.0 - 0.98 * (1.0 - r.x_spi) != 0.0 ==>
              r.x_rh1i * (1.0 - 0.98 * (1.0 - r.x_spi)) == r.x_spi
    ensures r.h_rh1i == env.px(r.p_rh1i, r.x_rh1i, OH)
    ensures r.t_rh2z == ls.t_fh - p.t_rh2z && r.h_rh2z == env.pt(r.p_rh2z, r.t_rh2z, OH)
    ensures r.h_rh2i == r.h_rh1z == r.h_rh1i + r.dh_rh
    ensures r.h_rh1z + r.dh_rh == r.h_rh2z
    ensures r.t_rh2i == env.ph(r.p_rh2i, r.h_rh2i, OT)
    ensures r.p_rh2hs == hp.p_hi && r.x_rh2hs == hp.x_hi
    ensures r.dp_rh == p.dp_rh * hp.p_hz
  {
    var dp_rh := p.dp_rh * hp.p_hz;
    var p_spi := hp.p_hz;
    var x_spi := hp.x_hz;
    var p_uw := 0.99 * hp.p_hz;
    var h_uw := env.px(p_uw, 0.0, OH);
    var p_rh1i := 0.99 * hp.p_hz;
    var x_rh1i := Div(env, x_spi, 1.0 - 0.98 * (1.0 - x_spi));
    var h_rh1i := env.px(p_rh1i, x_rh1i, OH);
    var p_rh2i := 0.98 * hp.p_hz;
    var p_rh2z := 0.97 * hp.p_hz;
    var t_rh2z := ls.t_fh - p.t_rh2z;
    var h_rh2z := env.pt(p_rh2z, t_rh2z, OH);
    var dh_rh := (h_rh2z - h_rh1i) / 2.0;
    var h_rh1z := h_rh1i + dh_rh;
    var h_rh2i := h_rh1z;
    var t_rh2i := env.ph(p_rh2i, h_rh2i, OT);
    Reheat(dp_rh, p_spi, x_spi, p_uw, h_uw, p_rh1i, x_rh1i, h_rh1i,
           p_rh2i, p_rh2z, t_rh2z, h_rh2z, dh_rh, h_rh1z, h_rh2i, t_rh2i, hp.p_hi, hp.x_hi)
  }

  datatype LpTurbine = LpTurbine(
    p_li: real, h_li: real, t_li: real, dp_cd: real, p_lz: real,
    s_li: real, s_lz: real, h_lzs: real, h_lz: real, x_lz: real)

  /** LP turbine: inlet at the reheater outlet enthalpy, exhaust pressure the condenser
      pressure raised by the exhaust loss, the same efficiency pattern as the HP turbine
      (with the LP internal efficiency only). */
  function LpTurbineStage(env: Env, p: CalcInputParameters, k: Condenser, r: Reheat): (t: LpTurbine)
    ensures t.p_li == p.dp_f * r.p_rh2z && t.h_li == r.h_rh2z
    ensures t.t_li == env.ph(t.p_li, t.h_li, OT)
    ensures p.dp_cd != 1.0 ==> t.p_lz * (1.0 - p.dp_cd) == k.p_cd
    ensures t.s_li == env.ph(t.p_li, t.h_li, OS) && t.s_lz == t.s_li
    ensures t.h_lzs == env.ps(t.p_lz, t.s_lz, OH)
    ensures t.h_li - t.h_lz == p.n_li * (t.h_li - t.h_lzs)
    ensures t.x_lz == env.ph(t.p_lz, t.h_lz, OX)
  {
    var p_li := p.dp_f * r.p_rh2z;
    var h_li := r.h_rh2z;
    var t_li := env.ph(p_li, h_li, OT);
    var dp_cd := (Div(env, 1.0, 1.0 - p.dp_cd) - 1.0) * k.p_cd;
    var p_lz := k.p_cd + dp_cd;
    var s_li := env.ph(p_li, h_li, OS);
    var s_lz := s_li;
    var h_lzs := env.ps(p_lz, s_lz, OH);
    var h_lz := r.h_rh2z - p.n_li * (r.h_rh2z - h_lzs);
    var x_lz := env.ph(p_lz, h_lz, OX);
    LpTurbine(p_li, h_li, t_li, dp_cd, p_lz, s_li, s_lz, h_lzs, h_lz, x_lz)
  }

  // ---------------------------------------------------------------------------
  // Feedwater enthalpy-rise allocation, deaerator and pump pressures

  datatype FeedwaterRise = FeedwaterRise(
    h_s: real, h_cd: real, dh_fwop: real, h_fwop: real,
    t_fwop: real, t_fw: real, h_fw: real, dh_fw: real)

  /** The theoretical rise divides the gap between saturated steam-generator water and
      condensate into `z + 1` equal parts; the actual feedwater temperature is a fixed
      fraction of the optimum; the actual rise divides the real gap by `z`. */
  function FeedwaterRiseStage(env: Env, p: CalcInputParameters, k: Condenser): (f: FeedwaterRise)
    ensures f.h_s == env.px(p.p_s, 0.0, OH) && f.h_cd == env.tx(k.t_cd, 0.0, OH)
    ensures p.z + 1.0 != 0.0 ==> f.dh_fwop * (p.z + 1.0) == f.h_s - f.h_cd
    ensures p.z + 1.0 != 0.0 ==> f.h_s - f.h_fwop == f.dh_fwop
    ensures f.t_fwop == env.ph(p.p_s, f.h_fwop, OT) && f.t_fw == p.dt_fw * f.t_fwop
    ensures f.h_fw == env.pt(p.p_s, f.t_fw, OH)
    ensures p.z != 0.0 ==> f.dh_fw * p.z == f.h_fw - f.h_cd
  {
    var h_s := env.px(p.p_s, 0.0, OH);
    var h_cd := env.tx(k.t_cd, 0.0, OH);
    var dh_fwop := Div(env, h_s - h_cd, p.z + 1.0);
    var h_fwop := h_cd + p.z * dh_fwop;
    var t_fwop := env.ph(p.p_s, h_fwop, OT);
    var t_fw := p.dt_fw * t_fwop;
    var h_fw := env.pt(p.p_s, t_fw, OH);
    var dh_fw := Div(env, h_fw - h_cd, p.z);
    FeedwaterRise(h_s, h_cd, dh_fwop, h_fwop, t_fwop, t_fw, h_fw, dh_fw)
  }

  datatype Pumps = Pumps(
    p_dea: real, h_deao: real, dh_fwh: real, dh_fwl: real,
    p_cwp: real, h_cwp: real, dp_cws: real, dp_fi: real)

  /** Deaerator pressure (the separator drain pressure) with its saturated-water
      enthalpy `h_deao`, the per-heater rises, and the condensate-pump pressures. */
  function PumpsStage(env: Env, p: CalcInputParameters, r: Reheat, f: FeedwaterRise): (u: Pumps)
    ensures u.p_dea == r.p_uw && u.h_deao == env.px(u.p_dea, 0.0, OH)
    ensures p.z_h != 0.0 ==> u.dh_fwh * p.z_h == f.h_fw - u.h_deao
    ensures p.z_l + 1.0 != 0.0 ==> u.dh_fwl * (p.z_l + 1.0) == u.h_deao - f.h_cd
    ensures u.p_cwp == p.dp_cwp * u.p_dea && u.h_cwp == f.h_cd
    ensures u.p_cwp - u.p_dea == u.dp_cws
    ensures p.z_l + 1.0 != 0.0 ==> u.dp_fi * (p.z_l + 1.0) == u.dp_cws
  {
    var p_dea := r.p_uw;
    var h_deao := env.px(p_dea, 0.0, OH);
    var dh_fwh := Div(env, f.h_fw - h_deao, p.z_h);
    var dh_fwl := Div(env, h_deao - f.h_cd, p.z_l + 1.0);
    var p_cwp := p.dp_cwp * p_dea;
    var h_cwp := f.h_cd;
    var dp_cws := p_cwp - p_dea;
    var dp_fi := Div(env, dp_cws, p.z_l + 1.0);
    Pumps(p_dea, h_deao, dh_fwh, dh_fwl, p_cwp, h_cwp, dp_cws, dp_fi)
  }

  // ---------------------------------------------------------------------------
  // The three per-stage helpers

  /** `calc_fwx`: one feedwater heater. It echoes the inlet state, puts the outlet
      pressure halfway between the inlet pressure and the per-stage drop `dp_fi`, raises
      the enthalpy by `dh_fwh`, and puts the drain `theta_hu` above the outlet
      temperature, saturated. Every heater uses the high-pressure terminal difference. */
  function CalcFwx(env: Env, p: CalcInputParameters,
                   p_fwxi: real, h_fwxi: real, t_fwxi: real, dp_fi: real, dh_fwh: real)
    : (fw: CalcFWParameters)
    ensures fw.p_fwxi == p_fwxi && fw.h_fwxi == h_fwxi && fw.t_fwxi == t_fwxi
    ensures fw.p_fwxo == (p_fwxi + dp_fi) / 2.0
    ensures fw.h_fwxo - fw.h_fwxi == dh_fwh
    ensures fw.t_fwxo == env.ph(fw.p_fwxo, fw.h_fwxo, OT)
    ensures fw.t_roxk - fw.t_fwxo == p.theta_hu
    ensures fw.h_roxk == env.tx(fw.t_roxk, 0.0, OH) && fw.p_roxk == env.tx(fw.t_roxk, 0.0, OP)
  {
    var p_fwxo := p_fwxi - (p_fwxi - dp_fi) / 2.0;
    var h_fwxo := h_fwxi + dh_fwh;
    var t_fwxo := env.ph(p_fwxo, h_fwxo, OT);
    var t_roxk := t_fwxo + p.theta_hu;
    var h_roxk := env.tx(t_roxk, 0.0, OH);
    var p_roxk := env.tx(t_roxk, 0.0, OP);
    CalcFWParameters(p_fwxi, h_fwxi, t_fwxi, p_fwxo, h_fwxo, t_fwxo, t_roxk, h_roxk, p_roxk)
  }

  /** The result tuple of `calc_esx`. */
  datatype Extraction = Extraction(p_esx: real, h_esxs: real, h_esx: real, x_esx: real)

  /** `calc_esx`: one extraction point. The extraction pressure is the drain pressure
      divided by one minus the extraction loss; the ideal enthalpy comes from an
      isentropic lookup at the given entropy. As written, `h_esx` is the efficiency
      times the ideal drop, not the inlet enthalpy minus it. */
  function CalcEsx(env: Env, p: CalcInputParameters, p_roxk: real, s_hi: real, h_hi: real)
    : (e: Extraction)
    ensures p.dp_ej != 1.0 ==> e.p_esx * (1.0 - p.dp_ej) == p_roxk
    ensures e.h_esxs == env.ps(e.p_esx, s_hi, OH)
    ensures e.h_esx == p.n_m * p.n_hi * (h_hi - e.h_esxs)
    ensures e.x_esx == env.ph(e.p_esx, e.h_esx, OX)
  {
    var dp_ex := (Div(env, 1.0, 1.0 - p.dp_ej) - 1.0) * p_roxk;
    var p_esx := p_roxk + dp_ex;
    var h_esxs := env.ps(p_esx, s_hi, OH);
    var h_esx := p.n_m * p.n_hi * (h_hi - h_esxs);
    var x_esx := env.ph(p_esx, h_esx, OX);
    Extraction(p_esx, h_esxs, h_esx, x_esx)
  }

  /** `calc_rhx`: one reheater heating-steam tap, at the given pressure and quality,
      whose drain is saturated liquid at the same pressure. */
  function CalcRhx(env: Env, p_rhx: real, x_rhx: real): (t: CalcRHXParameters)
    ensures t.p_rhx == p_rhx && t.x_rhx == x_rhx
    ensures t.t_rhx == env.px(p_rhx, x_rhx, OT) && t.h_rhx == env.px(p_rhx, x_rhx, OH)
    ensures t.h_zsx == env.px(p_rhx, 0.0, OH)
  {
    CalcRHXParameters(p_rhx, x_rhx, env.px(p_rhx, x_rhx, OT), env.px(p_rhx, x_rhx, OH),
                      env.px(p_rhx, 0.0, OH))
  }

  // ---------------------------------------------------------------------------
  // The heater chain, the extraction points and the reheater taps

  datatype HeaterTrain = HeaterTrain(
    fw1: CalcFWParameters, fw2: CalcFWParameters, fw3: CalcFWParameters, fw4: CalcFWParameters,
    h_deai: real, h_deao: real, t_dea: real, p_fwpo: real, h_fwpo: real, p_fwi: real,
    fw6: CalcFWParameters, fw7: CalcFWParameters)

  /** Whether heater `b` takes its inlet water state from the outlet of heater `a`. */
  predicate Feeds(a: CalcFWParameters, b: CalcFWParameters)
  {
    b.p_fwxi == a.p_fwxo && b.h_fwxi == a.h_fwxo && b.t_fwxi == a.t_fwxo
  }

  /** The four low-pressure heaters, the deaerator (whose outlet enthalpy `h_deao` here
      shadows the saturated one of `Pumps`) and the two high-pressure heaters. */
  function HeaterTrainStage(env: Env, p: CalcInputParameters, f: FeedwaterRise, u: Pumps)
    : (h: HeaterTrain)
  {
    var fw1 := CalcFwx(env, p, u.p_cwp, u.h_cwp, env.ph(u.p_cwp, u.h_cwp, OT), u.dp_fi, u.dh_fwh);
    var fw2 := CalcFwx(env, p, fw1.p_fwxo, fw1.h_fwxo, fw1.t_fwxo, u.dp_fi, u.dh_fwh);
    var fw3 := CalcFwx(env, p, fw2.p_fwxo, fw2.h_fwxo, fw2.t_fwxo, u.dp_fi, u.dh_fwh);
    var fw4 := CalcFwx(env, p, fw3.p_fwxo, fw3.h_fwxo, fw3.t_fwxo, u.dp_fi, u.dh_fwh);
    var h_deai := fw4.h_fwxo;
    var h_deao := h_deai + f.dh_fw;
    var t_dea := env.ph(u.p_dea, h_deao, OT);
    var p_fwpo := p.dp_fwpo * p.p_s;
    var h_fwpo := h_deao;
    var p_fwi := p.p_s + 0.1;
    var fw6 := CalcFwx(env, p, p_fwpo, h_fwpo, env.ph(p_fwpo, h_fwpo, OT), u.dp_fi, u.dh_fwh);
    var fw7 := CalcFwx(env, p, fw6.p_fwxo, fw6.h_fwxo, fw6.t_fwxo, u.dp_fi, u.dh_fwh);
    HeaterTrain(fw1, fw2, fw3, fw4, h_deai, h_deao, t_dea, p_fwpo, h_fwpo, p_fwi, fw6, fw7)
  }

  datatype Extractions = Extractions(
    hes6: Extraction, hes7: Extraction,
    les1: Extraction, les2: Extraction, les3: Extraction, les4: Extraction)

  /** The two high-pressure and four low-pressure extraction points, each at the drain
      pressure of its heater, all expanded from the HP turbine inlet state. */
  function ExtractionsStage(env: Env, p: CalcInputParameters, hp: HpTurbine, h: HeaterTrain)
    : (x: Extractions)
  {
    Extractions(
      CalcEsx(env, p, h.fw6.p_roxk, hp.s_hi, hp.h_hi),
      CalcEsx(env, p, h.fw7.p_roxk, hp.s_hi, hp.h_hi),
      CalcEsx(env, p, h.fw1.p_roxk, hp.s_hi, hp.h_hi),
      CalcEsx(env, p, h.fw2.p_roxk, hp.s_hi, hp.h_hi),
      CalcEsx(env, p, h.fw3.p_roxk, hp.s_hi, hp.h_hi),
      CalcEsx(env, p, h.fw4.p_roxk, hp.s_hi, hp.h_hi))
  }

  /** Everything the solver evaluates before its loops. */
  datatype Plant = Plant(
    coolant: Coolant, steam: LiveSteam, cond: Condenser, hp: HpTurbine, rh: Reheat,
    lp: LpTurbine, rise: FeedwaterRise, pumps: Pumps, train: HeaterTrain, ext: Extractions,
    rh1: CalcRHXParameters, rh2: CalcRHXParameters, h_a: real)

  /** The stage blocks in the solver's order. The first reheater tap is taken at the
      seventh-heater extraction point, the second at the HP turbine inlet; `h_a` is the
      adiabatic drop available to the feed-pump turbine. */
  function PlantStages(env: Env, p: CalcInputParameters): (s: Plant)
  {
    var coolant := CoolantStage(env, p);
    var steam := LiveSteamStage(env, p, coolant);
    var cond := CondenserStage(env, p);
    var hp := HpTurbineStage(env, p, steam);
    var rh := ReheatStage(env, p, steam, hp);
    var lp := LpTurbineStage(env, p, cond, rh);
    var rise := FeedwaterRiseStage(env, p, cond);
    var pumps := PumpsStage(env, p, rh, rise);
    var train := HeaterTrainStage(env, p, rise, pumps);
    var ext := ExtractionsStage(env, p, hp, train);
    var rh1 := CalcRhx(env, ext.hes7.p_esx, ext.hes7.x_esx);
    var rh2 := CalcRhx(env, hp.p_hi, hp.x_hi);
    var h_a := hp.h_hi - env.px(1.05 * cond.p_cd, 0.0, OH);
    Plant(coolant, steam, cond, hp, rh, lp, rise, pumps, train, ext, rh1, rh2, h_a)
  }

  // ---------------------------------------------------------------------------
  // Properties of the stage relations

  /** The heaters form one chain: each takes its inlet from the previous outlet (the
      first from the condensate pump, the sixth from the feed pump), every one raises the
      enthalpy by the same `dh_fwh`, and the deaerator adds `dh_fw` between the fourth
      and the sixth. */
  lemma HeaterChain(env: Env, p: CalcInputParameters, f: FeedwaterRise, u: Pumps)
    ensures var h := HeaterTrainStage(env, p, f, u);
      && Feeds(h.fw1, h.fw2) && Feeds(h.fw2, h.fw3) && Feeds(h.fw3, h.fw4) && Feeds(h.fw6, h.fw7)
      && h.fw1.p_fwxi == u.p_cwp && h.fw1.h_fwxi == u.h_cwp
      && h.fw4.h_fwxo == u.h_cwp + 4.0 * u.dh_fwh
      && h.h_deao == h.fw4.h_fwxo + f.dh_fw
      && h.fw6.p_fwxi == p.dp_fwpo * p.p_s && h.fw6.h_fwxi == h.h_deao
      && h.fw7.h_fwxo == h.fw4.h_fwxo + f.dh_fw + 2.0 * u.dh_fwh
  {
    var h := HeaterTrainStage(env, p, f, u);
    assert h.fw1.h_fwxo == u.h_cwp + u.dh_fwh;
    assert h.fw2.h_fwxo == h.fw1.h_fwxo + u.dh_fwh;
    assert h.fw3.h_fwxo == h.fw2.h_fwxo + u.dh_fwh;
    assert h.fw4.h_fwxo == h.fw3.h_fwxo + u.dh_fwh;
    assert h.fw6.h_fwxo == h.h_deao + u.dh_fwh;
  }

  /** Every heater's drain lies `theta_hu` above its outlet water temperature. */
  lemma DrainsUseHighPressureDifference(env: Env, p: CalcInputParameters, f: FeedwaterRise,
                                        u: Pumps)
    ensures var h := HeaterTrainStage(env, p, f, u);
      && h.fw1.t_roxk == h.fw1.t_fwxo + p.theta_hu && h.fw2.t_roxk == h.fw2.t_fwxo + p.theta_hu
      && h.fw3.t_roxk == h.fw3.t_fwxo + p.theta_hu && h.fw4.t_roxk == h.fw4.t_fwxo + p.theta_hu
      && h.fw6.t_roxk == h.fw6.t_fwxo + p.theta_hu && h.fw7.t_roxk == h.fw7.t_fwxo + p.theta_hu
  {
  }

  /** Every extraction point expands from the HP turbine inlet state (`s_hi`, `h_hi`),
      the low-pressure ones included, at the drain pressure of its own heater. */
  lemma ExtractionsFromHpInlet(env: Env, p: CalcInputParameters, hp: HpTurbine, h: HeaterTrain)
    requires p.dp_ej != 1.0
    ensures var x := ExtractionsStage(env, p, hp, h);
      && x.les1.p_esx * (1.0 - p.dp_ej) == h.fw1.p_roxk
      && x.les2.p_esx * (1.0 - p.dp_ej) == h.fw2.p_roxk
      && x.les3.p_esx * (1.0 - p.dp_ej) == h.fw3.p_roxk
      && x.les4.p_esx * (1.0 - p.dp_ej) == h.fw4.p_roxk
      && x.hes6.p_esx * (1.0 - p.dp_ej) == h.fw6.p_roxk
      && x.hes7.p_esx * (1.0 - p.dp_ej) == h.fw7.p_roxk
      && x.les1.h_esxs == env.ps(x.les1.p_esx, hp.s_hi, OH)
      && x.les2.h_esxs == env.ps(x.les2.p_esx, hp.s_hi, OH)
      && x.les3.h_esxs == env.ps(x.les3.p_esx, hp.s_hi, OH)
      && x.les4.h_esxs == env.ps(x.les4.p_esx, hp.s_hi, OH)
      && x.hes6.h_esxs == env.ps(x.hes6.p_esx, hp.s_hi, OH)
      && x.hes7.h_esxs == env.ps(x.hes7.p_esx, hp.s_hi, OH)
      && x.les1.h_esx == p.n_m * p.n_hi * (hp.h_hi - x.les1.h_esxs)
      && x.les4.h_esx == p.n_m * p.n_hi * (hp.h_hi - x.les4.h_esxs)
  {
  }
}
