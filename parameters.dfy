/** The records the solver reads and writes (calc/src/parameters.rs): the design input,
    the per-pass iteration record, the detailed result record with its per-stage
    sub-records, and the two constant constructors of the input record. Every `f64` is a
    `real` and every `Vec` a `seq`. */
module Parameters {

  /** The design input: efficiencies and loss fractions as fractions of one, pressures in
      MPa, temperatures in degrees Celsius, stage counts as reals. Two of the fields,
      `ne_npp` (assumed plant efficiency) and `g_cd` (assumed condensate flow), are the
      iteration state that the solver overwrites. */
  datatype CalcInputParameters = CalcInputParameters(
    ne: real, n_1: real, x_fh: real, zeta_d: real, n_hi: real, n_li: real, n_m: real,
    n_ge: real, dp_fh: real, dp_rh: real, dp_ej: real, dp_cd: real, dp_f: real, theta_hu: real,
    theta_lu: real, n_h: real, n_fwpp: real, n_fwpti: real, n_fwptm: real, n_fwptg: real, t_sw1: real,
    ne_npp: real, g_cd: real, p_c: real, dt_sub: real, dt_c: real, p_s: real, dt_sw: real,
    dt: real, dp_hz: real, t_rh2z: real, z: real, z_l: real, z_h: real, dt_fw: real,
    dp_fwpo: real, dp_cwp: real)

  /** One name per field of the input record, for statements about all fields at once. */
  datatype Field =
    Ne | N1 | XFh | ZetaD | NHi | NLi | NM | NGe | DpFh | DpRh
    | DpEj | DpCd | DpF | ThetaHu | ThetaLu | NH | NFwpp | NFwpti | NFwptm | NFwptg
    | TSw1 | NeNpp | GCd | PC | DtSub | DtC | PS | DtSw | Dt | DpHz
    | TRh2z | Z | ZL | ZH | DtFw | DpFwpo | DpCwp

  /** The field of `p` named by `k`. */
  function Get(p: CalcInputParameters, k: Field): real
  {
    match k
    case Ne => p.ne
    case N1 => p.n_1
    case XFh => p.x_fh
    case ZetaD => p.zeta_d
    case NHi => p.n_hi
    case NLi => p.n_li
    case NM => p.n_m
    case NGe => p.n_ge
    case DpFh => p.dp_fh
    case DpRh => p.dp_rh
    case DpEj => p.dp_ej
    case DpCd => p.dp_cd
    case DpF => p.dp_f
    case ThetaHu => p.theta_hu
    case ThetaLu => p.theta_lu
    case NH => p.n_h
    case NFwpp => p.n_fwpp
    case NFwpti => p.n_fwpti
    case NFwptm => p.n_fwptm
    case NFwptg => p.n_fwptg
    case TSw1 => p.t_sw1
    case NeNpp => p.ne_npp
    case GCd => p.g_cd
    case PC => p.p_c
    case DtSub => p.dt_sub
    case DtC => p.dt_c
    case PS => p.p_s
    case DtSw => p.dt_sw
    case Dt => p.dt
    case DpHz => p.dp_hz
    case TRh2z => p.t_rh2z
    case Z => p.z
    case ZL => p.z_l
    case ZH => p.z_h
    case DtFw => p.dt_fw
    case DpFwpo => p.dp_fwpo
    case DpCwp => p.dp_cwp
  }

  /** The derived `Default`: every field zero, so the stage counts, the assumed
      efficiency and the assumed condensate flow are all zero divisors. */
  function Default(): (p: CalcInputParameters)
    ensures forall k :: Get(p, k) == 0.0
    ensures !DivisorsNonzero(p)
  {
    CalcInputParameters(0.0, 0.0, 0.0, 0.0, 0.0, 0.0, 0.0, 0.0, 0.0, 0.0, 0.0, 0.0, 0.0, 0.0, 0.0, 0.0, 0.0, 0.0, 0.0, 0.0, 0.0, 0.0, 0.0, 0.0, 0.0, 0.0, 0.0, 0.0, 0.0, 0.0, 0.0, 0.0, 0.0, 0.0, 0.0, 0.0, 0.0)
  }

  /** The ranges and given values that the field documentation states for the design
      input (efficiencies and losses as fractions of one). */
  predicate DocumentedRanges(p: CalcInputParameters)
  {
    && p.ne == 1000.0
    && 0.99 <= p.n_1 <= 1.0
    && p.x_fh == 0.9975
    && p.zeta_d == 0.0105
    && p.n_hi == 0.8207
    && p.n_li == 0.8359
    && 0.98 <= p.n_m <= 0.99
    && 0.98 <= p.n_ge <= 0.99
    && 0.03 <= p.dp_fh <= 0.07
    && p.dp_rh <= 0.10
    && 0.03 <= p.dp_ej <= 0.05
    && p.dp_cd == 0.05
    && p.dp_f == 0.01
    && p.theta_hu == 3.0
    && p.theta_lu == 2.0
    && 0.97 <= p.n_h <= 0.99
    && p.n_fwpp == 0.58
    && 0.78 <= p.n_fwpti <= 0.82
    && p.n_fwptm == 0.90
    && p.n_fwptg == 0.98
    && p.t_sw1 == 24.0
    && 15.0 <= p.p_c <= 16.0
    && 15.0 <= p.dt_sub <= 20.0
    && 30.0 <= p.dt_c <= 40.0
    && 5.0 <= p.p_s <= 7.0
    && 6.0 <= p.dt_sw <= 8.0
    && 3.0 <= p.dt <= 10.0
    && 0.12 <= p.dp_hz <= 0.14
    && 13.0 <= p.t_rh2z <= 15.0
    && p.z == 7.0
    && p.z_l == 4.0
    && p.z_h == 2.0
    && 0.85 <= p.dt_fw <= 0.90
    && 1.15 <= p.dp_fwpo <= 1.25
    && 3.0 <= p.dp_cwp <= 3.2
  }

  /** Every divisor of the solver that depends on the input alone is nonzero: the stage
      counts, the loss fractions under `1/(1 - dp)`, the assumed efficiency and
      condensate flow, and the efficiency products. */
  predicate DivisorsNonzero(p: CalcInputParameters)
  {
    && p.z != 0.0 && p.z + 1.0 != 0.0 && p.z_h != 0.0 && p.z_l + 1.0 != 0.0
    && p.dp_ej != 1.0 && p.dp_cd != 1.0
    && p.ne_npp != 0.0 && p.g_cd != 0.0 && p.n_1 != 0.0 && p.n_h != 0.0
    && p.n_m * p.n_ge != 0.0
    && p.n_fwpp * p.n_fwpti * p.n_fwptm * p.n_fwptg != 0.0
  }

  /** An efficiency: a fraction in (0, 1]. */
  predicate Efficiency(x: real)
  {
    0.0 < x <= 1.0
  }

  /** The reference design point (`from_default`). */
  function FromDefault(): (p: CalcInputParameters)
    ensures p.z == 7.0 && p.z_l == 4.0 && p.z_h == 2.0
    ensures Efficiency(p.n_1) && Efficiency(p.n_hi) && Efficiency(p.n_li) && Efficiency(p.n_m)
    ensures Efficiency(p.n_ge) && Efficiency(p.n_h) && Efficiency(p.n_fwpp)
    ensures Efficiency(p.n_fwpti) && Efficiency(p.n_fwptm) && Efficiency(p.n_fwptg)
    ensures p.ne_npp == 1.0 && p.g_cd == 1200.0
    ensures p.dp_ej < 1.0 && p.dp_cd < 1.0
    ensures DocumentedRanges(p)
    ensures DivisorsNonzero(p)
  {
    CalcInputParameters(
      ne := 1000.0, n_1 := 99.6 / 100.0, x_fh := 99.75 / 100.0, zeta_d := 1.05 / 100.0,
      n_hi := 82.07 / 100.0, n_li := 83.59 / 100.0, n_m := 98.5 / 100.0, n_ge := 99.0 / 100.0,
      dp_fh := 5.0 / 100.0, dp_rh := 8.0 / 100.0, dp_ej := 4.0 / 100.0, dp_cd := 5.0 / 100.0,
      dp_f := 1.0 / 100.0, theta_hu := 3.0, theta_lu := 2.0, n_h := 98.0 / 100.0,
      n_fwpp := 58.0 / 100.0, n_fwpti := 80.0 / 100.0, n_fwptm := 90.0 / 100.0,
      n_fwptg := 98.0 / 100.0, t_sw1 := 24.0, ne_npp := 1.0, g_cd := 1200.0,
      p_c := 15.5, dt_sub := 15.0, dt_c := 35.0, p_s := 6.0, dt_sw := 7.0, dt := 5.0,
      dp_hz := 13.0 / 100.0, t_rh2z := 15.0, z := 7.0, z_l := 4.0, z_h := 2.0,
      dt_fw := 85.0 / 100.0, dp_fwpo := 1.2, dp_cwp := 3.1)
  }

  /** One record of the convergence trace: one per outer pass of the solver. */
  datatype CalcResult1 = CalcResult1(
    eta_enpp: real, q_r: real, d_s: real, g_shp: real, g_slp: real, g_srh1: real, g_srh2: real,
    g_sdea: real, g_sfwp: real, g_fw: real, h_fwp: real, g_hes7: real, g_hes6: real, g_les4: real,
    g_les3: real, g_les2: real, g_les1: real, g_cd: real, g_uw: real, g_zc1: real, g_zc2: real)

  /** A low- or high-pressure feedwater heater: water-side inlet and outlet, drain side. */
  datatype CalcFWParameters = CalcFWParameters(
    p_fwxi: real, h_fwxi: real, t_fwxi: real, p_fwxo: real, h_fwxo: real, t_fwxo: real,
    t_roxk: real, h_roxk: real, p_roxk: real)

  /** An extraction point of the turbine. */
  datatype CalcHESParameters = CalcHESParameters(
    t_hesx: real, p_hesx: real, x_hesx: real, h_hesxs: real, h_hesx: real)

  /** A reheater heating-steam tap. */
  datatype CalcRHXParameters = CalcRHXParameters(
    p_rhx: real, x_rhx: real, t_rhx: real, h_rhx: real, h_zsx: real)

  /** The detailed result record (the appendix tables). */
  datatype CalcResult2 = CalcResult2(
    ne: real, eta_1: real, x_fh: real, zeta_d: real, eta_hi: real, eta_li: real,
    eta_m: real, eta_ge: real, dp_fh: real, dp_rh: real, dp_ej: real, dp_cd: real,
    theta_hu: real, theta_lu: real, eta_h: real, eta_fwpp: real, eta_fwpti: real, eta_fwptm: real,
    eta_fwptg: real, t_sw1: real, p_c: real, t_cs: real, dt_sub: real, t_co: real,
    dt_c: real, t_ci: real, p_s: real, t_fh: real, dt_m: real, dt_sw: real,
    dt: real, t_cd: real, p_cd: real, p_hi: real, x_hi: real, h_fh: real,
    s_fh: real, s_hi: real, p_hz: real, x_hz: real, h_hi: real, h_hzs: real,
    h_hz: real, p_spi: real, x_spi: real, p_uw: real, h_uw: real, p_rh1i: real,
    x_rh1i: real, h_rh1i: real, p_rh1hs: real, x_rh1hs: real, p_rh2i: real, t_rh2i: real,
    p_rh2z: real, t_rh2z: real, h_rh2z: real, dh_rh: real, h_rh1z: real, h_rh2i: real,
    p_rh2hs: real, x_rh2hs: real, p_li: real, t_li: real, p_lz: real, x_lz: real,
    s_li: real, h_li: real, h_lzs: real, h_lz: real, z: real, z_l: real,
    z_h: real, dh_fw: real, h_s: real, h_cd: real, dh_fwop: real, h_fwop: real,
    t_fwop: real, t_fw: real, h_fw: real, dh_fwh: real, p_dea: real, h_deao: real,
    dh_fwl: real, p_cwp: real, h_cwp: real, dp_cws: real, dp_fi: real,
    lfwx: seq<CalcFWParameters>,
    h_deai: real, h_deao1: real, t_dea: real, p_dea1: real, p_fwpo: real, h_fwpo: real,
    p_fwi: real,
    hfwx: seq<CalcFWParameters>,
    s_hi1: real, h_hi1: real,
    hhes: seq<CalcHESParameters>,
    s_li1: real, h_li1: real,
    lhes: seq<CalcHESParameters>,
    rhx: seq<CalcRHXParameters>)

  /** The solver's results: the convergence trace and the detailed record. */
  datatype CalcResultParamters = CalcResultParamters(
    result1: seq<CalcResult1>,
    result2: CalcResult2)

  /**
   * Every number of the detailed record, in declaration order (the row lists
   * aside), in four runs of 25 fields.
   */
  function Numbers(r: CalcResult2): (xs: seq<real>)
    ensures |xs| == 100
  {
    NumberRun(r, 0) + NumberRun(r, 1) + NumberRun(r, 2) + NumberRun(r, 3)
  }

  /** The `i`-th run of 25 numbers of the detailed record. */
  function NumberRun(r: CalcResult2, i: nat): (xs: seq<real>)
    requires i < 4
    ensures |xs| == 25
  {
    match i
    case 0 =>
      [
        r.ne, r.eta_1, r.x_fh, r.zeta_d, r.eta_hi, r.eta_li, r.eta_m, r.eta_ge, r.dp_fh, r.dp_rh,
        r.dp_ej, r.dp_cd, r.theta_hu, r.theta_lu, r.eta_h, r.eta_fwpp, r.eta_fwpti, r.eta_fwptm,
        r.eta_fwptg, r.t_sw1, r.p_c, r.t_cs, r.dt_sub, r.t_co, r.dt_c
      ]
    case 1 =>
      [
        r.t_ci, r.p_s, r.t_fh, r.dt_m, r.dt_sw, r.dt, r.t_cd, r.p_cd, r.p_hi, r.x_hi, r.h_fh, r.s_fh,
        r.s_hi, r.p_hz, r.x_hz, r.h_hi, r.h_hzs, r.h_hz, r.p_spi, r.x_spi, r.p_uw, r.h_uw, r.p_rh1i,
        r.x_rh1i, r.h_rh1i
      ]
    case 2 =>
      [
        r.p_rh1hs, r.x_rh1hs, r.p_rh2i, r.t_rh2i, r.p_rh2z, r.t_rh2z, r.h_rh2z, r.dh_rh, r.h_rh1z,
        r.h_rh2i, r.p_rh2hs, r.x_rh2hs, r.p_li, r.t_li, r.p_lz, r.x_lz, r.s_li, r.h_li, r.h_lzs,
        r.h_lz, r.z, r.z_l, r.z_h, r.dh_fw, r.h_s
      ]
    case _ =>
      [
        r.h_cd, r.dh_fwop, r.h_fwop, r.t_fwop, r.t_fw, r.h_fw, r.dh_fwh, r.p_dea, r.h_deao, r.dh_fwl,
        r.p_cwp, r.h_cwp, r.dp_cws, r.dp_fi, r.h_deai, r.h_deao1, r.t_dea, r.p_dea1, r.p_fwpo,
        r.h_fwpo, r.p_fwi, r.s_hi1, r.h_hi1, r.s_li1, r.h_li1
      ]
  }

  /** The derived `Default` of the detailed record: zeros and empty sequences. */
  function DefaultResult2(): (r: CalcResult2)
    ensures r.lfwx == [] && r.hfwx == [] && r.hhes == [] && r.lhes == [] && r.rhx == []
    ensures forall x :: x in Numbers(r) ==> x == 0.0
  {
    CalcResult2(0.0, 0.0, 0.0, 0.0, 0.0, 0.0, 0.0, 0.0, 0.0, 0.0, 0.0, 0.0, 0.0, 0.0, 0.0, 0.0, 0.0, 0.0, 0.0, 0.0, 0.0, 0.0, 0.0, 0.0, 0.0, 0.0, 0.0, 0.0, 0.0, 0.0, 0.0, 0.0, 0.0, 0.0, 0.0, 0.0, 0.0, 0.0, 0.0, 0.0, 0.0, 0.0, 0.0, 0.0, 0.0, 0.0, 0.0, 0.0, 0.0, 0.0, 0.0, 0.0, 0.0, 0.0, 0.0, 0.0, 0.0, 0.0, 0.0, 0.0, 0.0, 0.0, 0.0, 0.0, 0.0, 0.0, 0.0, 0.0, 0.0, 0.0, 0.0, 0.0, 0.0, 0.0, 0.0, 0.0, 0.0, 0.0, 0.0, 0.0, 0.0, 0.0, 0.0, 0.0, 0.0, 0.0, 0.0, 0.0, 0.0, [], 0.0, 0.0, 0.0, 0.0, 0.0, 0.0, 0.0, [], 0.0, 0.0, [], 0.0, 0.0, [], [])
  }

  /** The derived `Default` of the results: an empty trace. */
  function EmptyResults(): (r: CalcResultParamters)
    ensures r.result1 == []
    ensures r.result2 == DefaultResult2()
  {
    CalcResultParamters([], DefaultResult2())
  }
}
