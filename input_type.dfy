/** The text form of the design input shown in the input tab
    (src/npp_tabs/input/input_type.rs): one string per field, the edit message naming one
    field, and the two conversions between the numeric and the text record. Efficiencies
    and loss fractions are shown in percent: multiplied by 100 when shown and divided by
    100 when read back. Formatting and parsing a number are parameters (`Text`); a string
    that does not parse reads as zero. */
module InputType {
  import opened Wrappers
  import Parameters

  type Field = Parameters.Field
  type CalcInputParameters = Parameters.CalcInputParameters

  /** The number formatting and parsing of the platform: `show` renders a number,
      `parse` reads one back or fails. */
  datatype Text = Text(show: real -> string, parse: string -> Option<real>)

  /** Whether every rendered number reads back as itself. */
  ghost predicate RoundTrips(t: Text)
  {
    forall x :: t.parse(t.show(x)) == Some(x)
  }

  /** The number a string stands for, zero when it does not parse. */
  function ParseOrZero(t: Text, s: string): (x: real)
    ensures t.parse(s).Some? ==> x == t.parse(s).value
    ensures t.parse(s).None? ==> x == 0.0
  {
    match t.parse(s)
    case Some(v) => v
    case None => 0.0
  }

  /** The input record as the tab holds it: one string per field. */
  datatype InputParameterString = InputParameterString(
    ne: string, n_1: string, x_fh: string, zeta_d: string, n_hi: string, n_li: string, n_m: string, n_ge: string,
    dp_fh: string, dp_rh: string, dp_ej: string, dp_cd: string, dp_f: string, theta_hu: string, theta_lu: string,
    n_h: string, n_fwpp: string, n_fwpti: string, n_fwptm: string, n_fwptg: string, t_sw1: string, ne_npp: string,
    g_cd: string, p_c: string, dt_sub: string, dt_c: string, p_s: string, dt_sw: string, dt: string,
    dp_hz: string, t_rh2z: string, z: string, z_l: string, z_h: string, dt_fw: string, dp_fwpo: string,
    dp_cwp: string)

  /** The field of `s` named by `k`. */
  function GetText(s: InputParameterString, k: Field): string
  {
    match k
    case Ne => s.ne
    case N1 => s.n_1
    case XFh => s.x_fh
    case ZetaD => s.zeta_d
    case NHi => s.n_hi
    case NLi => s.n_li
    case NM => s.n_m
    case NGe => s.n_ge
    case DpFh => s.dp_fh
    case DpRh => s.dp_rh
    case DpEj => s.dp_ej
    case DpCd => s.dp_cd
    case DpF => s.dp_f
    case ThetaHu => s.theta_hu
    case ThetaLu => s.theta_lu
    case NH => s.n_h
    case NFwpp => s.n_fwpp
    case NFwpti => s.n_fwpti
    case NFwptm => s.n_fwptm
    case NFwptg => s.n_fwptg
    case TSw1 => s.t_sw1
    case NeNpp => s.ne_npp
    case GCd => s.g_cd
    case PC => s.p_c
    case DtSub => s.dt_sub
    case DtC => s.dt_c
    case PS => s.p_s
    case DtSw => s.dt_sw
    case Dt => s.dt
    case DpHz => s.dp_hz
    case TRh2z => s.t_rh2z
    case Z => s.z
    case ZL => s.z_l
    case ZH => s.z_h
    case DtFw => s.dt_fw
    case DpFwpo => s.dp_fwpo
    case DpCwp => s.dp_cwp
  }

  /** The fields shown and read in percent. */
  predicate Percent(k: Field)
  {
    match k
    case N1 | XFh | ZetaD | NHi | NLi | NM | NGe | DpFh | DpRh | DpEj | DpCd | DpF | NH | NFwpp
       | NFwpti | NFwptm | NFwptg | NeNpp | DpHz | DtFw => true
    case _ => false
  }

  /** The number shown for field `k`: the field itself, times 100 for a percent field. */
  function Shown(p: CalcInputParameters, k: Field): real
  {
    if Percent(k) then Parameters.Get(p, k) * 100.0 else Parameters.Get(p, k)
  }

  /** The number read back for field `k` from its text `x`: divided by 100 for a
      percent field. */
  function ReadBack(k: Field, x: real): real
  {
    if Percent(k) then x / 100.0 else x
  }

  /** The text record for a numeric one: every field rendered, percent fields in percent.
      Each string depends only on the field of the same name. */
  function ToText(t: Text, p: CalcInputParameters): (s: InputParameterString)
    ensures forall k :: GetText(s, k) == t.show(Shown(p, k))
  {
    InputParameterString(
      ne := t.show(p.ne),
      n_1 := t.show(p.n_1 * 100.0),
      x_fh := t.show(p.x_fh * 100.0),
      zeta_d := t.show(p.zeta_d * 100.0),
      n_hi := t.show(p.n_hi * 100.0),
      n_li := t.show(p.n_li * 100.0),
      n_m := t.show(p.n_m * 100.0),
      n_ge := t.show(p.n_ge * 100.0),
      dp_fh := t.show(p.dp_fh * 100.0),
      dp_rh := t.show(p.dp_rh * 100.0),
      dp_ej := t.show(p.dp_ej * 100.0),
      dp_cd := t.show(p.dp_cd * 100.0),
      dp_f := t.show(p.dp_f * 100.0),
      theta_hu := t.show(p.theta_hu),
      theta_lu := t.show(p.theta_lu),
      n_h := t.show(p.n_h * 100.0),
      n_fwpp := t.show(p.n_fwpp * 100.0),
      n_fwpti := t.show(p.n_fwpti * 100.0),
      n_fwptm := t.show(p.n_fwptm * 100.0),
      n_fwptg := t.show(p.n_fwptg * 100.0),
      t_sw1 := t.show(p.t_sw1),
      ne_npp := t.show(p.ne_npp * 100.0),
      g_cd := t.show(p.g_cd),
      p_c := t.show(p.p_c),
      dt_sub := t.show(p.dt_sub),
      dt_c := t.show(p.dt_c),
      p_s := t.show(p.p_s),
      dt_sw := t.show(p.dt_sw),
      dt := t.show(p.dt),
      dp_hz := t.show(p.dp_hz * 100.0),
      t_rh2z := t.show(p.t_rh2z),
      z := t.show(p.z),
      z_l := t.show(p.z_l),
      z_h := t.show(p.z_h),
      dt_fw := t.show(p.dt_fw * 100.0),
      dp_fwpo := t.show(p.dp_fwpo),
      dp_cwp := t.show(p.dp_cwp))
  }

  /** The numeric record for a text one: every field parsed, zero when it does not
      parse, percent fields divided by 100. Each number depends only on the string of the
      same name. */
  function FromText(t: Text, s: InputParameterString): (p: CalcInputParameters)
    ensures forall k :: Parameters.Get(p, k) == ReadBack(k, ParseOrZero(t, GetText(s, k)))
  {
    Parameters.CalcInputParameters(
      ne := ParseOrZero(t, s.ne),
      n_1 := ParseOrZero(t, s.n_1) / 100.0,
      x_fh := ParseOrZero(t, s.x_fh) / 100.0,
      zeta_d := ParseOrZero(t, s.zeta_d) / 100.0,
      n_hi := ParseOrZero(t, s.n_hi) / 100.0,
      n_li := ParseOrZero(t, s.n_li) / 100.0,
      n_m := ParseOrZero(t, s.n_m) / 100.0,
      n_ge := ParseOrZero(t, s.n_ge) / 100.0,
      dp_fh := ParseOrZero(t, s.dp_fh) / 100.0,
      dp_rh := ParseOrZero(t, s.dp_rh) / 100.0,
      dp_ej := ParseOrZero(t, s.dp_ej) / 100.0,
      dp_cd := ParseOrZero(t, s.dp_cd) / 100.0,
      dp_f := ParseOrZero(t, s.dp_f) / 100.0,
      theta_hu := ParseOrZero(t, s.theta_hu),
      theta_lu := ParseOrZero(t, s.theta_lu),
      n_h := ParseOrZero(t, s.n_h) / 100.0,
      n_fwpp := ParseOrZero(t, s.n_fwpp) / 100.0,
      n_fwpti := ParseOrZero(t, s.n_fwpti) / 100.0,
      n_fwptm := ParseOrZero(t, s.n_fwptm) / 100.0,
      n_fwptg := ParseOrZero(t, s.n_fwptg) / 100.0,
      t_sw1 := ParseOrZero(t, s.t_sw1),
      ne_npp := ParseOrZero(t, s.ne_npp) / 100.0,
      g_cd := ParseOrZero(t, s.g_cd),
      p_c := ParseOrZero(t, s.p_c),
      dt_sub := ParseOrZero(t, s.dt_sub),
      dt_c := ParseOrZero(t, s.dt_c),
      p_s := ParseOrZero(t, s.p_s),
      dt_sw := ParseOrZero(t, s.dt_sw),
      dt := ParseOrZero(t, s.dt),
      dp_hz := ParseOrZero(t, s.dp_hz) / 100.0,
      t_rh2z := ParseOrZero(t, s.t_rh2z),
      z := ParseOrZero(t, s.z),
      z_l := ParseOrZero(t, s.z_l),
      z_h := ParseOrZero(t, s.z_h),
      dt_fw := ParseOrZero(t, s.dt_fw) / 100.0,
      dp_fwpo := ParseOrZero(t, s.dp_fwpo),
      dp_cwp := ParseOrZero(t, s.dp_cwp))
  }

  /** The derived `Default` of the text record: every field empty. */
  function EmptyText(): (s: InputParameterString)
    ensures forall k :: GetText(s, k) == ""
  {
    InputParameterString(
      "", "", "", "", "", "", "", "", "", "", "", "", "", "", "", "", "", "", "",
      "", "", "", "", "", "", "", "", "", "", "", "", "", "", "", "", "", "")
  }

  /** Showing a record and reading it back gives the record again, whenever every
      rendered number reads back as itself: a percent field is multiplied and divided by
      the same 100. */
  lemma TextRoundTrip(t: Text, p: CalcInputParameters)
    requires RoundTrips(t)
    ensures FromText(t, ToText(t, p)) == p
  {
  }

  /** The all-empty text record reads as the all-zero numeric record, as the empty
      string does not parse as a number. */
  lemma EmptyTextReadsZero(t: Text)
    requires t.parse("") == None
    ensures FromText(t, EmptyText()) == Parameters.Default()
  {
  }

  /** The edit message of one input field: the field's variant carries the new text.
      The variant names follow the program's, including `Nwpti` for the feed-pump
      turbine's internal efficiency `n_fwpti`. */
  datatype InputParameters =
    Ne(value: string)
    | N1(value: string)
    | Xfh(value: string)
    | Zetad(value: string)
    | Nhi(value: string)
    | Nli(value: string)
    | Nm(value: string)
    | Nge(value: string)
    | DPfh(value: string)
    | DPrh(value: string)
    | DPej(value: string)
    | DPcd(value: string)
    | DPf(value: string)
    | ThetaHu(value: string)
    | ThetaLu(value: string)
    | Nh(value: string)
    | Nfwpp(value: string)
    | Nwpti(value: string)
    | Nfwptm(value: string)
    | Nfwptg(value: string)
    | Tsw1(value: string)
    | Nenpp(value: string)
    | Gcd(value: string)
    | Pc(value: string)
    | DTsub(value: string)
    | DTc(value: string)
    | Ps(value: string)
    | DTsw(value: string)
    | DT(value: string)
    | DPhz(value: string)
    | Trh2z(value: string)
    | Z(value: string)
    | Zl(value: string)
    | Zh(value: string)
    | DTfw(value: string)
    | DPfwpo(value: string)
    | DPcwp(value: string)

  /** The field an edit message is for. */
  function FieldOf(m: InputParameters): Field
  {
    match m
    case Ne(_) => Parameters.Ne
    case N1(_) => Parameters.N1
    case Xfh(_) => Parameters.XFh
    case Zetad(_) => Parameters.ZetaD
    case Nhi(_) => Parameters.NHi
    case Nli(_) => Parameters.NLi
    case Nm(_) => Parameters.NM
    case Nge(_) => Parameters.NGe
    case DPfh(_) => Parameters.DpFh
    case DPrh(_) => Parameters.DpRh
    case DPej(_) => Parameters.DpEj
    case DPcd(_) => Parameters.DpCd
    case DPf(_) => Parameters.DpF
    case ThetaHu(_) => Parameters.ThetaHu
    case ThetaLu(_) => Parameters.ThetaLu
    case Nh(_) => Parameters.NH
    case Nfwpp(_) => Parameters.NFwpp
    case Nwpti(_) => Parameters.NFwpti
    case Nfwptm(_) => Parameters.NFwptm
    case Nfwptg(_) => Parameters.NFwptg
    case Tsw1(_) => Parameters.TSw1
    case Nenpp(_) => Parameters.NeNpp
    case Gcd(_) => Parameters.GCd
    case Pc(_) => Parameters.PC
    case DTsub(_) => Parameters.DtSub
    case DTc(_) => Parameters.DtC
    case Ps(_) => Parameters.PS
    case DTsw(_) => Parameters.DtSw
    case DT(_) => Parameters.Dt
    case DPhz(_) => Parameters.DpHz
    case Trh2z(_) => Parameters.TRh2z
    case Z(_) => Parameters.Z
    case Zl(_) => Parameters.ZL
    case Zh(_) => Parameters.ZH
    case DTfw(_) => Parameters.DtFw
    case DPfwpo(_) => Parameters.DpFwpo
    case DPcwp(_) => Parameters.DpCwp
  }

  /** The edit message for field `k` with text `v`: every field has one, and `FieldOf`
      recovers the field. */
  function EditOf(k: Field, v: string): (m: InputParameters)
    ensures FieldOf(m) == k && m.value == v
  {
    match k
    case Ne => Ne(v)
    case N1 => N1(v)
    case XFh => Xfh(v)
    case ZetaD => Zetad(v)
    case NHi => Nhi(v)
    case NLi => Nli(v)
    case NM => Nm(v)
    case NGe => Nge(v)
    case DpFh => DPfh(v)
    case DpRh => DPrh(v)
    case DpEj => DPej(v)
    case DpCd => DPcd(v)
    case DpF => DPf(v)
    case ThetaHu => ThetaHu(v)
    case ThetaLu => ThetaLu(v)
    case NH => Nh(v)
    case NFwpp => Nfwpp(v)
    case NFwpti => Nwpti(v)
    case NFwptm => Nfwptm(v)
    case NFwptg => Nfwptg(v)
    case TSw1 => Tsw1(v)
    case NeNpp => Nenpp(v)
    case GCd => Gcd(v)
    case PC => Pc(v)
    case DtSub => DTsub(v)
    case DtC => DTc(v)
    case PS => Ps(v)
    case DtSw => DTsw(v)
    case Dt => DT(v)
    case DpHz => DPhz(v)
    case TRh2z => Trh2z(v)
    case Z => Z(v)
    case ZL => Zl(v)
    case ZH => Zh(v)
    case DtFw => DTfw(v)
    case DpFwpo => DPfwpo(v)
    case DpCwp => DPcwp(v)
  }
}
