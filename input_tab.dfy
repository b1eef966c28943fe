/** The input tab of the program (src/npp_tabs/input.rs): it holds the design input as
    text, one string per field, and updates it on three messages: load a numeric record,
    clear every field, or replace the text of one field. */
module InputTab {
  import opened InputType
  import Parameters

  /** A message to the input tab. */
  datatype InputTabMessage =
    UpdateParams(params: CalcInputParameters)
    | ClearParams
    | ValueChanged(input_params: InputParameters)

  /** The text record `s` with the field named by `k` replaced by `v`; every other field
      keeps its text. */
  function SetText(s: InputParameterString, k: Field, v: string): InputParameterString
  {
    match k
    case Ne => s.(ne := v)
    case N1 => s.(n_1 := v)
    case XFh => s.(x_fh := v)
    case ZetaD => s.(zeta_d := v)
    case NHi => s.(n_hi := v)
    case NLi => s.(n_li := v)
    case NM => s.(n_m := v)
    case NGe => s.(n_ge := v)
    case DpFh => s.(dp_fh := v)
    case DpRh => s.(dp_rh := v)
    case DpEj => s.(dp_ej := v)
    case DpCd => s.(dp_cd := v)
    case DpF => s.(dp_f := v)
    case ThetaHu => s.(theta_hu := v)
    case ThetaLu => s.(theta_lu := v)
    case NH => s.(n_h := v)
    case NFwpp => s.(n_fwpp := v)
    case NFwpti => s.(n_fwpti := v)
    case NFwptm => s.(n_fwptm := v)
    case NFwptg => s.(n_fwptg := v)
    case TSw1 => s.(t_sw1 := v)
    case NeNpp => s.(ne_npp := v)
    case GCd => s.(g_cd := v)
    case PC => s.(p_c := v)
    case DtSub => s.(dt_sub := v)
    case DtC => s.(dt_c := v)
    case PS => s.(p_s := v)
    case DtSw => s.(dt_sw := v)
    case Dt => s.(dt := v)
    case DpHz => s.(dp_hz := v)
    case TRh2z => s.(t_rh2z := v)
    case Z => s.(z := v)
    case ZL => s.(z_l := v)
    case ZH => s.(z_h := v)
    case DtFw => s.(dt_fw := v)
    case DpFwpo => s.(dp_fwpo := v)
    case DpCwp => s.(dp_cwp := v)
  }

  /** `SetText` replaces the text of field `k` by `v` and keeps the text of every other
      field. */
  lemma SetTextGetText(s: InputParameterString, k: Field, v: string)
    ensures GetText(SetText(s, k, v), k) == v
    ensures forall j :: j != k ==> GetText(SetText(s, k, v), j) == GetText(s, j)
  {
    match k
    case Ne =>
    case N1 =>
    case XFh =>
    case ZetaD =>
    case NHi =>
    case NLi =>
    case NM =>
    case NGe =>
    case DpFh =>
    case DpRh =>
    case DpEj =>
    case DpCd =>
    case DpF =>
    case ThetaHu =>
    case ThetaLu =>
    case NH =>
    case NFwpp =>
    case NFwpti =>
    case NFwptm =>
    case NFwptg =>
    case TSw1 =>
    case NeNpp =>
    case GCd =>
    case PC =>
    case DtSub =>
    case DtC =>
    case PS =>
    case DtSw =>
    case Dt =>
    case DpHz =>
    case TRh2z =>
    case Z =>
    case ZL =>
    case ZH =>
    case DtFw =>
    case DpFwpo =>
    case DpCwp =>
  }

  /** Replacing the text of field `k` changes what the record reads as in field `k`
      only: that field now reads from `v`, every other one as before. */
  lemma {:induction false} SetTextReadsOneField(t: Text, s: InputParameterString, k: Field, v: string)
    ensures forall j :: Parameters.Get(FromText(t, SetText(s, k, v)), j)
                     == if j == k then ReadBack(k, ParseOrZero(t, v)) else Parameters.Get(FromText(t, s), j)
  {
    var r := SetText(s, k, v);
    forall j
      ensures Parameters.Get(FromText(t, r), j)
           == if j == k then ReadBack(k, ParseOrZero(t, v)) else Parameters.Get(FromText(t, s), j)
    {
      SetTextGetText(s, k, v);
    }
  }

  /** The tab state: the text of every input field. */
  class InputTab {
    var input_strings: InputParameterString

    /** The derived `Default`: every field empty. */
    constructor ()
      ensures input_strings == EmptyText()
    {
      input_strings := EmptyText();
    }

    /** Handles one message: loading a record shows it, clearing empties every field,
        and an edit replaces the text of the one field it names. */
    method Update(t: Text, message: InputTabMessage)
      modifies this
      ensures message.UpdateParams? ==> input_strings == ToText(t, message.params)
      ensures message.ClearParams? ==> input_strings == EmptyText()
      ensures message.ValueChanged? ==>
        && input_strings == SetText(old(input_strings), FieldOf(message.input_params), message.input_params.value)
        && forall k :: GetText(input_strings, k)
                    == if k == FieldOf(message.input_params) then message.input_params.value
                       else GetText(old(input_strings), k)
    {
      match message
      case UpdateParams(params) =>
        input_strings := ToText(t, params);
      case ClearParams =>
        input_strings := EmptyText();
      case ValueChanged(input_params) =>
        input_strings := SetText(input_strings, FieldOf(input_params), input_params.value);
        SetTextGetText(old(input_strings), FieldOf(input_params), input_params.value);
    }
  }
}
