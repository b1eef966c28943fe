/** The Markdown report of a calculation (src/npp_tabs/result/result_formatter.rs). The
    report is built by appending pieces to a string; the model describes it as a sequence
    of `Piece`s, each a fixed text, a labelled number, or a numbered group heading, and
    renders that sequence. How a number is rendered (four decimals) is the parameter
    `fmt`. */
module ResultFormatter {
  import opened Parameters

  /** One appended piece of the report. */
  datatype Piece =
    | Text(s: string)
    | Bullet(indent: string, name: string, v: real, suffix: string)
    | Ordinal(prefix: string, k: nat, suffix: string)

  predicate IsText(p: Piece) { p.Text? }
  predicate IsBullet(p: Piece) { p.Bullet? }
  predicate IsOrdinal(p: Piece) { p.Ordinal? }

  /** The decimal digits of `n`, as the platform displays an index. */
  function NatStr(n: nat): (s: string)
    ensures |s| > 0
    ensures forall i :: 0 <= i < |s| ==> '0' <= s[i] <= '9'
    ensures n < 10 <==> |s| == 1
  {
    if n < 10 then ["0123456789"[n]] else NatStr(n / 10) + ["0123456789"[n % 10]]
  }

  /** The number a string of decimal digits denotes, most significant digit first. */
  function DigitsValue(s: string): nat
    requires forall i :: 0 <= i < |s| ==> '0' <= s[i] <= '9'
  {
    if s == [] then 0 else 10 * DigitsValue(s[..|s| - 1]) + (s[|s| - 1] as int - '0' as int)
  }

  /** The character for digit `d` has the value `d`. */
  lemma DigitValue(d: nat)
    requires d < 10
    ensures "0123456789"[d] as int - '0' as int == d
  {
  }

  /** The digits of a group number denote that number. */
  lemma {:induction false} NatStrValue(n: nat)
    ensures DigitsValue(NatStr(n)) == n
  {
    var s := NatStr(n);
    if n < 10 {
      DigitValue(n);
      assert s[..0] == [];
    } else {
      DigitValue(n % 10);
      assert s[..|s| - 1] == NatStr(n / 10);
      NatStrValue(n / 10);
    }
  }

  /** The text of one piece. */
  function Render(fmt: real -> string, p: Piece): string
  {
    match p
    case Text(s) => s
    case Bullet(indent, name, v, suffix) => indent + "- " + name + ": " + fmt(v) + suffix
    case Ordinal(prefix, k, suffix) => prefix + NatStr(k) + suffix
  }

  /** The text of a sequence of pieces: each rendered, in order. */
  function Rendered(fmt: real -> string, ps: seq<Piece>): string
  {
    if ps == [] then "" else Rendered(fmt, ps[..|ps| - 1]) + Render(fmt, ps[|ps| - 1])
  }

  /** Rendering distributes over concatenation, so appending pieces appends text. */
  lemma {:induction false} RenderedAppend(fmt: real -> string, a: seq<Piece>, b: seq<Piece>)
    ensures Rendered(fmt, a + b) == Rendered(fmt, a) + Rendered(fmt, b)
    decreases |b|
  {
    if b == [] {
      assert a + b == a;
    } else {
      var b', last := b[..|b| - 1], b[|b| - 1];
      assert (a + b)[..|a + b| - 1] == a + b';
      assert (a + b)[|a + b| - 1] == last;
      RenderedAppend(fmt, a, b');
      var ra, rb', rl := Rendered(fmt, a), Rendered(fmt, b'), Render(fmt, last);
      calc {
        Rendered(fmt, a + b);
        Rendered(fmt, a + b') + rl;
        (ra + rb') + rl;
        { ConcatAssoc(ra, rb', rl); }
        ra + (rb' + rl);
        ra + Rendered(fmt, b);
      }
    }
  }

  /** The number of pieces satisfying `f`. */
  function Count(ps: seq<Piece>, f: Piece -> bool): nat
  {
    if ps == [] then 0 else Count(ps[..|ps| - 1], f) + (if f(ps[|ps| - 1]) then 1 else 0)
  }

  lemma {:induction false} CountAppend(a: seq<Piece>, b: seq<Piece>, f: Piece -> bool)
    ensures Count(a + b, f) == Count(a, f) + Count(b, f)
    decreases |b|
  {
    if b == [] {
      assert a + b == a;
    } else {
      var b' := b[..|b| - 1];
      assert (a + b)[..|a + b| - 1] == a + b';
      CountAppend(a, b', f);
    }
  }

  /** Pieces that all satisfy `f` are all counted; pieces none of which does, none. */
  lemma {:induction false} CountUniform(ps: seq<Piece>, f: Piece -> bool, all: bool)
    requires forall i :: 0 <= i < |ps| ==> f(ps[i]) == all
    ensures Count(ps, f) == if all then |ps| else 0
    decreases |ps|
  {
    if ps != [] {
      CountUniform(ps[..|ps| - 1], f, all);
    }
  }

  /** A table: a heading text followed by labelled numbers only. */
  predicate Table(ps: seq<Piece>)
  {
    |ps| > 0 && ps[0].Text? && forall i :: 1 <= i < |ps| ==> ps[i].Bullet?
  }

  /** How the groups of a repeated record are introduced: not at all, or by a heading
      carrying the group's number. */
  datatype Heading = NoHeading | Numbered(prefix: string, suffix: string)

  function HeadingPieces(h: Heading, k: nat): (ps: seq<Piece>)
    ensures h.NoHeading? ==> ps == []
    ensures h.Numbered? ==> ps == [Ordinal(h.prefix, k, h.suffix)]
  {
    match h
    case NoHeading => []
    case Numbered(prefix, suffix) => [Ordinal(prefix, k, suffix)]
  }

  /** A heading is one numbered piece, or nothing. */
  lemma HeadingCounts(h: Heading, k: nat)
    ensures Count(HeadingPieces(h, k), IsBullet) == 0 && Count(HeadingPieces(h, k), IsText) == 0
    ensures Count(HeadingPieces(h, k), IsOrdinal) == if h.Numbered? then 1 else 0
  {
    assert HeadingPieces(h, k)[..0] == [];
  }

  /** One group per element of `xs`, numbered from 1: its heading, then its fields. */
  function Groups<T>(xs: seq<T>, h: Heading, fields: T -> seq<Piece>): seq<Piece>
  {
    if xs == [] then []
    else Groups(xs[..|xs| - 1], h, fields) + HeadingPieces(h, |xs|) + fields(xs[|xs| - 1])
  }

  /** The group of the element at index `i` carries the number `i + 1` and follows the
      groups of all earlier elements, which are unchanged by the later ones. */
  lemma {:induction false} GroupsPrefix<T>(xs: seq<T>, h: Heading, fields: T -> seq<Piece>, i: nat)
    requires i < |xs|
    ensures Groups(xs[..i], h, fields) + HeadingPieces(h, i + 1) + fields(xs[i]) <= Groups(xs, h, fields)
    decreases |xs|
  {
    var n := |xs| - 1;
    if i == n {
      assert xs[..n] == xs[..i];
    } else {
      var xs' := xs[..n];
      assert xs'[..i] == xs[..i] && xs'[i] == xs[i];
      GroupsPrefix(xs', h, fields, i);
    }
  }

  lemma MulSucc(n: nat, e: nat)
    ensures e * (n + 1) == e * n + e
  {
  }

  /** When every element's fields hold `c` pieces satisfying `f` and every heading `d`,
      the groups hold `(c + d) * |xs|` of them. */
  lemma {:induction false} GroupsCount<T>(xs: seq<T>, h: Heading, fields: T -> seq<Piece>, f: Piece -> bool, c: nat, d: nat)
    requires forall x :: Count(fields(x), f) == c
    requires forall k :: Count(HeadingPieces(h, k), f) == d
    ensures Count(Groups(xs, h, fields), f) == (c + d) * |xs|
    decreases |xs|
  {
    if xs != [] {
      var n := |xs| - 1;
      GroupsCount(xs[..n], h, fields, f, c, d);
      var g := Groups(xs[..n], h, fields);
      var hd := HeadingPieces(h, |xs|);
      assert Groups(xs, h, fields) == g + hd + fields(xs[n]);
      CountAppend(g, hd, f);
      CountAppend(g + hd, fields(xs[n]), f);
      assert Count(hd, f) == d && Count(fields(xs[n]), f) == c;
      MulSucc(n, c + d);
    }
  }

  /** A record whose pieces are `n` bullets at the same indentation. */
  predicate Bullets(ps: seq<Piece>, n: nat, indent: string)
  {
    |ps| == n && forall i :: 0 <= i < |ps| ==> ps[i].Bullet? && ps[i].indent == indent
  }

  lemma BulletsCount(ps: seq<Piece>, n: nat, indent: string)
    requires Bullets(ps, n, indent)
    ensures Count(ps, IsBullet) == n && Count(ps, IsOrdinal) == 0 && Count(ps, IsText) == 0
  {
    CountUniform(ps, IsBullet, true);
    CountUniform(ps, IsOrdinal, false);
    CountUniform(ps, IsText, false);
  }

  /** The 21 bullets of one iteration's record (121-198), in the record's field order
      from `eta_enpp` to `g_zc2`; the last one closes the block with a blank line. */
  function Result1Pieces(r: CalcResult1): (ps: seq<Piece>)
    ensures Bullets(ps, 21, "")
    ensures ps[0].v == r.eta_enpp && ps[20].v == r.g_zc2 && ps[20].suffix == "\n\n"
  {
    [
      Bullet("", "1. 核电厂效率 (η_eNPP)", r.eta_enpp, "\n"),
      Bullet("", "2. 反应堆热功率 (Q_R)", r.q_r, "\n"),
      Bullet("", "3. 蒸汽发生器总蒸汽产量 (Ds)", r.d_s, "\n"),
      Bullet("", "4. 汽轮机高压缸耗气量 (G_shp)", r.g_shp, "\n"),
      Bullet("", "5. 汽轮机低压缸耗气量 (G_slp)", r.g_slp, "\n"),
      Bullet("", "6. 第一级再热器耗气量 (G_srh1)", r.g_srh1, "\n"),
      Bullet("", "7. 第二级再热器耗气量 (G_srh2)", r.g_srh2, "\n"),
      Bullet("", "8. 除氧器耗气量 (G_sdea)", r.g_sdea, "\n"),
      Bullet("", "9. 给水泵汽轮机耗气量 (G_sfwp)", r.g_sfwp, "\n"),
      Bullet("", "10. 给水泵给水量 (G_fw)", r.g_fw, "\n"),
      Bullet("", "11. 给水泵扬程 (H_fwp)", r.h_fwp, "\n"),
      Bullet("", "12.1. 第七级抽汽量 (G_hes7)", r.g_hes7, "\n"),
      Bullet("", "12.2. 第六级抽汽量 (G_hes6)", r.g_hes6, "\n"),
      Bullet("", "13.1. 第四级抽汽量 (G_les4)", r.g_les4, "\n"),
      Bullet("", "13.2. 第三级抽汽量 (G_les3)", r.g_les3, "\n"),
      Bullet("", "13.3. 第二级抽汽量 (G_les2)", r.g_les2, "\n"),
      Bullet("", "13.4. 第一级抽汽量 (G_les1)", r.g_les1, "\n"),
      Bullet("", "14. 凝结水量 (G_cd)", r.g_cd, "\n"),
      Bullet("", "15. 汽水分离器疏水量 (G_uw)", r.g_uw, "\n"),
      Bullet("", "16. 一级再热器加热蒸汽量 (G_zc1)", r.g_zc1, "\n"),
      Bullet("", "17. 二级再热器加热蒸汽量 (G_zc2)", r.g_zc2, "\n\n")
    ]
  }

  /** The nine indented bullets of a feedwater heater (16-51). */
  function FwFieldPieces(p: CalcFWParameters): (ps: seq<Piece>)
    ensures Bullets(ps, 9, "    ")
  {
    [
      Bullet("    ", "进口给水压力 (p_fwxi)", p.p_fwxi, "\n"),
      Bullet("    ", "进口给水比焓 (h_fwxi)", p.h_fwxi, "\n"),
      Bullet("    ", "进口给水温度 (T_fwxi)", p.t_fwxi, "\n"),
      Bullet("    ", "出口给水压力 (p_fwxo)", p.p_fwxo, "\n"),
      Bullet("    ", "出口给水比焓 (h_fwxo)", p.h_fwxo, "\n"),
      Bullet("    ", "出口给水温度 (T_fwxo)", p.t_fwxo, "\n"),
      Bullet("    ", "汽侧疏水温度 (T_roxk)", p.t_roxk, "\n"),
      Bullet("    ", "汽侧疏水比焓 (h_roxk)", p.h_roxk, "\n\n"),
      Bullet("    ", "汽侧疏水压力 (p_roxk)", p.p_roxk, "\n\n")
    ]
  }

  /** The five indented bullets of an extraction point (62-72). */
  function HesFieldPieces(p: CalcHESParameters): (ps: seq<Piece>)
    ensures Bullets(ps, 5, "    ")
  {
    [
      Bullet("    ", "抽汽温度 (p_hesx)", p.t_hesx, "\n"),
      Bullet("    ", "抽汽压力 (p_hesx)", p.p_hesx, "\n"),
      Bullet("    ", "抽汽干度 (X_hesx)", p.x_hesx, "\n"),
      Bullet("    ", "抽汽理想比焓 (h_hesxs)", p.h_hesxs, "\n"),
      Bullet("    ", "抽汽比焓 (h_hesx)", p.h_hesx, "\n\n")
    ]
  }

  /** The five indented bullets of a reheater heating-steam tap (83-102). */
  function RhxFieldPieces(p: CalcRHXParameters): (ps: seq<Piece>)
    ensures Bullets(ps, 5, "    ")
  {
    [
      Bullet("    ", "加热蒸汽进口压力 (p_rhx)", p.p_rhx, "\n"),
      Bullet("    ", "加热蒸汽进口干度 (X_rhx)", p.x_rhx, "\n"),
      Bullet("    ", "加热蒸汽进口温度 (T_rhx)", p.t_rhx, "\n"),
      Bullet("    ", "加热蒸汽进口比焓 (h_rhx)", p.h_rhx, "\n"),
      Bullet("    ", "再热器疏水比焓 (h_zsx)", p.h_zsx, "\n\n")
    ]
  }

  /** The table of the first appendix table: the design input read back (205-273): its heading, then one bullet per value. */
  function TableOnePieces(r: CalcResult2): (ps: seq<Piece>)
    ensures |ps| == 21 && Table(ps)
  {
    [
      Text("### 附表一 (输入参数回顾)\n\n"),
      Bullet("", "1. 核电厂输出功率 (N_e)", r.ne, "\n"),
      Bullet("", "2. 一回路能量利用系数 (η_1)", r.eta_1, "\n"),
      Bullet("", "3. 蒸汽发生器出口蒸汽干度 (X_fh)", r.x_fh, "\n"),
      Bullet("", "4. 蒸汽发生器排污率 (ξ_d)", r.zeta_d, "\n"),
      Bullet("", "5. 高压缸内效率 (η_hi)", r.eta_hi, "\n"),
      Bullet("", "6. 低压缸内效率 (η_li)", r.eta_li, "\n"),
      Bullet("", "7. 汽轮机组机械效率 (η_m)", r.eta_m, "\n"),
      Bullet("", "8. 发电机效率 (η_ge)", r.eta_ge, "\n"),
      Bullet("", "9. 新蒸汽压损 (Δp_fh)", r.dp_fh, "\n"),
      Bullet("", "10. 再热蒸汽压损 (Δp_rh)", r.dp_rh, "\n"),
      Bullet("", "11. 回热蒸汽压损 (Δp_ej)", r.dp_ej, "\n"),
      Bullet("", "12. 低压缸排气压损 (Δp_cd)", r.dp_cd, "\n"),
      Bullet("", "13. 高压给水加热器出口端差 (θ_hu)", r.theta_hu, "\n"),
      Bullet("", "14. 低压给水加热器出口端差 (θ_lu)", r.theta_lu, "\n"),
      Bullet("", "15. 加热器效率 (η_h)", r.eta_h, "\n"),
      Bullet("", "16. 给水泵效率 (η_fwpp)", r.eta_fwpp, "\n"),
      Bullet("", "17. 给水泵汽轮机内效率 (η_fwpti)", r.eta_fwpti, "\n"),
      Bullet("", "18. 给水泵汽轮机机械效率 (η_fwptm)", r.eta_fwptm, "\n"),
      Bullet("", "19. 给水泵汽轮机减速器效率 (η_fwptg)", r.eta_fwptg, "\n"),
      Bullet("", "20. 循环冷却水进口温度 (T_sw1)", r.t_sw1, "\n\n")
    ]
  }

  /** The table of the second appendix table: coolant, steam generator, condenser, high-pressure cylinder and separator (275-380): its heading, then one bullet per value. */
  function TableTwoPieces(r: CalcResult2): (ps: seq<Piece>)
    ensures |ps| == 28 && Table(ps)
  {
    [
      Text("### 附表二 (详细热力参数)\n\n"),
      Bullet("", "1. 反应堆冷却剂系统运行压力 (p_c)", r.p_c, "\n"),
      Bullet("", "2. 冷却剂压力对应的饱和温度 (T_cs)", r.t_cs, "\n"),
      Bullet("", "3. 反应堆出口冷却剂过冷度 (ΔT_sub)", r.dt_sub, "\n"),
      Bullet("", "4. 反应堆出口冷却剂温度 (T_co)", r.t_co, "\n"),
      Bullet("", "5. 反应堆进出口冷却剂温升 (ΔT_c)", r.dt_c, "\n"),
      Bullet("", "6. 反应堆进口冷却剂温度 (T_ci)", r.t_ci, "\n"),
      Bullet("", "7. 蒸汽发生器饱和蒸汽压力 (p_s)", r.p_s, "\n"),
      Bullet("", "8. 蒸汽发生器饱和蒸汽温度 (T_fh)", r.t_fh, "\n"),
      Bullet("", "9. 一、二次侧对数平均温差 (ΔT_m)", r.dt_m, "\n"),
      Bullet("", "10. 冷凝器中循环冷却水温升 (ΔT_sw)", r.dt_sw, "\n"),
      Bullet("", "11. 冷凝器传热端差 (δT)", r.dt, "\n"),
      Bullet("", "12. 冷凝器凝结水饱和温度 (T_cd)", r.t_cd, "\n"),
      Bullet("", "13. 冷凝器的运行压力 (p_cd)", r.p_cd, "\n"),
      Bullet("", "14. 高压缸进口的蒸汽压力 (p_hi)", r.p_hi, "\n"),
      Bullet("", "15. 高压缸进口蒸汽干度 (X_hi)", r.x_hi, "\n"),
      Bullet("", "15.1. 蒸汽发生器出口蒸汽比焓 (h_fh)", r.h_fh, "\n"),
      Bullet("", "15.2. 蒸汽发生器出口蒸汽比熵 (s_fh)", r.s_fh, "\n"),
      Bullet("", "15.3. 高压缸进口蒸汽比熵 (s_hi)", r.s_hi, "\n"),
      Bullet("", "16. 高压缸排气压力 (p_hz)", r.p_hz, "\n"),
      Bullet("", "17. 高压缸排气干度 (X_hz)", r.x_hz, "\n"),
      Bullet("", "17.1. 高压缸进口蒸汽比焓 (h_hi)", r.h_hi, "\n"),
      Bullet("", "17.2. 高压缸出口理想比焓 (h_hzs)", r.h_hzs, "\n"),
      Bullet("", "17.3. 高压缸出口蒸汽比焓 (h_hz)", r.h_hz, "\n"),
      Bullet("", "18. 汽水分离器进口蒸汽压力 (p_spi)", r.p_spi, "\n"),
      Bullet("", "19. 汽水分离器进口蒸汽干度 (X_spi)", r.x_spi, "\n"),
      Bullet("", "19.1. 汽水分离器出口疏水压力 (p_uw)", r.p_uw, "\n"),
      Bullet("", "19.2. 汽水分离器出口疏水比焓 (h_uw)", r.h_uw, "\n\n")
    ]
  }

  /** The table of the first-stage reheater (382-402): its heading, then one bullet per value. */
  function FirstReheaterPieces(r: CalcResult2): (ps: seq<Piece>)
    ensures |ps| == 6 && Table(ps)
  {
    [
      Text("#### 第一级再热器\n\n"),
      Bullet("", "20. 再热蒸汽进口压力 (p_rh1i)", r.p_rh1i, "\n"),
      Bullet("", "21. 再热蒸汽进口干度 (X_rh1i)", r.x_rh1i, "\n"),
      Bullet("", "21.1. 一级再热器进口蒸汽比焓 (h_rh1i)", r.h_rh1i, "\n"),
      Bullet("", "22. 加热蒸汽进口压力 (p_rh1hs)", r.p_rh1hs, "\n"),
      Bullet("", "23. 加热蒸汽进口干度 (X_rh1hs)", r.x_rh1hs, "\n\n")
    ]
  }

  /** The table of the second-stage reheater (404-444): its heading, then one bullet per value. */
  function SecondReheaterPieces(r: CalcResult2): (ps: seq<Piece>)
    ensures |ps| == 11 && Table(ps)
  {
    [
      Text("#### 第二级再热器\n\n"),
      Bullet("", "24. 再热蒸汽进口压力 (p_rh2i)", r.p_rh2i, "\n"),
      Bullet("", "25. 再热蒸汽进口温度 (T_rh2i)", r.t_rh2i, "\n"),
      Bullet("", "26. 再热蒸汽出口压力 (p_rh2z)", r.p_rh2z, "\n"),
      Bullet("", "27. 再热蒸汽出口温度 (T_rh2z)", r.t_rh2z, "\n"),
      Bullet("", "27.1. 二级再热器出口比焓 (h_rh2z)", r.h_rh2z, "\n"),
      Bullet("", "27.2. 每级再热器平均焓升 (Δh_rh)", r.dh_rh, "\n"),
      Bullet("", "27.3. 一级再热器出口蒸汽比焓 (h_rh1z)", r.h_rh1z, "\n"),
      Bullet("", "27.4. 二级再热器进口蒸汽比焓 (h_rh2i)", r.h_rh2i, "\n"),
      Bullet("", "28. 加热蒸汽进口压力 (p_rh2hs)", r.p_rh2hs, "\n"),
      Bullet("", "29. 加热蒸汽进口干度 (X_rh2hs)", r.x_rh2hs, "\n\n")
    ]
  }

  /** The table of the low-pressure cylinder (446-472): its heading, then one bullet per value. */
  function LowPressureCylinderPieces(r: CalcResult2): (ps: seq<Piece>)
    ensures |ps| == 9 && Table(ps)
  {
    [
      Text("#### 低压缸\n\n"),
      Bullet("", "30. 进口蒸汽压力 (p_li)", r.p_li, "\n"),
      Bullet("", "31. 进口蒸汽温度 (T_li)", r.t_li, "\n"),
      Bullet("", "32. 排汽压力 (p_lz)", r.p_lz, "\n"),
      Bullet("", "33. 排汽干度 (X_lz)", r.x_lz, "\n"),
      Bullet("", "33.1. 低压缸进口蒸汽比熵 (s_li)", r.s_li, "\n"),
      Bullet("", "33.2. 低压缸进口蒸汽比焓 (h_li)", r.h_li, "\n"),
      Bullet("", "33.3. 低压缸出口理想比焓 (h_lzs)", r.h_lzs, "\n"),
      Bullet("", "33.4. 低压缸出口蒸汽比焓 (h_lz)", r.h_lz, "\n\n")
    ]
  }

  /** The table of the regenerative heating and feedwater system (474-547): its heading, then one bullet per value. */
  function RegenerationPieces(r: CalcResult2): (ps: seq<Piece>)
    ensures |ps| == 20 && Table(ps)
  {
    [
      Text("#### 回热与给水系统\n\n"),
      Bullet("", "34. 回热级数 (Z)", r.z, "\n"),
      Bullet("", "35. 低压给水加热器级数 (Z_l)", r.z_l, "\n"),
      Bullet("", "36. 高压给水加热器级数 (Z_h)", r.z_h, "\n"),
      Bullet("", "37. 第一次给水回热分配 (Δh_fw)", r.dh_fw, "\n"),
      Bullet("", "37.1. 蒸汽发生器运行压力饱和水比焓 (h_s)", r.h_s, "\n"),
      Bullet("", "37.2. 冷凝器出口凝结水比焓 (h_cd)", r.h_cd, "\n"),
      Bullet("", "37.3. 每级加热器理论给水焓升 (Δh_fwop)", r.dh_fwop, "\n"),
      Bullet("", "37.4. 最佳给水比焓 (h_fwop)", r.h_fwop, "\n"),
      Bullet("", "37.5. 最佳给水温度 (T_fwop)", r.t_fwop, "\n"),
      Bullet("", "37.6. 实际给水温度 (T_fw)", r.t_fw, "\n"),
      Bullet("", "37.7. 实际给水比焓 (h_fw)", r.h_fw, "\n"),
      Bullet("", "38. 高压加热器给水焓升 (Δh_fwh)", r.dh_fwh, "\n"),
      Bullet("", "38.1. 除氧器运行压力 (p_dea)", r.p_dea, "\n"),
      Bullet("", "38.2. 除氧器出口饱和水比焓 (h_deao)", r.h_deao, "\n"),
      Bullet("", "39. 除氧器及低压加热器给水焓升 (Δh_fwl)", r.dh_fwl, "\n"),
      Bullet("", "39.1. 凝水泵出口给水压力 (p_cwp)", r.p_cwp, "\n"),
      Bullet("", "39.2. 凝水泵出口给水比焓 (h_cwp)", r.h_cwp, "\n"),
      Bullet("", "39.3. 凝水泵出口至除氧器出口的阻力压降 (Δp_cws)", r.dp_cws, "\n"),
      Bullet("", "39.4. 每级低压加热器及除氧器的阻力压降 (Δp_fi)", r.dp_fi, "\n\n")
    ]
  }

  /** The table of the deaerator (551-567): its heading, then one bullet per value. */
  function DeaeratorPieces(r: CalcResult2): (ps: seq<Piece>)
    ensures |ps| == 5 && Table(ps)
  {
    [
      Text("#### 除氧器参数\n\n"),
      Bullet("", "41. 进口给水比焓 (h_deai)", r.h_deai, "\n"),
      Bullet("", "42. 出口给水比焓 (h_deao)", r.h_deao1, "\n"),
      Bullet("", "43. 出口给水温度 (T_dea)", r.t_dea, "\n"),
      Bullet("", "44. 运行压力 (p_dea)", r.p_dea1, "\n\n")
    ]
  }

  /** The table of the feed pump and the high-pressure feedwater line (569-581): its heading, then one bullet per value. */
  function FeedPumpPieces(r: CalcResult2): (ps: seq<Piece>)
    ensures |ps| == 4 && Table(ps)
  {
    [
      Text("#### 给水泵与高压给水系统\n\n"),
      Bullet("", "44.1. 给水泵出口压力 (p_fwpo)", r.p_fwpo, "\n"),
      Bullet("", "44.2. 给水泵出口流体比焓 (h_fwpo)", r.h_fwpo, "\n"),
      Bullet("", "44.3. 蒸汽发生器进口给水压力 (p_fwi)", r.p_fwi, "\n\n")
    ]
  }

  /** The table of the high-pressure cylinder's extraction inlet state (585-593): its heading, then one bullet per value. */
  function HpExtractionPieces(r: CalcResult2): (ps: seq<Piece>)
    ensures |ps| == 3 && Table(ps)
  {
    [
      Text("#### 高压缸抽汽\n\n"),
      Bullet("", "46.1. 高压缸进口蒸汽比熵 (s_hi)", r.s_hi1, "\n"),
      Bullet("", "46.2. 高压缸进口蒸汽比焓 (h_hi)", r.h_hi1, "\n\n")
    ]
  }

  /** The table of the low-pressure cylinder's extraction inlet state (596-604): its heading, then one bullet per value. */
  function LpExtractionPieces(r: CalcResult2): (ps: seq<Piece>)
    ensures |ps| == 3 && Table(ps)
  {
    [
      Text("#### 低压缸抽汽\n\n"),
      Bullet("", "47.1. 低压缸进口蒸汽比熵 (s_li)", r.s_li1, "\n"),
      Bullet("", "47.2. 低压缸进口蒸汽比焓 (h_li)", r.h_li1, "\n\n")
    ]
  }

  function ReportTitle(): string { "# 计算结果\n\n" }
  function MainTitle(): string { "## 主要热平衡计算结果\n\n" }
  function NoResults(): string { "无主要计算结果。\n\n" }
  function AppendixTitle(): string { "## 附表参数\n\n" }
  function ResultGroup(): Heading { Numbered("### 结果组 ", "\n\n") }
  function ParamGroup(): Heading { Numbered("  - **参数组 ", "**\n") }

  /** The section of the iteration records: a notice when there are none, otherwise one
      group per record, with a numbered heading only when there are several. */
  function MainPieces(rs: seq<CalcResult1>): seq<Piece>
  {
    if rs == [] then [Text(NoResults())]
    else Groups(rs, if |rs| > 1 then ResultGroup() else NoHeading, Result1Pieces)
  }

  lemma Result1Counts(r: CalcResult1)
    ensures Count(Result1Pieces(r), IsBullet) == 21
    ensures Count(Result1Pieces(r), IsOrdinal) == 0 && Count(Result1Pieces(r), IsText) == 0
  {
    BulletsCount(Result1Pieces(r), 21, "");
  }

  /** No records: only the notice. Otherwise 21 numbers per record, no notice, and one
      numbered heading per record exactly when there is more than one. */
  lemma MainShape(rs: seq<CalcResult1>)
    ensures rs == [] ==> MainPieces(rs) == [Text(NoResults())]
    ensures rs != [] ==> Count(MainPieces(rs), IsBullet) == 21 * |rs|
    ensures rs != [] ==> Count(MainPieces(rs), IsText) == 0
    ensures rs != [] ==> Count(MainPieces(rs), IsOrdinal) == if |rs| > 1 then |rs| else 0
  {
    if rs != [] {
      var h := if |rs| > 1 then ResultGroup() else NoHeading;
      var g := Groups(rs, h, Result1Pieces);
      assert Count(g, IsBullet) == 21 * |rs| by {
        forall r | true ensures Count(Result1Pieces(r), IsBullet) == 21 {
          Result1Counts(r);
        }
        forall k: nat ensures Count(HeadingPieces(h, k), IsBullet) == 0 {
          HeadingCounts(h, k);
        }
        GroupsCount(rs, h, Result1Pieces, IsBullet, 21, 0);
      }
      assert Count(g, IsText) == 0 by {
        forall r | true ensures Count(Result1Pieces(r), IsText) == 0 {
          Result1Counts(r);
        }
        forall k: nat ensures Count(HeadingPieces(h, k), IsText) == 0 {
          HeadingCounts(h, k);
        }
        GroupsCount(rs, h, Result1Pieces, IsText, 0, 0);
      }
      var o := if |rs| > 1 then 1 else 0;
      assert Count(g, IsOrdinal) == o * |rs| by {
        forall r | true ensures Count(Result1Pieces(r), IsOrdinal) == 0 {
          Result1Counts(r);
        }
        forall k: nat ensures Count(HeadingPieces(h, k), IsOrdinal) == o {
          HeadingCounts(h, k);
        }
        GroupsCount(rs, h, Result1Pieces, IsOrdinal, 0, o);
      }
    }
  }

  /** The heading line of a parameter section. */
  function SectionTitle(title: string): string { "#### " + title + "\n\n" }

  /** A parameter section: nothing for no elements, otherwise a titled heading and one
      numbered group per element. */
  function Section<T>(xs: seq<T>, title: string, fields: T -> seq<Piece>): seq<Piece>
  {
    if xs == [] then [] else [Text(SectionTitle(title))] + Groups(xs, ParamGroup(), fields)
  }

  /** A non-empty section has one numbered group heading per element, when the fields
      themselves hold none. */
  lemma SectionOrdinals<T>(xs: seq<T>, title: string, fields: T -> seq<Piece>)
    requires forall x :: Count(fields(x), IsOrdinal) == 0
    requires xs != []
    ensures Count(Section(xs, title, fields), IsOrdinal) == |xs|
  {
    var head := [Text(SectionTitle(title))];
    assert head[..0] == [];
    forall k: nat
      ensures Count(HeadingPieces(ParamGroup(), k), IsOrdinal) == 1
    {
      HeadingCounts(ParamGroup(), k);
    }
    var g := Groups(xs, ParamGroup(), fields);
    GroupsCount(xs, ParamGroup(), fields, IsOrdinal, 0, 1);
    assert Count(g, IsOrdinal) == |xs| by {
      assert (0 + 1) * |xs| == |xs|;
    }
    CountAppend(head, g, IsOrdinal);
  }

  /** A non-empty section has `n` bullets per element when every element's fields are
      `n` bullets. */
  lemma SectionBullets<T>(xs: seq<T>, title: string, fields: T -> seq<Piece>, n: nat)
    requires forall x :: Count(fields(x), IsBullet) == n
    requires xs != []
    ensures Count(Section(xs, title, fields), IsBullet) == n * |xs|
  {
    var head := [Text(SectionTitle(title))];
    assert head[..0] == [];
    forall k: nat
      ensures Count(HeadingPieces(ParamGroup(), k), IsBullet) == 0
    {
      HeadingCounts(ParamGroup(), k);
    }
    var g := Groups(xs, ParamGroup(), fields);
    GroupsCount(xs, ParamGroup(), fields, IsBullet, n, 0);
    CountAppend(head, g, IsBullet);
  }

  /** A non-empty section starts with its title and has exactly one numbered group heading
      per element and `n` bullets per element (the numbering and order of the groups is
      `GroupsPrefix`). */
  lemma SectionShape<T>(xs: seq<T>, title: string, fields: T -> seq<Piece>, n: nat)
    requires forall x :: Bullets(fields(x), n, "    ")
    requires xs != []
    ensures Section(xs, title, fields)[0] == Text(SectionTitle(title))
    ensures Count(Section(xs, title, fields), IsOrdinal) == |xs|
    ensures Count(Section(xs, title, fields), IsBullet) == n * |xs|
  {
    forall x | true
      ensures Count(fields(x), IsBullet) == n && Count(fields(x), IsOrdinal) == 0
    {
      BulletsCount(fields(x), n, "    ");
    }
    SectionOrdinals(xs, title, fields);
    SectionBullets(xs, title, fields, n);
  }

  /** A parameter section that is empty adds nothing to the report. */
  lemma EmptySection<T>(title: string, fields: T -> seq<Piece>)
    ensures Section([], title, fields) == []
  {
  }

  /** The titles of the five parameter sections of the appendix. */
  function LowFeedwaterTitle(): string { "40. 低压加热器给水参数 (1 ~ 4级)" }
  function HighFeedwaterTitle(): string { "45. 高压加热器给水参数 (6 ~ 7级)" }
  function HighExtractionTitle(): string { "第六、七级给水加热器抽汽参数" }
  function LowExtractionTitle(): string { "第一至四级给水加热器抽汽参数" }
  function ReheaterExtractionTitle(): string { "48. 再热器抽汽 (第一、二级再热器抽汽参数)" }

  /** The appendix of the report: its title, the tables of the detailed record and its
      parameter sections, in the order they are appended (202-611). */
  function AppendixPieces(r: CalcResult2): seq<Piece>
  {
    MachineTablesPieces(r) + FeedwaterSystemPieces(r)
  }

  /** The first part of the appendix: its title and the six tables of the reactor, steam
      generator, turbine, reheaters and regeneration system (202-547). */
  function MachineTablesPieces(r: CalcResult2): seq<Piece>
  {
    [Text(AppendixTitle())]
    + TableOnePieces(r) + TableTwoPieces(r) + FirstReheaterPieces(r) + SecondReheaterPieces(r)
    + LowPressureCylinderPieces(r) + RegenerationPieces(r)
  }

  /** The second part of the appendix: the feedwater heaters, deaerator, feed pump and
      extractions, with the parameter sections between them (549-611). */
  function FeedwaterSystemPieces(r: CalcResult2): seq<Piece>
  {
    Section(r.lfwx, LowFeedwaterTitle(), FwFieldPieces)
    + DeaeratorPieces(r) + FeedPumpPieces(r)
    + Section(r.hfwx, HighFeedwaterTitle(), FwFieldPieces)
    + HpExtractionPieces(r) + Section(r.hhes, HighExtractionTitle(), HesFieldPieces)
    + LpExtractionPieces(r) + Section(r.lhes, LowExtractionTitle(), HesFieldPieces)
    + Section(r.rhx, ReheaterExtractionTitle(), RhxFieldPieces)
  }


  /** The whole report (108-613). */
  function Document(result: CalcResultParamters): seq<Piece>
  {
    [Text(ReportTitle()), Text(MainTitle())] + MainPieces(result.result1) + AppendixPieces(result.result2)
  }

  /** The text of a single piece. */
  lemma RenderedOne(fmt: real -> string, p: Piece)
    ensures Rendered(fmt, [p]) == Render(fmt, p)
  {
    assert [p][..0] == [];
  }

  lemma ConcatAssoc(a: string, b: string, c: string)
    ensures (a + b) + c == a + (b + c)
  {
  }

  /** The text of a group heading: the prefix, the group number, the suffix. */
  lemma HeadingText(fmt: real -> string, h: Heading, k: nat)
    ensures Rendered(fmt, HeadingPieces(h, k)) == if h.Numbered? then h.prefix + NatStr(k) + h.suffix else ""
  {
    if h.Numbered? {
      RenderedOne(fmt, Ordinal(h.prefix, k, h.suffix));
    }
  }

  /** Appending the heading and the fields of the element at index `i` to the text of the
      groups before it gives the text of the groups up to and including it. */
  lemma GroupStep<T>(fmt: real -> string, xs: seq<T>, i: nat, h: Heading, fields: T -> seq<Piece>,
                     heading: string, start: string, out: string)
    requires i < |xs|
    requires heading == Rendered(fmt, HeadingPieces(h, i + 1))
    requires out == start + Rendered(fmt, Groups(xs[..i], h, fields))
    ensures out + heading + Rendered(fmt, fields(xs[i])) == start + Rendered(fmt, Groups(xs[..i + 1], h, fields))
  {
    var ys := xs[..i + 1];
    var g := Groups(xs[..i], h, fields);
    var hd := HeadingPieces(h, i + 1);
    var f := fields(xs[i]);
    assert ys[..i] == xs[..i] && |ys| == i + 1 && ys[i] == xs[i];
    assert Groups(ys, h, fields) == g + hd + f;
    RenderedAppend(fmt, g, hd);
    RenderedAppend(fmt, g + hd, f);
    var rg, rf := Rendered(fmt, g), Rendered(fmt, f);
    assert Rendered(fmt, Groups(ys, h, fields)) == (rg + heading) + rf;
    ConcatAssoc(start, rg, heading);
    ConcatAssoc(start, rg + heading, rf);
  }

  /** The title line followed by the text of all groups is the text of the section. */
  lemma SectionText<T>(fmt: real -> string, xs: seq<T>, title: string, fields: T -> seq<Piece>, markdown: string)
    requires xs != []
    ensures markdown + SectionTitle(title) + Rendered(fmt, Groups(xs, ParamGroup(), fields))
            == markdown + Rendered(fmt, Section(xs, title, fields))
  {
    var head := [Text(SectionTitle(title))];
    RenderedOne(fmt, head[0]);
    RenderedAppend(fmt, head, Groups(xs, ParamGroup(), fields));
    ConcatAssoc(markdown, SectionTitle(title), Rendered(fmt, Groups(xs, ParamGroup(), fields)));
  }

  /** Appends the section of the records of a feedwater heater to `markdown`: nothing when
      there are none, otherwise the title and one numbered group per record. The existing
      text is kept as a prefix. */
  method FormatFwParams(fmt: real -> string, params: seq<CalcFWParameters>, title: string, markdown: string)
    returns (out: string)
    ensures out == markdown + Rendered(fmt, Section(params, title, FwFieldPieces))
    ensures markdown <= out
  {
    out := markdown;
    if params != [] {
      out := out + SectionTitle(title);
      ghost var start := out;
      for i := 0 to |params|
        invariant out == start + Rendered(fmt, Groups(params[..i], ParamGroup(), FwFieldPieces))
      {
        var heading := "  - **参数组 " + NatStr(i + 1) + "**\n";
        HeadingText(fmt, ParamGroup(), i + 1);
        GroupStep(fmt, params, i, ParamGroup(), FwFieldPieces, heading, start, out);
        out := out + heading;
        out := out + Rendered(fmt, FwFieldPieces(params[i]));
      }
      assert params[..|params|] == params;
      SectionText(fmt, params, title, FwFieldPieces, markdown);
    }
  }

  /** Appends the section of the records of an extraction point to `markdown`: nothing when
      there are none, otherwise the title and one numbered group per record. The existing
      text is kept as a prefix. */
  method FormatHesParams(fmt: real -> string, params: seq<CalcHESParameters>, title: string, markdown: string)
    returns (out: string)
    ensures out == markdown + Rendered(fmt, Section(params, title, HesFieldPieces))
    ensures markdown <= out
  {
    out := markdown;
    if params != [] {
      out := out + SectionTitle(title);
      ghost var start := out;
      for i := 0 to |params|
        invariant out == start + Rendered(fmt, Groups(params[..i], ParamGroup(), HesFieldPieces))
      {
        var heading := "  - **参数组 " + NatStr(i + 1) + "**\n";
        HeadingText(fmt, ParamGroup(), i + 1);
        GroupStep(fmt, params, i, ParamGroup(), HesFieldPieces, heading, start, out);
        out := out + heading;
        out := out + Rendered(fmt, HesFieldPieces(params[i]));
      }
      assert params[..|params|] == params;
      SectionText(fmt, params, title, HesFieldPieces, markdown);
    }
  }

  /** Appends the section of the records of a reheater tap to `markdown`: nothing when
      there are none, otherwise the title and one numbered group per record. The existing
      text is kept as a prefix. */
  method FormatRhxParams(fmt: real -> string, params: seq<CalcRHXParameters>, title: string, markdown: string)
    returns (out: string)
    ensures out == markdown + Rendered(fmt, Section(params, title, RhxFieldPieces))
    ensures markdown <= out
  {
    out := markdown;
    if params != [] {
      out := out + SectionTitle(title);
      ghost var start := out;
      for i := 0 to |params|
        invariant out == start + Rendered(fmt, Groups(params[..i], ParamGroup(), RhxFieldPieces))
      {
        var heading := "  - **参数组 " + NatStr(i + 1) + "**\n";
        HeadingText(fmt, ParamGroup(), i + 1);
        GroupStep(fmt, params, i, ParamGroup(), RhxFieldPieces, heading, start, out);
        out := out + heading;
        out := out + Rendered(fmt, RhxFieldPieces(params[i]));
      }
      assert params[..|params|] == params;
      SectionText(fmt, params, title, RhxFieldPieces, markdown);
    }
  }

  /** The text of the two titles that open the report. */
  lemma TitlesText(fmt: real -> string)
    ensures Rendered(fmt, [Text(ReportTitle()), Text(MainTitle())]) == ReportTitle() + MainTitle()
  {
    RenderedOne(fmt, Text(ReportTitle()));
    RenderedOne(fmt, Text(MainTitle()));
    assert [Text(ReportTitle()), Text(MainTitle())] == [Text(ReportTitle())] + [Text(MainTitle())];
    RenderedAppend(fmt, [Text(ReportTitle())], [Text(MainTitle())]);
  }

  lemma PrefixOfConcat(a: string, b: string)
    ensures a <= a + b
  {
    assert (a + b)[..|a|] == a;
  }

  /** The report begins with its title and the title of the main section. */
  lemma DocumentBegins(fmt: real -> string, result: CalcResultParamters)
    ensures ReportTitle() + MainTitle() <= Rendered(fmt, Document(result))
  {
    var head := [Text(ReportTitle()), Text(MainTitle())];
    var main := MainPieces(result.result1);
    var appendix := AppendixPieces(result.result2);
    RenderedAppend(fmt, head + main, appendix);
    RenderedAppend(fmt, head, main);
    TitlesText(fmt);
    var titles := ReportTitle() + MainTitle();
    ConcatAssoc(titles, Rendered(fmt, main), Rendered(fmt, appendix));
    PrefixOfConcat(titles, Rendered(fmt, main) + Rendered(fmt, appendix));
  }

  /** Appends the main section's body to `markdown` (114-199): a notice when there are no
      iteration records, otherwise one group of bullets per record, numbered only when
      there are several. */
  method FormatMainResults(fmt: real -> string, rs: seq<CalcResult1>, markdown: string) returns (out: string)
    ensures out == markdown + Rendered(fmt, MainPieces(rs))
  {
    out := markdown;
    if rs == [] {
      out := out + NoResults();
      RenderedOne(fmt, Text(NoResults()));
    }
    var h := if |rs| > 1 then ResultGroup() else NoHeading;
    for index := 0 to |rs|
      invariant out == markdown + (if rs == [] then NoResults() else Rendered(fmt, Groups(rs[..index], h, Result1Pieces)))
    {
      ghost var heading := Rendered(fmt, HeadingPieces(h, index + 1));
      HeadingText(fmt, h, index + 1);
      GroupStep(fmt, rs, index, h, Result1Pieces, heading, markdown, out);
      if |rs| > 1 {
        var numbered := "### 结果组 " + NatStr(index + 1) + "\n\n";
        out := out + numbered;
      } else {
        assert out + heading == out;
      }
      out := out + Rendered(fmt, Result1Pieces(rs[index]));
    }
    assert rs[..|rs|] == rs;
  }

  /** Appending the text of `ps` to the text of `doc` gives the text of `doc + ps`. */
  lemma AppendStep(fmt: real -> string, markdown: string, doc: seq<Piece>, ps: seq<Piece>, out: string)
    requires out == markdown + Rendered(fmt, doc)
    ensures out + Rendered(fmt, ps) == markdown + Rendered(fmt, doc + ps)
  {
    RenderedAppend(fmt, doc, ps);
    ConcatAssoc(markdown, Rendered(fmt, doc), Rendered(fmt, ps));
  }

  /** Appends the title of the appendix and its first six tables to `markdown`. */
  method FormatMachineTables(fmt: real -> string, r: CalcResult2, markdown: string) returns (out: string)
    ensures out == markdown + Rendered(fmt, MachineTablesPieces(r))
  {
    out := markdown + AppendixTitle();
    ghost var doc := [Text(AppendixTitle())];
    RenderedOne(fmt, Text(AppendixTitle()));
    AppendStep(fmt, markdown, doc, TableOnePieces(r), out);
    out := out + Rendered(fmt, TableOnePieces(r));
    doc := doc + TableOnePieces(r);
    AppendStep(fmt, markdown, doc, TableTwoPieces(r), out);
    out := out + Rendered(fmt, TableTwoPieces(r));
    doc := doc + TableTwoPieces(r);
    AppendStep(fmt, markdown, doc, FirstReheaterPieces(r), out);
    out := out + Rendered(fmt, FirstReheaterPieces(r));
    doc := doc + FirstReheaterPieces(r);
    AppendStep(fmt, markdown, doc, SecondReheaterPieces(r), out);
    out := out + Rendered(fmt, SecondReheaterPieces(r));
    doc := doc + SecondReheaterPieces(r);
    AppendStep(fmt, markdown, doc, LowPressureCylinderPieces(r), out);
    out := out + Rendered(fmt, LowPressureCylinderPieces(r));
    doc := doc + LowPressureCylinderPieces(r);
    AppendStep(fmt, markdown, doc, RegenerationPieces(r), out);
    out := out + Rendered(fmt, RegenerationPieces(r));
    doc := doc + RegenerationPieces(r);
  }

  /** Appends the feedwater-system part of the appendix to `markdown`. */
  method FormatFeedwaterSystem(fmt: real -> string, r: CalcResult2, markdown: string) returns (out: string)
    ensures out == markdown + Rendered(fmt, FeedwaterSystemPieces(r))
  {
    out := FormatFwParams(fmt, r.lfwx, LowFeedwaterTitle(), markdown);
    ghost var doc := Section(r.lfwx, LowFeedwaterTitle(), FwFieldPieces);
    AppendStep(fmt, markdown, doc, DeaeratorPieces(r), out);
    out := out + Rendered(fmt, DeaeratorPieces(r));
    doc := doc + DeaeratorPieces(r);
    AppendStep(fmt, markdown, doc, FeedPumpPieces(r), out);
    out := out + Rendered(fmt, FeedPumpPieces(r));
    doc := doc + FeedPumpPieces(r);
    AppendStep(fmt, markdown, doc, Section(r.hfwx, HighFeedwaterTitle(), FwFieldPieces), out);
    out := FormatFwParams(fmt, r.hfwx, HighFeedwaterTitle(), out);
    doc := doc + Section(r.hfwx, HighFeedwaterTitle(), FwFieldPieces);
    AppendStep(fmt, markdown, doc, HpExtractionPieces(r), out);
    out := out + Rendered(fmt, HpExtractionPieces(r));
    doc := doc + HpExtractionPieces(r);
    AppendStep(fmt, markdown, doc, Section(r.hhes, HighExtractionTitle(), HesFieldPieces), out);
    out := FormatHesParams(fmt, r.hhes, HighExtractionTitle(), out);
    doc := doc + Section(r.hhes, HighExtractionTitle(), HesFieldPieces);
    AppendStep(fmt, markdown, doc, LpExtractionPieces(r), out);
    out := out + Rendered(fmt, LpExtractionPieces(r));
    doc := doc + LpExtractionPieces(r);
    AppendStep(fmt, markdown, doc, Section(r.lhes, LowExtractionTitle(), HesFieldPieces), out);
    out := FormatHesParams(fmt, r.lhes, LowExtractionTitle(), out);
    doc := doc + Section(r.lhes, LowExtractionTitle(), HesFieldPieces);
    AppendStep(fmt, markdown, doc, Section(r.rhx, ReheaterExtractionTitle(), RhxFieldPieces), out);
    out := FormatRhxParams(fmt, r.rhx, ReheaterExtractionTitle(), out);
    doc := doc + Section(r.rhx, ReheaterExtractionTitle(), RhxFieldPieces);
  }

  /** Appends the appendix of the report to `markdown`. */
  method FormatAppendix(fmt: real -> string, r: CalcResult2, markdown: string) returns (out: string)
    ensures out == markdown + Rendered(fmt, AppendixPieces(r))
  {
    out := FormatMachineTables(fmt, r, markdown);
    AppendStep(fmt, markdown, MachineTablesPieces(r), FeedwaterSystemPieces(r), out);
    out := FormatFeedwaterSystem(fmt, r, out);
  }


  /** Builds the report of a calculation (108-613): the rendering of `Document(result)`,
      which begins with the report and main-section titles. */
  method FormatResultToMarkdown(fmt: real -> string, result: CalcResultParamters) returns (markdown: string)
    ensures markdown == Rendered(fmt, Document(result))
    ensures ReportTitle() + MainTitle() <= markdown
  {
    var head := [Text(ReportTitle()), Text(MainTitle())];
    var main := MainPieces(result.result1);
    markdown := "";
    markdown := markdown + ReportTitle();
    assert markdown == ReportTitle();
    markdown := markdown + MainTitle();
    TitlesText(fmt);
    ghost var titles := markdown;
    markdown := FormatMainResults(fmt, result.result1, markdown);
    assert markdown == Rendered(fmt, head + main) by {
      RenderedAppend(fmt, head, main);
    }
    markdown := FormatAppendix(fmt, result.result2, markdown);
    RenderedAppend(fmt, head + main, AppendixPieces(result.result2));
    DocumentBegins(fmt, result);
  }
}
