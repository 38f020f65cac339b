/** The loss breakdown the model returns for one batch, the single scalar the
    optimizer minimises, the weighted terms that are only reported, and the
    validation accumulator with its averaging. Loss values are exact reals:
    floating-point rounding is not modelled. */
module Losses {

  /** `loss_dict['img']`. */
  datatype ImgTerms = ImgTerms(l1: real, vggpt: real)

  /** `loss_dict['svg']` and `loss_dict['svg_para']`; `total` is already
      combined from the other terms by the model itself. */
  datatype SvgTerms = SvgTerms(total: real, cmd: real, args: real, smt: real, aux: real)

  /** The whole `loss_dict` of one forward call. */
  datatype Breakdown = Breakdown(img: ImgTerms, svg: SvgTerms, svgPara: SvgTerms, kl: real)

  /** The weights of the optimised loss: `loss_w_l1`, `loss_w_pt_c`, `kl_beta`. */
  datatype LossWeights = LossWeights(l1: real, ptC: real, klBeta: real)

  /** The weights applied to the vector sub-terms for the log line only:
      `loss_w_cmd`, `loss_w_args`, `loss_w_smt`, `loss_w_aux`. */
  datatype DisplayWeights = DisplayWeights(cmd: real, args: real, smt: real, aux: real)

  /** The numeric fields of one training log line, in the line's order. */
  datatype Report = Report(
    loss: real,
    imgL1: real,
    imgPtC: real,
    svgTotal: real,
    svgCmd: real,
    svgArgs: real,
    svgSmooth: real,
    svgAux: real)

  /** The scalar that is back-propagated. */
  function Objective(b: Breakdown, w: LossWeights): real {
    w.l1 * b.img.l1 + w.ptC * b.img.vggpt + w.klBeta * b.kl + b.svg.total + b.svgPara.total
  }

  /** The objective as the function of a `loss_dict` that the optimizer
      differentiates. */
  function ObjectiveOf(w: LossWeights): Breakdown -> real {
    b => Objective(b, w)
  }

  /** The loss fields of the log line: the objective, the two weighted image
      terms, the vector total as is, and the four vector sub-terms scaled by
      their display weights. */
  function MakeReport(b: Breakdown, w: LossWeights, dw: DisplayWeights): Report {
    Report(
      Objective(b, w),
      w.l1 * b.img.l1,
      w.ptC * b.img.vggpt,
      b.svg.total,
      dw.cmd * b.svg.cmd,
      dw.args * b.svg.args,
      dw.smt * b.svg.smt,
      dw.aux * b.svg.aux)
  }

  /** The reported image terms are exactly the image contributions to the
      objective, and the reported vector total enters it unweighted; the
      reported sub-terms are not part of it. */
  lemma ReportSplitsObjective(b: Breakdown, w: LossWeights, dw: DisplayWeights)
    ensures var r := MakeReport(b, w, dw);
      r.loss == r.imgL1 + r.imgPtC + w.klBeta * b.kl + r.svgTotal + b.svgPara.total
  {
  }

  /** Changing any vector sub-term (cmd, args, smt, aux) of either category
      leaves the objective unchanged: the sub-terms are never added a second
      time, whatever their display weights. */
  lemma ObjectiveIgnoresSubTerms(b: Breakdown, svg: SvgTerms, svgPara: SvgTerms, w: LossWeights)
    requires svg.total == b.svg.total && svgPara.total == b.svgPara.total
    ensures Objective(b.(svg := svg, svgPara := svgPara), w) == Objective(b, w)
  {
  }

  /** l1 = 2, vggpt = 1, kl = 0.5, svg total 3, svg_para total 1.5 with
      weights 1, 0.5, 0.1 give 7.05. */
  lemma ObjectiveExample(svg: SvgTerms, svgPara: SvgTerms)
    requires svg.total == 3.0 && svgPara.total == 1.5
    ensures Objective(Breakdown(ImgTerms(2.0, 1.0), svg, svgPara, 0.5), LossWeights(1.0, 0.5, 0.1)) == 7.05
  {
  }

  // ---------------------------------------------------------------------
  // Validation

  /** The vector entries of the validation accumulator: total, cmd, args,
      aux (it has no smt entry). */
  datatype SvgValTerms = SvgValTerms(total: real, cmd: real, args: real, aux: real)

  /** The validation accumulator `loss_val`. */
  datatype ValLosses = ValLosses(img: ImgTerms, svg: SvgValTerms, svgPara: SvgValTerms)

  const ZeroSvgVal := SvgValTerms(0.0, 0.0, 0.0, 0.0)

  /** `loss_val` as it is initialised: every entry 0. */
  const ZeroVal := ValLosses(ImgTerms(0.0, 0.0), ZeroSvgVal, ZeroSvgVal)

  /** One pass of the `+=` loop: only the `img` and `svg` entries receive the
      batch's values; `svg_para` is left as it is. */
  function Accumulate(acc: ValLosses, b: Breakdown): ValLosses {
    ValLosses(
      ImgTerms(acc.img.l1 + b.img.l1, acc.img.vggpt + b.img.vggpt),
      SvgValTerms(acc.svg.total + b.svg.total, acc.svg.cmd + b.svg.cmd,
                  acc.svg.args + b.svg.args, acc.svg.aux + b.svg.aux),
      acc.svgPara)
  }

  /** The `/=` loop: the `img` and `svg` entries divided by the batch count. */
  function Divide(acc: ValLosses, n: nat): ValLosses
    requires n > 0
  {
    var k := n as real;
    ValLosses(
      ImgTerms(acc.img.l1 / k, acc.img.vggpt / k),
      SvgValTerms(acc.svg.total / k, acc.svg.cmd / k, acc.svg.args / k, acc.svg.aux / k),
      acc.svgPara)
  }

  /** The accumulator after the `+=` loop over the given breakdowns. */
  function SumOf(bs: seq<Breakdown>): ValLosses {
    if bs == [] then ZeroVal else Accumulate(SumOf(bs[..|bs| - 1]), bs[|bs| - 1])
  }

  /** The averaged validation losses of a non-empty run. */
  function Mean(bs: seq<Breakdown>): ValLosses
    requires |bs| > 0
  {
    Divide(SumOf(bs), |bs|)
  }

  function AddSvgVal(x: SvgValTerms, y: SvgValTerms): SvgValTerms {
    SvgValTerms(x.total + y.total, x.cmd + y.cmd, x.args + y.args, x.aux + y.aux)
  }

  /** Sum of two accumulators over disjoint stretches of batches. */
  function Combine(x: ValLosses, y: ValLosses): ValLosses {
    ValLosses(
      ImgTerms(x.img.l1 + y.img.l1, x.img.vggpt + y.img.vggpt),
      AddSvgVal(x.svg, y.svg),
      AddSvgVal(x.svgPara, y.svgPara))
  }

  /** The `svg_para` entries are never accumulated and stay 0. */
  lemma {:induction false} SvgParaStaysZero(bs: seq<Breakdown>)
    ensures SumOf(bs).svgPara == ZeroSvgVal
  {
    if bs != [] {
      SvgParaStaysZero(bs[..|bs| - 1]);
    }
  }

  /** Accumulating two stretches of batches one after the other equals adding
      their separate sums. */
  lemma {:induction false} SumOfAppend(xs: seq<Breakdown>, ys: seq<Breakdown>)
    ensures SumOf(xs + ys) == Combine(SumOf(xs), SumOf(ys))
    decreases |ys|
  {
    if ys == [] {
      assert xs + ys == xs;
      SvgParaStaysZero(xs);
    } else {
      var zs := xs + ys;
      assert zs[..|zs| - 1] == xs + ys[..|ys| - 1];
      SumOfAppend(xs, ys[..|ys| - 1]);
      SvgParaStaysZero(xs);
      SvgParaStaysZero(ys);
    }
  }

  /** The averages do not depend on which stretch of batches the loader
      yields first. */
  lemma SumOfSwap(xs: seq<Breakdown>, ys: seq<Breakdown>)
    ensures SumOf(xs + ys) == SumOf(ys + xs)
  {
    SumOfAppend(xs, ys);
    SumOfAppend(ys, xs);
  }

  /** The accumulator after `k` batches with the same breakdown `b`. */
  function Repeated(b: Breakdown, k: nat): ValLosses {
    if k == 0 then ZeroVal else Accumulate(Repeated(b, k - 1), b)
  }

  /** n batches with the same breakdown accumulate like n repetitions of it. */
  lemma {:induction false} SumOfConstant(bs: seq<Breakdown>, b: Breakdown)
    requires forall i :: 0 <= i < |bs| ==> bs[i] == b
    ensures SumOf(bs) == Repeated(b, |bs|)
  {
    if bs != [] {
      SumOfConstant(bs[..|bs| - 1], b);
    }
  }

  /** `v` added to 0 `k` times. */
  function Copies(v: real, k: nat): real {
    if k == 0 then 0.0 else Copies(v, k - 1) + v
  }

  /** `k` copies of `v` average to `v`. */
  lemma {:induction false} CopiesAverage(v: real, k: nat)
    requires k > 0
    ensures Copies(v, k) / (k as real) == v
  {
    CopiesScale(v, k);
  }

  lemma {:induction false} CopiesScale(v: real, k: nat)
    ensures Copies(v, k) == (k as real) * v
  {
    if k > 0 {
      CopiesScale(v, k - 1);
    }
  }

  /** Each entry of `k` repetitions is `k` copies of that entry. */
  lemma {:induction false} RepeatedCopies(b: Breakdown, k: nat)
    ensures var r := Repeated(b, k);
      && r.img == ImgTerms(Copies(b.img.l1, k), Copies(b.img.vggpt, k))
      && r.svg == SvgValTerms(Copies(b.svg.total, k), Copies(b.svg.cmd, k), Copies(b.svg.args, k), Copies(b.svg.aux, k))
  {
    if k > 0 {
      RepeatedCopies(b, k - 1);
    }
  }

  /** Averaging `k` repetitions of a breakdown gives back its values. */
  lemma DivideRepeated(b: Breakdown, k: nat)
    requires k > 0
    ensures Divide(Repeated(b, k), k).img == b.img
    ensures Divide(Repeated(b, k), k).svg == SvgValTerms(b.svg.total, b.svg.cmd, b.svg.args, b.svg.aux)
  {
    RepeatedCopies(b, k);
    CopiesAverage(b.img.l1, k);
    CopiesAverage(b.img.vggpt, k);
    CopiesAverage(b.svg.total, k);
    CopiesAverage(b.svg.cmd, k);
    CopiesAverage(b.svg.args, k);
    CopiesAverage(b.svg.aux, k);
  }

  /** When every validation batch has the same losses, the averages are those
      losses. */
  lemma MeanOfConstant(bs: seq<Breakdown>, b: Breakdown)
    requires |bs| > 0
    requires forall i :: 0 <= i < |bs| ==> bs[i] == b
    ensures Mean(bs).img == b.img
    ensures Mean(bs).svg == SvgValTerms(b.svg.total, b.svg.cmd, b.svg.args, b.svg.aux)
  {
    SumOfConstant(bs, b);
    DivideRepeated(b, |bs|);
  }

  /** Three batches with l1 = 1, 2, 3 average to 2. */
  lemma MeanExample(x: Breakdown, y: Breakdown, z: Breakdown)
    requires x.img.l1 == 1.0 && y.img.l1 == 2.0 && z.img.l1 == 3.0
    ensures Mean([x, y, z]).img.l1 == 2.0
  {
    assert [x][..0] == [];
    assert SumOf([x]).img.l1 == 1.0;
    assert [x, y][..1] == [x];
    assert SumOf([x, y]).img.l1 == 3.0;
    assert [x, y, z][..2] == [x, y];
    assert SumOf([x, y, z]).img.l1 == 6.0;
  }
}
