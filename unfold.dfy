/**
 * The expected-counts transform `unfold` (fbu/PyFBU.py): the Poisson mean
 * of every reco bin as a function of the truth spectrum and the values the
 * nuisance parameters take.
 */
module Unfold {
  import opened Wrappers
  import opened Vectors
  import opened Unpack
  import opened Nuisances

  /** Fractional normalisation shift: (nuis - 1)/nuis for a scale factor (err < 0), err otherwise. */
  function NormShift(err: real, nuis: real): real
    requires err < 0.0 ==> nuis != 0.0
  {
    if err < 0.0 then (-1.0 + nuis) / nuis else err
  }

  /**
   * The per-background normalisation multiplier `1 + nuis * shift`, in
   * closed form: the nuisance itself for a scale factor, `1 + nuis * err`
   * otherwise (NormFactorAsWritten proves the two agree).
   */
  function NormFactor(err: real, nuis: real): real
    requires err < 0.0 ==> nuis != 0.0
  {
    if err < 0.0 then nuis else 1.0 + nuis * err
  }

  /** The nuisance values the transform divides by are nonzero. */
  predicate NormDefined(errs: seq<real>, bnuis: seq<real>)
    requires |errs| == |bnuis|
  {
    forall b :: 0 <= b < |errs| ==> errs[b] < 0.0 ==> bnuis[b] != 0.0
  }

  function NormFactors(errs: seq<real>, bnuis: seq<real>): (f: seq<real>)
    requires |errs| == |bnuis| && NormDefined(errs, bnuis)
    ensures |f| == |errs| && forall b :: 0 <= b < |errs| ==> f[b] == NormFactor(errs[b], bnuis[b])
  {
    seq(|errs|, b requires 0 <= b < |errs| => NormFactor(errs[b], bnuis[b]))
  }

  /** The inputs the transform needs, with R reco bins. */
  predicate Inputs(R: nat, truth: seq<real>, resp: seq<seq<real>>, u: Unpacked,
                   gammas: Option<seq<real>>, bnuis: seq<real>, onuis: seq<real>)
  {
    Shaped(u, R) && IsMatrix(resp, |truth|, R) &&
    |bnuis| == |u.bkeys| && |onuis| == |u.okeys| &&
    NormDefined(u.normsysts, bnuis) &&
    (gammas.Some? ==> |gammas.value| == R)
  }

  /** `smearbckg`: each background's own shape multiplier `1 + dot(objnuisances, effects)`. */
  function BackgroundShape(u: Unpacked, onuis: seq<real>, R: nat): (s: seq<seq<real>>)
    requires Shaped(u, R) && |onuis| == |u.okeys|
    ensures IsMatrix(s, |u.bkeys|, R)
  {
    seq(|u.bkeys|, b requires 0 <= b < |u.bkeys| => OnePlus(VecMat(onuis, u.bkgobj[b], R)))
  }

  /** `smearedbackgrounds`: the templates times their shape multipliers (when there are object systematics). */
  function SmearedBackgrounds(u: Unpacked, onuis: seq<real>, R: nat): (s: seq<seq<real>>)
    requires Shaped(u, R) && |onuis| == |u.okeys|
    ensures IsMatrix(s, |u.bkeys|, R)
  {
    if |u.okeys| > 0 then MatMul(u.backgrounds, BackgroundShape(u, onuis, R), R) else u.backgrounds
  }

  /** `reco * smear`: the folded truth spectrum times the signal shape multiplier. */
  function Signal(R: nat, truth: seq<real>, resp: seq<seq<real>>, u: Unpacked, onuis: seq<real>): (s: seq<real>)
    requires Shaped(u, R) && IsMatrix(resp, |truth|, R) && |onuis| == |u.okeys|
    ensures |s| == R
  {
    var reco := VecMat(truth, resp, R);
    if |u.okeys| > 0 then Mul(reco, OnePlus(VecMat(onuis, u.signalobj, R))) else reco
  }

  /** `bckg`: normalised, shape-adjusted backgrounds summed per bin, times the gammas when active. */
  function Background(R: nat, u: Unpacked, gammas: Option<seq<real>>, bnuis: seq<real>, onuis: seq<real>)
    : (bg: seq<real>)
    requires Shaped(u, R) && |bnuis| == |u.bkeys| && |onuis| == |u.okeys|
    requires NormDefined(u.normsysts, bnuis) && (gammas.Some? ==> |gammas.value| == R)
    ensures |bg| == R
  {
    var bckg := VecMat(NormFactors(u.normsysts, bnuis), SmearedBackgrounds(u, onuis, R), R);
    if gammas.Some? then Mul(bckg, gammas.value) else bckg
  }

  /**
   * `unfold()`: expected counts per reco bin. The background term is
   * present only when there are backgrounds; `gammas` is None when
   * include_gammas is None.
   */
  function ExpectedCounts(R: nat, truth: seq<real>, resp: seq<seq<real>>, u: Unpacked,
                          gammas: Option<seq<real>>, bnuis: seq<real>, onuis: seq<real>): (out: seq<real>)
    requires Inputs(R, truth, resp, u, gammas, bnuis, onuis)
    ensures |out| == R
  {
    var signal := Signal(R, truth, resp, u, onuis);
    if |u.bkeys| > 0 then Add(Background(R, u, gammas, bnuis, onuis), signal) else signal
  }

  /**
   * The closed form is the multiplier `1 + nuis * shift` the transform
   * builds; for a floating normalisation (err < 0) it is the nuisance
   * itself, so the Uniform[0, 3] variable acts directly as a scale factor.
   */
  lemma NormFactorAsWritten(err: real, nuis: real)
    requires err < 0.0 ==> nuis != 0.0
    ensures NormFactor(err, nuis) == 1.0 + nuis * NormShift(err, nuis)
    ensures err < 0.0 ==> NormFactor(err, nuis) == nuis
  {
    if err < 0.0 {
      assert nuis * ((-1.0 + nuis) / nuis) == -1.0 + nuis;
    }
  }

  /**
   * For a Gaussian normalisation (err > 0) the declared lower bound -1/err
   * is exactly where the multiplier 1 + nuis*err stops being non-negative.
   */
  lemma GaussianBoundKeepsFactorNonNegative(name: string, err: real, freeze: map<string, real>, nuis: real)
    requires err > 0.0 && name !in freeze
    ensures BackgroundDecl(name, err, freeze).prior == BoundedNormal(AtLeast(-1.0 / err))
    ensures nuis >= -1.0 / err <==> NormFactor(err, nuis) >= 0.0
  {
    var lb := -1.0 / err;
    assert lb * err == -1.0;
    if nuis >= lb {
      assert nuis * err >= lb * err;
    } else {
      assert nuis * err < lb * err;
    }
  }

  /**
   * With no backgrounds and no object systematics the transform is the
   * plain folding truth . response: each truth bin adds its response row,
   * scaled by its content.
   */
  lemma SignalOnlyIsFolding(R: nat, truth: seq<real>, resp: seq<seq<real>>, u: Unpacked,
                            gammas: Option<seq<real>>, bnuis: seq<real>, onuis: seq<real>)
    requires Inputs(R, truth, resp, u, gammas, bnuis, onuis)
    requires |u.bkeys| == 0 && |u.okeys| == 0
    ensures ExpectedCounts(R, truth, resp, u, gammas, bnuis, onuis) == RowCombination(truth, resp, R)
    ensures forall r :: 0 <= r < R ==>
              ExpectedCounts(R, truth, resp, u, gammas, bnuis, onuis)[r] == Dot(truth, Column(resp, r))
  {
    VecMatIsRowCombination(truth, resp, R);
  }

  /** An inventory with no backgrounds and no systematics. */
  function NoSystematics(R: nat): (u: Unpacked)
    ensures Shaped(u, R)
  {
    Unpacked(R, [], [], [], None, [], [], [], [])
  }

  /** The identity response folds truth [50, 80] into expected counts [50, 80]. */
  lemma IdentityFoldingExample()
    ensures ExpectedCounts(2, [50.0, 80.0], Identity(2), NoSystematics(2), None, [], []) == [50.0, 80.0]
  {
    VecMatIdentity([50.0, 80.0]);
  }

  /**
   * With every nuisance at 0 and every gamma at 1, and no floating
   * normalisation (err >= 0, where 0 would divide by zero), the expected
   * counts are the summed nominal backgrounds plus the folded truth.
   */
  lemma NominalExpectation(R: nat, truth: seq<real>, resp: seq<seq<real>>, u: Unpacked,
                           gammas: Option<seq<real>>, bnuis: seq<real>, onuis: seq<real>)
    requires Inputs(R, truth, resp, u, gammas, bnuis, onuis)
    requires forall b :: 0 <= b < |bnuis| ==> bnuis[b] == 0.0 && u.normsysts[b] >= 0.0
    requires forall k :: 0 <= k < |onuis| ==> onuis[k] == 0.0
    requires gammas.Some? ==> forall r :: 0 <= r < R ==> gammas.value[r] == 1.0
    ensures ExpectedCounts(R, truth, resp, u, gammas, bnuis, onuis) ==
            Add(SumRows(u.backgrounds, R), VecMat(truth, resp, R))
  {
    var B := |u.bkeys|;
    var reco := VecMat(truth, resp, R);
    if |u.okeys| > 0 {
      VecMatZeros(onuis, u.signalobj, R);
      assert Signal(R, truth, resp, u, onuis) == reco;
      forall b | 0 <= b < B ensures SmearedBackgrounds(u, onuis, R)[b] == u.backgrounds[b] {
        VecMatZeros(onuis, u.bkgobj[b], R);
      }
    }
    assert SmearedBackgrounds(u, onuis, R) == u.backgrounds;
    assert NormFactors(u.normsysts, bnuis) == Ones(B);
    SumRowsIsOnesProduct(u.backgrounds, R);
    if B > 0 {
      assert Background(R, u, gammas, bnuis, onuis) == SumRows(u.backgrounds, R);
    } else {
      assert SumRows(u.backgrounds, R) == Zeros(R);
    }
  }

  /** One background [20, 20] with err 0.3 plus truth [30, 30] through the identity, all nuisances at 0: [50, 50]. */
  lemma NominalExample()
    ensures var u := Unpacked(2, ["bkg"], [[20.0, 20.0]], [0.3], None, [], [], [], [[]]);
            ExpectedCounts(2, [30.0, 30.0], Identity(2), u, None, [0.0], []) == [50.0, 50.0]
  {
    var u := Unpacked(2, ["bkg"], [[20.0, 20.0]], [0.3], None, [], [], [], [[]]);
    NominalExpectation(2, [30.0, 30.0], Identity(2), u, None, [0.0], []);
    VecMatIdentity([30.0, 30.0]);
    assert SumRows([[20.0, 20.0]], 2) == Add([20.0, 20.0], Zeros(2)) == [20.0, 20.0];
  }

  /**
   * The declaration side and the transform agree on frozen values: a
   * frozen background normalisation enters the expected counts at its
   * frozen value whatever the engine draws.
   */
  lemma FrozenNormEntersAtFrozenValue(keys: seq<string>, errs: seq<real>, freeze: map<string, real>,
                                      decls: seq<Decl>, draw: string -> real, b: nat)
    requires |keys| == |errs| == |decls| && b < |keys|
    requires forall j :: 0 <= j < |keys| ==> decls[j] == BackgroundDecl(keys[j], errs[j], freeze)
    requires keys[b] in freeze
    ensures Values(decls, draw)[b] == freeze[keys[b]]
  {
    assert decls[b].pinned == FreezeLookup(freeze, keys[b]);
  }

  /**
   * A free background with normalisation error 0 is a normal variable
   * with no lower bound, and it has no effect on the expected counts: its
   * multiplier is 1 whatever value it takes.
   */
  lemma ZeroErrorBackgroundIsUnbounded(name: string, freeze: map<string, real>)
    requires name !in freeze
    ensures BackgroundDecl(name, 0.0, freeze).prior == BoundedNormal(NegInf)
    ensures forall nuis :: NormFactor(0.0, nuis) == 1.0
  {
  }
}
