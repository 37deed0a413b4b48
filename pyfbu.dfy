/**
 * The `PyFBU` object (fbu/PyFBU.py): its configuration fields, input
 * validation, and `run`, which selects a toy, unpacks the inputs,
 * declares the nuisance parameters, hands the model to the inference
 * engine and extracts the posterior into its result fields.
 *
 * The engine is two parameters of `Run`: `sample` (mc.sample) maps the
 * model to a trace of sample vectors by variable name, and `findMAP`
 * (mc.find_MAP) maps it to a point estimate.
 */
module FBU {
  import opened Wrappers
  import opened Errors
  import opened Dicts
  import opened Vectors
  import opened Nuisances
  import opened Unpack
  import opened Unfold
  import opened Toys
  import opened Extraction

  /** The configuration `run` reads: every input attribute of the object. */
  datatype Config = Config(
    data: seq<real>,
    response: seq<seq<real>>,                            // [truth bin][reco bin]
    background: Dict<seq<real>>,
    backgroundsyst: Dict<real>,
    backgrounderr: map<string, seq<real>>,
    objsyst: ObjSyst,
    lower: seq<real>,
    upper: seq<real>,
    freezeNPs: map<string, real>,
    includeGammas: Option<seq<bool>>,
    gammasLower: real,
    gammasUpper: real,
    systfixsigma: real,
    smearBckgs: seq<string>,
    rndseed: int,
    mode: bool,
    flatKey: string,                                     // obj_syst_flatprior['key']
    flatLower: real,
    flatUpper: real)

  /** The attributes `run` writes. */
  datatype RunState = RunState(nbins: nat, trace: seq<seq<real>>, nuisancestrace: map<string, seq<real>>,
                               MAP: Option<map<string, real>>)

  /**
   * The state after `run` and what it returns (the warned names) or
   * raises; `nuisancesPartial` marks a run stopped by a missing gamma
   * trace, which leaves `nuisancestrace` partly filled.
   */
  datatype RunOutcome = RunOutcome(state: RunState, nuisancesPartial: bool, result: Result<seq<string>, Error>)

  /** The statistical model `run` builds: the inputs of the likelihood and every declared variable. */
  datatype ModelSpec = ModelSpec(
    R: nat,
    truthdim: nat,
    lower: seq<real>,
    upper: seq<real>,
    data: seq<real>,                                     // observed counts of `unfolded`
    response: seq<seq<real>>,
    unpacked: Unpacked,
    backgroundNuisances: seq<Decl>,
    objectNuisances: seq<Decl>,
    gammas: Option<seq<GammaEntry>>,
    poissons: seq<PoissonConstraint>)

  /** `validateinput` succeeds: the sizes agree, and gammas come with MC errors. */
  predicate SizesAgree(c: Config) {
    (forall k :: k in c.background.entries ==> |c.background.entries[k]| == |c.data|) &&
    (forall t :: 0 <= t < |c.response| ==> |c.response[t]| == |c.data|) &&
    |c.lower| == |c.response| && |c.upper| == |c.response|
  }

  predicate ValidInput(c: Config) {
    SizesAgree(c) && (c.includeGammas.Some? ==> c.backgrounderr != map[])
  }

  /** The assertion message of the first check that fails. */
  function ValidationMessage(c: Config): string {
    if SizesAgree(c) then MissingErrors else InconsistentSize
  }

  /** The declarations `run` makes for an unpacking u of the toy inputs. */
  function BuildModel(c: Config, toy: Toy, u: Unpacked): (m: ModelSpec)
    requires Shaped(u, |c.data|)
    ensures m.R == |c.data| && m.truthdim == |c.response| && m.unpacked == u
  {
    var B, K := |u.bkeys|, |u.okeys|;
    var bdecls := if B > 0 then seq(B, b requires 0 <= b < B => BackgroundDecl(u.bkeys[b], u.normsysts[b], c.freezeNPs))
                  else [];
    var odecls := if K > 0 then seq(K, k requires 0 <= k < K => ObjectDecl(u.okeys[k], c.flatKey, c.flatLower, c.flatUpper,
                                                                             c.freezeNPs))
                  else [];
    var flags := if u.gammaFlags.Some? && B > 0 then u.gammaFlags.value else [];
    var gammas := if u.gammaFlags.Some? && B > 0
                  then Some(seq(|flags|, i requires 0 <= i < |flags| =>
                                  GammaEntryAt(i, flags[i], c.freezeNPs, c.gammasLower, c.gammasUpper)))
                  else None;
    var poissons := if u.gammaFlags.Some? && B > 0 then Poissons(flags, u.tau, |flags|) else [];
    ModelSpec(|c.data|, |c.response|, c.lower, c.upper, toy.data, c.response, u, bdecls, odecls, gammas, poissons)
  }

  /**
   * The variable declarations of a built model: one normalisation per
   * background and one variable per object systematic, each pinned exactly
   * when its name is frozen; the model observes the toy data.
   */
  lemma BuildModelDeclares(c: Config, toy: Toy, u: Unpacked)
    requires Shaped(u, |c.data|)
    ensures var m := BuildModel(c, toy, u);
            (SpecShaped(m) <==> IsMatrix(c.response, |c.response|, |c.data|)) &&
            m.data == toy.data &&
            (forall b :: 0 <= b < |u.bkeys| ==>
               m.backgroundNuisances[b].pinned == FreezeLookup(c.freezeNPs, u.bkeys[b]) &&
               (u.normsysts[b] < 0.0 ==>
                  m.backgroundNuisances[b] == Decl("norm_" + u.bkeys[b], Uniform(0.0, 3.0), FreezeLookup(c.freezeNPs, u.bkeys[b]))) &&
               (u.normsysts[b] >= 0.0 ==> m.backgroundNuisances[b].name == "gaus_" + u.bkeys[b])) &&
            (forall k :: 0 <= k < |u.okeys| ==> m.objectNuisances[k].pinned == FreezeLookup(c.freezeNPs, u.okeys[k])) &&
            |m.backgroundNuisances| == |u.bkeys| && |m.objectNuisances| == |u.okeys| &&
            (forall b :: 0 <= b < |u.bkeys| ==>
               m.backgroundNuisances[b] == BackgroundDecl(u.bkeys[b], u.normsysts[b], c.freezeNPs)) &&
            (forall k :: 0 <= k < |u.okeys| ==>
               m.objectNuisances[k] == ObjectDecl(u.okeys[k], c.flatKey, c.flatLower, c.flatUpper, c.freezeNPs))
  {
  }

  /**
   * The gammas of a built model: present exactly when requested (the
   * unpacking lets them through only with at least one background), a
   * Uniform on the gamma bounds, pinned when frozen, for each flagged bin
   * and the constant 1 for the others; and one Poisson constraint per
   * flagged bin, with that bin's tau.
   */
  lemma BuildModelGammas(c: Config, toy: Toy, u: Unpacked)
    requires Shaped(u, |c.data|)
    ensures var m := BuildModel(c, toy, u);
            (m.gammas.Some? <==> u.gammaFlags.Some?) &&
            (m.gammas.Some? ==>
               forall i :: 0 <= i < |c.data| ==>
                 (u.gammaFlags.value[i] <==> m.gammas.value[i].GammaVar?) &&
                 (u.gammaFlags.value[i] ==>
                    m.gammas.value[i].decl == Decl("flat_" + GammaName(i), Uniform(c.gammasLower, c.gammasUpper),
                                                   FreezeLookup(c.freezeNPs, GammaName(i))))) &&
            (u.gammaFlags.None? ==> m.poissons == []) &&
            (forall p :: p in m.poissons ==>
               u.gammaFlags.Some? && p.bin < |c.data| && u.gammaFlags.value[p.bin] && p == PoissonAt(p.bin, u.tau[p.bin])) &&
            (u.gammaFlags.Some? ==>
               forall i :: 0 <= i < |c.data| && u.gammaFlags.value[i] ==> PoissonAt(i, u.tau[i]) in m.poissons)
  {
    var m := BuildModel(c, toy, u);
    if u.gammaFlags.Some? {
      var flags := u.gammaFlags.value;
      assert m.gammas == Some(seq(|flags|, i requires 0 <= i < |flags| =>
                                    GammaEntryAt(i, flags[i], c.freezeNPs, c.gammasLower, c.gammasUpper)));
      assert m.poissons == Poissons(flags, u.tau, |flags|);
      PoissonsAreFlaggedBins(flags, u.tau, |flags|);
    } else {
      assert m.gammas == None && m.poissons == [];
    }
  }

  /** The shapes the likelihood mean needs. */
  predicate SpecShaped(m: ModelSpec) {
    Shaped(m.unpacked, m.R) && IsMatrix(m.response, m.truthdim, m.R) &&
    |m.backgroundNuisances| == |m.unpacked.bkeys| && |m.objectNuisances| == |m.unpacked.okeys| &&
    (m.gammas.Some? ==> |m.gammas.value| == m.R)
  }

  /** The truth spectrum `truth` once the engine draws its `truth<i>` variables. */
  function TruthValues(truthdim: nat, draw: string -> real): (truth: seq<real>)
    ensures |truth| == truthdim && forall i :: 0 <= i < truthdim ==> truth[i] == draw(TruthKey(i))
  {
    seq(truthdim, i requires 0 <= i < truthdim => draw(TruthKey(i)))
  }

  /** The stacked `gammas` of a model under a draw, None when the model has none. */
  function ModelGammas(m: ModelSpec, draw: string -> real): (g: Option<seq<real>>)
    ensures g.Some? <==> m.gammas.Some?
    ensures g.Some? ==> g.value == GammaValues(m.gammas.value, draw)
  {
    if m.gammas.Some? then Some(GammaValues(m.gammas.value, draw)) else None
  }

  /**
   * The Poisson mean of `unfolded` for the values `draw` gives the free
   * variables (frozen ones keep their frozen value); None where a
   * floating normalisation is drawn at 0 and the transform divides by 0.
   */
  function Mean(m: ModelSpec, draw: string -> real): (mu: Option<seq<real>>)
    requires SpecShaped(m)
    ensures mu.Some? <==> NormDefined(m.unpacked.normsysts, Values(m.backgroundNuisances, draw))
    ensures mu.Some? ==>
              |mu.value| == m.R &&
              mu.value == ExpectedCounts(m.R, TruthValues(m.truthdim, draw), m.response, m.unpacked, ModelGammas(m, draw),
                                         Values(m.backgroundNuisances, draw), Values(m.objectNuisances, draw))
  {
    var bnuis := Values(m.backgroundNuisances, draw);
    var onuis := Values(m.objectNuisances, draw);
    if NormDefined(m.unpacked.normsysts, bnuis) then
      Some(ExpectedCounts(m.R, TruthValues(m.truthdim, draw), m.response, m.unpacked, ModelGammas(m, draw), bnuis, onuis))
    else None
  }

  /** Two draws agree on every variable the engine samples: the truth bins and every unpinned declaration. */
  predicate AgreeOnFree(m: ModelSpec, draw1: string -> real, draw2: string -> real) {
    (forall i :: 0 <= i < m.truthdim ==> draw1(TruthKey(i)) == draw2(TruthKey(i))) &&
    (forall b :: 0 <= b < |m.backgroundNuisances| && m.backgroundNuisances[b].pinned.None? ==>
       draw1(m.backgroundNuisances[b].name) == draw2(m.backgroundNuisances[b].name)) &&
    (forall k :: 0 <= k < |m.objectNuisances| && m.objectNuisances[k].pinned.None? ==>
       draw1(m.objectNuisances[k].name) == draw2(m.objectNuisances[k].name)) &&
    (m.gammas.Some? ==>
       forall i :: 0 <= i < |m.gammas.value| && m.gammas.value[i].GammaVar? && m.gammas.value[i].decl.pinned.None? ==>
         draw1(m.gammas.value[i].decl.name) == draw2(m.gammas.value[i].decl.name))
  }

  /**
   * The mean depends on the draw only through the free variables: frozen
   * (pinned) variables enter at their frozen value whatever the engine
   * draws for their names.
   */
  lemma MeanIgnoresPinnedDraws(m: ModelSpec, draw1: string -> real, draw2: string -> real)
    requires SpecShaped(m) && AgreeOnFree(m, draw1, draw2)
    ensures Mean(m, draw1) == Mean(m, draw2)
  {
    assert TruthValues(m.truthdim, draw1) == TruthValues(m.truthdim, draw2);
    assert Values(m.backgroundNuisances, draw1) == Values(m.backgroundNuisances, draw2);
    assert Values(m.objectNuisances, draw1) == Values(m.objectNuisances, draw2);
    if m.gammas.Some? {
      assert GammaValues(m.gammas.value, draw1) == GammaValues(m.gammas.value, draw2);
    }
  }

  /** What `run` does, step by step, from configuration c and prior state st. */
  function RunSpec(c: Config, st: RunState, fluct: (int, seq<real>, Option<seq<real>>) -> seq<real>,
                   sample: ModelSpec -> map<string, seq<real>>, findMAP: ModelSpec -> map<string, real>): (o: RunOutcome)
    requires forall s, v, e :: |fluct(s, v, e)| == |v|
    ensures o.nuisancesPartial ==> ValidInput(c) && !c.mode && o.result.Err?
  {
    if !ValidInput(c) then RunOutcome(st, false, Err(ValidationError(ValidationMessage(c))))
    else RunValidated(c, st, fluct, sample, findMAP)
  }

  /** From the toy selection on, once the input is valid. */
  function RunValidated(c: Config, st: RunState, fluct: (int, seq<real>, Option<seq<real>>) -> seq<real>,
                        sample: ModelSpec -> map<string, seq<real>>, findMAP: ModelSpec -> map<string, real>): (o: RunOutcome)
    requires forall s, v, e :: |fluct(s, v, e)| == |v|
    requires ValidInput(c)
    ensures o.nuisancesPartial ==> !c.mode && o.result.Err?
  {
    var sel := ToySelection(c.data, c.background, c.backgrounderr, c.smearBckgs, c.rndseed, fluct);
    if sel.Err? then RunOutcome(st, false, Err(sel.error))
    else
      ToyKeepsLengths(c.data, c.background, c.backgrounderr, c.smearBckgs, c.rndseed, fluct);
      RunOnToy(c, st, sel.value, sample, findMAP)
  }

  /**
   * From the unpacking of the toy on: `nbins` is the length of the first
   * background, and an empty background dict stops the run there.
   */
  function RunOnToy(c: Config, st: RunState, toy: Toy,
                    sample: ModelSpec -> map<string, seq<real>>, findMAP: ModelSpec -> map<string, real>): (o: RunOutcome)
    requires forall k :: k in toy.background.entries ==> |toy.background.entries[k]| == |c.data|
    ensures o.result.Ok? ==> o.state.nbins == |c.data|
    ensures o.nuisancesPartial ==> !c.mode && o.result.Err?
    ensures |toy.background.keys| == 0 ==> o == RunOutcome(st, false, Err(StopIteration))
  {
    if |toy.background.keys| == 0 then RunOutcome(st, false, Err(StopIteration))
    else RunUnpacked(c, st.(nbins := |toy.background.entries[toy.background.keys[0]]|), toy, sample, findMAP)
  }

  /** The unpacking into arrays, then the model and the inference, with `nbins` already set. */
  function RunUnpacked(c: Config, st: RunState, toy: Toy,
                       sample: ModelSpec -> map<string, seq<real>>, findMAP: ModelSpec -> map<string, real>): (o: RunOutcome)
    requires forall k :: k in toy.background.entries ==> |toy.background.entries[k]| == |c.data|
    ensures o.state.nbins == st.nbins
    ensures o.nuisancesPartial ==> !c.mode && o.result.Err?
  {
    var un := UnpackInputs(toy.background, c.backgroundsyst, c.backgrounderr, c.objsyst,
                           c.includeGammas, |c.data|);
    if un.Err? then RunOutcome(st, false, Err(un.error))
    else
      Infer(c, st, BuildModel(c, toy, un.value), sample, findMAP)
  }

  /** The inference step: the point estimate in MAP mode, the sampled posterior otherwise. */
  function Infer(c: Config, st: RunState, m: ModelSpec,
                 sample: ModelSpec -> map<string, seq<real>>, findMAP: ModelSpec -> map<string, real>): (o: RunOutcome)
    requires Shaped(m.unpacked, m.R) && m.unpacked.nbins == m.R
    ensures o.state.nbins == st.nbins
    ensures o.nuisancesPartial ==> !c.mode && o.result.Err?
  {
    var u := m.unpacked;
    if c.mode then RunOutcome(st.(trace := [], nuisancestrace := map[], MAP := Some(findMAP(m))), false, Ok([]))
    else
      var T := sample(m);
      var ex := Extract(T, |c.response|, u.bkeys, u.normsysts, u.gammaFlags, u.nbins, u.okeys, c.flatKey,
                        c.freezeNPs, c.systfixsigma);
      if ex.Ok? then
        RunOutcome(st.(trace := ex.value.trace, nuisancestrace := ex.value.nuisances), false, Ok(ex.value.warned))
      else if TruthTraces(T, |c.response|).Err? then RunOutcome(st, false, Err(ex.error))
      else RunOutcome(st.(trace := TruthTraces(T, |c.response|).value), true, Err(ex.error))
  }

  /**
   * `validateinput` runs before anything else: an invalid input raises
   * its assertion error and leaves every result attribute as it was; the
   * message names the size check exactly when that check fails.
   */
  lemma ValidationComesFirst(c: Config, st: RunState, fluct: (int, seq<real>, Option<seq<real>>) -> seq<real>,
                             sample: ModelSpec -> map<string, seq<real>>, findMAP: ModelSpec -> map<string, real>)
    requires forall s, v, e :: |fluct(s, v, e)| == |v|
    ensures !ValidInput(c) ==> RunSpec(c, st, fluct, sample, findMAP) ==
                                 RunOutcome(st, false, Err(ValidationError(ValidationMessage(c))))
    ensures ValidationMessage(c) == InconsistentSize <==> !SizesAgree(c)
  {
  }

  /**
   * Every run either stops before inference, with an error and with
   * `trace`, `nuisancestrace` and `MAP` as they were, or reaches the
   * inference step on the model BuildModel declares for a valid input,
   * its toy and the toy's unpacking, with `nbins` set to the number of
   * data bins.
   */
  lemma RunStages(c: Config, st: RunState, fluct: (int, seq<real>, Option<seq<real>>) -> seq<real>,
                  sample: ModelSpec -> map<string, seq<real>>, findMAP: ModelSpec -> map<string, real>)
    returns (reached: bool, toy: Toy, u: Unpacked, m: ModelSpec)
    requires forall s, v, e :: |fluct(s, v, e)| == |v|
    ensures var o := RunSpec(c, st, fluct, sample, findMAP);
            (!reached ==> o.result.Err? && !o.nuisancesPartial && o.state.trace == st.trace &&
                          o.state.nuisancestrace == st.nuisancestrace && o.state.MAP == st.MAP) &&
            (reached ==> ValidInput(c) &&
                         ToySelection(c.data, c.background, c.backgrounderr, c.smearBckgs, c.rndseed, fluct) == Ok(toy) &&
                         (forall k :: k in toy.background.entries ==> |toy.background.entries[k]| == |c.data|) &&
                         UnpackInputs(toy.background, c.backgroundsyst, c.backgrounderr, c.objsyst, c.includeGammas,
                                      |c.data|) == Ok(u) &&
                         Shaped(u, |c.data|) && m == BuildModel(c, toy, u) &&
                         Shaped(m.unpacked, m.R) && m.unpacked.nbins == m.R && m.R == |c.data| &&
                         m.truthdim == |c.response| &&
                         (forall i, j :: 0 <= i < j < |m.unpacked.bkeys| ==> m.unpacked.bkeys[i] != m.unpacked.bkeys[j]) &&
                         (forall i, j :: 0 <= i < j < |m.unpacked.okeys| ==> m.unpacked.okeys[i] != m.unpacked.okeys[j]) &&
                         o == Infer(c, st.(nbins := |c.data|), m, sample, findMAP))
  {
    reached, toy, u := false, Toy([], EmptyDict()), NoSystematics(0);
    m := ModelSpec(0, 0, [], [], [], [], u, [], [], None, []);
    if ValidInput(c) {
      var sel := ToySelection(c.data, c.background, c.backgrounderr, c.smearBckgs, c.rndseed, fluct);
      if sel.Ok? && |sel.value.background.keys| > 0 {
        toy := sel.value;
        ToyKeepsLengths(c.data, c.background, c.backgrounderr, c.smearBckgs, c.rndseed, fluct);
        assert toy.background.keys[0] in toy.background.entries;
        var st1 := st.(nbins := |toy.background.entries[toy.background.keys[0]]|);
        assert RunSpec(c, st, fluct, sample, findMAP) == RunUnpacked(c, st1, toy, sample, findMAP);
        var un := UnpackInputs(toy.background, c.backgroundsyst, c.backgrounderr, c.objsyst,
                               c.includeGammas, |c.data|);
        if un.Ok? {
          reached, u := true, un.value;
          m := BuildModel(c, toy, u);
        }
      }
    }
  }

  /** After a successful run `nbins` is the number of data bins. */
  lemma RunSetsNbins(c: Config, st: RunState, fluct: (int, seq<real>, Option<seq<real>>) -> seq<real>,
                     sample: ModelSpec -> map<string, seq<real>>, findMAP: ModelSpec -> map<string, real>)
    requires forall s, v, e :: |fluct(s, v, e)| == |v|
    ensures RunSpec(c, st, fluct, sample, findMAP).result.Ok? ==>
            RunSpec(c, st, fluct, sample, findMAP).state.nbins == |c.data|
  {
    var reached, toy, u, m := RunStages(c, st, fluct, sample, findMAP);
  }

  /**
   * The two modes write different attributes: only MAP mode touches
   * `MAP`, and a successful MAP run stores a point estimate, empties both
   * traces and warns about nothing.
   */
  lemma RunModes(c: Config, st: RunState, fluct: (int, seq<real>, Option<seq<real>>) -> seq<real>,
                 sample: ModelSpec -> map<string, seq<real>>, findMAP: ModelSpec -> map<string, real>)
    requires forall s, v, e :: |fluct(s, v, e)| == |v|
    ensures var o := RunSpec(c, st, fluct, sample, findMAP);
            (!c.mode ==> o.state.MAP == st.MAP) &&
            (c.mode && o.result.Ok? ==>
               o.result == Ok([]) && o.state.trace == [] && o.state.nuisancestrace == map[] && o.state.MAP.Some?)
  {
    var reached, toy, u, m := RunStages(c, st, fluct, sample, findMAP);
  }

  /**
   * A successful sampling run stores one trace per truth bin, the
   * engine's `truth<i>` samples for the model the run built: BuildModel
   * of the toy and of its unpacking.
   */
  lemma RunTraces(c: Config, st: RunState, fluct: (int, seq<real>, Option<seq<real>>) -> seq<real>,
                  sample: ModelSpec -> map<string, seq<real>>, findMAP: ModelSpec -> map<string, real>)
    returns (toy: Toy, u: Unpacked, m: ModelSpec)
    requires forall s, v, e :: |fluct(s, v, e)| == |v|
    ensures var o := RunSpec(c, st, fluct, sample, findMAP);
            !c.mode && o.result.Ok? ==>
              ValidInput(c) &&
              ToySelection(c.data, c.background, c.backgrounderr, c.smearBckgs, c.rndseed, fluct) == Ok(toy) &&
              (forall k :: k in toy.background.entries ==> |toy.background.entries[k]| == |c.data|) &&
              UnpackInputs(toy.background, c.backgroundsyst, c.backgrounderr, c.objsyst, c.includeGammas,
                           |c.data|) == Ok(u) &&
              Shaped(u, |c.data|) && m == BuildModel(c, toy, u) &&
              |o.state.trace| == |c.response| &&
              forall i :: 0 <= i < |c.response| ==> TruthKey(i) in sample(m) && o.state.trace[i] == sample(m)[TruthKey(i)]
  {
    var reached;
    reached, toy, u, m := RunStages(c, st, fluct, sample, findMAP);
    if reached && !c.mode && RunSpec(c, st, fluct, sample, findMAP).result.Ok? {
      InferTraces(c, st.(nbins := |c.data|), m, sample, findMAP);
    }
  }

  /**
   * A successful sampling run of a built model stores one trace per truth
   * bin, the engine's `truth<i>` samples, and warns exactly about the
   * backgrounds and object systematics whose trace is missing and which
   * are not frozen.
   */
  lemma InferTraces(c: Config, st: RunState, m: ModelSpec,
                    sample: ModelSpec -> map<string, seq<real>>, findMAP: ModelSpec -> map<string, real>)
    requires Shaped(m.unpacked, m.R) && m.unpacked.nbins == m.R
    requires forall i, j :: 0 <= i < j < |m.unpacked.bkeys| ==> m.unpacked.bkeys[i] != m.unpacked.bkeys[j]
    requires forall i, j :: 0 <= i < j < |m.unpacked.okeys| ==> m.unpacked.okeys[i] != m.unpacked.okeys[j]
    requires !c.mode && Infer(c, st, m, sample, findMAP).result.Ok?
    ensures var o, T, u := Infer(c, st, m, sample, findMAP), sample(m), m.unpacked;
            |o.state.trace| == |c.response| &&
            (forall i :: 0 <= i < |c.response| ==> TruthKey(i) in T && o.state.trace[i] == T[TruthKey(i)]) &&
            forall name :: name in o.result.value <==>
              (exists b :: 0 <= b < |u.bkeys| && u.bkeys[b] == name && BackgroundTraceKey(name, u.normsysts[b]).Some? &&
                           BackgroundTraceKey(name, u.normsysts[b]).value !in T && name !in c.freezeNPs) ||
              (c.systfixsigma == 0.0 &&
               exists k :: 0 <= k < |u.okeys| && u.okeys[k] == name && ObjectTraceKey(name, c.flatKey) !in T &&
                           name !in c.freezeNPs)
  {
    var u := m.unpacked;
    ExtractSucceedsIff(sample(m), |c.response|, u.bkeys, u.normsysts, u.gammaFlags, u.nbins, u.okeys, c.flatKey,
                       c.freezeNPs, c.systfixsigma);
    ExtractWarnings(sample(m), |c.response|, u.bkeys, u.normsysts, u.gammaFlags, u.nbins, u.okeys, c.flatKey,
                    c.freezeNPs, c.systfixsigma);
  }

  /**
   * A sampling run stopped by a missing `flat_gamma_<i>` trace has
   * already stored the truth traces and reports that key.
   */
  lemma PartialRunKeepsTruths(c: Config, st: RunState, m: ModelSpec,
                              sample: ModelSpec -> map<string, seq<real>>, findMAP: ModelSpec -> map<string, real>)
    requires Shaped(m.unpacked, m.R) && m.unpacked.nbins == m.R
    requires Infer(c, st, m, sample, findMAP).nuisancesPartial
    ensures var o, T := Infer(c, st, m, sample, findMAP), sample(m);
            !c.mode && |o.state.trace| == |c.response| &&
            (forall i :: 0 <= i < |c.response| ==> TruthKey(i) in T && o.state.trace[i] == T[TruthKey(i)]) &&
            exists i :: 0 <= i < m.R && o.result == Err(KeyError("flat_" + GammaName(i)))
  {
    var u := m.unpacked;
    var T := sample(m);
    TruthTracesIff(T, |c.response|);
    var s0 := Store(map[], []);
    var s1 := if |u.bkeys| > 0 then BackgroundPass(T, u.bkeys, u.normsysts, c.freezeNPs, |u.bkeys|, s0) else s0;
    GammaPassErrors(T, u.gammaFlags.value, c.freezeNPs, u.nbins, s1);
  }

  class PyFBU {
    var data: seq<real>
    var response: seq<seq<real>>
    var background: Dict<seq<real>>
    var backgroundsyst: Dict<real>
    var backgrounderr: map<string, seq<real>>
    var objsyst: ObjSyst
    var lower: seq<real>
    var upper: seq<real>
    var freezeNPs: map<string, real>
    var includeGammas: Option<seq<bool>>
    var gammasLower: real
    var gammasUpper: real
    var systfixsigma: real
    var smearBckgs: seq<string>
    var rndseed: int
    var mode: bool
    var flatKey: string
    var flatLower: real
    var flatUpper: real
    var nbins: nat
    var trace: seq<seq<real>>
    var nuisancestrace: map<string, seq<real>>
    var MAP: Option<map<string, real>>

    /**
     * `__init__`, with its default arguments: the given inputs, and the
     * defaults for everything else. `trace`, `nuisancestrace` and `MAP`
     * are attributes `__init__` never sets; here they start empty.
     */
    constructor(data: seq<real> := [], response: seq<seq<real>> := [], background: Dict<seq<real>> := EmptyDict(),
                backgroundsyst: Dict<real> := EmptyDict(),
                objsyst: ObjSyst := ObjSyst(Some(EmptyDict()), Some(map[])),
                lower: seq<real> := [], upper: seq<real> := [], rndseed: int := -1, mode: bool := false)
      ensures Settings() == Config(data, response, background, backgroundsyst, map[], objsyst,
                                   lower, upper, map[], None, 0.0, 2.0, 0.0, [], rndseed, mode, "__flat__", -5.0, 5.0)
      ensures State() == RunState(0, [], map[], None)
    {
      this.data, this.response, this.background, this.backgroundsyst := data, response, background, backgroundsyst;
      this.backgrounderr := map[];
      this.objsyst := objsyst;
      this.lower, this.upper := lower, upper;
      this.freezeNPs := map[];
      this.includeGammas := None;
      this.gammasLower, this.gammasUpper := 0.0, 2.0;
      this.systfixsigma := 0.0;
      this.smearBckgs := [];
      this.rndseed, this.mode := rndseed, mode;
      this.flatKey, this.flatLower, this.flatUpper := "__flat__", -5.0, 5.0;
      this.nbins := 0;
      this.trace, this.nuisancestrace, this.MAP := [], map[], None;
    }

    /** The input attributes as one value. */
    function Settings(): Config
      reads this`data, this`response, this`background, this`backgroundsyst, this`backgrounderr
      reads this`objsyst, this`lower, this`upper, this`freezeNPs
      reads this`includeGammas, this`gammasLower, this`gammasUpper, this`systfixsigma, this`smearBckgs
      reads this`rndseed, this`mode, this`flatKey, this`flatLower, this`flatUpper
    {
      Config(data, response, background, backgroundsyst, backgrounderr, objsyst,
             lower, upper, freezeNPs, includeGammas, gammasLower, gammasUpper, systfixsigma, smearBckgs, rndseed,
             mode, flatKey, flatLower, flatUpper)
    }

    /** The result attributes as one value. */
    function State(): RunState
      reads this`nbins, this`trace, this`nuisancestrace, this`MAP
    {
      RunState(nbins, trace, nuisancestrace, MAP)
    }

    /**
     * The result attributes agree with the outcome `o` of a run whose
     * return value is `r`; `nuisancestrace` is pinned only when the
     * extraction did not stop part-way through filling it.
     */
    predicate Reflects(o: RunOutcome, r: Result<seq<string>, Error>)
      reads this`nbins, this`trace, this`nuisancestrace, this`MAP
    {
      r == o.result && nbins == o.state.nbins && trace == o.state.trace && MAP == o.state.MAP &&
      (!o.nuisancesPartial ==> nuisancestrace == o.state.nuisancestrace)
    }

    /** `check_NPfrozen`: the name has a frozen value. */
    predicate CheckNPFrozen(name: string)
      reads this`freezeNPs
      ensures CheckNPFrozen(name) <==> FreezeLookup(freezeNPs, name).Some?
    {
      name in freezeNPs
    }

    /**
     * `validateinput`: fails, with the message of the first failing
     * assertion, exactly when the input sizes disagree or gammas are asked
     * for without MC errors.
     */
    method ValidateInput() returns (r: Outcome<Error>)
      ensures r.Pass? <==> ValidInput(Settings())
      ensures r.Fail? ==> r.error == ValidationError(ValidationMessage(Settings()))
    {
      var keys := background.keys;
      for i := 0 to |keys|
        invariant forall j :: 0 <= j < i ==> |background.entries[keys[j]]| == |data|
      {
        if |background.entries[keys[i]]| != |data| {
          return Fail(ValidationError(InconsistentSize));
        }
      }
      assert forall k :: k in background.entries ==> |background.entries[k]| == |data| by {
        forall k | k in background.entries ensures |background.entries[k]| == |data| {
          var j :| 0 <= j < |keys| && keys[j] == k;
        }
      }
      for t := 0 to |response|
        invariant forall j :: 0 <= j < t ==> |response[j]| == |data|
      {
        if |response[t]| != |data| {
          return Fail(ValidationError(InconsistentSize));
        }
      }
      if |lower| != |response| || |upper| != |response| {
        return Fail(ValidationError(InconsistentSize));
      }
      if includeGammas.Some? && backgrounderr == map[] {
        return Fail(ValidationError(MissingErrors));
      }
      return Pass;
    }

    /** The declaration loops of `run`: background norms, object systematics, gammas and their constraints. */
    method DeclareModel(toy: Toy, u: Unpacked) returns (m: ModelSpec)
      requires Shaped(u, |data|)
      ensures m == BuildModel(Settings(), toy, u)
    {
      var B, K := |u.bkeys|, |u.okeys|;
      var fz, fk, fl, fu, gl, gu := freezeNPs, flatKey, flatLower, flatUpper, gammasLower, gammasUpper;
      var bdecls: seq<Decl> := [];
      if B > 0 {
        bdecls := DeclareBackgroundNuisances(u.bkeys, u.normsysts, freezeNPs);
        assert bdecls == seq(B, b requires 0 <= b < B => BackgroundDecl(u.bkeys[b], u.normsysts[b], fz));
      }
      var odecls: seq<Decl> := [];
      if K > 0 {
        odecls := DeclareObjectNuisances(u.okeys, flatKey, flatLower, flatUpper, freezeNPs);
        assert odecls == seq(K, k requires 0 <= k < K => ObjectDecl(u.okeys[k], fk, fl, fu, fz));
      }
      var gammas: Option<seq<GammaEntry>> := None;
      var poissons: seq<PoissonConstraint> := [];
      if u.gammaFlags.Some? && B > 0 {
        var gs;
        gs, poissons := DeclareGammas(u.gammaFlags.value, u.tau, freezeNPs, gammasLower, gammasUpper);
        var flags := u.gammaFlags.value;
        assert gs == seq(|flags|, i requires 0 <= i < |flags| => GammaEntryAt(i, flags[i], fz, gl, gu));
        gammas := Some(gs);
      }
      m := ModelSpec(|data|, |response|, lower, upper, toy.data, response, u, bdecls, odecls, gammas, poissons);
    }

    /**
     * The extraction of `run`: the truth traces, then `nuisancestrace`
     * filled name by name from the background, gamma and object loops.
     */
    method ExtractPosterior(T: map<string, seq<real>>, truthdim: nat, u: Unpacked) returns (r: Result<seq<string>, Error>)
      requires |u.normsysts| == |u.bkeys| && (u.gammaFlags.Some? ==> u.nbins <= |u.gammaFlags.value|)
      modifies this`trace, this`nuisancestrace
      ensures var ex := Extract(T, truthdim, u.bkeys, u.normsysts, u.gammaFlags, u.nbins, u.okeys, flatKey,
                                freezeNPs, systfixsigma);
              (ex.Ok? ==> r == Ok(ex.value.warned) && trace == ex.value.trace && nuisancestrace == ex.value.nuisances) &&
              (ex.Err? ==> r == Err(ex.error))
      ensures TruthTraces(T, truthdim).Err? ==> trace == old(trace) && nuisancestrace == old(nuisancestrace)
      ensures TruthTraces(T, truthdim).Ok? ==> trace == TruthTraces(T, truthdim).value
    {
      var tr: seq<seq<real>> := [];
      for i := 0 to truthdim
        invariant TruthTraces(T, i) == Ok(tr)
      {
        if TruthKey(i) !in T {
          TruthTracesStop(T, i + 1, truthdim);
          return Err(KeyError(TruthKey(i)));
        }
        tr := tr + [T[TruthKey(i)]];
      }
      trace := tr;
      nuisancestrace := map[];
      var warned: seq<string> := [];
      var bkeys, errs := u.bkeys, u.normsysts;
      if |bkeys| > 0 {
        for b := 0 to |bkeys|
          invariant trace == tr
          invariant BackgroundPass(T, bkeys, errs, freezeNPs, b, Store(map[], [])) == Store(nuisancestrace, warned)
        {
          var name := bkeys[b];
          var key := BackgroundTraceKey(name, errs[b]);
          if key.Some? {
            if key.value in T {
              nuisancestrace := nuisancestrace[name := T[key.value]];
            } else if !CheckNPFrozen(name) {
              warned := warned + [name];
            }
          }
        }
        if u.gammaFlags.Some? {
          var flags := u.gammaFlags.value;
          ghost var s1 := Store(nuisancestrace, warned);
          for bin := 0 to u.nbins
            invariant trace == tr
            invariant GammaPass(T, flags, freezeNPs, bin, s1) == Ok(Store(nuisancestrace, warned))
          {
            var name := GammaName(bin);
            if flags[bin] && !CheckNPFrozen(name) {
              if "flat_" + name !in T {
                GammaPassStop(T, flags, freezeNPs, bin + 1, u.nbins, s1);
                return Err(KeyError("flat_" + name));
              }
              nuisancestrace := nuisancestrace[name := T["flat_" + name]];
            }
          }
        }
      }
      ghost var s2 := Store(nuisancestrace, warned);
      var okeys := u.okeys;
      for k := 0 to |okeys|
        invariant trace == tr
        invariant ObjectPass(T, okeys, flatKey, freezeNPs, systfixsigma, k, s2) == Store(nuisancestrace, warned)
      {
        if systfixsigma == 0.0 {
          var name := okeys[k];
          var key := ObjectTraceKey(name, flatKey);
          if key in T {
            nuisancestrace := nuisancestrace[name := T[key]];
          } else if !CheckNPFrozen(name) {
            warned := warned + [name];
          }
        }
      }
      return Ok(warned);
    }

    /**
     * `run`: validate, select the toy, set `nbins`, unpack, declare the
     * model, then either store the point estimate (MAP mode) or sample and
     * extract the posterior. Only the result attributes change.
     */
    method Run(fluct: (int, seq<real>, Option<seq<real>>) -> seq<real>,
               sample: ModelSpec -> map<string, seq<real>>, findMAP: ModelSpec -> map<string, real>)
      returns (r: Result<seq<string>, Error>)
      requires forall s, v, e :: |fluct(s, v, e)| == |v|
      modifies this`nbins, this`trace, this`nuisancestrace, this`MAP
      ensures Reflects(RunSpec(Settings(), old(State()), fluct, sample, findMAP), r)
    {
      var v := ValidateInput();
      if v.Fail? {
        ValidationComesFirst(Settings(), State(), fluct, sample, findMAP);
        return Err(v.error);
      }
      r := RunValidatedInput(fluct, sample, findMAP);
    }

    /** `run` after `validateinput`: select the toy and set `nbins`. */
    method RunValidatedInput(fluct: (int, seq<real>, Option<seq<real>>) -> seq<real>,
                             sample: ModelSpec -> map<string, seq<real>>, findMAP: ModelSpec -> map<string, real>)
      returns (r: Result<seq<string>, Error>)
      requires forall s, v, e :: |fluct(s, v, e)| == |v|
      requires ValidInput(Settings())
      modifies this`nbins, this`trace, this`nuisancestrace, this`MAP
      ensures Reflects(RunValidated(Settings(), old(State()), fluct, sample, findMAP), r)
    {
      var sel := SelectToy(data, background, backgrounderr, smearBckgs, rndseed, fluct);
      if sel.Err? {
        return Err(sel.error);
      }
      ToyKeepsLengths(data, background, backgrounderr, smearBckgs, rndseed, fluct);
      r := RunToy(sel.value, sample, findMAP);
    }

    /** `self.nbins` from the first background of the toy; an empty dict raises StopIteration. */
    method RunToy(toy: Toy, sample: ModelSpec -> map<string, seq<real>>, findMAP: ModelSpec -> map<string, real>)
      returns (r: Result<seq<string>, Error>)
      requires forall k :: k in toy.background.entries ==> |toy.background.entries[k]| == |data|
      modifies this`nbins, this`trace, this`nuisancestrace, this`MAP
      ensures Reflects(RunOnToy(Settings(), old(State()), toy, sample, findMAP), r)
      ensures |toy.background.keys| == 0 ==> r == Err(StopIteration) && State() == old(State())
    {
      if |toy.background.keys| == 0 {
        return Err(StopIteration);
      }
      nbins := |toy.background.entries[toy.background.keys[0]]|;
      r := UnpackAndInfer(toy, sample, findMAP);
    }

    /** The part of `run` after `nbins` is set: unpack, declare, infer. */
    method UnpackAndInfer(toy: Toy, sample: ModelSpec -> map<string, seq<real>>, findMAP: ModelSpec -> map<string, real>)
      returns (r: Result<seq<string>, Error>)
      requires forall k :: k in toy.background.entries ==> |toy.background.entries[k]| == |data|
      modifies this`trace, this`nuisancestrace, this`MAP
      ensures Reflects(RunUnpacked(Settings(), old(State()), toy, sample, findMAP), r)
    {
      var un := UnpackInputs(toy.background, backgroundsyst, backgrounderr, objsyst,
                             includeGammas, |data|);
      if un.Err? {
        return Err(un.error);
      }
      r := DeclareAndInfer(toy, un.value, sample, findMAP);
    }

    /** Declare the model for the unpacked arrays, then infer. */
    method DeclareAndInfer(toy: Toy, u: Unpacked, sample: ModelSpec -> map<string, seq<real>>,
                           findMAP: ModelSpec -> map<string, real>) returns (r: Result<seq<string>, Error>)
      requires Shaped(u, |data|) && u.nbins == |data|
      modifies this`trace, this`nuisancestrace, this`MAP
      ensures Reflects(Infer(Settings(), old(State()), BuildModel(Settings(), toy, u), sample, findMAP), r)
    {
      var m := DeclareModel(toy, u);
      r := InferPosterior(m, sample, findMAP);
    }

    /** MAP mode stores the point estimate and empties the traces; otherwise sample and extract. */
    method InferPosterior(m: ModelSpec, sample: ModelSpec -> map<string, seq<real>>,
                          findMAP: ModelSpec -> map<string, real>) returns (r: Result<seq<string>, Error>)
      requires Shaped(m.unpacked, m.R) && m.unpacked.nbins == m.R
      modifies this`trace, this`nuisancestrace, this`MAP
      ensures Reflects(Infer(Settings(), old(State()), m, sample, findMAP), r)
    {
      if mode {
        MAP := Some(findMAP(m));
        trace := [];
        nuisancestrace := map[];
        return Ok([]);
      }
      r := ExtractPosterior(sample(m), |response|, m.unpacked);
    }
  }
}
