# pyFBU model assembly in Dafny

pyFBU does Fully Bayesian Unfolding. A `PyFBU` object holds the observed
data, a response matrix, background templates with their normalisation and MC
statistical errors, and object (shape) systematics. Its `run` method takes
these steps:

- validates the input;
- optionally replaces the data or some backgrounds by a random fluctuation (a toy);
- unpacks the dictionaries into arrays;
- declares the truth spectrum and the nuisance parameters as random variables;
- builds the expected reco counts `unfold()` as the Poisson mean of the data;
- either stores a point estimate (MAP mode) or samples the posterior and copies the
  per-variable sample vectors into `trace` and `nuisancestrace`.

This project models that assembly logic of `fbu/PyFBU.py` and proves its
properties. The inference engine is not part of the model.

Modules, one per piece of the source:

- `Wrappers`, `Errors`, `Dicts`: `Option`/`Result`, the exceptions `run` can raise,
  and insertion-ordered string-keyed dictionaries (Python dicts whose iteration
  order matters).
- `Vectors`: the numpy/theano vector algebra used (dot, vector-matrix product,
  element-wise products, row sums).
- `Toys`: the toy selection at the start of `run`.
- `Unpack`: the unpacking of the dictionaries and the gamma effective count `tau`.
  The `objsyst` dictionary is an `ObjSyst` value: its `'signal'` and `'background'`
  entries, each possibly missing.
- `Nuisances`: the declaration rules for background normalisations, object
  systematics, gammas and their Poisson constraints. The loops that build them are methods.
- `Unfold`: `unfold()` as a pure function of the truth spectrum and the nuisance values.
- `Extraction`: the posterior extraction from the engine's trace into `trace`,
  `nuisancestrace` and the list of names warned about.
- `FBU`: the `PyFBU` class with the source's attributes. Its methods `ValidateInput`,
  `DeclareModel`, `ExtractPosterior` and `Run` loop and assign fields as the source
  does. Beside the class, the functions `RunSpec` / `RunValidated` / `RunOnToy` /
  `RunUnpacked` / `Infer` state what a run computes.

The random generator and the inference engine are parameters of `Run`:

- `fluct(seed, vec, err?)` is `fluctuate`. It reseeds on every call, so it is a
  function of its arguments. None asks for a Poisson draw, Some(err) for a Gaussian one.
- `sample(model)` is `mc.sample`: a map from variable names to sample vectors.
- `findMAP(model)` is `mc.find_MAP`.

`model` is a `ModelSpec` value. It holds the declared variables, the unpacked
arrays and the observed toy data. The Poisson mean those variables feed is
`FBU.Mean`.

Two behaviours are modelled as the code has them:

- A background whose normalisation error is exactly 0 is declared as a normal
  variable with lower bound `-inf` (fbu/PyFBU.py:175). Extraction skips it silently,
  since neither `err < 0` nor `err > 0` holds (fbu/PyFBU.py:287-292). That is
  modelled as written.
- Two situations crash the source with an exception:
  - gammas requested with no background listed in `backgroundsyst` (an undefined
    name at fbu/PyFBU.py:123);
  - an empty `background` dictionary (fbu/PyFBU.py:107).
  Both are modelled as those errors (`NameError`, `StopIteration`), not excluded
  by preconditions.

## Model

| member | source | states |
|---|---|---|
| FBU.PyFBU.ValidateInput | fbu/PyFBU.py:58-70 | passes exactly when every background vector and every response row has the data's length, `lower` and `upper` have one entry per response row, and gammas come with a non-empty `backgrounderr`; otherwise fails with the message of the first failing assertion |
| FBU.ValidationComesFirst | fbu/PyFBU.py:58-70 | an invalid input makes `run` raise the validation error before anything else and leaves every result attribute unchanged; the size message is chosen exactly when a size check fails |
| FBU.PyFBU.constructor | fbu/PyFBU.py:15-55 | the given inputs are stored, with the source's defaults for omitted arguments: empty `data`, `response`, `lower`, `upper`, `background` and `backgroundsyst`, `objsyst` with empty `'signal'` and `'background'`, `rndseed` -1, sampling mode. The other attributes get the values `__init__` assigns: empty `backgrounderr` and `freeze_NPs`, no gammas, gamma bounds [0, 2], `systfixsigma` 0, no backgrounds to smear, flat marker `__flat__` on [-5, 5], `nbins` 0. `__init__` never assigns `trace`, `nuisancestrace` or `MAP`; the model starts them empty |
| Nuisances.FreezeLookup | fbu/PyFBU.py:72-77 | the frozen value of a name exists exactly when the name is a key of `freeze_NPs` (`check_NPfrozen`), and is that key's value |
| FBU.PyFBU.CheckNPFrozen | fbu/PyFBU.py:72-77 | `check_NPfrozen(name)` is true exactly when the `freeze_NPs` lookup of the name succeeds |
| Toys.Smear | fbu/PyFBU.py:92-95 | smearing raises KeyError for a name missing from `background` or `backgrounderr`, and ShapeError when numpy cannot broadcast the template against its MC error. It assigns only to existing entries, so a successful smearing keeps the set of background keys |
| Toys.SmearTemplates | fbu/PyFBU.py:92-100 | the smearing loop computes `Smear` over the whole list, stopping at the first name that fails |
| Toys.SelectToy | fbu/PyFBU.py:88-102 | the toy selection computes `ToySelection`: the listed backgrounds of a copy are smeared in order, or the data is fluctuated, or nothing changes |
| Toys.ToySelection | fbu/PyFBU.py:88-102 | the toy keeps the set of background keys; with backgrounds listed, or with a negative seed, the data is unchanged |
| Toys.SmearStopsAtError | fbu/PyFBU.py:92-100 | once smearing a prefix of the list fails, every longer prefix fails with the same error |
| Toys.SmearSucceedsIff | fbu/PyFBU.py:92-100 | when draws keep the shape of their input, smearing succeeds exactly when every listed name is a key of both `background` and `backgrounderr` and its MC error has the template's length or length 1 (`Smearable`) |
| Toys.SmearReportsFirstFailure | fbu/PyFBU.py:92-100 | a failed smearing fails at the first listed name that is not `Smearable`: KeyError for that name when it is missing from either dictionary, ShapeError otherwise |
| Toys.SmearKeepsUnlistedKey | fbu/PyFBU.py:92-95 | one background not among the smeared names keeps its template |
| Toys.SmearKeepsUnlisted | fbu/PyFBU.py:92-95 | a background not listed in `smear_bckgs` keeps its template |
| Toys.SmearReplacesListed | fbu/PyFBU.py:92-95 | with no name listed twice, each listed background becomes the Gaussian draw from its original template and MC error |
| Toys.ToySelectionModes | fbu/PyFBU.py:88-102 | the data changes only with no listed backgrounds and seed >= 0, and then it is the Poisson draw; a negative seed changes nothing; the backgrounds keep their keys and unlisted ones their values; an error occurs exactly when backgrounds are listed, seed >= 0 and some listed name is not `Smearable` |
| Toys.SmearKeepsLengths | fbu/PyFBU.py:79-84 | when draws keep the shape of their input, every smeared background keeps its length |
| Toys.SmearKeepsEachLength | fbu/PyFBU.py:92-95 | when draws keep the shape of their input, every background keeps its length through a successful smearing |
| Toys.ToyKeepsLengths | fbu/PyFBU.py:88-102 | when draws keep their shape, the toy data has the data's length and every toy background does too |
| Unpack.LookupAll | fbu/PyFBU.py:112-117 | the list comprehension over keys succeeds exactly when every key is present, gives the values in key order, and otherwise raises KeyError for the first missing key |
| Unpack.LookupEffects | fbu/PyFBU.py:134-135 | one background's shape effects, systematic by systematic; a missing systematic or background raises KeyError |
| Unpack.LookupAllEffects | fbu/PyFBU.py:133-136 | `backgroundobjsysts` is background-major: entry b is background b's effects, and any lookup failure is a KeyError |
| Unpack.GammaErrors | fbu/PyFBU.py:113-126 | MC errors are read only with gammas. They are read exactly when there is at least one background, every background has an error vector of the right length, and there is one gamma flag per bin. Otherwise the error is: NameError for `backgrounds_err_sq` with no background (:123); KeyError for a background without MC errors; ShapeError for an error vector of the wrong length; GammaSizeError from the `include_gammas` size assertion (:124) |
| Unpack.ObjectEffects | fbu/PyFBU.py:129-136 | the background shape effects are built only with both systematics and backgrounds; they exist exactly when every (systematic, background) pair has an effect of one entry per bin, and equal those effects |
| Unpack.UnpackBackgrounds | fbu/PyFBU.py:105-126 | the background arrays exist exactly when every `backgroundsyst` key has a template and the gamma errors can be read; templates and norm errors are then looked up by those keys in order, and with gammas tau comes from the templates and the MC errors |
| Unpack.UnpackObjects | fbu/PyFBU.py:128-136 | a missing `'signal'` entry raises KeyError('signal'); with systematics and backgrounds, a missing `'background'` entry raises KeyError('background'). Otherwise the object-systematic arrays exist exactly when the background shape effects can be read and every signal effect has one entry per bin; the signal effects are then looked up by the systematic keys in order |
| Unpack.UnpackInputs | fbu/PyFBU.py:104-137 | after a successful unpacking the background keys are `backgroundsyst`'s keys in order, and the systematic keys are those of `objsyst['signal']`. Templates, norm errors and signal effects are looked up by those keys, and `backgroundobjsysts[b][k]` is `objsyst['background'][syst_k][bckg_b]`. `nbins` is the bin count. With gammas on, every background has an MC error vector of that length and tau is computed from the templates and those errors. The arrays have the shapes `unfold` needs. An empty `background` dict raises StopIteration (:107) |
| Unpack.UnpackSucceedsIff | fbu/PyFBU.py:104-137 | unpacking succeeds exactly when all of these hold: the background dict is non-empty; every `backgroundsyst` key has a template; the gamma errors can be read; `objsyst` has a `'signal'` entry, and a `'background'` entry whenever both systematics and backgrounds are present; the shape effects can be read; and every signal effect has one entry per bin |
| Unpack.Tau | fbu/PyFBU.py:120-123 | one tau value per bin |
| Unpack.TauPerBin | fbu/PyFBU.py:120-123 | in each bin, tau is formed from the summed background and a summed squared MC error that is never negative |
| Unpack.SumOfSquaresNonNegative | fbu/PyFBU.py:115-116 | the summed squared MC error of a bin is never negative |
| Unpack.TauAtIsEffectiveCount | fbu/PyFBU.py:201 | tau is non-negative and satisfies tau * errSq == total^2, so 1/tau is the total's relative variance; it is undefined exactly when the summed squared error is 0 |
| Unpack.TauExample | fbu/PyFBU.py:201 | total [100, 400] with MC errors [10, 40] gives tau [100, 100] |
| Nuisances.NatToString | fbu/PyFBU.py:203 | `'{0}'.format(n)` is non-empty, and one character long exactly for n < 10 |
| Nuisances.NatToStringInjective | fbu/PyFBU.py:203 | distinct bin numbers print differently |
| Nuisances.GammaNameInjective | fbu/PyFBU.py:203 | distinct bins have distinct gamma names |
| Nuisances.BackgroundDecl | fbu/PyFBU.py:157-178 | a background's normalisation variable is `norm_<name>` for err < 0 and `gaus_<name>` otherwise, pinned exactly when the name is frozen, at its frozen value. Its prior is Uniform(0, 3) for err < 0, an unbounded standard normal for a frozen err >= 0 name, and for a free err >= 0 name a normal bounded below at -1/err (err > 0) or at -inf (err == 0) |
| Nuisances.ObjectDecl | fbu/PyFBU.py:181-196 | an object systematic's variable is `flat_<name>` with a Uniform prior on the flat bounds when the name contains the flat marker, and `gaus_<name>` with a standard normal otherwise; it is pinned exactly when the name is frozen |
| Nuisances.DeclareBackgroundNuisances | fbu/PyFBU.py:155-179 | the loop declares one normalisation per background, in key order, by the background rule |
| Nuisances.DeclareObjectNuisances | fbu/PyFBU.py:181-196 | the loop declares one variable per object systematic, in key order, by the flat-marker rule |
| Nuisances.DeclareGammas | fbu/PyFBU.py:198-219 | the loop gives one gamma entry per bin, and the Poisson constraints of the flagged bins in bin order |
| Nuisances.FrozenValueIgnoresDraw | fbu/PyFBU.py:159-172 | a pinned variable takes its frozen value whatever the engine draws |
| Nuisances.Values | fbu/PyFBU.py:179 | the stacked values of the declared variables, one per declaration |
| Nuisances.GammaValues | fbu/PyFBU.py:219 | the stacked gamma values, one per bin |
| Nuisances.GammaValueAt | fbu/PyFBU.py:202-219 | an unflagged bin contributes exactly 1; a flagged frozen bin its frozen value; a flagged free bin the draw of `flat_gamma_i` |
| Nuisances.PoissonsAreFlaggedBins | fbu/PyFBU.py:202-216 | there is a Poisson constraint for a bin exactly when it is flagged, named `poisson_gamma_i` with that bin's tau |
| Nuisances.PoissonsOrdered | fbu/PyFBU.py:202-216 | the constraints are in strictly increasing bin order |
| Nuisances.FlatMarkerExample | fbu/PyFBU.py:188-192 | `jes__flat__` contains the marker `__flat__` and is declared `flat_jes__flat__` on [-5, 5]; `jes` does not contain it |
| FBU.BuildModelDeclares | fbu/PyFBU.py:155-196 | a built model observes the toy data and has one normalisation per background and one variable per object systematic, in key order. Entry b is `BackgroundDecl` of background b's name, err and the frozen values, and entry k is `ObjectDecl` of systematic k (the `flat_`/`gaus_` names and Uniform/normal priors). Each is pinned exactly when its name is frozen |
| FBU.BuildModelGammas | fbu/PyFBU.py:198-219 | gammas exist exactly when requested. A flagged bin gets a Uniform `flat_gamma_i` on the gamma bounds, pinned when frozen; an unflagged bin gets the constant 1. The Poisson constraints are exactly those of the flagged bins |
| FBU.BuildModel | fbu/PyFBU.py:139-254 | the declared model has one reco bin per data bin, one truth bin per response row, and feeds `unfold()` the given unpacking; its declarations are stated by `BuildModelDeclares` and `BuildModelGammas` |
| FBU.PyFBU.DeclareModel | fbu/PyFBU.py:155-219 | the declaration loops build the model `BuildModel` describes |
| Vectors.Column | fbu/PyFBU.py:244 | column r of a matrix, one entry per row |
| Vectors.VecMat | fbu/PyFBU.py:244 | `theano.dot(vector, matrix)` has one entry per column, each a dot product with that column |
| Vectors.VecMatIsRowCombination | fbu/PyFBU.py:244 | `dot(truth, resmat)` is the sum of the response rows, each scaled by its truth bin |
| Vectors.SumRowsIsOnesProduct | fbu/PyFBU.py:238 | the dot product of a vector of ones with the backgrounds is their bin-wise sum |
| Unfold.NormFactors | fbu/PyFBU.py:229-238 | one normalisation multiplier per background |
| Unfold.NormFactorAsWritten | fbu/PyFBU.py:229-238 | the closed-form multiplier equals the source's `1 + nuis * shift`; for err < 0 and nuis != 0 it is nuis itself, so the Uniform[0, 3] variable is a scale factor |
| Unfold.GaussianBoundKeepsFactorNonNegative | fbu/PyFBU.py:175-178 | for err > 0 a free background gets the bound -1/err, and nuis >= -1/err exactly when the multiplier 1 + nuis * err is non-negative |
| Unfold.ZeroErrorBackgroundIsUnbounded | fbu/PyFBU.py:175-178 | a free background with err == 0 is a normal with lower bound -inf, and its multiplier is 1 whatever value it takes |
| Unfold.ExpectedCounts | fbu/PyFBU.py:226-251 | the expected counts have one entry per reco bin |
| Unfold.SignalOnlyIsFolding | fbu/PyFBU.py:243-251 | with no backgrounds and no object systematics the expected counts are the folding truth . response, bin by bin |
| Unfold.IdentityFoldingExample | fbu/PyFBU.py:243-251 | an identity response folds truth [50, 80] into [50, 80] |
| Unfold.NominalExpectation | fbu/PyFBU.py:226-251 | with every nuisance at 0, every gamma at 1 and no floating normalisation, the expected counts are the summed nominal backgrounds plus the folded truth |
| Unfold.NominalExample | fbu/PyFBU.py:226-251 | background [20, 20] with err 0.3 plus truth [30, 30] through the identity gives [50, 50] |
| Unfold.FrozenNormEntersAtFrozenValue | fbu/PyFBU.py:159-160 | a frozen background normalisation enters the transform at its frozen value whatever the draw |
| FBU.Mean | fbu/PyFBU.py:253-254 | the Poisson mean of `unfolded` is defined exactly when no floating normalisation is drawn at 0. It then has one entry per reco bin and is `unfold()` evaluated at the drawn truth values and at the values of the declared variables (frozen ones at their frozen values) |
| FBU.MeanIgnoresPinnedDraws | fbu/PyFBU.py:159-161 | two draws that agree on the truth variables and on every free (unfrozen) declared variable give the same Poisson mean: frozen variables enter only through their frozen values |
| Extraction.TruthTracesIff | fbu/PyFBU.py:281 | the truth traces exist exactly when every `truth<i>` key is in the trace, and are those samples in bin order; otherwise the first missing key is the KeyError |
| Extraction.TruthTraces | fbu/PyFBU.py:281 | the truth list has one entry per truth bin, and can only fail with a KeyError |
| Extraction.TruthTracesSucceedsIff | fbu/PyFBU.py:281 | the truth traces exist exactly when every key `truth0` .. `truth<n-1>` is in the trace |
| Extraction.TruthTracesValues | fbu/PyFBU.py:281 | existing truth traces are the samples of the truth keys, one per bin, in bin order |
| Extraction.TruthTracesFirstMissing | fbu/PyFBU.py:281 | a failed truth list raises KeyError for the first missing truth key |
| Extraction.TruthTracesStop | fbu/PyFBU.py:281 | once a truth key is missing, the list comprehension fails with that KeyError whatever the remaining bins |
| Extraction.BackgroundPassKeepsOthers | fbu/PyFBU.py:284-295 | the background loop leaves every name it does not visit unchanged |
| Extraction.BackgroundPass | fbu/PyFBU.py:284-295 | the background loop only adds entries to `nuisancestrace` and only appends to the warnings |
| Extraction.BackgroundPassTracesAt | fbu/PyFBU.py:284-292 | with distinct background names, one background whose `norm_`/`gaus_` key is in the trace is stored under its plain name, and otherwise keeps what it had |
| Extraction.BackgroundPassTraces | fbu/PyFBU.py:284-292 | with distinct background names, each background whose `norm_`/`gaus_` key is in the trace is stored under its plain name, and every other one keeps what it had |
| Extraction.BackgroundPassWarnedAt | fbu/PyFBU.py:284-295 | one name is warned about exactly when it was already, or it is a listed background with err != 0 whose key is absent and which is not frozen |
| Extraction.BackgroundPassWarnings | fbu/PyFBU.py:284-295 | a background is warned about exactly when its key is absent and it is not frozen |
| Extraction.ZeroErrorBackgroundIsSilent | fbu/PyFBU.py:287-292 | a background with err == 0 gives neither a trace entry nor a warning |
| Extraction.GammaPassSucceedsIff | fbu/PyFBU.py:296-301 | the gamma loop succeeds exactly when every flagged, non-frozen bin has its `flat_gamma_i` trace |
| Extraction.GammaPass | fbu/PyFBU.py:296-301 | a successful gamma loop only adds entries; a failed one fails with a KeyError |
| Extraction.GammaPassKeepsWarnings | fbu/PyFBU.py:296-301 | the gamma loop adds no warnings |
| Extraction.GammaPassStoresAt | fbu/PyFBU.py:296-301 | after a successful gamma loop, a flagged, non-frozen bin's `flat_gamma_i` trace is stored under `gamma_i` |
| Extraction.GammaPassKeepsOther | fbu/PyFBU.py:296-301 | after a successful gamma loop, a name that is no stored bin's `gamma_i` keeps what it had |
| Extraction.GammaPassSpec | fbu/PyFBU.py:296-301 | the gamma loop succeeds exactly when every flagged, non-frozen bin has its `flat_gamma_i` trace; it stores it under `gamma_i` and changes nothing else |
| Extraction.GammaPassErrors | fbu/PyFBU.py:296-301 | the gamma loop can only fail with the KeyError of a flagged, non-frozen bin's missing `flat_gamma_i` key |
| Extraction.GammaPassStop | fbu/PyFBU.py:296-301 | once the gamma loop fails, it fails with the same error over any longer range of bins |
| Extraction.ObjectPassInert | fbu/PyFBU.py:302-303 | with `systfixsigma` != 0 the object-systematics loop stores and warns nothing |
| Extraction.ObjectPass | fbu/PyFBU.py:302-311 | the object-systematics loop only adds entries to `nuisancestrace` and only appends to the warnings |
| Extraction.ObjectPassKeepsOthers | fbu/PyFBU.py:302-311 | the object-systematics loop leaves every name it does not visit unchanged |
| Extraction.ObjectPassTracesAt | fbu/PyFBU.py:302-308 | with distinct names and `systfixsigma` == 0, one object systematic whose `flat_`/`gaus_` key is present is stored under its plain name, and otherwise keeps what it had |
| Extraction.ObjectPassTraces | fbu/PyFBU.py:302-308 | with distinct names and `systfixsigma` == 0, each object systematic whose `flat_`/`gaus_` key is present is stored under its plain name, and every other one keeps what it had |
| Extraction.ObjectPassWarnedAt | fbu/PyFBU.py:302-311 | with `systfixsigma` == 0, one name is warned about exactly when it was already, or it is a listed systematic whose key is absent and which is not frozen |
| Extraction.ObjectPassWarnings | fbu/PyFBU.py:302-311 | with `systfixsigma` == 0, an object systematic is warned about exactly when its key is absent and it is not frozen |
| Extraction.NamesAgree | fbu/PyFBU.py:164-209 | extraction reads trace keys named as the declarations named them |
| Extraction.ExtractSucceedsIff | fbu/PyFBU.py:281-311 | extraction succeeds exactly when every truth key and every flagged, non-frozen gamma key is present; the truth traces are then the `truth<i>` samples |
| Extraction.ExtractWarnings | fbu/PyFBU.py:281-311 | the names warned about are exactly the unfrozen backgrounds and (with `systfixsigma` == 0) the unfrozen object systematics whose trace key is absent |
| Extraction.Extract | fbu/PyFBU.py:281-311 | a successful extraction has one truth trace per truth bin; a failed one fails with a KeyError |
| Extraction.BackgroundPassFromEmpty | fbu/PyFBU.py:284-292 | from an empty `nuisancestrace`, with distinct background names, a name gets an entry exactly when it is a background with err != 0 whose key is in the trace, and that entry holds the key's samples |
| Extraction.ExtractNuisanceAt | fbu/PyFBU.py:281-311 | for one name: the final `nuisancestrace` entry, as `ExtractNuisances` states it |
| Extraction.ExtractNuisances | fbu/PyFBU.py:281-311 | for distinct background and systematic names, a name has a final `nuisancestrace` entry exactly when the background, gamma or object loop stores it. The entry holds the samples of the last loop that stores it: an object systematic's `flat_`/`gaus_` key, else the `flat_gamma_i` key, else the background's `norm_`/`gaus_` key |
| FBU.PyFBU.ExtractPosterior | fbu/PyFBU.py:281-311 | the extraction loops return the warnings and set `trace` and `nuisancestrace` to what `Extract` describes, or raise its error; a missing truth key leaves both attributes unchanged |
| FBU.RunStages | fbu/PyFBU.py:86-254 | a run either stops with an error before inference, with `trace`, `nuisancestrace` and `MAP` unchanged, or reaches inference. It reaches inference only on a valid input, and then on `BuildModel` of the selected toy and of that toy's unpacking, with the toy backgrounds of the data's length, `nbins` equal to the data length and distinct background and systematic names |
| FBU.RunSetsNbins | fbu/PyFBU.py:107 | after a successful run `nbins` is the number of data bins |
| FBU.RunModes | fbu/PyFBU.py:263-269 | only MAP mode changes `MAP`; a successful MAP run stores a point estimate, empties both traces and warns about nothing |
| FBU.RunTraces | fbu/PyFBU.py:281 | a successful sampling run builds `BuildModel` of the selected toy and its unpacking, and stores one trace per truth bin: the engine's `truth<i>` samples for that model |
| FBU.InferTraces | fbu/PyFBU.py:281-311 | a successful sampling step stores the `truth<i>` samples and warns exactly about unfrozen backgrounds and object systematics whose trace key is absent |
| FBU.PartialRunKeepsTruths | fbu/PyFBU.py:296-301 | a sampling step stopped by a missing gamma trace has already stored the truth traces, and raises the KeyError of some bin's `flat_gamma_i` |
| FBU.PyFBU.Run | fbu/PyFBU.py:86-311 | `run` returns, raises and sets `nbins`, `trace` and `MAP` as `RunSpec` describes (and `nuisancestrace`, except after a missing gamma trace); no input attribute changes |
| FBU.PyFBU.RunValidatedInput | fbu/PyFBU.py:88-102 | after validation, the toy selection and then the rest of the run, as `RunValidated` describes |
| FBU.PyFBU.RunToy | fbu/PyFBU.py:104-107 | the run on a toy goes as `RunOnToy` describes: `nbins` is the length of the first toy background, and an empty background dict raises StopIteration with every result attribute unchanged |
| FBU.PyFBU.UnpackAndInfer | fbu/PyFBU.py:104-137 | the unpacking, then the declarations and inference, as `RunUnpacked` describes; an unpacking error leaves the traces and `MAP` unchanged |
| FBU.PyFBU.DeclareAndInfer | fbu/PyFBU.py:139-311 | the declarations for the unpacked arrays build `BuildModel`'s model, on which the inference step runs as `Infer` describes |
| FBU.PyFBU.InferPosterior | fbu/PyFBU.py:263-311 | MAP mode stores the point estimate and empties the traces; otherwise the posterior is sampled and extracted |
| FBU.RunSpec | fbu/PyFBU.py:86-311 | a run leaves a partial `nuisancestrace` only in sampling mode, after valid input, and with an error |
| FBU.RunValidated | fbu/PyFBU.py:88-311 | from a valid input on, a partial `nuisancestrace` comes only with an error in sampling mode |
| FBU.RunOnToy | fbu/PyFBU.py:104-311 | an empty background dict stops the run with StopIteration and the state unchanged (:107); a successful run on a toy sets `nbins` to the number of data bins; a partial `nuisancestrace` comes only with an error in sampling mode |
| FBU.RunUnpacked | fbu/PyFBU.py:108-311 | after `nbins` is set, unpacking and inference leave it alone; a partial `nuisancestrace` comes only with an error in sampling mode |
| FBU.Infer | fbu/PyFBU.py:263-311 | inference leaves `nbins` alone; a partial `nuisancestrace` comes only with an error in sampling mode |

Some functions model one sub-expression of fbu/PyFBU.py and have no row of their
own; the rows of the members that use them cover them. They are `Contains` (`key in
name`), `Record` (one `nuisancestrace[name] = trace[key]` with its KeyError
handling) and the pieces of `unfold()`: `BackgroundShape`, `SmearedBackgrounds`,
`Signal` and `Background`.

## Left out

- The inference engine. This covers `mc.Model`, the truth prior `wrapper` from
  `.priors`, `mc.Bound`, `mc.math.stack`, the `mc.Poisson` likelihood, `mc.sample`
  and `mc.find_MAP`. They are foreign library calls. The model keeps the
  declarations and the expected counts they consume, and `sample`/`findMAP` are
  parameters of `Run`.
- The MCMC settings `nTune`, `nMCMC`, `nCores`, `nChains`, `nuts_kwargs`,
  `discard_tuned_samples`, `sampling_progressbar` and `MAP_method`. They only
  configure the engine.
- The random draws and global seeding of `fluctuate`. The draw is the parameter
  `fluct`, and `Run` assumes only that it keeps the length of its input.
- `prior`, `priorparams` and `regularization.getpotential`. The prior and
  regularization modules are not part of this model.
- Timing, printing (the frozen-NP listing, the smearing and missing-trace
  messages, the elapsed-time line) and `monitoring.plot`: these are I/O. The
  missing-trace warnings are returned as a list of names instead of printed.
- `verbose`, `name` and `monitoring`: they affect only output.
- Floating point. Values are `real`. Where the summed squared MC error of a bin
  is 0, numpy gives a non-finite tau; the model has None there. A floating
  normalisation drawn at exactly 0 divides by zero; `Mean` is None there and the
  transform requires a nonzero value.
- `Unfold.NormFactor`: it is stated in closed form, `nuis` for err < 0.
  `Unfold.NormFactorAsWritten` proves it equal to the source's `1 + nuis * (nuis - 1)/nuis`.
- Numpy shapes. Ragged arrays, or effect and MC-error vectors of the wrong length,
  are one `ShapeError`. Numpy would broadcast some of these or fail at a
  different line.
- Smear: a one-bin template with a longer MC error vector is a ShapeError in the
  model. Numpy would broadcast it and give a smeared template of the error's length.
- `objsyst` entries other than `'signal'` and `'background'`: the source never reads them.
- The type of `nuisancestrace` in MAP mode: the source sets it to an empty list, the model to an empty map.
- `MAP`, `trace` and `nuisancestrace` before they are first assigned: `__init__` never sets them, so reading them raises AttributeError. The model starts them as None, an empty list and an empty map.
- FBU.PyFBU.constructor: the arguments `regularization`, `verbose`, `name` and `monitoring` are not constructor parameters, since the attributes they set are left out (see above).
- FBU.PyFBU.Run: after a KeyError for a missing gamma trace, `nuisancestrace` holds the entries
  stored before the failure. The contract says only that the run reports this
  case (`nuisancesPartial`) and what `trace` and the error are. It does not
  give the partial map.
- Python's `-O` option, which removes `assert` statements: the model always validates.
- python/runpyFBU.py: a command-line driver that sets attributes `PyFBU` does not
  read, so it has no logic to model.
- Aliasing: the inputs are values, so the deep copies of fbu/PyFBU.py:88-89 are
  implicit. `Run`'s `modifies` clause shows `data` and `background` are never
  written.
