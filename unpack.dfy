/**
 * Unpacking of the input dictionaries into arrays (fbu/PyFBU.py, the part
 * of `run` between the toy selection and the model declaration), and the
 * effective MC count `tau` of the gamma constraints.
 */
module Unpack {
  import opened Wrappers
  import opened Errors
  import opened Dicts
  import opened Vectors

  /** The arrays `run` builds from its dictionaries. */
  datatype Unpacked = Unpacked(
    nbins: nat,                       // self.nbins
    bkeys: seq<string>,               // backgroundkeys, from backgroundsyst
    backgrounds: seq<seq<real>>,      // [bckg][bin]
    normsysts: seq<real>,             // backgroundnormsysts, [bckg]
    gammaFlags: Option<seq<bool>>,    // include_gammas
    tau: seq<Option<real>>,           // [bin], when gammas are requested
    okeys: seq<string>,               // objsystkeys
    signalobj: seq<seq<real>>,        // signalobjsysts, [syst][bin]
    bkgobj: seq<seq<seq<real>>>)      // backgroundobjsysts, [bckg][syst][bin]

  /** The shapes the expected-counts transform relies on, for R reco bins. */
  predicate Shaped(u: Unpacked, R: nat) {
    IsMatrix(u.backgrounds, |u.bkeys|, R) &&
    |u.normsysts| == |u.bkeys| &&
    IsMatrix(u.signalobj, |u.okeys|, R) &&
    |u.bkgobj| == |u.bkeys| &&
    (forall b :: 0 <= b < |u.bkgobj| ==> IsMatrix(u.bkgobj[b], |u.okeys|, R)) &&
    (u.gammaFlags.Some? ==> |u.gammaFlags.value| == R && |u.tau| == R && |u.bkeys| > 0)
  }

  /** `[m[key] for key in keys]`, raising KeyError at the first missing key. */
  function LookupAll<V>(m: map<string, V>, keys: seq<string>): (r: Result<seq<V>, Error>)
    ensures r.Ok? <==> forall i :: 0 <= i < |keys| ==> keys[i] in m
    ensures r.Ok? ==> |r.value| == |keys| && forall i :: 0 <= i < |keys| ==> r.value[i] == m[keys[i]]
    ensures r.Err? ==> exists j :: 0 <= j < |keys| && keys[j] !in m && r.error == KeyError(keys[j]) &&
                                  forall i :: 0 <= i < j ==> keys[i] in m
  {
    if |keys| == 0 then Ok([])
    else if keys[0] !in m then Err(KeyError(keys[0]))
    else
      match LookupAll(m, keys[1..])
      case Err(e) => Err(e)
      case Ok(vs) => Ok([m[keys[0]]] + vs)
  }

  /** `[objsyst['background'][syst][bckg] for syst in okeys]` for one background. */
  function LookupEffects(objBackground: map<string, map<string, seq<real>>>, okeys: seq<string>, bckg: string)
    : (r: Result<seq<seq<real>>, Error>)
    ensures r.Ok? <==> forall k :: 0 <= k < |okeys| ==> okeys[k] in objBackground && bckg in objBackground[okeys[k]]
    ensures r.Ok? ==> |r.value| == |okeys|
    ensures r.Ok? ==> forall k :: 0 <= k < |okeys| ==>
              okeys[k] in objBackground && bckg in objBackground[okeys[k]] &&
              r.value[k] == objBackground[okeys[k]][bckg]
    ensures r.Err? ==> r.error.KeyError?
  {
    if |okeys| == 0 then Ok([])
    else if okeys[0] !in objBackground then Err(KeyError(okeys[0]))
    else if bckg !in objBackground[okeys[0]] then Err(KeyError(bckg))
    else
      match LookupEffects(objBackground, okeys[1..], bckg)
      case Err(e) => Err(e)
      case Ok(vs) => Ok([objBackground[okeys[0]][bckg]] + vs)
  }

  /** `backgroundobjsysts`: background-major, systematic-minor lookups. */
  function LookupAllEffects(objBackground: map<string, map<string, seq<real>>>, okeys: seq<string>, bkeys: seq<string>)
    : (r: Result<seq<seq<seq<real>>>, Error>)
    ensures r.Ok? <==> forall b :: 0 <= b < |bkeys| ==> LookupEffects(objBackground, okeys, bkeys[b]).Ok?
    ensures r.Ok? ==> |r.value| == |bkeys|
    ensures r.Ok? ==> forall b :: 0 <= b < |bkeys| ==> r.value[b] == LookupEffects(objBackground, okeys, bkeys[b]).value
    ensures r.Err? ==> r.error.KeyError?
  {
    if |bkeys| == 0 then Ok([])
    else
      match LookupEffects(objBackground, okeys, bkeys[0])
      case Err(e) => Err(e)
      case Ok(row) =>
        match LookupAllEffects(objBackground, okeys, bkeys[1..])
        case Err(e) => Err(e)
        case Ok(rows) =>
          assert forall b :: 1 <= b < |bkeys| ==> bkeys[b] == bkeys[1..][b - 1];
          Ok([row] + rows)
  }

  /**
   * Effective MC count of each bin's total background:
   * tau = (sum of backgrounds)^2 / (sum of squared MC errors). Where the
   * summed squared error is 0, numpy yields a non-finite value (None).
   */
  function Tau(backgrounds: seq<seq<real>>, errs: seq<seq<real>>, R: nat): (tau: seq<Option<real>>)
    requires IsMatrix(backgrounds, |backgrounds|, R) && IsMatrix(errs, |errs|, R)
    ensures |tau| == R
  {
    var total := SumRows(backgrounds, R);
    var errSq := SumRows(Squares(errs), R);
    seq(R, i requires 0 <= i < R => TauAt(total[i], errSq[i]))
  }

  /** `(total / sqrt(errSq))**2` for one bin, written without the square root. */
  function TauAt(total: real, errSq: real): Option<real> {
    if errSq == 0.0 then None else Some(total * total / errSq)
  }

  /** A sum of squares is never negative. */
  lemma {:induction false} SumOfSquaresNonNegative(errs: seq<seq<real>>, R: nat, i: nat)
    requires IsMatrix(errs, |errs|, R) && i < R
    ensures SumRows(Squares(errs), R)[i] >= 0.0
  {
    if |errs| > 0 {
      assert Squares(errs)[1..] == Squares(errs[1..]);
      SumOfSquaresNonNegative(errs[1..], R, i);
      assert Squares(errs)[0][i] == errs[0][i] * errs[0][i];
    }
  }

  /**
   * tau is the count whose Poisson relative variance 1/tau equals the
   * relative variance of the total background: tau >= 0 and
   * tau * (summed squared error) == total^2; it is undefined exactly when
   * the summed squared error is 0.
   */
  lemma TauAtIsEffectiveCount(total: real, errSq: real)
    requires errSq >= 0.0
    ensures TauAt(total, errSq).None? <==> errSq == 0.0
    ensures TauAt(total, errSq).Some? ==>
              TauAt(total, errSq).value >= 0.0 && TauAt(total, errSq).value * errSq == total * total
  {
    if errSq != 0.0 {
      var sq := total * total;
      assert sq >= 0.0;
      assert (sq / errSq) * errSq == sq;
    }
  }

  /**
   * Per bin, tau is the effective count of the summed background, from a
   * summed squared MC error that is never negative.
   */
  lemma TauPerBin(backgrounds: seq<seq<real>>, errs: seq<seq<real>>, R: nat, i: nat)
    requires IsMatrix(backgrounds, |backgrounds|, R) && IsMatrix(errs, |errs|, R) && i < R
    ensures SumRows(Squares(errs), R)[i] >= 0.0
    ensures Tau(backgrounds, errs, R)[i] == TauAt(SumRows(backgrounds, R)[i], SumRows(Squares(errs), R)[i])
  {
    SumOfSquaresNonNegative(errs, R, i);
  }

  /** Total background [100, 400] with MC errors [10, 40] gives tau = [100, 100]. */
  lemma TauExample()
    ensures Tau([[100.0, 400.0]], [[10.0, 40.0]], 2) == [Some(100.0), Some(100.0)]
  {
    var sq := Squares([[10.0, 40.0]]);
    assert sq[0] == Mul([10.0, 40.0], [10.0, 40.0]);
    assert sq[0] == [100.0, 1600.0];
    assert sq[1..] == [];
    assert SumRows(sq, 2) == Add([100.0, 1600.0], Zeros(2)) == [100.0, 1600.0];
    assert SumRows([[100.0, 400.0]], 2) == Add([100.0, 400.0], Zeros(2)) == [100.0, 400.0];
  }

  /**
   * The MC errors read for the gamma constraints: none without gammas;
   * with gammas a KeyError for a background without one, a shape error for
   * one of the wrong length, the undefined `backgrounds_err_sq` when there
   * are no backgrounds, and the size assertion on `include_gammas`.
   */
  function GammaErrors(backgrounderr: map<string, seq<real>>, bkeys: seq<string>,
                       gammaFlags: Option<seq<bool>>, R: nat): (r: Result<seq<seq<real>>, Error>)
    ensures r.Ok? <==>
              (gammaFlags.Some? ==>
                 |bkeys| > 0 && |gammaFlags.value| == R &&
                 forall b :: 0 <= b < |bkeys| ==> bkeys[b] in backgrounderr && |backgrounderr[bkeys[b]]| == R)
    ensures r.Ok? && gammaFlags.None? ==> r.value == []
    ensures r.Ok? && gammaFlags.Some? ==>
              IsMatrix(r.value, |bkeys|, R) && forall b :: 0 <= b < |bkeys| ==> r.value[b] == backgrounderr[bkeys[b]]
    ensures gammaFlags.Some? && |bkeys| == 0 ==> r == Err(NameError("backgrounds_err_sq"))
    ensures gammaFlags.Some? && |bkeys| > 0 && (exists b :: 0 <= b < |bkeys| && bkeys[b] !in backgrounderr) ==>
              r.Err? && r.error.KeyError?
    ensures (gammaFlags.Some? && |bkeys| > 0 && (forall b :: 0 <= b < |bkeys| ==> bkeys[b] in backgrounderr) &&
             exists b :: 0 <= b < |bkeys| && |backgrounderr[bkeys[b]]| != R) ==>
              r == Err(ShapeError)
    ensures (gammaFlags.Some? && |bkeys| > 0 && |gammaFlags.value| != R &&
             forall b :: 0 <= b < |bkeys| ==> bkeys[b] in backgrounderr && |backgrounderr[bkeys[b]]| == R) ==>
              r == Err(GammaSizeError)
  {
    if gammaFlags.None? then Ok([])
    else if |bkeys| == 0 then Err(NameError("backgrounds_err_sq"))
    else
      var errs :- LookupAll(backgrounderr, bkeys);
      if !IsMatrix(errs, |bkeys|, R) then Err(ShapeError)
      else if |gammaFlags.value| != R then Err(GammaSizeError)
      else Ok(errs)
  }

  /**
   * `backgroundobjsysts`, built only when there are both object
   * systematics and backgrounds, each effect of length R.
   */
  function ObjectEffects(objBackground: map<string, map<string, seq<real>>>, okeys: seq<string>,
                         bkeys: seq<string>, R: nat): (r: Result<seq<seq<seq<real>>>, Error>)
    ensures r.Ok? <==>
              (|okeys| > 0 ==> forall b, k :: 0 <= b < |bkeys| && 0 <= k < |okeys| ==>
                 okeys[k] in objBackground && bkeys[b] in objBackground[okeys[k]] &&
                 |objBackground[okeys[k]][bkeys[b]]| == R)
    ensures r.Ok? ==> |r.value| == |bkeys|
    ensures r.Ok? ==> forall b :: 0 <= b < |bkeys| ==> IsMatrix(r.value[b], |okeys|, R)
    ensures r.Ok? ==> forall b, k :: 0 <= b < |bkeys| && 0 <= k < |okeys| ==>
              |r.value[b]| == |okeys| && okeys[k] in objBackground && bkeys[b] in objBackground[okeys[k]] &&
              r.value[b][k] == objBackground[okeys[k]][bkeys[b]]
  {
    if |okeys| > 0 && |bkeys| > 0 then
      var effects :- LookupAllEffects(objBackground, okeys, bkeys);
      if forall b :: 0 <= b < |bkeys| ==> IsMatrix(effects[b], |okeys|, R) then Ok(effects) else Err(ShapeError)
    else Ok(seq(|bkeys|, b => []))
  }

  /** The background arrays: templates, norm systematics and (with gammas) tau, per background key. */
  datatype BackgroundArrays = BackgroundArrays(templates: seq<seq<real>>, normsysts: seq<real>, tau: seq<Option<real>>)

  /**
   * `objsyst`: the dictionary read at keys 'signal' (effects per
   * systematic, in order) and 'background' (effects per systematic and
   * background); None marks a key the dictionary does not have.
   */
  datatype ObjSyst = ObjSyst(signal: Option<Dict<seq<real>>>, background: Option<map<string, map<string, seq<real>>>>)

  /** `objsyst['background']`, where it is read: only with both systematics and backgrounds. */
  function BackgroundEffects(objsyst: ObjSyst): map<string, map<string, seq<real>>> {
    if objsyst.background.Some? then objsyst.background.value else map[]
  }

  /** The object-systematic arrays: signal effects [syst][bin] and background effects [bckg][syst][bin]. */
  datatype ObjectArrays = ObjectArrays(signal: seq<seq<real>>, background: seq<seq<seq<real>>>)

  /**
   * `backgrounds`, `backgroundnormsysts` and the tau of the gamma
   * constraints, read by the keys of backgroundsyst in their order.
   */
  function UnpackBackgrounds(background: Dict<seq<real>>, backgroundsyst: Dict<real>,
                             backgrounderr: map<string, seq<real>>, gammaFlags: Option<seq<bool>>, R: nat)
    : (r: Result<BackgroundArrays, Error>)
    requires forall k :: k in background.entries ==> |background.entries[k]| == R
    ensures var bkeys := backgroundsyst.keys;
            r.Ok? <==> (forall b :: 0 <= b < |bkeys| ==> bkeys[b] in background.entries) &&
                       GammaErrors(backgrounderr, bkeys, gammaFlags, R).Ok?
    ensures var bkeys := backgroundsyst.keys;
            r.Ok? ==> IsMatrix(r.value.templates, |bkeys|, R) && |r.value.normsysts| == |bkeys| &&
                      (forall b :: 0 <= b < |bkeys| ==>
                         bkeys[b] in background.entries && r.value.templates[b] == background.entries[bkeys[b]] &&
                         r.value.normsysts[b] == backgroundsyst.entries[bkeys[b]]) &&
                      (gammaFlags.Some? ==>
                         (forall b :: 0 <= b < |bkeys| ==> bkeys[b] in backgrounderr) &&
                         r.value.tau == Tau(r.value.templates, Errs(backgrounderr, bkeys), R))
  {
    var bkeys := backgroundsyst.keys;
    var backgrounds :- LookupAll(background.entries, bkeys);
    var normsysts := seq(|bkeys|, b requires 0 <= b < |bkeys| => backgroundsyst.entries[bkeys[b]]);
    var errs :- GammaErrors(backgrounderr, bkeys, gammaFlags, R);
    var tau := if gammaFlags.Some? then Tau(backgrounds, errs, R) else [];
    assert gammaFlags.Some? ==> errs == Errs(backgrounderr, bkeys);
    Ok(BackgroundArrays(backgrounds, normsysts, tau))
  }

  /**
   * `signalobjsysts` and `backgroundobjsysts`, read by the keys of
   * `objsyst['signal']`; `objsyst['background']` is read only with both
   * systematics and backgrounds.
   */
  function UnpackObjects(objsyst: ObjSyst, bkeys: seq<string>, R: nat): (r: Result<ObjectArrays, Error>)
    ensures objsyst.signal.None? ==> r == Err(KeyError("signal"))
    ensures objsyst.signal.Some? && |objsyst.signal.value.keys| > 0 && |bkeys| > 0 && objsyst.background.None? ==>
              r == Err(KeyError("background"))
    ensures r.Ok? <==>
              objsyst.signal.Some? &&
              (|objsyst.signal.value.keys| > 0 && |bkeys| > 0 ==> objsyst.background.Some?) &&
              ObjectEffects(BackgroundEffects(objsyst), objsyst.signal.value.keys, bkeys, R).Ok? &&
              forall k :: 0 <= k < |objsyst.signal.value.keys| ==>
                |objsyst.signal.value.entries[objsyst.signal.value.keys[k]]| == R
    ensures r.Ok? ==>
              var okeys := objsyst.signal.value.keys;
              IsMatrix(r.value.signal, |okeys|, R) &&
              (forall k :: 0 <= k < |okeys| ==>
                 okeys[k] in objsyst.signal.value.entries && r.value.signal[k] == objsyst.signal.value.entries[okeys[k]]) &&
              r.value.background == ObjectEffects(BackgroundEffects(objsyst), okeys, bkeys, R).value
  {
    if objsyst.signal.None? then Err(KeyError("signal"))
    else
      var objSignal := objsyst.signal.value;
      var okeys := objSignal.keys;
      var signalobj := seq(|okeys|, k requires 0 <= k < |okeys| => objSignal.entries[okeys[k]]);
      if |okeys| > 0 && |bkeys| > 0 && objsyst.background.None? then Err(KeyError("background"))
      else
        var bkgobj :- ObjectEffects(BackgroundEffects(objsyst), okeys, bkeys, R);
        assert forall k :: 0 <= k < |okeys| ==> signalobj[k] == objSignal.entries[okeys[k]];
        if !IsMatrix(signalobj, |okeys|, R) then Err(ShapeError)
        else Ok(ObjectArrays(signalobj, bkgobj))
  }

  /**
   * The unpacking steps of `run`, in the order the source performs them,
   * for R reco bins (every entry of `background` has length R). A
   * successful unpacking takes the background keys from backgroundsyst,
   * reads each background's template, norm systematic and shape effects in
   * that order, and has the shapes the expected-counts transform needs.
   */
  function UnpackInputs(background: Dict<seq<real>>, backgroundsyst: Dict<real>,
                        backgrounderr: map<string, seq<real>>, objsyst: ObjSyst,
                        gammaFlags: Option<seq<bool>>, R: nat): (r: Result<Unpacked, Error>)
    requires forall k :: k in background.entries ==> |background.entries[k]| == R
    ensures r.Ok? ==>
              var u := r.value;
              Shaped(u, R) && u.nbins == R && objsyst.signal.Some? &&
              u.bkeys == backgroundsyst.keys && u.okeys == objsyst.signal.value.keys && u.gammaFlags == gammaFlags &&
              (forall b :: 0 <= b < |u.bkeys| ==>
                 u.bkeys[b] in background.entries && u.backgrounds[b] == background.entries[u.bkeys[b]] &&
                 u.normsysts[b] == backgroundsyst.entries[u.bkeys[b]]) &&
              (forall k :: 0 <= k < |u.okeys| ==> u.signalobj[k] == objsyst.signal.value.entries[u.okeys[k]]) &&
              (forall b, k :: 0 <= b < |u.bkeys| && 0 <= k < |u.okeys| ==>
                 objsyst.background.Some? && u.okeys[k] in objsyst.background.value &&
                 u.bkeys[b] in objsyst.background.value[u.okeys[k]] &&
                 u.bkgobj[b][k] == objsyst.background.value[u.okeys[k]][u.bkeys[b]]) &&
              (u.gammaFlags.Some? ==>
                 (forall b :: 0 <= b < |u.bkeys| ==> u.bkeys[b] in backgrounderr && |backgrounderr[u.bkeys[b]]| == R) &&
                 u.tau == Tau(u.backgrounds, Errs(backgrounderr, u.bkeys), R))
    ensures |background.keys| == 0 ==> r == Err(StopIteration)
  {
    if |background.keys| == 0 then Err(StopIteration)
    else
      var nbins := |background.entries[background.keys[0]]|;
      var bg :- UnpackBackgrounds(background, backgroundsyst, backgrounderr, gammaFlags, R);
      var obj :- UnpackObjects(objsyst, backgroundsyst.keys, R);
      Ok(Unpacked(nbins, backgroundsyst.keys, bg.templates, bg.normsysts, gammaFlags, bg.tau,
                  objsyst.signal.value.keys, obj.signal, obj.background))
  }

  /** `[backgrounderr[key] for key in bkeys]` when every key is present. */
  function Errs(backgrounderr: map<string, seq<real>>, bkeys: seq<string>): (e: seq<seq<real>>)
    requires forall b :: 0 <= b < |bkeys| ==> bkeys[b] in backgrounderr
    ensures |e| == |bkeys| && forall b :: 0 <= b < |bkeys| ==> e[b] == backgrounderr[bkeys[b]]
  {
    seq(|bkeys|, b requires 0 <= b < |bkeys| => backgrounderr[bkeys[b]])
  }

  /**
   * The unpacking succeeds exactly when: the background dict is non-empty;
   * every backgroundsyst key has a template; with gammas there is at least
   * one background, include_gammas has one flag per bin and every key has
   * an MC error vector of that length; with object systematics every
   * (systematic, background) pair has an effect vector; and every effect
   * vector has one entry per bin. `objsyst` must have the key 'signal',
   * and the key 'background' once there are systematics and backgrounds.
   */
  lemma UnpackSucceedsIff(background: Dict<seq<real>>, backgroundsyst: Dict<real>,
                          backgrounderr: map<string, seq<real>>, objsyst: ObjSyst,
                          gammaFlags: Option<seq<bool>>, R: nat)
    requires forall k :: k in background.entries ==> |background.entries[k]| == R
    ensures var bkeys := backgroundsyst.keys;
            UnpackInputs(background, backgroundsyst, backgrounderr, objsyst, gammaFlags, R).Ok? <==>
              |background.keys| > 0 &&
              (forall b :: 0 <= b < |bkeys| ==> bkeys[b] in background.entries) &&
              GammaErrors(backgrounderr, bkeys, gammaFlags, R).Ok? &&
              objsyst.signal.Some? &&
              (|objsyst.signal.value.keys| > 0 && |bkeys| > 0 ==> objsyst.background.Some?) &&
              ObjectEffects(BackgroundEffects(objsyst), objsyst.signal.value.keys, bkeys, R).Ok? &&
              (forall k :: 0 <= k < |objsyst.signal.value.keys| ==>
                 |objsyst.signal.value.entries[objsyst.signal.value.keys[k]]| == R)
  {
    if |background.keys| > 0 {
      var bg := UnpackBackgrounds(background, backgroundsyst, backgrounderr, gammaFlags, R);
      var obj := UnpackObjects(objsyst, backgroundsyst.keys, R);
      assert UnpackInputs(background, backgroundsyst, backgrounderr, objsyst, gammaFlags, R).Ok? <==>
             bg.Ok? && obj.Ok?;
    }
  }
}
