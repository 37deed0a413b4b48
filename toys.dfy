/**
 * Pseudo-experiment (toy) selection at the start of `run`
 * (fbu/PyFBU.py): either the data or a chosen set of backgrounds is
 * replaced by a random fluctuation, always on copies of the inputs.
 *
 * `fluctuate` reseeds the generator from `rndseed` on every call, so a
 * draw is a function of the seed, the vector and the optional error
 * vector: it is the parameter `fluct` here (None asks for a Poisson draw,
 * Some(err) for a Gaussian one).
 */
module Toys {
  import opened Wrappers
  import opened Errors
  import opened Dicts

  /** The copies `run` goes on with: the (maybe fluctuated) data and backgrounds. */
  datatype Toy = Toy(data: seq<real>, background: Dict<seq<real>>)

  /**
   * `random.normal(template, err)` broadcasts the error vector against the
   * template when the lengths agree or the error vector has one entry.
   */
  predicate Broadcasts(template: seq<real>, err: seq<real>) {
    |err| == |template| || |err| == 1
  }

  /** Background b can be smeared: it has a template and an MC error vector that broadcasts against it. */
  predicate Smearable(bg: map<string, seq<real>>, err: map<string, seq<real>>, b: string) {
    b in bg && b in err && Broadcasts(bg[b], err[b])
  }

  /**
   * `background[bckg] = fluctuate(background[bckg], backgrounderr[bckg])`
   * for the first n names of `smear_bckgs`, in order, on the templates of
   * the copied dictionary; a name missing from either dictionary raises
   * KeyError, and an error vector that does not broadcast against its
   * template raises a shape error. Only existing keys are assigned, so
   * the keys are kept.
   */
  function Smear(bg: map<string, seq<real>>, err: map<string, seq<real>>, names: seq<string>, n: nat,
                 seed: int, fluct: (int, seq<real>, Option<seq<real>>) -> seq<real>)
    : (r: Result<map<string, seq<real>>, Error>)
    requires n <= |names|
    ensures r.Ok? ==> r.value.Keys == bg.Keys
  {
    if n == 0 then Ok(bg)
    else
      var prev :- Smear(bg, err, names, n - 1, seed, fluct);
      var b := names[n - 1];
      if b !in prev || b !in err then Err(KeyError(b))
      else if !Broadcasts(prev[b], err[b]) then Err(ShapeError)
      else Ok(prev[b := fluct(seed, prev[b], Some(err[b]))])
  }

  /**
   * The toy mode: with backgrounds listed, a non-negative seed smears
   * them and a negative seed changes nothing; with none listed, a
   * non-negative seed replaces the data by a Poisson draw.
   */
  function ToySelection(data: seq<real>, background: Dict<seq<real>>, err: map<string, seq<real>>,
                        names: seq<string>, seed: int,
                        fluct: (int, seq<real>, Option<seq<real>>) -> seq<real>): (r: Result<Toy, Error>)
    ensures r.Ok? ==> r.value.background.keys == background.keys
    ensures r.Ok? && (|names| > 0 || seed < 0) ==> r.value.data == data
  {
    if |names| > 0 then
      if seed >= 0 then
        var templates :- Smear(background.entries, err, names, |names|, seed, fluct);
        Ok(Toy(data, OrderedDict(background.keys, templates)))
      else Ok(Toy(data, background))
    else if seed >= 0 then Ok(Toy(fluct(seed, data, None), background))
    else Ok(Toy(data, background))
  }

  /** The loop of fbu/PyFBU.py that smears the listed backgrounds of a copy, stopping at the first failure. */
  method SmearTemplates(background: map<string, seq<real>>, err: map<string, seq<real>>, names: seq<string>,
                        seed: int, fluct: (int, seq<real>, Option<seq<real>>) -> seq<real>)
    returns (r: Result<map<string, seq<real>>, Error>)
    ensures r == Smear(background, err, names, |names|, seed, fluct)
  {
    var templates := background;
    for i := 0 to |names|
      invariant Smear(background, err, names, i, seed, fluct) == Ok(templates)
    {
      var b := names[i];
      if b !in templates || b !in err {
        assert Smear(background, err, names, i + 1, seed, fluct) == Err(KeyError(b));
        SmearStopsAtError(background, err, names, i + 1, |names|, seed, fluct);
        return Err(KeyError(b));
      }
      if !Broadcasts(templates[b], err[b]) {
        assert Smear(background, err, names, i + 1, seed, fluct) == Err(ShapeError);
        SmearStopsAtError(background, err, names, i + 1, |names|, seed, fluct);
        return Err(ShapeError);
      }
      templates := templates[b := fluct(seed, templates[b], Some(err[b]))];
      assert Smear(background, err, names, i + 1, seed, fluct) == Ok(templates);
    }
    return Ok(templates);
  }

  /** The toy selection at the start of `run`, on copies of the data and backgrounds. */
  method SelectToy(data: seq<real>, background: Dict<seq<real>>, err: map<string, seq<real>>,
                   names: seq<string>, seed: int,
                   fluct: (int, seq<real>, Option<seq<real>>) -> seq<real>) returns (r: Result<Toy, Error>)
    ensures r == ToySelection(data, background, err, names, seed, fluct)
  {
    if |names| > 0 && seed >= 0 {
      var smeared := SmearTemplates(background.entries, err, names, seed, fluct);
      if smeared.Err? {
        return Err(smeared.error);
      }
      var templates := smeared.value;
      assert templates.Keys == background.entries.Keys;
      return Ok(Toy(data, OrderedDict(background.keys, templates)));
    } else if |names| == 0 && seed >= 0 {
      return Ok(Toy(fluct(seed, data, None), background));
    }
    return Ok(Toy(data, background));
  }

  /** Once a prefix of the list fails, every longer prefix fails with the same error. */
  lemma {:induction false} SmearStopsAtError(bg: map<string, seq<real>>, err: map<string, seq<real>>, names: seq<string>,
                                             i: nat, j: nat, seed: int,
                                             fluct: (int, seq<real>, Option<seq<real>>) -> seq<real>)
    requires i <= j <= |names| && Smear(bg, err, names, i, seed, fluct).Err?
    ensures Smear(bg, err, names, j, seed, fluct) == Smear(bg, err, names, i, seed, fluct)
    decreases j
  {
    if j > i {
      SmearStopsAtError(bg, err, names, i, j - 1, seed, fluct);
    }
  }

  /** When draws keep their shape, a successful smearing keeps the length of every template. */
  lemma {:induction false} SmearKeepsEachLength(bg: map<string, seq<real>>, err: map<string, seq<real>>,
                                                names: seq<string>, n: nat, seed: int,
                                                fluct: (int, seq<real>, Option<seq<real>>) -> seq<real>)
    requires n <= |names| && Smear(bg, err, names, n, seed, fluct).Ok?
    requires forall s, v, e :: |fluct(s, v, e)| == |v|
    ensures forall k :: k in bg ==> |Smear(bg, err, names, n, seed, fluct).value[k]| == |bg[k]|
  {
    if n > 0 {
      SmearKeepsEachLength(bg, err, names, n - 1, seed, fluct);
    }
  }

  /**
   * When draws keep their shape, smearing the first n names succeeds
   * exactly when each of them is a key of both dictionaries and its MC
   * error vector broadcasts against its template.
   */
  lemma {:induction false} SmearSucceedsIff(bg: map<string, seq<real>>, err: map<string, seq<real>>, names: seq<string>,
                                            n: nat, seed: int,
                                            fluct: (int, seq<real>, Option<seq<real>>) -> seq<real>)
    requires n <= |names|
    requires forall s, v, e :: |fluct(s, v, e)| == |v|
    ensures Smear(bg, err, names, n, seed, fluct).Ok? <==> forall i :: 0 <= i < n ==> Smearable(bg, err, names[i])
  {
    if n > 0 {
      SmearSucceedsIff(bg, err, names, n - 1, seed, fluct);
      if Smear(bg, err, names, n - 1, seed, fluct).Ok? {
        SmearKeepsEachLength(bg, err, names, n - 1, seed, fluct);
      }
    }
  }

  /**
   * Smearing fails first at names[j] with error e: every earlier name can
   * be smeared, names[j] cannot, and e is KeyError for a name missing from
   * either dictionary and a shape error otherwise.
   */
  predicate FailsFirstAt(bg: map<string, seq<real>>, err: map<string, seq<real>>, names: seq<string>, j: nat, e: Error)
    requires j < |names|
  {
    !Smearable(bg, err, names[j]) &&
    (forall i :: 0 <= i < j ==> Smearable(bg, err, names[i])) &&
    e == (if names[j] in bg && names[j] in err then ShapeError else KeyError(names[j]))
  }

  /** A failed smearing reports the first listed name that cannot be smeared. */
  lemma {:induction false} SmearReportsFirstFailure(bg: map<string, seq<real>>, err: map<string, seq<real>>,
                                                    names: seq<string>, n: nat, seed: int,
                                                    fluct: (int, seq<real>, Option<seq<real>>) -> seq<real>)
    requires n <= |names| && Smear(bg, err, names, n, seed, fluct).Err?
    requires forall s, v, e :: |fluct(s, v, e)| == |v|
    ensures exists j :: 0 <= j < n && FailsFirstAt(bg, err, names, j, Smear(bg, err, names, n, seed, fluct).error)
  {
    var prev := Smear(bg, err, names, n - 1, seed, fluct);
    if prev.Err? {
      SmearReportsFirstFailure(bg, err, names, n - 1, seed, fluct);
      var j :| 0 <= j < n - 1 && FailsFirstAt(bg, err, names, j, prev.error);
      assert Smear(bg, err, names, n, seed, fluct) == prev;
      assert FailsFirstAt(bg, err, names, j, Smear(bg, err, names, n, seed, fluct).error);
    } else {
      var b := names[n - 1];
      SmearSucceedsIff(bg, err, names, n - 1, seed, fluct);
      SmearKeepsEachLength(bg, err, names, n - 1, seed, fluct);
      assert b in prev.value <==> b in bg;
      assert b in bg && b in err ==> |prev.value[b]| == |bg[b]|;
      assert FailsFirstAt(bg, err, names, n - 1, Smear(bg, err, names, n, seed, fluct).error);
    }
  }

  /** One background not among the first n names keeps its template. */
  lemma {:induction false} SmearKeepsUnlistedKey(bg: map<string, seq<real>>, err: map<string, seq<real>>,
                                                 names: seq<string>, n: nat, seed: int,
                                                 fluct: (int, seq<real>, Option<seq<real>>) -> seq<real>, k: string)
    requires n <= |names| && Smear(bg, err, names, n, seed, fluct).Ok?
    requires k in bg && forall i :: 0 <= i < n ==> names[i] != k
    ensures Smear(bg, err, names, n, seed, fluct).value[k] == bg[k]
  {
    if n > 0 {
      SmearKeepsUnlistedKey(bg, err, names, n - 1, seed, fluct, k);
    }
  }

  /** After a successful smearing the backgrounds not listed are unchanged. */
  lemma SmearKeepsUnlisted(bg: map<string, seq<real>>, err: map<string, seq<real>>, names: seq<string>,
                           n: nat, seed: int, fluct: (int, seq<real>, Option<seq<real>>) -> seq<real>)
    requires n <= |names| && Smear(bg, err, names, n, seed, fluct).Ok?
    ensures forall k :: k in bg && k !in names[..n] ==> Smear(bg, err, names, n, seed, fluct).value[k] == bg[k]
  {
    forall k | k in bg && k !in names[..n]
      ensures Smear(bg, err, names, n, seed, fluct).value[k] == bg[k]
    {
      assert forall i :: 0 <= i < n ==> names[i] == names[..n][i];
      SmearKeepsUnlistedKey(bg, err, names, n, seed, fluct, k);
    }
  }

  /**
   * When no name is listed twice, a successful smearing replaces each
   * listed background by the draw from its original template and error.
   */
  lemma {:induction false} SmearReplacesListed(bg: map<string, seq<real>>, err: map<string, seq<real>>, names: seq<string>,
                                               n: nat, seed: int,
                                               fluct: (int, seq<real>, Option<seq<real>>) -> seq<real>)
    requires n <= |names| && Smear(bg, err, names, n, seed, fluct).Ok?
    requires forall i, j :: 0 <= i < j < n ==> names[i] != names[j]
    ensures forall i :: 0 <= i < n ==>
              names[i] in bg && names[i] in err &&
              Smear(bg, err, names, n, seed, fluct).value[names[i]] == fluct(seed, bg[names[i]], Some(err[names[i]]))
  {
    if n > 0 {
      var b := names[n - 1];
      SmearReplacesListed(bg, err, names, n - 1, seed, fluct);
      SmearKeepsUnlistedKey(bg, err, names, n - 1, seed, fluct, b);
      var out := Smear(bg, err, names, n, seed, fluct).value;
      forall i | 0 <= i < n
        ensures names[i] in bg && names[i] in err && out[names[i]] == fluct(seed, bg[names[i]], Some(err[names[i]]))
      {
        if i < n - 1 {
          assert names[i] != b;
        }
      }
    }
  }

  /**
   * What each toy mode changes: the data only without listed backgrounds
   * and with a non-negative seed; the backgrounds only with listed
   * backgrounds and a non-negative seed, and then only the listed ones;
   * an error exactly when a listed name cannot be smeared.
   */
  lemma ToySelectionModes(data: seq<real>, background: Dict<seq<real>>, err: map<string, seq<real>>,
                          names: seq<string>, seed: int,
                          fluct: (int, seq<real>, Option<seq<real>>) -> seq<real>)
    requires forall s, v, e :: |fluct(s, v, e)| == |v|
    ensures var r := ToySelection(data, background, err, names, seed, fluct);
            (r.Ok? && r.value.data != data ==> |names| == 0 && seed >= 0) &&
            (|names| == 0 && seed >= 0 ==> r == Ok(Toy(fluct(seed, data, None), background))) &&
            (seed < 0 ==> r == Ok(Toy(data, background))) &&
            (r.Ok? ==> r.value.background.keys == background.keys) &&
            (r.Ok? ==> forall k :: k in background.entries && k !in names ==>
                          r.value.background.entries[k] == background.entries[k]) &&
            (r.Err? <==> |names| > 0 && seed >= 0 &&
                         exists i :: 0 <= i < |names| && !Smearable(background.entries, err, names[i]))
  {
    if |names| > 0 && seed >= 0 {
      SmearSucceedsIff(background.entries, err, names, |names|, seed, fluct);
      if Smear(background.entries, err, names, |names|, seed, fluct).Ok? {
        SmearKeepsUnlisted(background.entries, err, names, |names|, seed, fluct);
        assert names[..|names|] == names;
      }
    }
  }

  /**
   * A draw has the shape of the vector it fluctuates, so every smeared
   * background keeps its length.
   */
  lemma {:induction false} SmearKeepsLengths(bg: map<string, seq<real>>, err: map<string, seq<real>>, names: seq<string>,
                                             n: nat, seed: int,
                                             fluct: (int, seq<real>, Option<seq<real>>) -> seq<real>, R: nat)
    requires n <= |names| && Smear(bg, err, names, n, seed, fluct).Ok?
    requires forall s, v, e :: |fluct(s, v, e)| == |v|
    requires forall k :: k in bg ==> |bg[k]| == R
    ensures forall k :: k in Smear(bg, err, names, n, seed, fluct).value ==> |Smear(bg, err, names, n, seed, fluct).value[k]| == R
  {
    if n > 0 {
      SmearKeepsLengths(bg, err, names, n - 1, seed, fluct, R);
    }
  }

  /** When draws keep their shape, the toy data and every toy background have the data's length. */
  lemma ToyKeepsLengths(data: seq<real>, background: Dict<seq<real>>, err: map<string, seq<real>>,
                        names: seq<string>, seed: int,
                        fluct: (int, seq<real>, Option<seq<real>>) -> seq<real>)
    requires forall s, v, e :: |fluct(s, v, e)| == |v|
    requires forall k :: k in background.entries ==> |background.entries[k]| == |data|
    requires ToySelection(data, background, err, names, seed, fluct).Ok?
    ensures var toy := ToySelection(data, background, err, names, seed, fluct).value;
            |toy.data| == |data| && forall k :: k in toy.background.entries ==> |toy.background.entries[k]| == |data|
  {
    if |names| > 0 && seed >= 0 {
      SmearKeepsLengths(background.entries, err, names, |names|, seed, fluct, |data|);
    }
  }
}
