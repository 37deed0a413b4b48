/**
 * Posterior extraction at the end of `run` (fbu/PyFBU.py): the sampled
 * trace, a map from variable names to sample vectors, is turned into the
 * truth-bin traces and the nuisance traces keyed by plain names, and the
 * names whose trace is missing are reported.
 */
module Extraction {
  import opened Wrappers
  import opened Errors
  import opened Nuisances

  /** What the nuisance loops have built so far: `nuisancestrace` and the warned names, in order. */
  datatype Store = Store(traces: map<string, seq<real>>, warned: seq<string>)

  /** What a complete extraction produces. */
  datatype Extracted = Extracted(trace: seq<seq<real>>, nuisances: map<string, seq<real>>, warned: seq<string>)

  /** The trace key of a background's norm nuisance: none for err == 0, which neither branch reads. */
  function BackgroundTraceKey(name: string, err: real): Option<string> {
    if err < 0.0 then Some("norm_" + name)
    else if err > 0.0 then Some("gaus_" + name)
    else None
  }

  /** The trace key of an object systematic's nuisance, by the flat-prior marker. */
  function ObjectTraceKey(name: string, flatKey: string): string {
    if Contains(name, flatKey) then "flat_" + name else "gaus_" + name
  }

  /** `nuisancestrace[name] = trace[key]`, or on KeyError a warning unless the name is frozen. */
  function Record(T: map<string, seq<real>>, name: string, key: string, freeze: map<string, real>, s: Store): Store {
    if key in T then s.(traces := s.traces[name := T[key]])
    else if name in freeze then s
    else s.(warned := s.warned + [name])
  }

  /** One `Record` step sets the entry of its name when the key is present, and no other entry. */
  lemma RecordEntry(T: map<string, seq<real>>, name: string, key: string, freeze: map<string, real>, s: Store, k: string)
    ensures var r := Record(T, name, key, freeze, s);
            (k == name && key in T ==> k in r.traces && r.traces[k] == T[key]) &&
            (k != name || key !in T ==> (k in r.traces <==> k in s.traces) && (k in s.traces ==> r.traces[k] == s.traces[k]))
  {
  }

  /** The background loop over the first n (name, err) pairs. */
  function BackgroundPass(T: map<string, seq<real>>, keys: seq<string>, errs: seq<real>, freeze: map<string, real>,
                          n: nat, s: Store): (r: Store)
    requires n <= |keys| == |errs|
    ensures s.traces.Keys <= r.traces.Keys
    ensures s.warned <= r.warned
  {
    if n == 0 then s
    else
      var prev := BackgroundPass(T, keys, errs, freeze, n - 1, s);
      match BackgroundTraceKey(keys[n - 1], errs[n - 1])
      case None => prev
      case Some(key) => Record(T, keys[n - 1], key, freeze, prev)
  }

  /** The gamma loop over bins 0..n-1: flagged, non-frozen bins read `flat_gamma_i`, and a missing one raises. */
  function GammaPass(T: map<string, seq<real>>, flags: seq<bool>, freeze: map<string, real>, n: nat, s: Store)
    : (r: Result<Store, Error>)
    requires n <= |flags|
    ensures r.Ok? ==> s.traces.Keys <= r.value.traces.Keys
    ensures r.Err? ==> r.error.KeyError?
  {
    if n == 0 then Ok(s)
    else
      var prev :- GammaPass(T, flags, freeze, n - 1, s);
      var name := GammaName(n - 1);
      if flags[n - 1] && name !in freeze then
        if "flat_" + name in T then Ok(prev.(traces := prev.traces[name := T["flat_" + name]]))
        else Err(KeyError("flat_" + name))
      else Ok(prev)
  }

  /** The object-systematics loop over the first n names; it reads nothing unless systfixsigma is 0. */
  function ObjectPass(T: map<string, seq<real>>, keys: seq<string>, flatKey: string, freeze: map<string, real>,
                      systfixsigma: real, n: nat, s: Store): (r: Store)
    requires n <= |keys|
    ensures s.traces.Keys <= r.traces.Keys
    ensures s.warned <= r.warned
  {
    if n == 0 then s
    else
      var prev := ObjectPass(T, keys, flatKey, freeze, systfixsigma, n - 1, s);
      if systfixsigma == 0.0 then Record(T, keys[n - 1], ObjectTraceKey(keys[n - 1], flatKey), freeze, prev)
      else prev
  }

  /** The trace key of truth bin i. */
  function TruthKey(i: nat): string {
    "truth" + NatToString(i)
  }

  /** `[trace['truth%d' % bin] for bin in range(n)]`, raising at the first missing bin. */
  function TruthTraces(T: map<string, seq<real>>, n: nat): (r: Result<seq<seq<real>>, Error>)
    ensures r.Ok? ==> |r.value| == n
    ensures r.Err? ==> r.error.KeyError?
  {
    if n == 0 then Ok([])
    else
      var prev :- TruthTraces(T, n - 1);
      if TruthKey(n - 1) in T then Ok(prev + [T[TruthKey(n - 1)]]) else Err(KeyError(TruthKey(n - 1)))
  }

  /** The whole extraction, in the order of the source. */
  function Extract(T: map<string, seq<real>>, truthdim: nat, bkeys: seq<string>, errs: seq<real>,
                   gammaFlags: Option<seq<bool>>, nbins: nat, okeys: seq<string>, flatKey: string,
                   freeze: map<string, real>, systfixsigma: real): (r: Result<Extracted, Error>)
    requires |bkeys| == |errs| && (gammaFlags.Some? ==> nbins <= |gammaFlags.value|)
    ensures r.Ok? ==> |r.value.trace| == truthdim
    ensures r.Err? ==> r.error.KeyError?
  {
    var trace :- TruthTraces(T, truthdim);
    var s0 := Store(map[], []);
    var s1 := if |bkeys| > 0 then BackgroundPass(T, bkeys, errs, freeze, |bkeys|, s0) else s0;
    var s2 :- if |bkeys| > 0 && gammaFlags.Some? then GammaPass(T, gammaFlags.value, freeze, nbins, s1) else Ok(s1);
    var s3 := ObjectPass(T, okeys, flatKey, freeze, systfixsigma, |okeys|, s2);
    Ok(Extracted(trace, s3.traces, s3.warned))
  }

  /**
   * The truth traces exist exactly when every key truth0 .. truth{n-1} is
   * in the trace; they are then those sample vectors in bin order, and
   * otherwise the first missing key is reported.
   */
  lemma TruthTracesIff(T: map<string, seq<real>>, n: nat)
    ensures TruthTraces(T, n).Ok? <==> forall i :: 0 <= i < n ==> TruthKey(i) in T
    ensures TruthTraces(T, n).Ok? ==>
              |TruthTraces(T, n).value| == n && forall i :: 0 <= i < n ==> TruthTraces(T, n).value[i] == T[TruthKey(i)]
    ensures TruthTraces(T, n).Err? ==>
              exists j :: 0 <= j < n && TruthKey(j) !in T && (forall i :: 0 <= i < j ==> TruthKey(i) in T) &&
                          TruthTraces(T, n).error == KeyError(TruthKey(j))
  {
    TruthTracesSucceedsIff(T, n);
    if TruthTraces(T, n).Ok? {
      TruthTracesValues(T, n);
    } else {
      TruthTracesFirstMissing(T, n);
    }
  }

  /** The truth traces exist exactly when every key truth0 .. truth{n-1} is in the trace. */
  lemma {:induction false} TruthTracesSucceedsIff(T: map<string, seq<real>>, n: nat)
    ensures TruthTraces(T, n).Ok? <==> forall i :: 0 <= i < n ==> TruthKey(i) in T
  {
    if n > 0 {
      TruthTracesSucceedsIff(T, n - 1);
    }
  }

  /** Existing truth traces are the sample vectors of the truth keys, in bin order. */
  lemma {:induction false} TruthTracesValues(T: map<string, seq<real>>, n: nat)
    requires TruthTraces(T, n).Ok?
    ensures |TruthTraces(T, n).value| == n &&
            forall i :: 0 <= i < n ==> TruthKey(i) in T && TruthTraces(T, n).value[i] == T[TruthKey(i)]
  {
    if n > 0 {
      TruthTracesValues(T, n - 1);
    }
  }

  /** A failed truth list reports the first missing truth key. */
  lemma {:induction false} TruthTracesFirstMissing(T: map<string, seq<real>>, n: nat)
    requires TruthTraces(T, n).Err?
    ensures exists j :: 0 <= j < n && TruthKey(j) !in T && (forall i :: 0 <= i < j ==> TruthKey(i) in T) &&
                        TruthTraces(T, n).error == KeyError(TruthKey(j))
  {
    if TruthTraces(T, n - 1).Err? {
      TruthTracesFirstMissing(T, n - 1);
    } else {
      TruthTracesSucceedsIff(T, n - 1);
    }
  }

  /** The background loop leaves every name it does not visit as it was. */
  lemma {:induction false} BackgroundPassKeepsOthers(T: map<string, seq<real>>, keys: seq<string>, errs: seq<real>,
                                                     freeze: map<string, real>, n: nat, s: Store)
    requires n <= |keys| == |errs|
    ensures var out := BackgroundPass(T, keys, errs, freeze, n, s);
            forall k :: k !in keys[..n] ==> (k in out.traces <==> k in s.traces) &&
                                             (k in s.traces ==> out.traces[k] == s.traces[k])
  {
    if n > 0 {
      BackgroundPassKeepsOthers(T, keys, errs, freeze, n - 1, s);
      assert keys[..n] == keys[..n - 1] + [keys[n - 1]];
    }
  }

  /** What the background loop over the first n names leaves for the one name keys[b], b < n. */
  predicate BackgroundEntryAt(T: map<string, seq<real>>, keys: seq<string>, errs: seq<real>, b: nat,
                              s: Store, out: Store)
    requires b < |keys| == |errs|
  {
    var key := BackgroundTraceKey(keys[b], errs[b]);
    (key.Some? && key.value in T ==> keys[b] in out.traces && out.traces[keys[b]] == T[key.value]) &&
    (!(key.Some? && key.value in T) ==>
       (keys[b] in out.traces <==> keys[b] in s.traces) &&
       (keys[b] in s.traces ==> out.traces[keys[b]] == s.traces[keys[b]]))
  }

  /** The background loop over distinct names, for one name: see BackgroundPassTraces. */
  lemma {:induction false} BackgroundPassTracesAt(T: map<string, seq<real>>, keys: seq<string>, errs: seq<real>,
                                                  freeze: map<string, real>, n: nat, s: Store, b: nat)
    requires b < n <= |keys| == |errs|
    requires forall i, j :: 0 <= i < j < n ==> keys[i] != keys[j]
    ensures BackgroundEntryAt(T, keys, errs, b, s, BackgroundPass(T, keys, errs, freeze, n, s))
  {
    var prev := BackgroundPass(T, keys, errs, freeze, n - 1, s);
    match BackgroundTraceKey(keys[n - 1], errs[n - 1]) {
      case None =>
        assert BackgroundPass(T, keys, errs, freeze, n, s) == prev;
      case Some(key) =>
        assert BackgroundPass(T, keys, errs, freeze, n, s) == Record(T, keys[n - 1], key, freeze, prev);
        RecordEntry(T, keys[n - 1], key, freeze, prev, keys[b]);
    }
    if b == n - 1 {
      BackgroundPassKeepsOthers(T, keys, errs, freeze, n - 1, s);
      assert forall i :: 0 <= i < n - 1 ==> keys[i] != keys[b];
      assert keys[b] !in keys[..n - 1];
    } else {
      BackgroundPassTracesAt(T, keys, errs, freeze, n - 1, s, b);
      assert keys[b] != keys[n - 1];
    }
  }

  /**
   * The background loop, for distinct names: a name whose key is in the
   * trace gets that sample vector and any other name keeps what it had
   * (an err == 0 background has no key and gets no entry).
   */
  lemma BackgroundPassTraces(T: map<string, seq<real>>, keys: seq<string>, errs: seq<real>,
                             freeze: map<string, real>, n: nat, s: Store)
    requires n <= |keys| == |errs|
    requires forall i, j :: 0 <= i < j < n ==> keys[i] != keys[j]
    ensures forall b :: 0 <= b < n ==> BackgroundEntryAt(T, keys, errs, b, s, BackgroundPass(T, keys, errs, freeze, n, s))
  {
    forall b | 0 <= b < n
      ensures BackgroundEntryAt(T, keys, errs, b, s, BackgroundPass(T, keys, errs, freeze, n, s))
    {
      BackgroundPassTracesAt(T, keys, errs, freeze, n, s, b);
    }
  }

  /** The background loop, for one name: see BackgroundPassWarnings. */
  lemma {:induction false} BackgroundPassWarnedAt(T: map<string, seq<real>>, keys: seq<string>, errs: seq<real>,
                                                  freeze: map<string, real>, n: nat, s: Store, name: string)
    requires n <= |keys| == |errs|
    ensures name in BackgroundPass(T, keys, errs, freeze, n, s).warned <==>
              name in s.warned ||
              exists b :: 0 <= b < n && keys[b] == name && BackgroundTraceKey(name, errs[b]).Some? &&
                          BackgroundTraceKey(name, errs[b]).value !in T && name !in freeze
  {
    if n > 0 {
      BackgroundPassWarnedAt(T, keys, errs, freeze, n - 1, s, name);
      var prev := BackgroundPass(T, keys, errs, freeze, n - 1, s);
      var last := keys[n - 1];
      var lastWarned := BackgroundTraceKey(last, errs[n - 1]).Some? &&
                        BackgroundTraceKey(last, errs[n - 1]).value !in T && last !in freeze;
      assert BackgroundPass(T, keys, errs, freeze, n, s).warned ==
             if lastWarned then prev.warned + [last] else prev.warned;
    }
  }

  /**
   * A background name is warned exactly when it has a trace key (err !=
   * 0), the key is absent from the trace and the name is not frozen.
   */
  lemma BackgroundPassWarnings(T: map<string, seq<real>>, keys: seq<string>, errs: seq<real>,
                               freeze: map<string, real>, n: nat, s: Store)
    requires n <= |keys| == |errs|
    ensures var out := BackgroundPass(T, keys, errs, freeze, n, s);
            forall name :: name in out.warned <==>
              name in s.warned ||
              exists b :: 0 <= b < n && keys[b] == name && BackgroundTraceKey(name, errs[b]).Some? &&
                          BackgroundTraceKey(name, errs[b]).value !in T && name !in freeze
  {
    forall name
      ensures name in BackgroundPass(T, keys, errs, freeze, n, s).warned <==>
                name in s.warned ||
                exists b :: 0 <= b < n && keys[b] == name && BackgroundTraceKey(name, errs[b]).Some? &&
                            BackgroundTraceKey(name, errs[b]).value !in T && name !in freeze
    {
      BackgroundPassWarnedAt(T, keys, errs, freeze, n, s, name);
    }
  }

  /**
   * A background with err == 0 (declared `gaus_` + name with no lower
   * bound) leaves no trace entry and no warning: the extraction loop reads
   * neither key for it.
   */
  lemma ZeroErrorBackgroundIsSilent(T: map<string, seq<real>>, keys: seq<string>, errs: seq<real>,
                                    freeze: map<string, real>, b: nat)
    requires |keys| == |errs| && b < |keys| && errs[b] == 0.0
    requires forall i, j :: 0 <= i < j < |keys| ==> keys[i] != keys[j]
    ensures var out := BackgroundPass(T, keys, errs, freeze, |keys|, Store(map[], []));
            keys[b] !in out.traces && keys[b] !in out.warned
  {
    BackgroundPassTracesAt(T, keys, errs, freeze, |keys|, Store(map[], []), b);
    BackgroundPassWarnedAt(T, keys, errs, freeze, |keys|, Store(map[], []), keys[b]);
  }

  /** The gamma loop succeeds exactly when every flagged, non-frozen bin has its `flat_gamma_i` trace. */
  lemma {:induction false} GammaPassSucceedsIff(T: map<string, seq<real>>, flags: seq<bool>, freeze: map<string, real>,
                                                n: nat, s: Store)
    requires n <= |flags|
    ensures GammaPass(T, flags, freeze, n, s).Ok? <==>
              forall i :: 0 <= i < n && flags[i] && GammaName(i) !in freeze ==> "flat_" + GammaName(i) in T
  {
    if n > 0 {
      GammaPassSucceedsIff(T, flags, freeze, n - 1, s);
    }
  }

  /** The gamma loop warns about nothing. */
  lemma {:induction false} GammaPassKeepsWarnings(T: map<string, seq<real>>, flags: seq<bool>, freeze: map<string, real>,
                                                  n: nat, s: Store)
    requires n <= |flags| && GammaPass(T, flags, freeze, n, s).Ok?
    ensures GammaPass(T, flags, freeze, n, s).value.warned == s.warned
  {
    if n > 0 {
      GammaPassKeepsWarnings(T, flags, freeze, n - 1, s);
    }
  }

  /** A flagged, non-frozen bin i < n has its `flat_gamma_i` trace stored under `gamma_i`. */
  lemma {:induction false} GammaPassStoresAt(T: map<string, seq<real>>, flags: seq<bool>, freeze: map<string, real>,
                                             n: nat, s: Store, i: nat)
    requires n <= |flags| && GammaPass(T, flags, freeze, n, s).Ok?
    requires i < n && flags[i] && GammaName(i) !in freeze
    ensures "flat_" + GammaName(i) in T
    ensures var out := GammaPass(T, flags, freeze, n, s).value;
            GammaName(i) in out.traces && out.traces[GammaName(i)] == T["flat_" + GammaName(i)]
  {
    if i < n - 1 {
      GammaPassStoresAt(T, flags, freeze, n - 1, s, i);
      if GammaName(i) == GammaName(n - 1) {
        GammaNameInjective(i, n - 1);
      }
    }
  }

  /** A name that is not the `gamma_i` of a bin the loop stores keeps what it had. */
  lemma {:induction false} GammaPassKeepsOther(T: map<string, seq<real>>, flags: seq<bool>, freeze: map<string, real>,
                                               n: nat, s: Store, k: string)
    requires n <= |flags| && GammaPass(T, flags, freeze, n, s).Ok?
    requires forall i :: 0 <= i < n && flags[i] && GammaName(i) !in freeze ==> k != GammaName(i)
    ensures var out := GammaPass(T, flags, freeze, n, s).value;
            (k in out.traces <==> k in s.traces) && (k in s.traces ==> out.traces[k] == s.traces[k])
  {
    if n > 0 {
      GammaPassKeepsOther(T, flags, freeze, n - 1, s, k);
    }
  }

  /**
   * The gamma loop succeeds exactly when every flagged, non-frozen bin
   * has its `flat_gamma_i` trace; it then stores that trace under
   * `gamma_i`, leaves every other name and the warnings as they were.
   */
  lemma GammaPassSpec(T: map<string, seq<real>>, flags: seq<bool>, freeze: map<string, real>, n: nat, s: Store)
    requires n <= |flags|
    ensures GammaPass(T, flags, freeze, n, s).Ok? <==>
              forall i :: 0 <= i < n && flags[i] && GammaName(i) !in freeze ==> "flat_" + GammaName(i) in T
    ensures GammaPass(T, flags, freeze, n, s).Ok? ==>
              var out := GammaPass(T, flags, freeze, n, s).value;
              out.warned == s.warned &&
              (forall i :: 0 <= i < n && flags[i] && GammaName(i) !in freeze ==>
                 GammaName(i) in out.traces && out.traces[GammaName(i)] == T["flat_" + GammaName(i)]) &&
              (forall k :: (forall i :: 0 <= i < n && flags[i] && GammaName(i) !in freeze ==> k != GammaName(i)) ==>
                 (k in out.traces <==> k in s.traces) && (k in s.traces ==> out.traces[k] == s.traces[k]))
  {
    GammaPassSucceedsIff(T, flags, freeze, n, s);
    if GammaPass(T, flags, freeze, n, s).Ok? {
      GammaPassKeepsWarnings(T, flags, freeze, n, s);
      forall i | 0 <= i < n && flags[i] && GammaName(i) !in freeze
        ensures var out := GammaPass(T, flags, freeze, n, s).value;
                GammaName(i) in out.traces && out.traces[GammaName(i)] == T["flat_" + GammaName(i)]
      {
        GammaPassStoresAt(T, flags, freeze, n, s, i);
      }
      forall k | forall i :: 0 <= i < n && flags[i] && GammaName(i) !in freeze ==> k != GammaName(i)
        ensures var out := GammaPass(T, flags, freeze, n, s).value;
                (k in out.traces <==> k in s.traces) && (k in s.traces ==> out.traces[k] == s.traces[k])
      {
        GammaPassKeepsOther(T, flags, freeze, n, s, k);
      }
    }
  }

  /** The object-systematics loop reads nothing when systfixsigma is not 0. */
  lemma {:induction false} ObjectPassInert(T: map<string, seq<real>>, keys: seq<string>, flatKey: string,
                                           freeze: map<string, real>, systfixsigma: real, n: nat, s: Store)
    requires n <= |keys| && systfixsigma != 0.0
    ensures ObjectPass(T, keys, flatKey, freeze, systfixsigma, n, s) == s
  {
    if n > 0 {
      ObjectPassInert(T, keys, flatKey, freeze, systfixsigma, n - 1, s);
    }
  }

  /** The object-systematics loop leaves every name it does not visit as it was. */
  lemma {:induction false} ObjectPassKeepsOthers(T: map<string, seq<real>>, keys: seq<string>, flatKey: string,
                                                 freeze: map<string, real>, systfixsigma: real, n: nat, s: Store)
    requires n <= |keys|
    ensures var out := ObjectPass(T, keys, flatKey, freeze, systfixsigma, n, s);
            forall k :: k !in keys[..n] ==> (k in out.traces <==> k in s.traces) &&
                                             (k in s.traces ==> out.traces[k] == s.traces[k])
  {
    if n > 0 {
      ObjectPassKeepsOthers(T, keys, flatKey, freeze, systfixsigma, n - 1, s);
      assert keys[..n] == keys[..n - 1] + [keys[n - 1]];
    }
  }

  /** What the object loop over the first n names leaves for the one name keys[k], k < n. */
  predicate ObjectEntryAt(T: map<string, seq<real>>, keys: seq<string>, flatKey: string, k: nat, s: Store, out: Store)
    requires k < |keys|
  {
    var key := ObjectTraceKey(keys[k], flatKey);
    (key in T ==> keys[k] in out.traces && out.traces[keys[k]] == T[key]) &&
    (key !in T ==>
       (keys[k] in out.traces <==> keys[k] in s.traces) &&
       (keys[k] in s.traces ==> out.traces[keys[k]] == s.traces[keys[k]]))
  }

  /** The object-systematics loop with systfixsigma 0, for one name keys[k]: see ObjectPassTraces. */
  lemma {:induction false} ObjectPassTracesAt(T: map<string, seq<real>>, keys: seq<string>, flatKey: string,
                                              freeze: map<string, real>, n: nat, s: Store, k: nat)
    requires k < n <= |keys|
    requires forall i, j :: 0 <= i < j < n ==> keys[i] != keys[j]
    ensures ObjectEntryAt(T, keys, flatKey, k, s, ObjectPass(T, keys, flatKey, freeze, 0.0, n, s))
  {
    var prev := ObjectPass(T, keys, flatKey, freeze, 0.0, n - 1, s);
    var name, key := keys[n - 1], ObjectTraceKey(keys[n - 1], flatKey);
    assert ObjectPass(T, keys, flatKey, freeze, 0.0, n, s) == Record(T, name, key, freeze, prev);
    RecordEntry(T, name, key, freeze, prev, keys[k]);
    if k == n - 1 {
      ObjectPassKeepsOthers(T, keys, flatKey, freeze, 0.0, n - 1, s);
      assert forall i :: 0 <= i < n - 1 ==> keys[i] != keys[k];
      assert keys[k] !in keys[..n - 1];
    } else {
      ObjectPassTracesAt(T, keys, flatKey, freeze, n - 1, s, k);
      assert keys[k] != name;
    }
  }

  /**
   * With systfixsigma 0, for distinct names, a name whose key is in the
   * trace gets that sample vector and any other name keeps what it had.
   */
  lemma ObjectPassTraces(T: map<string, seq<real>>, keys: seq<string>, flatKey: string,
                         freeze: map<string, real>, n: nat, s: Store)
    requires n <= |keys|
    requires forall i, j :: 0 <= i < j < n ==> keys[i] != keys[j]
    ensures forall k :: 0 <= k < n ==> ObjectEntryAt(T, keys, flatKey, k, s, ObjectPass(T, keys, flatKey, freeze, 0.0, n, s))
  {
    forall k | 0 <= k < n
      ensures ObjectEntryAt(T, keys, flatKey, k, s, ObjectPass(T, keys, flatKey, freeze, 0.0, n, s))
    {
      ObjectPassTracesAt(T, keys, flatKey, freeze, n, s, k);
    }
  }

  /** The object-systematics loop with systfixsigma 0, for one name: see ObjectPassWarnings. */
  lemma {:induction false} ObjectPassWarnedAt(T: map<string, seq<real>>, keys: seq<string>, flatKey: string,
                                              freeze: map<string, real>, n: nat, s: Store, name: string)
    requires n <= |keys|
    ensures name in ObjectPass(T, keys, flatKey, freeze, 0.0, n, s).warned <==>
              name in s.warned ||
              exists k :: 0 <= k < n && keys[k] == name && ObjectTraceKey(name, flatKey) !in T && name !in freeze
  {
    if n > 0 {
      ObjectPassWarnedAt(T, keys, flatKey, freeze, n - 1, s, name);
      var prev := ObjectPass(T, keys, flatKey, freeze, 0.0, n - 1, s);
      var last := keys[n - 1];
      var lastWarned := ObjectTraceKey(last, flatKey) !in T && last !in freeze;
      assert ObjectPass(T, keys, flatKey, freeze, 0.0, n, s).warned ==
             if lastWarned then prev.warned + [last] else prev.warned;
    }
  }

  /**
   * With systfixsigma 0, an object systematic is warned exactly when its
   * key is absent from the trace and it is not frozen.
   */
  lemma ObjectPassWarnings(T: map<string, seq<real>>, keys: seq<string>, flatKey: string,
                           freeze: map<string, real>, n: nat, s: Store)
    requires n <= |keys|
    ensures var out := ObjectPass(T, keys, flatKey, freeze, 0.0, n, s);
            forall name :: name in out.warned <==>
              name in s.warned ||
              exists k :: 0 <= k < n && keys[k] == name && ObjectTraceKey(name, flatKey) !in T && name !in freeze
  {
    forall name
      ensures name in ObjectPass(T, keys, flatKey, freeze, 0.0, n, s).warned <==>
                name in s.warned ||
                exists k :: 0 <= k < n && keys[k] == name && ObjectTraceKey(name, flatKey) !in T && name !in freeze
    {
      ObjectPassWarnedAt(T, keys, flatKey, freeze, n, s, name);
    }
  }

  /**
   * The trace keys extraction reads are the names the declarations gave:
   * `norm_`/`gaus_` for a background with err != 0, `flat_`/`gaus_` for an
   * object systematic, `flat_gamma_i` for a flagged gamma bin.
   */
  lemma NamesAgree(name: string, err: real, flatKey: string, flatLower: real, flatUpper: real,
                   freeze: map<string, real>, i: nat, gammaLower: real, gammaUpper: real)
    ensures err != 0.0 ==> BackgroundTraceKey(name, err) == Some(BackgroundDecl(name, err, freeze).name)
    ensures err == 0.0 ==> BackgroundTraceKey(name, err).None? && BackgroundDecl(name, err, freeze).name == "gaus_" + name
    ensures ObjectTraceKey(name, flatKey) == ObjectDecl(name, flatKey, flatLower, flatUpper, freeze).name
    ensures GammaEntryAt(i, true, freeze, gammaLower, gammaUpper).decl.name == "flat_" + GammaName(i)
  {
  }

  /**
   * A complete extraction succeeds exactly when every truth bin and every
   * flagged, non-frozen gamma bin has its trace; the truth traces are then
   * the sample vectors of truth0, truth1, ...
   */
  lemma ExtractSucceedsIff(T: map<string, seq<real>>, truthdim: nat, bkeys: seq<string>, errs: seq<real>,
                           gammaFlags: Option<seq<bool>>, nbins: nat, okeys: seq<string>, flatKey: string,
                           freeze: map<string, real>, systfixsigma: real)
    requires |bkeys| == |errs| && (gammaFlags.Some? ==> nbins <= |gammaFlags.value|)
    ensures var r := Extract(T, truthdim, bkeys, errs, gammaFlags, nbins, okeys, flatKey, freeze, systfixsigma);
            (r.Ok? <==>
               (forall i :: 0 <= i < truthdim ==> TruthKey(i) in T) &&
               (|bkeys| > 0 && gammaFlags.Some? ==>
                  forall i :: 0 <= i < nbins && gammaFlags.value[i] && GammaName(i) !in freeze ==>
                    "flat_" + GammaName(i) in T)) &&
            (r.Ok? ==> |r.value.trace| == truthdim &&
                       forall i :: 0 <= i < truthdim ==> r.value.trace[i] == T[TruthKey(i)])
  {
    TruthTracesIff(T, truthdim);
    var s0 := Store(map[], []);
    var s1 := if |bkeys| > 0 then BackgroundPass(T, bkeys, errs, freeze, |bkeys|, s0) else s0;
    if |bkeys| > 0 && gammaFlags.Some? {
      GammaPassSpec(T, gammaFlags.value, freeze, nbins, s1);
    }
  }

  /**
   * The names extraction warns about, for distinct background names and
   * distinct object-systematic names: a background whose key is absent
   * and which is not frozen, or (when systfixsigma is 0) such an object
   * systematic. An err == 0 background is never among them unless an
   * object systematic shares its name.
   */
  lemma ExtractWarnings(T: map<string, seq<real>>, truthdim: nat, bkeys: seq<string>, errs: seq<real>,
                        gammaFlags: Option<seq<bool>>, nbins: nat, okeys: seq<string>, flatKey: string,
                        freeze: map<string, real>, systfixsigma: real)
    requires |bkeys| == |errs| && (gammaFlags.Some? ==> nbins <= |gammaFlags.value|)
    requires forall i, j :: 0 <= i < j < |bkeys| ==> bkeys[i] != bkeys[j]
    requires forall i, j :: 0 <= i < j < |okeys| ==> okeys[i] != okeys[j]
    requires Extract(T, truthdim, bkeys, errs, gammaFlags, nbins, okeys, flatKey, freeze, systfixsigma).Ok?
    ensures var w := Extract(T, truthdim, bkeys, errs, gammaFlags, nbins, okeys, flatKey, freeze, systfixsigma).value.warned;
            forall name :: name in w <==>
              (exists b :: 0 <= b < |bkeys| && bkeys[b] == name && BackgroundTraceKey(name, errs[b]).Some? &&
                           BackgroundTraceKey(name, errs[b]).value !in T && name !in freeze) ||
              (systfixsigma == 0.0 &&
               exists k :: 0 <= k < |okeys| && okeys[k] == name && ObjectTraceKey(name, flatKey) !in T && name !in freeze)
  {
    var s0 := Store(map[], []);
    var s1 := if |bkeys| > 0 then BackgroundPass(T, bkeys, errs, freeze, |bkeys|, s0) else s0;
    if |bkeys| > 0 {
      BackgroundPassWarnings(T, bkeys, errs, freeze, |bkeys|, s0);
    }
    var s2 := if |bkeys| > 0 && gammaFlags.Some? then GammaPass(T, gammaFlags.value, freeze, nbins, s1).value else s1;
    if |bkeys| > 0 && gammaFlags.Some? {
      GammaPassSpec(T, gammaFlags.value, freeze, nbins, s1);
    }
    if systfixsigma == 0.0 {
      ObjectPassWarnings(T, okeys, flatKey, freeze, |okeys|, s2);
    } else {
      ObjectPassInert(T, okeys, flatKey, freeze, systfixsigma, |okeys|, s2);
    }
  }

  /** The background loop stores `name`: a background of that name has err != 0 and its trace key is present. */
  predicate BackgroundStores(T: map<string, seq<real>>, bkeys: seq<string>, errs: seq<real>, name: string)
    requires |bkeys| == |errs|
  {
    exists b :: 0 <= b < |bkeys| && bkeys[b] == name && BackgroundTraceKey(name, errs[b]).Some? &&
                BackgroundTraceKey(name, errs[b]).value in T
  }

  /** The gamma loop stores `name`: it is the `gamma_i` of a flagged, non-frozen bin it visits. */
  predicate GammaStores(bkeys: seq<string>, gammaFlags: Option<seq<bool>>, nbins: nat, freeze: map<string, real>,
                        name: string)
    requires gammaFlags.Some? ==> nbins <= |gammaFlags.value|
  {
    |bkeys| > 0 && gammaFlags.Some? &&
    exists i :: 0 <= i < nbins && gammaFlags.value[i] && GammaName(i) !in freeze && GammaName(i) == name
  }

  /** The object loop stores `name`: with systfixsigma 0, a systematic of that name has its trace key present. */
  predicate ObjectStores(T: map<string, seq<real>>, okeys: seq<string>, flatKey: string, systfixsigma: real,
                         name: string)
  {
    systfixsigma == 0.0 && name in okeys && ObjectTraceKey(name, flatKey) in T
  }

  /**
   * The final `nuisancestrace` entry for one name: present exactly when
   * one of the loops stores it, and then the samples of the last loop
   * that does (objects after gammas after backgrounds).
   */
  predicate NuisanceEntry(T: map<string, seq<real>>, bkeys: seq<string>, errs: seq<real>,
                          gammaFlags: Option<seq<bool>>, nbins: nat, okeys: seq<string>, flatKey: string,
                          freeze: map<string, real>, systfixsigma: real, name: string, out: map<string, seq<real>>)
    requires |bkeys| == |errs| && (gammaFlags.Some? ==> nbins <= |gammaFlags.value|)
  {
    var objectStores := ObjectStores(T, okeys, flatKey, systfixsigma, name);
    var gammaStores := GammaStores(bkeys, gammaFlags, nbins, freeze, name);
    (name in out <==> objectStores || gammaStores || BackgroundStores(T, bkeys, errs, name)) &&
    (objectStores ==> out[name] == T[ObjectTraceKey(name, flatKey)]) &&
    (!objectStores && gammaStores ==> "flat_" + name in T && out[name] == T["flat_" + name]) &&
    (forall b :: 0 <= b < |bkeys| && bkeys[b] == name && !objectStores && !gammaStores &&
                 BackgroundTraceKey(name, errs[b]).Some? && BackgroundTraceKey(name, errs[b]).value in T ==>
                   out[name] == T[BackgroundTraceKey(name, errs[b]).value])
  }

  /** The background loop from an empty store, for distinct names, for one name. */
  lemma BackgroundPassFromEmpty(T: map<string, seq<real>>, bkeys: seq<string>, errs: seq<real>,
                                freeze: map<string, real>, name: string)
    requires |bkeys| == |errs|
    requires forall i, j :: 0 <= i < j < |bkeys| ==> bkeys[i] != bkeys[j]
    ensures var out := BackgroundPass(T, bkeys, errs, freeze, |bkeys|, Store(map[], [])).traces;
            (name in out <==> BackgroundStores(T, bkeys, errs, name)) &&
            forall b :: 0 <= b < |bkeys| && bkeys[b] == name && BackgroundTraceKey(name, errs[b]).Some? &&
                        BackgroundTraceKey(name, errs[b]).value in T ==>
                          out[name] == T[BackgroundTraceKey(name, errs[b]).value]
  {
    var s0 := Store(map[], []);
    if b :| 0 <= b < |bkeys| && bkeys[b] == name {
      BackgroundPassTracesAt(T, bkeys, errs, freeze, |bkeys|, s0, b);
      forall b' | 0 <= b' < |bkeys| && bkeys[b'] == name ensures b' == b {}
    } else {
      BackgroundPassKeepsOthers(T, bkeys, errs, freeze, |bkeys|, s0);
      assert bkeys[..|bkeys|] == bkeys;
    }
  }

  /** The final `nuisancestrace` entry of one name: see ExtractNuisances. */
  lemma ExtractNuisanceAt(T: map<string, seq<real>>, truthdim: nat, bkeys: seq<string>, errs: seq<real>,
                          gammaFlags: Option<seq<bool>>, nbins: nat, okeys: seq<string>, flatKey: string,
                          freeze: map<string, real>, systfixsigma: real, name: string)
    requires |bkeys| == |errs| && (gammaFlags.Some? ==> nbins <= |gammaFlags.value|)
    requires forall i, j :: 0 <= i < j < |bkeys| ==> bkeys[i] != bkeys[j]
    requires forall i, j :: 0 <= i < j < |okeys| ==> okeys[i] != okeys[j]
    requires Extract(T, truthdim, bkeys, errs, gammaFlags, nbins, okeys, flatKey, freeze, systfixsigma).Ok?
    ensures NuisanceEntry(T, bkeys, errs, gammaFlags, nbins, okeys, flatKey, freeze, systfixsigma, name,
                          Extract(T, truthdim, bkeys, errs, gammaFlags, nbins, okeys, flatKey, freeze, systfixsigma)
                            .value.nuisances)
  {
    var s0 := Store(map[], []);
    var s1 := if |bkeys| > 0 then BackgroundPass(T, bkeys, errs, freeze, |bkeys|, s0) else s0;
    BackgroundPassFromEmpty(T, bkeys, errs, freeze, name);
    var gammas := |bkeys| > 0 && gammaFlags.Some?;
    var s2 := if gammas then GammaPass(T, gammaFlags.value, freeze, nbins, s1).value else s1;
    var gammaStores := GammaStores(bkeys, gammaFlags, nbins, freeze, name);
    if gammaStores {
      var i :| 0 <= i < nbins && gammaFlags.value[i] && GammaName(i) !in freeze && GammaName(i) == name;
      GammaPassStoresAt(T, gammaFlags.value, freeze, nbins, s1, i);
    } else if gammas {
      GammaPassKeepsOther(T, gammaFlags.value, freeze, nbins, s1, name);
    }
    assert gammaStores ==> name in s2.traces && s2.traces[name] == T["flat_" + name];
    assert !gammaStores ==> (name in s2.traces <==> name in s1.traces) &&
                            (name in s1.traces ==> s2.traces[name] == s1.traces[name]);
    if systfixsigma != 0.0 {
      ObjectPassInert(T, okeys, flatKey, freeze, systfixsigma, |okeys|, s2);
    } else if k :| 0 <= k < |okeys| && okeys[k] == name {
      ObjectPassTracesAt(T, okeys, flatKey, freeze, |okeys|, s2, k);
    } else {
      ObjectPassKeepsOthers(T, okeys, flatKey, freeze, systfixsigma, |okeys|, s2);
      assert okeys[..|okeys|] == okeys;
    }
  }

  /**
   * The final `nuisancestrace`, for distinct background names and
   * distinct object-systematic names: a name has an entry exactly when
   * the background, gamma or object loop stores it, and holds the samples
   * of the last of those loops that does, since later loops overwrite
   * earlier ones under a shared name.
   */
  lemma ExtractNuisances(T: map<string, seq<real>>, truthdim: nat, bkeys: seq<string>, errs: seq<real>,
                         gammaFlags: Option<seq<bool>>, nbins: nat, okeys: seq<string>, flatKey: string,
                         freeze: map<string, real>, systfixsigma: real)
    requires |bkeys| == |errs| && (gammaFlags.Some? ==> nbins <= |gammaFlags.value|)
    requires forall i, j :: 0 <= i < j < |bkeys| ==> bkeys[i] != bkeys[j]
    requires forall i, j :: 0 <= i < j < |okeys| ==> okeys[i] != okeys[j]
    requires Extract(T, truthdim, bkeys, errs, gammaFlags, nbins, okeys, flatKey, freeze, systfixsigma).Ok?
    ensures var out := Extract(T, truthdim, bkeys, errs, gammaFlags, nbins, okeys, flatKey, freeze, systfixsigma)
                         .value.nuisances;
            forall name :: NuisanceEntry(T, bkeys, errs, gammaFlags, nbins, okeys, flatKey, freeze, systfixsigma, name, out)
  {
    forall name
      ensures NuisanceEntry(T, bkeys, errs, gammaFlags, nbins, okeys, flatKey, freeze, systfixsigma, name,
                            Extract(T, truthdim, bkeys, errs, gammaFlags, nbins, okeys, flatKey, freeze, systfixsigma)
                              .value.nuisances)
    {
      ExtractNuisanceAt(T, truthdim, bkeys, errs, gammaFlags, nbins, okeys, flatKey, freeze, systfixsigma, name);
    }
  }

  /** Once the truth list fails at a bin, every longer list fails with the same error. */
  lemma {:induction false} TruthTracesStop(T: map<string, seq<real>>, i: nat, j: nat)
    requires i <= j && TruthTraces(T, i).Err?
    ensures TruthTraces(T, j) == TruthTraces(T, i)
    decreases j
  {
    if j > i {
      TruthTracesStop(T, i, j - 1);
    }
  }

  /** Once the gamma loop fails at a bin, it fails with the same error over any longer range. */
  lemma {:induction false} GammaPassStop(T: map<string, seq<real>>, flags: seq<bool>, freeze: map<string, real>,
                                         i: nat, j: nat, s: Store)
    requires i <= j <= |flags| && GammaPass(T, flags, freeze, i, s).Err?
    ensures GammaPass(T, flags, freeze, j, s) == GammaPass(T, flags, freeze, i, s)
    decreases j
  {
    if j > i {
      GammaPassStop(T, flags, freeze, i, j - 1, s);
    }
  }

  /** The gamma loop can only fail on a missing `flat_gamma_<i>` trace of one of its bins. */
  lemma {:induction false} GammaPassErrors(T: map<string, seq<real>>, flags: seq<bool>, freeze: map<string, real>,
                                           n: nat, s: Store)
    requires n <= |flags| && GammaPass(T, flags, freeze, n, s).Err?
    ensures exists i :: 0 <= i < n && flags[i] && GammaName(i) !in freeze && "flat_" + GammaName(i) !in T &&
                        GammaPass(T, flags, freeze, n, s).error == KeyError("flat_" + GammaName(i))
  {
    if GammaPass(T, flags, freeze, n - 1, s).Err? {
      GammaPassErrors(T, flags, freeze, n - 1, s);
    }
  }
}
