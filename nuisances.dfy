/**
 * Nuisance-parameter declarations (fbu/PyFBU.py, the body of `run` that
 * builds `bckgnuisances`, `objnuisances`, `gammas` and `gamma_poissons`).
 * The inference engine's random variables are modelled by what they are
 * declared as: a name, a prior family with its bounds, and an optional
 * pinned (frozen, "observed") value.
 */
module Nuisances {
  import opened Wrappers

  /** Lower bound of a bounded normal: a number or `-inf`. */
  datatype LowerBound = NegInf | AtLeast(bound: real)

  /**
   * Prior families: `mc.Uniform(lower, upper)`, the standard normal
   * `mc.Normal(mu=0, tau=1)`, and `mc.Bound(mc.Normal, lower=...)`.
   */
  datatype Prior = Uniform(lower: real, upper: real) | Normal | BoundedNormal(lowerBound: LowerBound)

  /** One declared variable; `pinned` holds the frozen value passed as `observed`. */
  datatype Decl = Decl(name: string, prior: Prior, pinned: Option<real>)

  /** An entry of `gammas`: the constant 1 of an unflagged bin, or a declared variable. */
  datatype GammaEntry = GammaOne | GammaVar(decl: Decl)

  /** `mc.Poisson(name, mu=gammas[bin]*tau, observed=tau)`. */
  datatype PoissonConstraint = PoissonConstraint(name: string, bin: nat, tau: Option<real>)

  /** `freeze_NPs[name]`, or None where the lookup raises KeyError. */
  function FreezeLookup(freeze: map<string, real>, name: string): (v: Option<real>)
    ensures v.Some? <==> name in freeze
    ensures v.Some? ==> v.value == freeze[name]
  {
    if name in freeze then Some(freeze[name]) else None
  }

  /** Python's `sub in s` on strings. */
  predicate Contains(s: string, sub: string)
    decreases |s|
  {
    |sub| <= |s| && (s[..|sub|] == sub || Contains(s[1..], sub))
  }

  function Digit(d: nat): (c: char)
    requires d < 10
  {
    "0123456789"[d]
  }

  /** `'{0}'.format(n)` for a natural number n. */
  function NatToString(n: nat): (s: string)
    ensures |s| > 0
    ensures n < 10 <==> |s| == 1
  {
    if n < 10 then [Digit(n)] else NatToString(n / 10) + [Digit(n % 10)]
  }

  /** Distinct numbers print differently, so gamma names of distinct bins differ. */
  lemma {:induction false} NatToStringInjective(n: nat, m: nat)
    requires NatToString(n) == NatToString(m)
    ensures n == m
  {
    if n >= 10 && m >= 10 {
      var sn, sm := NatToString(n), NatToString(m);
      assert sn[..|sn| - 1] == NatToString(n / 10);
      assert sm[..|sm| - 1] == NatToString(m / 10);
      NatToStringInjective(n / 10, m / 10);
      assert Digit(n % 10) == sn[|sn| - 1] == Digit(m % 10);
    }
  }

  /** `'gamma_{0}'.format(i)`. */
  function GammaName(i: nat): string {
    "gamma_" + NatToString(i)
  }

  /** Prefixing keeps names apart. */
  lemma PrefixInjective(p: string, a: string, b: string)
    requires p + a == p + b
    ensures a == b
  {
    assert a == (p + a)[|p|..];
    assert b == (p + b)[|p|..];
  }

  lemma GammaNameInjective(i: nat, j: nat)
    requires GammaName(i) == GammaName(j)
    ensures i == j
  {
    PrefixInjective("gamma_", NatToString(i), NatToString(j));
    NatToStringInjective(i, j);
  }

  /**
   * The declaration of one background's normalisation nuisance: negative
   * `err` gives a scale factor on [0, 3]; otherwise a standard normal,
   * bounded below at -1/err (or -inf when err is 0) while free, unbounded
   * when frozen.
   */
  function BackgroundDecl(name: string, err: real, freeze: map<string, real>): (d: Decl)
    ensures d.pinned == FreezeLookup(freeze, name)
    ensures d.name == (if err < 0.0 then "norm_" else "gaus_") + name
    ensures d.prior.Uniform? <==> err < 0.0
    ensures d.prior.BoundedNormal? <==> err >= 0.0 && name !in freeze
    ensures err < 0.0 ==> d.prior == Uniform(0.0, 3.0)
    ensures err >= 0.0 && name in freeze ==> d.prior == Normal
    ensures err > 0.0 && name !in freeze ==> d.prior == BoundedNormal(AtLeast(-1.0 / err))
    ensures err == 0.0 && name !in freeze ==> d.prior == BoundedNormal(NegInf)
  {
    if err < 0.0 then Decl("norm_" + name, Uniform(0.0, 3.0), FreezeLookup(freeze, name))
    else if name in freeze then Decl("gaus_" + name, Normal, Some(freeze[name]))
    else Decl("gaus_" + name, BoundedNormal(if err > 0.0 then AtLeast(-1.0 / err) else NegInf), None)
  }

  /**
   * The declaration of one object (shape) systematic: a name containing the
   * flat marker gives a uniform prior on [flatLower, flatUpper], any other
   * a standard normal.
   */
  function ObjectDecl(name: string, flatKey: string, flatLower: real, flatUpper: real,
                      freeze: map<string, real>): (d: Decl)
    ensures d.pinned == FreezeLookup(freeze, name)
    ensures d.name == (if Contains(name, flatKey) then "flat_" else "gaus_") + name
    ensures d.prior == (if Contains(name, flatKey) then Uniform(flatLower, flatUpper) else Normal)
  {
    if Contains(name, flatKey) then Decl("flat_" + name, Uniform(flatLower, flatUpper), FreezeLookup(freeze, name))
    else Decl("gaus_" + name, Normal, FreezeLookup(freeze, name))
  }

  /** The entry of `gammas` for bin i. */
  function GammaEntryAt(i: nat, flag: bool, freeze: map<string, real>, lower: real, upper: real): GammaEntry {
    if flag then GammaVar(Decl("flat_" + GammaName(i), Uniform(lower, upper), FreezeLookup(freeze, GammaName(i))))
    else GammaOne
  }

  function PoissonAt(i: nat, tau: Option<real>): PoissonConstraint {
    PoissonConstraint("poisson_" + GammaName(i), i, tau)
  }

  /** The constraints appended for the first n bins: one per flagged bin, in bin order. */
  function Poissons(flags: seq<bool>, tau: seq<Option<real>>, n: nat): seq<PoissonConstraint>
    requires n <= |flags| == |tau|
  {
    if n == 0 then []
    else Poissons(flags, tau, n - 1) + (if flags[n - 1] then [PoissonAt(n - 1, tau[n - 1])] else [])
  }

  /** The value a variable takes in the model: its pinned value, or the engine's draw. */
  function DeclValue(d: Decl, draw: string -> real): real {
    if d.pinned.Some? then d.pinned.value else draw(d.name)
  }

  function Values(ds: seq<Decl>, draw: string -> real): (vs: seq<real>)
    ensures |vs| == |ds|
    ensures forall i :: 0 <= i < |ds| ==> vs[i] == DeclValue(ds[i], draw)
  {
    seq(|ds|, i requires 0 <= i < |ds| => DeclValue(ds[i], draw))
  }

  /** `mc.math.stack(gammas)` once the variables take values. */
  function GammaValues(gs: seq<GammaEntry>, draw: string -> real): (vs: seq<real>)
    ensures |vs| == |gs|
  {
    seq(|gs|, i requires 0 <= i < |gs| => match gs[i] case GammaOne => 1.0 case GammaVar(d) => DeclValue(d, draw))
  }

  /**
   * Builds `bckgnuisances`, one declaration per background key, in key
   * order.
   */
  method DeclareBackgroundNuisances(keys: seq<string>, errs: seq<real>, freeze: map<string, real>)
    returns (decls: seq<Decl>)
    requires |keys| == |errs|
    ensures |decls| == |keys|
    ensures forall b :: 0 <= b < |keys| ==> decls[b] == BackgroundDecl(keys[b], errs[b], freeze)
  {
    decls := [];
    for b := 0 to |keys|
      invariant |decls| == b
      invariant forall j :: 0 <= j < b ==> decls[j] == BackgroundDecl(keys[j], errs[j], freeze)
    {
      var name, err := keys[b], errs[b];
      var observed := FreezeLookup(freeze, name);
      var d: Decl;
      if err < 0.0 {
        d := Decl("norm_" + name, Uniform(0.0, 3.0), observed);
      } else if observed.Some? {
        d := Decl("gaus_" + name, Normal, observed);
      } else {
        var lb := if err > 0.0 then AtLeast(-1.0 / err) else NegInf;
        d := Decl("gaus_" + name, BoundedNormal(lb), None);
      }
      decls := decls + [d];
    }
  }

  /** Builds `objnuisances`, one declaration per object systematic, in key order. */
  method DeclareObjectNuisances(keys: seq<string>, flatKey: string, flatLower: real, flatUpper: real,
                                freeze: map<string, real>)
    returns (decls: seq<Decl>)
    ensures |decls| == |keys|
    ensures forall k :: 0 <= k < |keys| ==> decls[k] == ObjectDecl(keys[k], flatKey, flatLower, flatUpper, freeze)
  {
    decls := [];
    for k := 0 to |keys|
      invariant |decls| == k
      invariant forall j :: 0 <= j < k ==> decls[j] == ObjectDecl(keys[j], flatKey, flatLower, flatUpper, freeze)
    {
      var name := keys[k];
      var observed := FreezeLookup(freeze, name);
      if Contains(name, flatKey) {
        decls := decls + [Decl("flat_" + name, Uniform(flatLower, flatUpper), observed)];
      } else {
        decls := decls + [Decl("gaus_" + name, Normal, observed)];
      }
    }
  }

  /**
   * Builds `gammas` (one entry per bin) and `gamma_poissons` (one constraint
   * per flagged bin).
   */
  method DeclareGammas(flags: seq<bool>, tau: seq<Option<real>>, freeze: map<string, real>,
                       lower: real, upper: real)
    returns (gammas: seq<GammaEntry>, poissons: seq<PoissonConstraint>)
    requires |flags| == |tau|
    ensures |gammas| == |flags|
    ensures forall i :: 0 <= i < |flags| ==> gammas[i] == GammaEntryAt(i, flags[i], freeze, lower, upper)
    ensures poissons == Poissons(flags, tau, |flags|)
  {
    gammas, poissons := [], [];
    for i := 0 to |flags|
      invariant |gammas| == i
      invariant forall j :: 0 <= j < i ==> gammas[j] == GammaEntryAt(j, flags[j], freeze, lower, upper)
      invariant poissons == Poissons(flags, tau, i)
    {
      var npName := GammaName(i);
      if flags[i] {
        var observed := FreezeLookup(freeze, npName);
        gammas := gammas + [GammaVar(Decl("flat_" + npName, Uniform(lower, upper), observed))];
        poissons := poissons + [PoissonConstraint("poisson_" + npName, i, tau[i])];
      } else {
        gammas := gammas + [GammaOne];
      }
    }
  }

  /** A pinned variable takes its frozen value whatever the engine draws. */
  lemma FrozenValueIgnoresDraw(ds: seq<Decl>, draw1: string -> real, draw2: string -> real, i: nat)
    requires i < |ds| && ds[i].pinned.Some?
    ensures Values(ds, draw1)[i] == Values(ds, draw2)[i] == ds[i].pinned.value
  {
  }

  /** Unflagged bins contribute exactly the factor 1; flagged ones their variable's value. */
  lemma GammaValueAt(flags: seq<bool>, gs: seq<GammaEntry>, freeze: map<string, real>,
                     lower: real, upper: real, draw: string -> real, i: nat)
    requires |gs| == |flags| && i < |flags|
    requires forall j :: 0 <= j < |flags| ==> gs[j] == GammaEntryAt(j, flags[j], freeze, lower, upper)
    ensures !flags[i] ==> GammaValues(gs, draw)[i] == 1.0
    ensures flags[i] && GammaName(i) in freeze ==> GammaValues(gs, draw)[i] == freeze[GammaName(i)]
    ensures flags[i] && GammaName(i) !in freeze ==> GammaValues(gs, draw)[i] == draw("flat_" + GammaName(i))
  {
  }

  /**
   * There is a Poisson constraint exactly for the flagged bins; each one
   * names its bin's gamma, has that bin's tau as mean factor and observed
   * value, and constrains a declared gamma variable.
   */
  lemma {:induction false} PoissonsAreFlaggedBins(flags: seq<bool>, tau: seq<Option<real>>, n: nat)
    requires n <= |flags| == |tau|
    ensures forall i :: 0 <= i < n ==> (flags[i] <==> PoissonAt(i, tau[i]) in Poissons(flags, tau, n))
    ensures forall c :: c in Poissons(flags, tau, n) ==>
              c.bin < n && flags[c.bin] && c == PoissonAt(c.bin, tau[c.bin])
  {
    if n > 0 {
      PoissonsAreFlaggedBins(flags, tau, n - 1);
      forall i | 0 <= i < n - 1 ensures PoissonAt(i, tau[i]) != PoissonAt(n - 1, tau[n - 1]) {}
    }
  }

  /** The gamma constraints are in bin order, so their names are distinct. */
  lemma {:induction false} PoissonsOrdered(flags: seq<bool>, tau: seq<Option<real>>, n: nat)
    requires n <= |flags| == |tau|
    ensures forall p, q :: 0 <= p < q < |Poissons(flags, tau, n)| ==>
              Poissons(flags, tau, n)[p].bin < Poissons(flags, tau, n)[q].bin
  {
    if n > 0 {
      PoissonsOrdered(flags, tau, n - 1);
      PoissonsAreFlaggedBins(flags, tau, n - 1);
    }
  }

  lemma FlatMarkerExample()
    ensures Contains("jes__flat__", "__flat__")
    ensures !Contains("jes", "__flat__")
    ensures ObjectDecl("jes__flat__", "__flat__", -5.0, 5.0, map[]) ==
            Decl("flat_jes__flat__", Uniform(-5.0, 5.0), None)
  {
    var s := "jes__flat__";
    assert s[3..][..8] == "__flat__";
    assert Contains(s[3..], "__flat__");
    assert s[2..][1..] == s[3..];
    assert Contains(s[2..], "__flat__");
    assert s[1..][1..] == s[2..];
    assert Contains(s[1..], "__flat__");
  }
}
