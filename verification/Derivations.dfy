/**
  The figures a narrative may quote: the values derived from a dataset's facts by a
  double loop over indices, and the forms each value is accepted in.

  Values are exact reals. Rounding and the printing of numbers are parameters.
 */
module Derivations {

  import opened Wrappers

  // -------------------------------------------------------------------- facts

  /** An entry of a JSON object: missing, null, or a text. */
  datatype Entry = Missing | Null | Text(text: string)

  /** `value` is the parsed value, absent when it does not parse as a number. */
  datatype Fact = Fact(org: Entry, metric: Entry, currency: Entry, unit: Entry, basis: Entry, value: Option<real>)

  datatype Dataset = Dataset(org: Entry, facts: seq<Fact>)

  predicate Truthy(e: Entry) {
    e.Text? && e.text != ""
  }

  function OrElse(e: Entry, otherwise: Entry): Entry {
    if e.Missing? then otherwise else e
  }

  /** A fact without an organization counts as the dataset's; a dataset without one takes every fact. */
  predicate Own(ds: Dataset, f: Fact) {
    Truthy(ds.org) && Truthy(f.org) ==> f.org == ds.org
  }

  predicate SameContext(f: Fact, g: Fact) {
    && OrElse(f.currency, Text("TRY")) == OrElse(g.currency, Text("TRY"))
    && OrElse(f.unit, Text("CURRENCY")) == OrElse(g.unit, Text("CURRENCY"))
    && OrElse(f.basis, Text("SOLO")) == OrElse(g.basis, Text("SOLO"))
  }

  predicate SameMetric(f: Fact, g: Fact) {
    OrElse(f.metric, Null) == OrElse(g.metric, Null)
  }

  function Abs(x: real): real {
    if x < 0.0 then -x else x
  }

  function PercentChange(x: real, y: real): real
    requires y != 0.0
  {
    (x - y) / Abs(y) * 100.0
  }

  // ------------------------------------------------------- what two facts give

  function Sum(f: Fact, g: Fact, x: real, y: real): set<real> {
    if SameContext(f, g) && SameMetric(f, g) then {x + y} else {}
  }

  function Difference(f: Fact, g: Fact, x: real, y: real): set<real> {
    if SameContext(f, g) then {Abs(x - y)} else {}
  }

  function Ratio(x: real, y: real): set<real> {
    if y != 0.0 then {x / y, x / y * 100.0} else {}
  }

  function Change(f: Fact, g: Fact, x: real, y: real): set<real> {
    if SameContext(f, g) && y != 0.0 then {PercentChange(x, y), Abs(PercentChange(x, y))} else {}
  }

  function Share(f: Fact, g: Fact, x: real, y: real): set<real> {
    if SameContext(f, g) && SameMetric(f, g) && x + y != 0.0 then {x / (x + y) * 100.0} else {}
  }

  function PairValues(f: Fact, g: Fact): set<real> {
    if f.value.None? || g.value.None? then {}
    else
      var x, y := f.value.value, g.value.value;
      Sum(f, g, x, y) + Difference(f, g, x, y) + Ratio(x, y) + Change(f, g, x, y) + Share(f, g, x, y)
  }

  function SingleValues(f: Fact): set<real> {
    if f.value.Some? then {f.value.value} else {}
  }

  lemma Undo(x: real, y: real)
    requires y != 0.0
    ensures x / y * y == x
  {
  }

  lemma Cancels(z: real, y: real)
    requires y != 0.0 && z * y == 0.0
    ensures z == 0.0
  {
  }

  /** A quotient is the one number that gives the dividend back. */
  lemma QuotientOnly(x: real, y: real, v: real)
    requires y != 0.0
    ensures v * y == x <==> v == x / y
  {
    Undo(x, y);
    if v * y == x {
      var q := x / y;
      assert (v - q) * y == v * y - q * y;
      Cancels(v - q, y);
    }
  }

  lemma PercentOnly(x: real, y: real, v: real)
    requires y != 0.0
    ensures v * y == x * 100.0 <==> v == x / y * 100.0
  {
    var q := x / y;
    Undo(x, y);
    assert q * 100.0 * y == q * y * 100.0;
    QuotientOnly(x * 100.0, y, v);
    QuotientOnly(x * 100.0, y, q * 100.0);
  }

  // ------------------------------------------- the same relations without division

  predicate IsSum(f: Fact, g: Fact, x: real, y: real, v: real) {
    SameContext(f, g) && SameMetric(f, g) && v - y == x
  }

  /** What is missing from the smaller figure. */
  predicate IsDifference(f: Fact, g: Fact, x: real, y: real, v: real) {
    SameContext(f, g) && v >= 0.0 && (y + v == x || x + v == y)
  }

  /** A ratio, or its percentage: what gives the first figure back when taken of the second. */
  predicate IsRatio(x: real, y: real, v: real) {
    y != 0.0 && (v * y == x || v * y == x * 100.0)
  }

  /** A change in percent: what leads from the second figure to the first, or has the size of that. */
  predicate IsChange(f: Fact, g: Fact, x: real, y: real, v: real) {
    && SameContext(f, g) && y != 0.0
    && (v * Abs(y) == (x - y) * 100.0 || (v >= 0.0 && v * Abs(y) == Abs(x - y) * 100.0))
  }

  /** A share: the percentage of the pair's total that the first figure is. */
  predicate IsShare(f: Fact, g: Fact, x: real, y: real, v: real) {
    SameContext(f, g) && SameMetric(f, g) && x + y != 0.0 && v * (x + y) == x * 100.0
  }

  lemma SumMeaning(f: Fact, g: Fact, x: real, y: real, v: real)
    ensures v in Sum(f, g, x, y) <==> IsSum(f, g, x, y, v)
    ensures v in Difference(f, g, x, y) <==> IsDifference(f, g, x, y, v)
  {
  }

  lemma RatioMeaning(x: real, y: real, v: real)
    ensures v in Ratio(x, y) <==> IsRatio(x, y, v)
  {
    if y != 0.0 {
      QuotientOnly(x, y, v);
      PercentOnly(x, y, v);
    }
  }

  lemma SizeOfChange(d: real, a: real, v: real)
    requires a > 0.0 && v >= 0.0
    ensures v * a == Abs(d) * 100.0 <==> v == Abs(d / a * 100.0)
  {
    var p := d / a * 100.0;
    PercentOnly(d, a, p);
    PercentOnly(Abs(d), a, v);
    PercentOnly(Abs(d), a, Abs(p));
    assert p >= 0.0 ==> p * a >= 0.0;
    assert p <= 0.0 ==> p * a <= 0.0;
    assert (-p) * a == -(p * a);
  }

  lemma ChangeMeaning(f: Fact, g: Fact, x: real, y: real, v: real)
    ensures v in Change(f, g, x, y) <==> IsChange(f, g, x, y, v)
  {
    if y != 0.0 {
      PercentOnly(x - y, Abs(y), v);
      if v >= 0.0 {
        SizeOfChange(x - y, Abs(y), v);
      }
    }
  }

  lemma ShareMeaning(f: Fact, g: Fact, x: real, y: real, v: real)
    ensures v in Share(f, g, x, y) <==> IsShare(f, g, x, y, v)
  {
    if x + y != 0.0 {
      PercentOnly(x, x + y, v);
    }
  }

  /**
    What two figures give, without division: a value is derived from them exactly when it
    stands in one of the five relations to them, under the conditions of that relation.
   */
  lemma PairValuesExactly(f: Fact, g: Fact, v: real)
    requires f.value.Some? && g.value.Some?
    ensures var x, y := f.value.value, g.value.value;
            v in PairValues(f, g) <==>
              || IsSum(f, g, x, y, v) || IsDifference(f, g, x, y, v) || IsRatio(x, y, v)
              || IsChange(f, g, x, y, v) || IsShare(f, g, x, y, v)
  {
    var x, y := f.value.value, g.value.value;
    SumMeaning(f, g, x, y, v);
    RatioMeaning(x, y, v);
    ChangeMeaning(f, g, x, y, v);
    ShareMeaning(f, g, x, y, v);
  }

  lemma Parts(x: real, y: real, t: real)
    requires t != 0.0 && t == x + y
    ensures x / t + y / t == 1.0
  {
    var p, q := x / t, y / t;
    Undo(x, t);
    Undo(y, t);
    AddUp(p, q, x, y, t);
    Cancelled(p + q, t, x + y);
  }

  lemma AddUp(p: real, q: real, x: real, y: real, t: real)
    requires p * t == x && q * t == y
    ensures (p + q) * t == x + y
  {
  }

  lemma Cancelled(z: real, t: real, w: real)
    requires t != 0.0 && z * t == w && w == t
    ensures z == 1.0
  {
    assert (z - 1.0) * t == 0.0;
  }

  /** The shares of two figures of one context and metric make up the whole. */
  lemma SharesMakeTheWhole(f: Fact, g: Fact, x: real, y: real, v: real, w: real)
    requires v in Share(f, g, x, y) && w in Share(g, f, y, x)
    ensures v + w == 100.0
  {
    Parts(x, y, x + y);
  }

  // ------------------------------------------------------ by index, as the loops go

  /** What a loop gathers in n turns. */
  function Gathered(turn: nat -> set<real>, n: nat): set<real> {
    if n == 0 then {} else Gathered(turn, n - 1) + turn(n - 1)
  }

  function Single(ds: Dataset, i: nat): set<real> {
    if i < |ds.facts| && Own(ds, ds.facts[i]) then SingleValues(ds.facts[i]) else {}
  }

  function SingleTurn(ds: Dataset): nat -> set<real> {
    (i: nat) => Single(ds, i)
  }

  function Singles(ds: Dataset, n: nat): set<real> {
    Gathered(SingleTurn(ds), n)
  }

  function Pair(ds: Dataset, i: nat, j: nat): set<real> {
    if i < |ds.facts| && j < |ds.facts| && i != j && Own(ds, ds.facts[i]) && Own(ds, ds.facts[j])
    then PairValues(ds.facts[i], ds.facts[j])
    else {}
  }

  function PairTurn(ds: Dataset, i: nat): nat -> set<real> {
    (j: nat) => Pair(ds, i, j)
  }

  function Row(ds: Dataset, i: nat, n: nat): set<real> {
    Gathered(PairTurn(ds, i), n)
  }

  function RowTurn(ds: Dataset): nat -> set<real> {
    (i: nat) => Row(ds, i, |ds.facts|)
  }

  function Rows(ds: Dataset, n: nat): set<real> {
    Gathered(RowTurn(ds), n)
  }

  /** Every value the loops derive. */
  function Derived(ds: Dataset): set<real> {
    Singles(ds, |ds.facts|) + Rows(ds, |ds.facts|)
  }

  // ------------------------------------------- an independent, unordered reading

  function OwnFacts(ds: Dataset): seq<Fact> {
    OwnAmong(ds, ds.facts)
  }

  function OwnAmong(ds: Dataset, facts: seq<Fact>): seq<Fact> {
    if facts == [] then []
    else OwnAmong(ds, facts[..|facts| - 1]) + if Own(ds, facts[|facts| - 1]) then [facts[|facts| - 1]] else []
  }

  /** Two facts may be combined when they are two: different, or one that occurs twice. */
  predicate TwoOf(m: multiset<Fact>, f: Fact, g: Fact) {
    f in m && g in m && (f != g || m[f] > 1)
  }

  ghost predicate Derivable(m: multiset<Fact>, v: real) {
    || (exists f :: f in m && v in SingleValues(f))
    || (exists f, g :: TwoOf(m, f, g) && v in PairValues(f, g))
  }

  // ------------------------------------------------------------------- lemmas

  lemma {:induction false} InGathered(turn: nat -> set<real>, n: nat, v: real)
    ensures v in Gathered(turn, n) <==> exists i: nat :: i < n && v in turn(i)
  {
    if n > 0 {
      InGathered(turn, n - 1, v);
    }
  }

  lemma InSingles(ds: Dataset, v: real)
    ensures v in Singles(ds, |ds.facts|) <==> exists i: nat :: i < |ds.facts| && v in SingleTurn(ds)(i)
  {
    InGathered(SingleTurn(ds), |ds.facts|, v);
  }

  lemma InRow(ds: Dataset, i: nat, v: real)
    ensures v in Row(ds, i, |ds.facts|) <==> exists j: nat :: j < |ds.facts| && v in PairTurn(ds, i)(j)
  {
    InGathered(PairTurn(ds, i), |ds.facts|, v);
  }

  lemma InRows(ds: Dataset, v: real)
    ensures v in Rows(ds, |ds.facts|) <==> exists i: nat :: i < |ds.facts| && v in RowTurn(ds)(i)
  {
    InGathered(RowTurn(ds), |ds.facts|, v);
  }

  lemma InSomePair(ds: Dataset, v: real)
    ensures v in Rows(ds, |ds.facts|) <==>
              exists i: nat, j: nat :: i < |ds.facts| && j < |ds.facts| && v in Pair(ds, i, j)
  {
    InRows(ds, v);
    if i: nat :| i < |ds.facts| && v in RowTurn(ds)(i) {
      InRow(ds, i, v);
      var j: nat :| j < |ds.facts| && v in PairTurn(ds, i)(j);
      assert v in Pair(ds, i, j);
    }
    if i: nat, j: nat :| i < |ds.facts| && j < |ds.facts| && v in Pair(ds, i, j) {
      InRow(ds, i, v);
      assert v in PairTurn(ds, i)(j);
      assert v in RowTurn(ds)(i);
    }
  }

  /** Two positions of a list hold two occurrences, and two occurrences have two positions. */
  lemma {:induction false} TwoOccurrences(s: seq<Fact>, f: Fact)
    ensures multiset(s)[f] > 1 <==> exists i, j :: 0 <= i < j < |s| && s[i] == f && s[j] == f
  {
    if s != [] {
      var init := s[..|s| - 1];
      assert s == init + [s[|s| - 1]];
      TwoOccurrences(init, f);
      if s[|s| - 1] == f && multiset(init)[f] == 1 {
        assert f in init;
        var i :| 0 <= i < |init| && init[i] == f;
        assert s[i] == f && s[|s| - 1] == f;
      }
      if i, j :| 0 <= i < j < |s| && s[i] == f && s[j] == f {
        if j < |init| {
          assert init[i] == f && init[j] == f;
        } else {
          assert init[i] == f;
          assert f in multiset(init);
        }
      }
    }
  }

  lemma {:induction false} OwnCounts(ds: Dataset, facts: seq<Fact>, f: Fact)
    ensures multiset(OwnAmong(ds, facts))[f] == if Own(ds, f) then multiset(facts)[f] else 0
  {
    if facts != [] {
      OwnCounts(ds, facts[..|facts| - 1], f);
      assert facts == facts[..|facts| - 1] + [facts[|facts| - 1]];
    }
  }

  predicate OwnAt(ds: Dataset, i: nat, f: Fact) {
    i < |ds.facts| && ds.facts[i] == f && Own(ds, f)
  }

  lemma OwnAtSomewhere(ds: Dataset, f: Fact)
    ensures f in multiset(OwnFacts(ds)) <==> exists i: nat :: OwnAt(ds, i, f)
  {
    OwnCounts(ds, ds.facts, f);
    if f in multiset(OwnFacts(ds)) {
      assert f in ds.facts;
      var i: nat :| i < |ds.facts| && ds.facts[i] == f;
      assert OwnAt(ds, i, f);
    }
    if i: nat :| OwnAt(ds, i, f) {
      assert f in ds.facts;
    }
  }

  /** Two facts can be taken from two positions exactly when they are two. */
  lemma TwoPositions(ds: Dataset, f: Fact, g: Fact)
    ensures (exists i: nat, j: nat :: i != j && OwnAt(ds, i, f) && OwnAt(ds, j, g)) <==> TwoOf(multiset(OwnFacts(ds)), f, g)
  {
    OwnAtSomewhere(ds, f);
    OwnAtSomewhere(ds, g);
    OwnCounts(ds, ds.facts, f);
    TwoOccurrences(ds.facts, f);
    if TwoOf(multiset(OwnFacts(ds)), f, g) {
      if f == g {
        var i, j :| 0 <= i < j < |ds.facts| && ds.facts[i] == f && ds.facts[j] == f;
        assert OwnAt(ds, i, f) && OwnAt(ds, j, g);
      } else {
        var i: nat :| OwnAt(ds, i, f);
        var j: nat :| OwnAt(ds, j, g);
      }
    }
  }

  lemma PairsAreTwoOf(ds: Dataset, v: real)
    ensures (exists i: nat, j: nat :: i < |ds.facts| && j < |ds.facts| && v in Pair(ds, i, j))
            <==> exists f, g :: TwoOf(multiset(OwnFacts(ds)), f, g) && v in PairValues(f, g)
  {
    if i: nat, j: nat :| i < |ds.facts| && j < |ds.facts| && v in Pair(ds, i, j) {
      TwoPositions(ds, ds.facts[i], ds.facts[j]);
      assert OwnAt(ds, i, ds.facts[i]) && OwnAt(ds, j, ds.facts[j]);
    }
    if f, g :| TwoOf(multiset(OwnFacts(ds)), f, g) && v in PairValues(f, g) {
      TwoPositions(ds, f, g);
      var i: nat, j: nat :| i != j && OwnAt(ds, i, f) && OwnAt(ds, j, g);
      assert Pair(ds, i, j) == PairValues(f, g);
    }
  }

  lemma SinglesAreOwn(ds: Dataset, v: real)
    ensures (exists i: nat :: i < |ds.facts| && v in SingleTurn(ds)(i))
            <==> exists f :: f in multiset(OwnFacts(ds)) && v in SingleValues(f)
  {
    if i: nat :| i < |ds.facts| && v in SingleTurn(ds)(i) {
      assert OwnAt(ds, i, ds.facts[i]);
      OwnAtSomewhere(ds, ds.facts[i]);
    }
    if f :| f in multiset(OwnFacts(ds)) && v in SingleValues(f) {
      OwnAtSomewhere(ds, f);
      var i: nat :| OwnAt(ds, i, f);
      assert v in SingleTurn(ds)(i);
    }
  }

  /** The index loops derive exactly what two of the organization's own facts give, whatever their order. */
  lemma DerivedExactly(ds: Dataset, v: real)
    ensures v in Derived(ds) <==> Derivable(multiset(OwnFacts(ds)), v)
  {
    InSingles(ds, v);
    InSomePair(ds, v);
    SinglesAreOwn(ds, v);
    PairsAreTwoOf(ds, v);
  }

  lemma DerivableGrows(m: multiset<Fact>, more: multiset<Fact>, v: real)
    requires m <= more && Derivable(m, v)
    ensures Derivable(more, v)
  {
    if f :| f in m && v in SingleValues(f) {
      assert f in more;
    } else {
      var f, g :| TwoOf(m, f, g) && v in PairValues(f, g);
      assert TwoOf(more, f, g);
    }
  }

  /** Only a dataset's own facts matter, and more of them only add. */
  lemma OwnFactsDecide(ds: Dataset, other: Dataset)
    requires multiset(OwnFacts(ds)) <= multiset(OwnFacts(other))
    ensures Derived(ds) <= Derived(other)
  {
    forall v | v in Derived(ds) ensures v in Derived(other) {
      DerivedExactly(ds, v);
      DerivableGrows(multiset(OwnFacts(ds)), multiset(OwnFacts(other)), v);
      DerivedExactly(other, v);
    }
  }

  lemma {:induction false} OwnOfOwn(ds: Dataset, facts: seq<Fact>)
    ensures OwnAmong(ds, OwnAmong(ds, facts)) == OwnAmong(ds, facts)
  {
    if facts != [] {
      var rest := OwnAmong(ds, facts[..|facts| - 1]);
      OwnOfOwn(ds, facts[..|facts| - 1]);
      if Own(ds, facts[|facts| - 1]) {
        assert (rest + [facts[|facts| - 1]])[..|rest|] == rest;
      } else {
        assert OwnAmong(ds, facts) == rest;
      }
    }
  }

  lemma {:induction false} OwnAmongIgnoresFacts(ds: Dataset, other: Dataset, facts: seq<Fact>)
    requires ds.org == other.org
    ensures OwnAmong(ds, facts) == OwnAmong(other, facts)
  {
    if facts != [] {
      OwnAmongIgnoresFacts(ds, other, facts[..|facts| - 1]);
    }
  }

  /** The derived values are those of the organization's own facts taken alone. */
  lemma TenantIsolation(ds: Dataset)
    ensures Derived(ds) == Derived(ds.(facts := OwnFacts(ds)))
  {
    var alone := ds.(facts := OwnFacts(ds));
    OwnAmongIgnoresFacts(ds, alone, alone.facts);
    OwnOfOwn(ds, ds.facts);
    OwnFactsDecide(ds, alone);
    OwnFactsDecide(alone, ds);
  }

  lemma OwnMultiset(ds: Dataset, other: Dataset)
    requires ds.org == other.org && multiset(ds.facts) <= multiset(other.facts)
    ensures multiset(OwnFacts(ds)) <= multiset(OwnFacts(other))
  {
    forall f ensures multiset(OwnFacts(ds))[f] <= multiset(OwnFacts(other))[f] {
      OwnCounts(ds, ds.facts, f);
      OwnCounts(other, other.facts, f);
    }
  }

  /** The order of the facts plays no part. */
  lemma OrderIndependent(ds: Dataset, other: Dataset)
    requires ds.org == other.org && multiset(ds.facts) == multiset(other.facts)
    ensures Derived(ds) == Derived(other)
  {
    OwnMultiset(ds, other);
    OwnMultiset(other, ds);
    OwnFactsDecide(ds, other);
    OwnFactsDecide(other, ds);
  }

  /** Adding facts anywhere takes no derived value away. */
  lemma GrowsWithFacts(ds: Dataset, other: Dataset)
    requires ds.org == other.org && multiset(ds.facts) <= multiset(other.facts)
    ensures Derived(ds) <= Derived(other)
  {
    OwnMultiset(ds, other);
    OwnFactsDecide(ds, other);
  }

  /** The dataset and the fact name different organizations. */
  predicate Foreign(ds: Dataset, f: Fact) {
    ds.org.Text? && ds.org.text != "" && f.org.Text? && f.org.text != "" && f.org.text != ds.org.text
  }

  lemma OwnUnlessForeign(ds: Dataset, f: Fact)
    ensures Own(ds, f) <==> !Foreign(ds, f)
  {
  }

  lemma WithoutOne(facts: seq<Fact>, i: nat, f: Fact)
    requires i < |facts|
    ensures multiset(facts)[f] == multiset(facts[..i] + facts[i + 1..])[f] + if facts[i] == f then 1 else 0
  {
    assert facts == facts[..i] + [facts[i]] + facts[i + 1..];
  }

  /** A fact that names another organization than the dataset can be left out without any difference. */
  lemma ForeignFactIgnored(ds: Dataset, i: nat)
    requires i < |ds.facts| && Foreign(ds, ds.facts[i])
    ensures Derived(ds) == Derived(ds.(facts := ds.facts[..i] + ds.facts[i + 1..]))
  {
    var without := ds.(facts := ds.facts[..i] + ds.facts[i + 1..]);
    forall f ensures multiset(OwnFacts(ds))[f] == multiset(OwnFacts(without))[f] {
      OwnCounts(ds, ds.facts, f);
      OwnCounts(without, without.facts, f);
      WithoutOne(ds.facts, i, f);
    }
    assert multiset(OwnFacts(ds)) == multiset(OwnFacts(without));
    OwnFactsDecide(ds, without);
    OwnFactsDecide(without, ds);
  }

  /** Every other fact counts: its value is derived, and every value it gives together with another such fact. */
  lemma OwnFactCounts(ds: Dataset, i: nat, j: nat, v: real)
    requires i < |ds.facts| && j < |ds.facts| && !Foreign(ds, ds.facts[i]) && !Foreign(ds, ds.facts[j])
    ensures ds.facts[i].value == Some(v) ==> v in Derived(ds)
    ensures i != j && v in PairValues(ds.facts[i], ds.facts[j]) ==> v in Derived(ds)
  {
    InSingles(ds, v);
    InSomePair(ds, v);
    if ds.facts[i].value == Some(v) {
      assert v in SingleTurn(ds)(i);
    }
    if i != j && v in PairValues(ds.facts[i], ds.facts[j]) {
      assert v in Pair(ds, i, j);
    }
  }

  /** Equal entries, or one that is missing where the other spells the default. */
  predicate Agree(a: Entry, b: Entry, default: Entry) {
    a == b || (a.Missing? && b == default) || (b.Missing? && a == default)
  }

  /** What two facts must agree on to be of one context, and of one metric. */
  lemma ContextExactly(f: Fact, g: Fact)
    ensures SameContext(f, g) <==>
              Agree(f.currency, g.currency, Text("TRY")) && Agree(f.unit, g.unit, Text("CURRENCY")) && Agree(f.basis, g.basis, Text("SOLO"))
    ensures SameMetric(f, g) <==> Agree(f.metric, g.metric, Null)
  {
  }

  // ------------------------------------------------------------ accepted forms

  /** round(x, digits), round(x), str(n), format(n, ",") with dots, and fixed notation. */
  datatype Printer = Printer(
    round: (real, nat) -> real, nearest: real -> int,
    plain: int -> string, grouped: int -> string, fixed: (real, nat) -> string)

  const FACTORS: seq<real> := [1.0, 1000.0, 1000000.0, 1000000000.0, 1000000000000.0]

  const DIVISORS: seq<real> := [1000000000000.0, 1000000000.0, 1000000.0]

  function WithComma(s: string): (r: string)
    ensures |r| == |s|
    ensures forall i :: 0 <= i < |s| ==> r[i] == if s[i] == '.' then ',' else s[i]
  {
    seq(|s|, i requires 0 <= i < |s| => if s[i] == '.' then ',' else s[i])
  }

  function Rounded(p: Printer, x: real): set<real> {
    {p.round(x, 2), p.round(x, 4), p.round(x, 1)}
  }

  function Scaled(p: Printer, a: real, factor: real): set<real>
    requires factor > 0.0
  {
    Rounded(p, a / factor) + Rounded(p, a * factor)
  }

  /** The floats the first n factors contribute. */
  function ScaledFloats(p: Printer, a: real, n: nat): set<real>
    requires n <= |FACTORS|
  {
    if n == 0 then {}
    else ScaledFloats(p, a, n - 1) + Scaled(p, a, FACTORS[n - 1])
  }

  function BasicTokens(p: Printer, a: real): set<string> {
    var n := p.nearest(a);
    {p.plain(n), p.grouped(n), p.fixed(a, 2), WithComma(p.fixed(a, 2)), p.fixed(a, 1), WithComma(p.fixed(a, 1))}
  }

  function Remainder(a: real, d: real): real
    requires d > 0.0
  {
    a - (a / d).Floor as real * d
  }

  function Reduced(p: Printer, a: real, d: real): set<string>
    requires d > 0.0
  {
    if a >= d && Remainder(a, d) < 1.0 then {p.plain((a / d).Floor), p.grouped((a / d).Floor)} else {}
  }

  function ReducedTokens(p: Printer, a: real, n: nat): set<string>
    requires n <= |DIVISORS|
  {
    if n == 0 then {} else ReducedTokens(p, a, n - 1) + Reduced(p, a, DIVISORS[n - 1])
  }

  function Floats(p: Printer, v: real): set<real> {
    ScaledFloats(p, Abs(v), |FACTORS|)
  }

  function Tokens(p: Printer, v: real): set<string> {
    BasicTokens(p, Abs(v)) + ReducedTokens(p, Abs(v), |DIVISORS|)
  }

  lemma {:induction false} InScaledFloats(p: Printer, a: real, n: nat, x: real)
    requires n <= |FACTORS|
    ensures x in ScaledFloats(p, a, n) <==>
              exists k :: 0 <= k < n && x in Scaled(p, a, FACTORS[k])
  {
    if n > 0 {
      InScaledFloats(p, a, n - 1, x);
    }
  }

  lemma DivisorIsFactor(d: nat) returns (k: nat)
    requires d < |DIVISORS|
    ensures k < |FACTORS| && FACTORS[k] == DIVISORS[d]
  {
    k := 4 - d;
  }

  /** The reductions to billions and millions add no float: every one is already there as a scaling. */
  lemma ReductionAddsNoFloat(p: Printer, v: real, d: nat)
    requires d < |DIVISORS|
    ensures p.round(Abs(v) / DIVISORS[d], 2) in Floats(p, v)
  {
    var k := DivisorIsFactor(d);
    InScaledFloats(p, Abs(v), |FACTORS|, p.round(Abs(v) / DIVISORS[d], 2));
  }

  predicate Scale(factor: real) {
    factor == 1.0 || factor == 1000.0 || factor == 1000000.0 || factor == 1000000000.0 || factor == 1000000000000.0
  }

  predicate RoundedTo(p: Printer, y: real, x: real) {
    x == p.round(y, 1) || x == p.round(y, 2) || x == p.round(y, 4)
  }

  /** x is the size of the value at this scale, up or down, in one of the roundings. */
  predicate ScaledTo(p: Printer, a: real, factor: real, x: real)
    requires factor != 0.0
  {
    RoundedTo(p, a / factor, x) || RoundedTo(p, a * factor, x)
  }

  lemma InRounded(p: Printer, y: real, z: real, x: real)
    ensures x in Rounded(p, y) + Rounded(p, z) <==> RoundedTo(p, y, x) || RoundedTo(p, z, x)
  {
  }

  lemma InScaled(p: Printer, a: real, factor: real, x: real)
    requires factor > 0.0
    ensures x in Scaled(p, a, factor) <==> ScaledTo(p, a, factor, x)
  {
    InRounded(p, a / factor, a * factor, x);
  }

  lemma ScaleIndex(factor: real) returns (k: nat)
    requires Scale(factor)
    ensures k < |FACTORS| && FACTORS[k] == factor
  {
    k := if factor == 1.0 then 0 else if factor == 1000.0 then 1 else if factor == 1000000.0 then 2
         else if factor == 1000000000.0 then 3 else 4;
  }

  lemma FactorIsScale(k: nat)
    requires k < |FACTORS|
    ensures Scale(FACTORS[k])
  {
  }

  /** The accepted numbers: the size of the value up or down by a scale, rounded to one, two or four decimals. */
  lemma FloatsExactly(p: Printer, v: real, x: real)
    ensures x in Floats(p, v) <==> exists factor :: Scale(factor) && ScaledTo(p, Abs(v), factor, x)
  {
    InScaledFloats(p, Abs(v), |FACTORS|, x);
    if x in Floats(p, v) {
      var k: nat :| k < |FACTORS| && x in Scaled(p, Abs(v), FACTORS[k]);
      FactorIsScale(k);
      InScaled(p, Abs(v), FACTORS[k], x);
    }
    if factor :| Scale(factor) && ScaledTo(p, Abs(v), factor, x) {
      var k := ScaleIndex(factor);
      InScaled(p, Abs(v), factor, x);
    }
  }

  lemma Stretch(x: real, y: real, d: real, xd: real, yd: real)
    requires d > 0.0 && xd == x * d && yd == y * d
    ensures x <= y <==> xd <= yd
    ensures x < y <==> xd < yd
  {
    if x < y {
      assert (y - x) * d > 0.0;
    } else if x > y {
      assert (x - y) * d > 0.0;
    }
  }

  lemma OneMoreTimes(x: real, d: real, xd: real)
    requires xd == x * d
    ensures (x + 1.0) * d == xd + d
  {
  }

  lemma FloorBetween(q: real, k: int)
    ensures q.Floor == k <==> k as real <= q < k as real + 1.0
  {
  }

  lemma QuotientBetween(q: real, a: real, d: real, x: real, low: real)
    requires d > 0.0 && a == q * d && low == x * d
    ensures x <= q < x + 1.0 <==> low <= a < low + d
  {
    OneMoreTimes(x, d, low);
    Stretch(x, q, d, low, a);
    Stretch(q, x + 1.0, d, a, low + d);
  }

  lemma WholeTimes(a: real, d: real, k: int, low: real)
    requires d > 0.0 && low == k as real * d
    ensures (a / d).Floor == k <==> low <= a < low + d
  {
    Undo(a, d);
    FloorBetween(a / d, k);
    QuotientBetween(a / d, a, d, k as real, low);
  }

  /** a is k times d and less than one more. */
  predicate AboutTimes(a: real, d: real, k: int) {
    k >= 1 && k as real * d <= a < k as real * d + 1.0
  }

  lemma FirstMultiple(d: real, low: real, k: int)
    requires d > 0.0 && low == k as real * d
    ensures k >= 1 <==> low >= d
    ensures k < 1 ==> low <= 0.0
  {
    Stretch(1.0, k as real, d, d, low);
    Stretch(k as real, 0.0, d, low, 0.0);
  }

  lemma AboutIsFloor(a: real, d: real, k: int)
    requires d >= 1.0
    ensures AboutTimes(a, d, k) <==> k == (a / d).Floor && a >= d && Remainder(a, d) < 1.0
  {
    var low := k as real * d;
    WholeTimes(a, d, k, low);
    FirstMultiple(d, low, k);
    if k == (a / d).Floor {
      assert Remainder(a, d) == a - low;
    }
  }

  /** A figure that is about k billions or millions is also accepted as k. */
  lemma ReducedExactly(p: Printer, a: real, d: real, t: string)
    requires d >= 1.0
    ensures t in Reduced(p, a, d) <==> exists k :: AboutTimes(a, d, k) && (t == p.plain(k) || t == p.grouped(k))
  {
    var k := (a / d).Floor;
    AboutIsFloor(a, d, k);
    if l :| AboutTimes(a, d, l) && (t == p.plain(l) || t == p.grouped(l)) {
      AboutIsFloor(a, d, l);
    }
  }

  predicate Unit(d: real) {
    d == 1000000.0 || d == 1000000000.0 || d == 1000000000000.0
  }

  ghost predicate ReducedTo(p: Printer, a: real, d: real, t: string) {
    exists k :: AboutTimes(a, d, k) && (t == p.plain(k) || t == p.grouped(k))
  }

  lemma {:induction false} InReducedTokens(p: Printer, a: real, n: nat, t: string)
    requires n <= |DIVISORS|
    ensures t in ReducedTokens(p, a, n) <==> exists d: nat :: d < n && t in Reduced(p, a, DIVISORS[d])
  {
    if n > 0 {
      InReducedTokens(p, a, n - 1, t);
    }
  }

  lemma UnitIndex(unit: real) returns (d: nat)
    requires Unit(unit)
    ensures d < |DIVISORS| && DIVISORS[d] == unit
  {
    d := if unit == 1000000000000.0 then 0 else if unit == 1000000000.0 then 1 else 2;
  }

  /** The accepted texts: the six basic ones, and the whole number of millions or more that the value is about. */
  lemma TokensExactly(p: Printer, v: real, t: string)
    ensures t in Tokens(p, v) <==>
              t in BasicTokens(p, Abs(v)) || exists unit :: Unit(unit) && ReducedTo(p, Abs(v), unit, t)
  {
    InReducedTokens(p, Abs(v), |DIVISORS|, t);
    if d: nat :| d < |DIVISORS| && t in Reduced(p, Abs(v), DIVISORS[d]) {
      assert Unit(DIVISORS[d]);
      ReducedExactly(p, Abs(v), DIVISORS[d], t);
    }
    if unit :| Unit(unit) && ReducedTo(p, Abs(v), unit, t) {
      var d := UnitIndex(unit);
      ReducedExactly(p, Abs(v), unit, t);
    }
  }

  /** A figure is accepted at every scale up to 10^12, written up or down, and without regard to sign. */
  lemma AcceptedAtEveryScale(p: Printer, v: real, k: nat, digits: nat)
    requires k < |FACTORS| && (digits == 1 || digits == 2 || digits == 4)
    ensures p.round(Abs(v) * FACTORS[k], digits) in Floats(p, v)
    ensures p.round(Abs(v) / FACTORS[k], digits) in Floats(p, v)
    ensures Floats(p, -v) == Floats(p, v) && Tokens(p, -v) == Tokens(p, v)
  {
    InScaledFloats(p, Abs(v), |FACTORS|, p.round(Abs(v) * FACTORS[k], digits));
    InScaledFloats(p, Abs(v), |FACTORS|, p.round(Abs(v) / FACTORS[k], digits));
    assert Abs(-v) == Abs(v);
  }

  method AddNumberRepresentations(p: Printer, v: real, tokens: set<string>, floats: set<real>)
    returns (moreTokens: set<string>, moreFloats: set<real>)
    ensures moreTokens == tokens + Tokens(p, v)
    ensures moreFloats == floats + Floats(p, v)
  {
    var a := Abs(v);
    moreTokens, moreFloats := tokens, floats;
    for k := 0 to |FACTORS|
      invariant moreFloats == floats + ScaledFloats(p, a, k)
    {
      moreFloats := moreFloats + Scaled(p, a, FACTORS[k]);
    }
    moreTokens := moreTokens + BasicTokens(p, a);
    for d := 0 to |DIVISORS|
      invariant moreTokens == tokens + BasicTokens(p, a) + ReducedTokens(p, a, d)
      invariant moreFloats == floats + Floats(p, v)
    {
      if a >= DIVISORS[d] && Remainder(a, DIVISORS[d]) < 1.0 {
        ReductionAddsNoFloat(p, v, d);
        moreFloats := moreFloats + {p.round(a / DIVISORS[d], 2)};
        moreTokens := moreTokens + {p.plain((a / DIVISORS[d]).Floor), p.grouped((a / DIVISORS[d]).Floor)};
      }
    }
  }

  // ---------------------------------------------------------------- the gate's sets

  function AllTokens(p: Printer, values: set<real>): set<string> {
    set v, t | v in values && t in Tokens(p, v) :: t
  }

  function AllFloats(p: Printer, values: set<real>): set<real> {
    set v, x | v in values && x in Floats(p, v) :: x
  }

  lemma OneMoreToken(p: Printer, values: set<real>, v: real)
    ensures AllTokens(p, values + {v}) == AllTokens(p, values) + Tokens(p, v)
  {
    forall t | t in Tokens(p, v) ensures t in AllTokens(p, values + {v}) {
      assert v in values + {v};
    }
  }

  lemma OneMoreFloat(p: Printer, values: set<real>, v: real)
    ensures AllFloats(p, values + {v}) == AllFloats(p, values) + Floats(p, v)
  {
    forall x | x in Floats(p, v) ensures x in AllFloats(p, values + {v}) {
      assert v in values + {v};
    }
  }

  /** The sets are the accepted forms of these values. */
  ghost predicate Holds(p: Printer, tokens: set<string>, floats: set<real>, values: set<real>) {
    tokens == AllTokens(p, values) && floats == AllFloats(p, values)
  }

  method Add(p: Printer, v: real, tokens: set<string>, floats: set<real>, ghost values: set<real>)
    returns (moreTokens: set<string>, moreFloats: set<real>)
    requires Holds(p, tokens, floats, values)
    ensures Holds(p, moreTokens, moreFloats, values + {v})
  {
    OneMoreToken(p, values, v);
    OneMoreFloat(p, values, v);
    moreTokens, moreFloats := AddNumberRepresentations(p, v, tokens, floats);
  }

  method AddSumAndDifference(p: Printer, f: Fact, g: Fact, x: real, y: real, tokens: set<string>, floats: set<real>, ghost values: set<real>)
    returns (moreTokens: set<string>, moreFloats: set<real>)
    requires Holds(p, tokens, floats, values)
    ensures Holds(p, moreTokens, moreFloats, values + Sum(f, g, x, y) + Difference(f, g, x, y))
  {
    moreTokens, moreFloats := tokens, floats;
    if SameContext(f, g) && SameMetric(f, g) {
      moreTokens, moreFloats := Add(p, x + y, moreTokens, moreFloats, values);
    } else {
      assert values + Sum(f, g, x, y) == values;
    }
    if SameContext(f, g) {
      moreTokens, moreFloats := Add(p, Abs(x - y), moreTokens, moreFloats, values + Sum(f, g, x, y));
    } else {
      assert values + Sum(f, g, x, y) + Difference(f, g, x, y) == values + Sum(f, g, x, y);
    }
  }

  method AddTwo(p: Printer, v: real, w: real, tokens: set<string>, floats: set<real>, ghost values: set<real>)
    returns (moreTokens: set<string>, moreFloats: set<real>)
    requires Holds(p, tokens, floats, values)
    ensures Holds(p, moreTokens, moreFloats, values + {v, w})
  {
    moreTokens, moreFloats := Add(p, v, tokens, floats, values);
    moreTokens, moreFloats := Add(p, w, moreTokens, moreFloats, values + {v});
    assert values + {v} + {w} == values + {v, w};
  }

  method AddRatio(p: Printer, x: real, y: real, tokens: set<string>, floats: set<real>, ghost values: set<real>)
    returns (moreTokens: set<string>, moreFloats: set<real>)
    requires Holds(p, tokens, floats, values)
    ensures Holds(p, moreTokens, moreFloats, values + Ratio(x, y))
  {
    if y != 0.0 {
      moreTokens, moreFloats := AddTwo(p, x / y, x / y * 100.0, tokens, floats, values);
    } else {
      assert values + Ratio(x, y) == values;
      moreTokens, moreFloats := tokens, floats;
    }
  }

  method AddChange(p: Printer, f: Fact, g: Fact, x: real, y: real, tokens: set<string>, floats: set<real>, ghost values: set<real>)
    returns (moreTokens: set<string>, moreFloats: set<real>)
    requires Holds(p, tokens, floats, values)
    ensures Holds(p, moreTokens, moreFloats, values + Change(f, g, x, y))
  {
    if SameContext(f, g) && y != 0.0 {
      var change := PercentChange(x, y);
      moreTokens, moreFloats := AddTwo(p, change, Abs(change), tokens, floats, values);
    } else {
      assert values + Change(f, g, x, y) == values;
      moreTokens, moreFloats := tokens, floats;
    }
  }

  method AddShare(p: Printer, f: Fact, g: Fact, x: real, y: real, tokens: set<string>, floats: set<real>, ghost values: set<real>)
    returns (moreTokens: set<string>, moreFloats: set<real>)
    requires Holds(p, tokens, floats, values)
    ensures Holds(p, moreTokens, moreFloats, values + Share(f, g, x, y))
  {
    if SameContext(f, g) && SameMetric(f, g) && x + y != 0.0 {
      moreTokens, moreFloats := Add(p, x / (x + y) * 100.0, tokens, floats, values);
    } else {
      assert values + Share(f, g, x, y) == values;
      moreTokens, moreFloats := tokens, floats;
    }
  }

  lemma PairUnion(f: Fact, g: Fact, values: set<real>)
    requires f.value.Some? && g.value.Some?
    ensures var x, y := f.value.value, g.value.value;
            values + Sum(f, g, x, y) + Difference(f, g, x, y) + Ratio(x, y) + Change(f, g, x, y) + Share(f, g, x, y)
            == values + PairValues(f, g)
  {
  }

  method AddPair(p: Printer, f: Fact, g: Fact, tokens: set<string>, floats: set<real>, ghost values: set<real>)
    returns (moreTokens: set<string>, moreFloats: set<real>)
    requires Holds(p, tokens, floats, values)
    ensures Holds(p, moreTokens, moreFloats, values + PairValues(f, g))
  {
    if f.value.None? || g.value.None? {
      assert values + PairValues(f, g) == values;
      return tokens, floats;
    }
    var x, y := f.value.value, g.value.value;
    ghost var added := values + Sum(f, g, x, y) + Difference(f, g, x, y);
    moreTokens, moreFloats := AddSumAndDifference(p, f, g, x, y, tokens, floats, values);
    moreTokens, moreFloats := AddRatio(p, x, y, moreTokens, moreFloats, added);
    moreTokens, moreFloats := AddChange(p, f, g, x, y, moreTokens, moreFloats, added + Ratio(x, y));
    moreTokens, moreFloats := AddShare(p, f, g, x, y, moreTokens, moreFloats, added + Ratio(x, y) + Change(f, g, x, y));
    PairUnion(f, g, values);
  }

  method AddSingles(p: Printer, ds: Dataset) returns (tokens: set<string>, floats: set<real>)
    ensures Holds(p, tokens, floats, Singles(ds, |ds.facts|))
  {
    tokens, floats := {}, {};
    for i := 0 to |ds.facts|
      invariant Holds(p, tokens, floats, Singles(ds, i))
    {
      var f := ds.facts[i];
      if Own(ds, f) && f.value.Some? {
        tokens, floats := Add(p, f.value.value, tokens, floats, Singles(ds, i));
        assert Singles(ds, i) + {f.value.value} == Singles(ds, i + 1);
      } else {
        assert Singles(ds, i) == Singles(ds, i + 1);
      }
    }
  }

  method AddRow(p: Printer, ds: Dataset, i: nat, tokens: set<string>, floats: set<real>, ghost values: set<real>)
    returns (moreTokens: set<string>, moreFloats: set<real>)
    requires i < |ds.facts| && Holds(p, tokens, floats, values)
    ensures Holds(p, moreTokens, moreFloats, values + Row(ds, i, |ds.facts|))
  {
    moreTokens, moreFloats := tokens, floats;
    assert values + Row(ds, i, 0) == values;
    for j := 0 to |ds.facts|
      invariant Holds(p, moreTokens, moreFloats, values + Row(ds, i, j))
    {
      assert values + Row(ds, i, j) + Pair(ds, i, j) == values + Row(ds, i, j + 1);
      if i == j || !Own(ds, ds.facts[i]) || !Own(ds, ds.facts[j]) {
        assert values + Row(ds, i, j) + Pair(ds, i, j) == values + Row(ds, i, j);
      } else {
        moreTokens, moreFloats := AddPair(p, ds.facts[i], ds.facts[j], moreTokens, moreFloats, values + Row(ds, i, j));
      }
    }
  }

  lemma RowsNext(ds: Dataset, i: nat, values: set<real>)
    ensures values + Rows(ds, 0) == values
    ensures values + Rows(ds, i) + Row(ds, i, |ds.facts|) == values + Rows(ds, i + 1)
  {
  }

  method AddRows(p: Printer, ds: Dataset, tokens: set<string>, floats: set<real>, ghost values: set<real>)
    returns (moreTokens: set<string>, moreFloats: set<real>)
    requires Holds(p, tokens, floats, values)
    ensures Holds(p, moreTokens, moreFloats, values + Rows(ds, |ds.facts|))
  {
    moreTokens, moreFloats := tokens, floats;
    RowsNext(ds, 0, values);
    ghost var seen := values;
    for i := 0 to |ds.facts|
      invariant seen == values + Rows(ds, i)
      invariant Holds(p, moreTokens, moreFloats, seen)
    {
      moreTokens, moreFloats := AddRow(p, ds, i, moreTokens, moreFloats, seen);
      RowsNext(ds, i, values);
      seen := seen + Row(ds, i, |ds.facts|);
    }
  }

  /** The two sets of the gate hold the forms of the derived values and nothing else. */
  method ComputeDeterministicDerivations(p: Printer, ds: Dataset) returns (tokens: set<string>, floats: set<real>)
    ensures tokens == AllTokens(p, Derived(ds)) && floats == AllFloats(p, Derived(ds))
  {
    tokens, floats := AddSingles(p, ds);
    tokens, floats := AddRows(p, ds, tokens, floats, Singles(ds, |ds.facts|));
  }
}
