/**
 * Harvest statistics (minimum, maximum, mean, median and population
 * variance of the harvested quantities, over the list sorted in place) and
 * the next-harvest forecast from the most recent records.
 *
 * The standard deviation is the square root of the variance; the model
 * carries the variance and states every comparison with the deviation in
 * squared form.
 */
module StatistiquesRecoltes {
  import opened Common

  // ---------------------------------------------------------------------
  // Sorting.

  predicate Trie(s: seq<real>) {
    forall k, l :: 0 <= k < l < |s| ==> s[k] <= s[l]
  }

  /** `quantites.sort()`: insertion sort in place. */
  method Trier(a: array<real>)
    modifies a
    ensures Trie(a[..])
    ensures multiset(a[..]) == multiset(old(a[..]))
  {
    var i := 0;
    while i < a.Length
      invariant 0 <= i <= a.Length
      invariant Trie(a[..i])
      invariant multiset(a[..]) == multiset(old(a[..]))
    {
      Descendre(a, i);
      i := i + 1;
    }
    assert a[..a.Length] == a[..];
  }

  /** Moves `a[i]` down by adjacent swaps until `a[..i + 1]` is sorted. */
  method Descendre(a: array<real>, i: nat)
    requires i < a.Length && Trie(a[..i])
    modifies a
    ensures Trie(a[..i + 1])
    ensures multiset(a[..]) == multiset(old(a[..]))
  {
    var j := i;
    PresqueDebut(a[..], i);
    while j > 0 && a[j - 1] > a[j]
      invariant 0 <= j <= i
      invariant Presque(a[..], i, j)
      invariant multiset(a[..]) == multiset(old(a[..]))
    {
      ghost var avant := a[..];
      a[j - 1], a[j] := a[j], a[j - 1];
      assert a[..] == avant[j - 1 := avant[j]][j := avant[j - 1]];
      Echange(avant, i, j);
      j := j - 1;
    }
    PresqueFin(a[..], i, j);
  }

  /** `s[..i + 1]` is sorted except that `s[j]` may be smaller than what precedes it. */
  predicate Presque(s: seq<real>, i: nat, j: nat)
    requires j <= i < |s|
  {
    (forall k, l :: 0 <= k < l <= i && l != j ==> s[k] <= s[l])
    && (0 < j < i ==> s[j - 1] <= s[j + 1])
  }

  lemma PresqueDebut(s: seq<real>, i: nat)
    requires i < |s| && Trie(s[..i])
    ensures Presque(s, i, i)
  {
    forall k, l | 0 <= k < l <= i && l != i
      ensures s[k] <= s[l]
    {
      assert s[k] == s[..i][k] && s[l] == s[..i][l];
    }
  }

  /** Swapping `s[j - 1]` and `s[j]` when they are out of order moves the gap one place down and keeps the multiset. */
  lemma Echange(s: seq<real>, i: nat, j: nat)
    requires 0 < j <= i < |s| && Presque(s, i, j) && s[j - 1] > s[j]
    ensures Presque(s[j - 1 := s[j]][j := s[j - 1]], i, j - 1)
    ensures multiset(s[j - 1 := s[j]][j := s[j - 1]]) == multiset(s)
  {
    var t := s[j - 1 := s[j]][j := s[j - 1]];
    forall k, l | 0 <= k < l <= i && l != j - 1
      ensures t[k] <= t[l]
    {
      if l == j {
        if k < j - 1 {
          assert s[k] <= s[j - 1];
        }
      } else if k == j - 1 {
        assert s[j] <= s[l];
      } else if k == j {
        assert s[j - 1] <= s[l];
      } else {
        assert s[k] <= s[l];
      }
    }
    if 0 < j - 1 {
      assert s[j - 2] <= s[j - 1];
    }
    EchangeMultiset(s, j - 1, j);
  }

  lemma EchangeMultiset(s: seq<real>, x: nat, y: nat)
    requires x < y < |s|
    ensures multiset(s[x := s[y]][y := s[x]]) == multiset(s)
  {
  }

  lemma PresqueFin(s: seq<real>, i: nat, j: nat)
    requires j <= i < |s| && Presque(s, i, j)
    requires j == 0 || s[j - 1] <= s[j]
    ensures Trie(s[..i + 1])
  {
    var t := s[..i + 1];
    forall k, l | 0 <= k < l < |t|
      ensures t[k] <= t[l]
    {
      if l == j && k < j - 1 {
        assert s[k] <= s[j - 1];
      }
    }
  }

  /** Inserting into a sorted list. */
  function Inserer(x: real, t: seq<real>): (r: seq<real>)
    requires Trie(t)
    ensures Trie(r)
    ensures multiset(r) == multiset(t) + multiset{x}
    ensures |r| == |t| + 1
    ensures forall k :: 0 <= k < |r| ==> r[k] == x || r[k] in t
  {
    if t == [] then [x]
    else if x <= t[0] then [x] + t
    else
      assert t == [t[0]] + t[1..];
      [t[0]] + Inserer(x, t[1..])
  }

  /** The sorted version of a list: a reference definition for the in-place sort. */
  function Tri(s: seq<real>): (t: seq<real>)
    ensures Trie(t)
    ensures multiset(t) == multiset(s)
    ensures |t| == |s|
  {
    if s == [] then []
    else
      assert s == s[..|s| - 1] + [s[|s| - 1]];
      Inserer(s[|s| - 1], Tri(s[..|s| - 1]))
  }

  /** Two sorted lists holding the same elements start with the same (smallest) element. */
  lemma MemeTete(a: seq<real>, b: seq<real>)
    requires Trie(a) && Trie(b) && multiset(a) == multiset(b) && a != []
    ensures b != [] && a[0] == b[0]
  {
    assert a[0] in multiset(a);
    assert a[0] in multiset(b);
    var i :| 0 <= i < |b| && b[i] == a[0];
    assert b[0] in multiset(b);
    assert b[0] in multiset(a);
    var j :| 0 <= j < |a| && a[j] == b[0];
    assert b[0] <= b[i];
    assert a[0] <= a[j];
  }

  /** Removing the same first element from both sides keeps the multisets equal. */
  lemma MemeQueue(a: seq<real>, b: seq<real>)
    requires a != [] && b != [] && a[0] == b[0] && multiset(a) == multiset(b)
    ensures multiset(a[1..]) == multiset(b[1..])
  {
    assert a == [a[0]] + a[1..];
    assert b == [b[0]] + b[1..];
    assert multiset(a) == multiset{a[0]} + multiset(a[1..]);
    assert multiset(b) == multiset{b[0]} + multiset(b[1..]);
    assert multiset(a[1..]) == multiset(a) - multiset{a[0]};
    assert multiset(b[1..]) == multiset(b) - multiset{b[0]};
  }

  /** Two sorted lists holding the same elements are equal, so the sorted version is unique. */
  lemma {:induction false} TriUnique(a: seq<real>, b: seq<real>)
    requires Trie(a) && Trie(b) && multiset(a) == multiset(b)
    ensures a == b
    decreases |a|
  {
    if a == [] {
      assert |multiset(b)| == 0;
    } else {
      MemeTete(a, b);
      MemeQueue(a, b);
      assert Trie(a[1..]) && Trie(b[1..]);
      TriUnique(a[1..], b[1..]);
      assert a == [a[0]] + a[1..];
      assert b == [b[0]] + b[1..];
    }
  }

  // ---------------------------------------------------------------------
  // Statistics.

  /** The statistics answer; `variance` stands for `ecart_type` squared. */
  datatype Stats = Stats(min: real, max: real, moyenne: real, mediane: real, variance: real, nombre: nat)

  /** `x ** 2`. */
  function Carre(x: real): (r: real)
    ensures r >= 0.0
  {
    x * x
  }

  /** The squared deviations from `m`. */
  function Carres(s: seq<real>, m: real): (r: seq<real>)
    ensures |r| == |s|
    ensures forall i :: 0 <= i < |s| ==> r[i] == Carre(s[i] - m)
  {
    seq(|s|, i requires 0 <= i < |s| => Carre(s[i] - m))
  }

  /** The mean of a non-empty list (`moyenne`, `moyenne_historique`). */
  function MoyenneDe(q: seq<real>): (r: real)
    requires q != []
    ensures r * |q| as real == Sum(q)
  {
    Quotient(Sum(q), |q| as real);
    Sum(q) / |q| as real
  }

  /** The variance around `m`: the mean squared deviation, never negative. */
  function VarianceAutour(q: seq<real>, m: real): (r: real)
    requires q != []
    ensures r >= 0.0
    ensures r * |q| as real == Sum(Carres(q, m))
  {
    SumNonNegative(Carres(q, m));
    Quotient(Sum(Carres(q, m)), |q| as real);
    Sum(Carres(q, m)) / |q| as real
  }

  /** The middle element, or the mean of the two middle elements. */
  function MedianeTriee(t: seq<real>): real
    requires |t| > 0
  {
    var n := |t|;
    if n % 2 == 0 then (t[n / 2 - 1] + t[n / 2]) / 2.0 else t[n / 2]
  }

  /** The figures read off a sorted, non-empty list of quantities. */
  function Figures(t: seq<real>): Stats
    requires t != []
  {
    var moyenne := MoyenneDe(t);
    Stats(t[0], t[|t| - 1], moyenne, MedianeTriee(t), VarianceAutour(t, moyenne), |t|)
  }

  /** Specification of the statistics route over the fetched quantities. */
  function StatsDe(quantites: seq<real>): Stats {
    if quantites == [] then Stats(0.0, 0.0, 0.0, 0.0, 0.0, 0) else Figures(Tri(quantites))
  }

  /** The statistics route: sort a copy in place, then read the figures off the sorted list. */
  method Statistiques(quantites: seq<real>) returns (s: Stats)
    ensures s == StatsDe(quantites)
  {
    if quantites == [] {
      return Stats(0.0, 0.0, 0.0, 0.0, 0.0, 0);
    }
    var a := new real[|quantites|](i requires 0 <= i < |quantites| => quantites[i]);
    assert a[..] == quantites;
    Trier(a);
    TriUnique(a[..], Tri(quantites));
    s := LireFigures(a[..]);
  }

  /** Reads the figures off a sorted copy: `min` and `max` are its ends. */
  method LireFigures(t: seq<real>) returns (s: Stats)
    requires t != []
    ensures s == Figures(t)
  {
    var n := |t|;
    var minVal, maxVal := t[0], t[n - 1];
    var moyenne := Sum(t) / n as real;
    var mediane;
    if n % 2 == 0 {
      mediane := (t[n / 2 - 1] + t[n / 2]) / 2.0;
    } else {
      mediane := t[n / 2];
    }
    var variance := Sum(Carres(t, moyenne)) / n as real;
    s := Stats(minVal, maxVal, moyenne, mediane, variance, n);
  }

  /** With no harvest every figure is zero. */
  lemma StatsVides()
    ensures StatsDe([]) == Stats(0.0, 0.0, 0.0, 0.0, 0.0, 0)
  {
  }

  /** In a sorted list the ends bound every element, and so the mean and the median. */
  lemma FiguresOrdonnees(t: seq<real>)
    requires t != [] && Trie(t)
    ensures var s := Figures(t);
      (forall i :: 0 <= i < |t| ==> s.min <= t[i] <= s.max)
      && s.min <= s.mediane <= s.max && s.min <= s.moyenne <= s.max
  {
    var n := |t|;
    var nr := n as real;
    SumBounds(t, t[0], t[n - 1]);
    Encadrement(Sum(t), nr, t[0], t[n - 1]);
  }

  /**
   * Over the input: `min` and `max` are its least and greatest quantity, the
   * mean is that of the input order, min <= median <= max, min <= mean <= max,
   * and the variance divides by the count and is never negative.
   */
  lemma StatsBornes(quantites: seq<real>)
    requires quantites != []
    ensures var s := StatsDe(quantites);
      s.nombre == |quantites|
      && s.min in quantites && s.max in quantites
      && (forall i :: 0 <= i < |quantites| ==> s.min <= quantites[i] <= s.max)
      && s.moyenne == Sum(quantites) / |quantites| as real
      && s.min <= s.mediane <= s.max && s.min <= s.moyenne <= s.max
      && s.variance >= 0.0
  {
    var t := Tri(quantites);
    FiguresOrdonnees(t);
    assert t[0] in multiset(quantites) && t[|t| - 1] in multiset(quantites) by {
      assert t[0] in multiset(t) && t[|t| - 1] in multiset(t);
    }
    forall i | 0 <= i < |quantites|
      ensures t[0] <= quantites[i] <= t[|t| - 1]
    {
      assert quantites[i] in multiset(t) by { assert quantites[i] in multiset(quantites); }
    }
    SumPermutation(t, quantites);
  }

  // ---------------------------------------------------------------------
  // Forecast.

  datatype Prediction = RecolteBonne | RecolteMauvaise | RecolteMoyenne

  /** `facteurs`; `variance` stands for `ecart_type` squared. */
  datatype Facteurs = Facteurs(moyenneHistorique: real, tendance: real, variance: real, nombre: nat)

  datatype Prevision = Prevision(
    quantitePrevue: real,
    probaBonne: int,
    probaMauvaise: int,
    prediction: Prediction,
    facteurs: Option<Facteurs>)

  /**
   * `quantite_prevue > moyenne + ecart_type`, stated without the square
   * root: the excess is positive and its square exceeds the variance.
   */
  predicate AuDessus(prevue: real, moyenne: real, variance: real) {
    prevue - moyenne > 0.0 && (prevue - moyenne) * (prevue - moyenne) > variance
  }

  /** `quantite_prevue < moyenne - ecart_type`, in the same squared form. */
  predicate AuDessous(prevue: real, moyenne: real, variance: real) {
    moyenne - prevue > 0.0 && (prevue - moyenne) * (prevue - moyenne) > variance
  }

  lemma ProduitPositif(a: real, b: real)
    requires a > 0.0 && b > 0.0
    ensures a * b > 0.0
  {
  }

  lemma ProduitNonNegatif(a: real, b: real)
    requires a >= 0.0 && b >= 0.0
    ensures a * b >= 0.0
  {
  }

  /** Squaring is monotone on the non-negative reals. */
  lemma CarreMonotone(x: real, y: real)
    requires 0.0 <= x <= y
    ensures x * x <= y * y
    ensures x < y ==> x * x < y * y
  {
    var p := x * y;
    ProduitNonNegatif(x, y - x);
    assert x * (y - x) == p - x * x;
    if x < y {
      ProduitPositif(y - x, y);
      assert (y - x) * y == y * y - p;
    } else {
      assert x == y;
    }
  }

  /** The squared comparisons agree with the comparisons against the deviation itself. */
  lemma ComparaisonEcartType(prevue: real, moyenne: real, ecartType: real)
    requires ecartType >= 0.0
    ensures AuDessus(prevue, moyenne, ecartType * ecartType) <==> prevue > moyenne + ecartType
    ensures AuDessous(prevue, moyenne, ecartType * ecartType) <==> prevue < moyenne - ecartType
  {
    var d := prevue - moyenne;
    assert d * d == (-d) * (-d);
    if 0.0 <= d <= ecartType { CarreMonotone(d, ecartType); }
    if ecartType < d { CarreMonotone(ecartType, d); }
    if 0.0 <= -d <= ecartType { CarreMonotone(-d, ecartType); }
    if ecartType < -d { CarreMonotone(ecartType, -d); }
  }

  /** The most recent records the forecast reads: the first twelve of a list sorted newest first. */
  function Recentes(historique: seq<real>): (r: seq<real>)
    ensures |r| == Min(12, |historique|)
    ensures r == historique[..|r|]
  {
    historique[..Min(12, |historique|)]
  }

  /** `tendance`: the gap between the newest and the oldest record, spread over the count. */
  function Tendance(q: seq<real>): (r: real)
    requires q != []
    ensures |q| > 1 ==> r * |q| as real == q[0] - q[|q| - 1]
    ensures |q| == 1 ==> r == 0.0
  {
    var n := |q|;
    if n > 1 then
      Quotient(q[0] - q[n - 1], n as real);
      (q[0] - q[n - 1]) / n as real
    else 0.0
  }

  /** The forecast factors of three records or more, newest first. */
  function FacteursDe(q: seq<real>): (f: Facteurs)
    requires |q| >= 3
    ensures f.nombre == |q|
  {
    var moyenne := MoyenneDe(q);
    Facteurs(moyenne, Tendance(q), VarianceAutour(q, moyenne), |q|)
  }

  /** The forecast computed from three records or more: one of three fixed pairs of odds. */
  function PrevisionSur(q: seq<real>): (r: Prevision)
    requires |q| >= 3
    ensures r.facteurs == Some(FacteursDe(q))
    ensures r.quantitePrevue == FacteursDe(q).moyenneHistorique + FacteursDe(q).tendance * 1.2
    ensures (r.prediction, r.probaBonne, r.probaMauvaise) in
      {(RecolteBonne, 70, 30), (RecolteMauvaise, 30, 70), (RecolteMoyenne, 50, 50)}
  {
    var f := FacteursDe(q);
    var prevue := f.moyenneHistorique + f.tendance * 1.2;
    if AuDessus(prevue, f.moyenneHistorique, f.variance) then Prevision(prevue, 70, 30, RecolteBonne, Some(f))
    else if AuDessous(prevue, f.moyenneHistorique, f.variance) then Prevision(prevue, 30, 70, RecolteMauvaise, Some(f))
    else Prevision(prevue, 50, 50, RecolteMoyenne, Some(f))
  }

  /** Specification of the forecast route over the quantities sorted newest first. */
  function PrevisionDe(historique: seq<real>): (r: Prevision)
    ensures r.probaBonne + r.probaMauvaise == 100
    ensures r.facteurs.Some? <==> |historique| >= 3
    ensures r.facteurs.Some? ==> 3 <= r.facteurs.value.nombre <= 12
    ensures r.prediction == RecolteBonne <==> r.probaBonne == 70
    ensures r.prediction == RecolteMauvaise <==> r.probaMauvaise == 70
  {
    var q := Recentes(historique);
    if |q| < 3 then Prevision(0.0, 50, 50, RecolteMoyenne, None) else PrevisionSur(q)
  }

  /** Fewer than three records: nothing is forecast, at even odds. */
  lemma PrevisionInsuffisante(historique: seq<real>)
    requires |historique| < 3
    ensures PrevisionDe(historique) == Prevision(0.0, 50, 50, RecolteMoyenne, None)
  {
  }

  /** The two end terms alone already weigh half the squared gap between the end values. */
  lemma {:induction false} CarresExtremes(q: seq<real>, m: real)
    requires |q| >= 2
    ensures 2.0 * Sum(Carres(q, m)) >= Carre(q[0] - q[|q| - 1])
  {
    var c := Carres(q, m);
    var n := |q|;
    var milieu := c[1..n - 1];
    assert c == [c[0]] + milieu + [c[n - 1]];
    SumAppend([c[0]] + milieu, [c[n - 1]]);
    SumAppend([c[0]], milieu);
    assert Sum([c[0]]) == c[0] by { assert [c[0]][..0] == []; }
    assert Sum([c[n - 1]]) == c[n - 1] by { assert [c[n - 1]][..0] == []; }
    SumNonNegative(milieu);
    assert Sum(c) >= c[0] + c[n - 1];
    EcartsExtremes(q[0], q[n - 1], m, c[0], c[n - 1]);
  }

  /** `2((a - m)^2 + (b - m)^2) >= (a - b)^2`. */
  lemma EcartsExtremes(a: real, b: real, m: real, ca: real, cb: real)
    requires ca == Carre(a - m) && cb == Carre(b - m)
    ensures 2.0 * (ca + cb) >= Carre(a - b)
  {
    assert 2.0 * (ca + cb) - Carre(a - b) == Carre(a + b - 2.0 * m);
  }

  /** `v >= t * t * n / 2` from `v * n == s`, `2s >= (t * n)^2` and `n > 0`. */
  lemma VarianceMinoree(t: real, n: real, v: real, s: real)
    requires n > 0.0 && v * n == s && 2.0 * s >= Carre(t * n)
    ensures v >= 0.5 * Carre(t) * n
  {
    var c := Carre(t);
    assert Carre(t * n) == c * n * n;
    assert v * n >= (0.5 * c * n) * n;
    if v < 0.5 * c * n {
      ProduitPositif(0.5 * c * n - v, n);
    }
  }

  /** With `t * n == x`, `v * n == s`, `2s >= x^2` and `n >= 3`: `(1.2 t)^2 <= v`. */
  lemma EcartBorne(t: real, v: real, n: real, x: real, s: real)
    requires n >= 3.0 && t * n == x && v * n == s && 2.0 * s >= Carre(x)
    ensures 1.44 * Carre(t) <= v
  {
    VarianceMinoree(t, n, v, s);
    ProduitNonNegatif(Carre(t), n - 3.0);
  }

  /**
   * The trend term of three records or more never exceeds the standard
   * deviation: the end values alone give a variance of at least
   * `(q[0] - q[n-1])^2 / (2n)`, and `1.44 / n^2 <= 1 / (2n)` from `n >= 3`.
   */
  lemma TendanceContenue(q: seq<real>)
    requires |q| >= 3
    ensures 1.44 * Carre(Tendance(q)) <= VarianceAutour(q, MoyenneDe(q))
  {
    var m := MoyenneDe(q);
    var t, v, n, x, s := Tendance(q), VarianceAutour(q, m), |q| as real, q[0] - q[|q| - 1], Sum(Carres(q, m));
    // The two quotients first, before the square bound enters the context.
    assert t * n == x && v * n == s;
    CarresExtremes(q, m);
    EcartBorne(t, v, n, x, s);
  }

  /** A forecast within one standard deviation of the mean is 'moyenne'. */
  lemma AuCentre(m: real, t: real, v: real)
    requires 1.44 * Carre(t) <= v
    ensures !AuDessus(m + t * 1.2, m, v) && !AuDessous(m + t * 1.2, m, v)
  {
    assert (m + t * 1.2 - m) * (m + t * 1.2 - m) == 1.44 * Carre(t);
  }

  /** From three records on the forecast is always 'moyenne'. */
  lemma PrevisionSurMoyenne(q: seq<real>)
    requires |q| >= 3
    ensures PrevisionSur(q).prediction == RecolteMoyenne
  {
    var f := FacteursDe(q);
    TendanceContenue(q);
    AuCentre(f.moyenneHistorique, f.tendance, f.variance);
  }

  /** Whatever the history, the prediction is 'moyenne' at 50/50: 'bonne' and 'mauvaise' never occur. */
  lemma PrevisionToujoursMoyenne(historique: seq<real>)
    ensures PrevisionDe(historique).prediction == RecolteMoyenne
    ensures PrevisionDe(historique).probaBonne == 50 && PrevisionDe(historique).probaMauvaise == 50
  {
    var q := Recentes(historique);
    if |q| >= 3 {
      PrevisionSurMoyenne(q);
    }
  }

  /** Twelve records rising by one each time: a positive trend, and still 'moyenne'. */
  lemma ScenarioHausseReguliere()
    ensures var h := [12.0, 11.0, 10.0, 9.0, 8.0, 7.0, 6.0, 5.0, 4.0, 3.0, 2.0, 1.0];
      PrevisionDe(h).prediction == RecolteMoyenne && PrevisionDe(h).facteurs.value.tendance > 0.0
  {
    var h := [12.0, 11.0, 10.0, 9.0, 8.0, 7.0, 6.0, 5.0, 4.0, 3.0, 2.0, 1.0];
    PrevisionToujoursMoyenne(h);
    assert Recentes(h) == h;
  }
}
