/**
 * Regional and national statistics (`routes/statistiques.py`), over the
 * holdings the database queries would fetch: the region comparison (area
 * totals and means, dominant crop, shares of the national area), the
 * per-crop breakdown of one region, the evolution sample dates and their
 * running counts, and the `or 0` reading of SQL sums.
 */
module Statistiques {
  import opened Common

  /** A holding (`Exploitation`), reduced to the columns the statistics read. */
  datatype Exploitation = Exploitation(
    superficie: real,
    culture: Option<string>,
    region: int,
    prefecture: int,
    creeLe: int)

  function Superficies(es: seq<Exploitation>): (r: seq<real>)
    ensures |r| == |es|
    ensures forall i :: 0 <= i < |es| ==> r[i] == es[i].superficie
  {
    seq(|es|, i requires 0 <= i < |es| => es[i].superficie)
  }

  /** `sum(e.superficie_totale for e in exploitations)`. */
  function SurfaceTotale(es: seq<Exploitation>): real {
    Sum(Superficies(es))
  }

  lemma SurfaceAjout(es: seq<Exploitation>, e: Exploitation)
    ensures SurfaceTotale(es + [e]) == SurfaceTotale(es) + e.superficie
  {
    assert Superficies(es + [e])[..|es|] == Superficies(es);
  }

  /** The holdings of one region, in query order. */
  function DeLaRegion(es: seq<Exploitation>, r: int): seq<Exploitation> {
    if es == [] then []
    else DeLaRegion(es[..|es| - 1], r) + (if es[|es| - 1].region == r then [es[|es| - 1]] else [])
  }

  // ---------------------------------------------------------------------
  // The crop dictionary (keys in insertion order).

  /** A holding takes part in the crop counts iff its crop is truthy. */
  predicate Cultivee(e: Exploitation) { TruthyText(e.culture) }

  /** The dictionary keys: each truthy crop, in order of first appearance. */
  function ClesCultures(es: seq<Exploitation>): seq<string> {
    if es == [] then []
    else
      var cles := ClesCultures(es[..|es| - 1]);
      var e := es[|es| - 1];
      if Cultivee(e) && e.culture.value !in cles then cles + [e.culture.value] else cles
  }

  /** How many holdings grow `c`. */
  function Compte(es: seq<Exploitation>, c: string): nat {
    if es == [] then 0
    else Compte(es[..|es| - 1], c) + (if es[|es| - 1].culture == Some(c) then 1 else 0)
  }

  /** The area of the holdings growing `c`. */
  function SurfaceCulture(es: seq<Exploitation>, c: string): real {
    if es == [] then 0.0
    else SurfaceCulture(es[..|es| - 1], c) + (if es[|es| - 1].culture == Some(c) then es[|es| - 1].superficie else 0.0)
  }

  /** How one more holding changes the keys, counts and areas. */
  lemma Ajout(es: seq<Exploitation>, e: Exploitation)
    ensures ClesCultures(es + [e])
      == if Cultivee(e) && e.culture.value !in ClesCultures(es) then ClesCultures(es) + [e.culture.value] else ClesCultures(es)
    ensures forall c :: Compte(es + [e], c) == Compte(es, c) + (if e.culture == Some(c) then 1 else 0)
    ensures forall c :: SurfaceCulture(es + [e], c) == SurfaceCulture(es, c) + (if e.culture == Some(c) then e.superficie else 0.0)
  {
    assert (es + [e])[..|es|] == es;
  }

  lemma AjoutCompte(es: seq<Exploitation>, e: Exploitation, c: string)
    ensures Compte(es + [e], c) == Compte(es, c) + (if e.culture == Some(c) then 1 else 0)
  {
    assert (es + [e])[..|es|] == es;
  }

  lemma AjoutSurface(es: seq<Exploitation>, e: Exploitation, c: string)
    ensures SurfaceCulture(es + [e], c) == SurfaceCulture(es, c) + (if e.culture == Some(c) then e.superficie else 0.0)
  {
    assert (es + [e])[..|es|] == es;
  }

  predicate Distincts(s: seq<string>) {
    forall i, j :: 0 <= i < j < |s| ==> s[i] != s[j]
  }

  /** The keys are distinct, and a crop is a key iff some holding grows it and it is non-empty. */
  lemma {:induction false} ClesCulturesMembres(es: seq<Exploitation>)
    ensures Distincts(ClesCultures(es))
    ensures forall c :: c in ClesCultures(es) <==> |c| > 0 && Compte(es, c) > 0
  {
    if es != [] {
      ClesCulturesMembres(es[..|es| - 1]);
    }
  }

  /** The counting loop of `comparer_regions`: `cultures[c] = cultures.get(c, 0) + 1`. */
  method CompterCultures(es: seq<Exploitation>) returns (cles: seq<string>, comptes: map<string, nat>)
    ensures cles == ClesCultures(es)
    ensures forall c :: c in comptes <==> c in cles
    ensures forall c :: c in comptes ==> comptes[c] == Compte(es, c)
  {
    cles, comptes := [], map[];
    for i := 0 to |es|
      invariant cles == ClesCultures(es[..i])
      invariant forall c :: c in comptes <==> c in cles
      invariant forall c :: c in comptes ==> |c| > 0
      invariant forall c :: c in comptes ==> comptes[c] == Compte(es[..i], c)
    {
      assert es[..i + 1] == es[..i] + [es[i]];
      Ajout(es[..i], es[i]);
      var e := es[i];
      if e.culture.Some? && |e.culture.value| > 0 {
        var c := e.culture.value;
        if c !in comptes {
          ClesCulturesMembres(es[..i]);
          cles := cles + [c];
          comptes := comptes[c := 0];
        }
        comptes := comptes[c := comptes[c] + 1];
      }
      forall d | d in comptes
        ensures comptes[d] == Compte(es[..i + 1], d)
      {
        AjoutCompte(es[..i], e, d);
      }
    }
    assert es[..|es|] == es;
  }

  /** The counts of the keys, in key order. */
  function ComptesDe(es: seq<Exploitation>, cles: seq<string>): (r: seq<int>)
    ensures |r| == |cles|
    ensures forall i :: 0 <= i < |cles| ==> r[i] == Compte(es, cles[i])
  {
    seq(|cles|, i requires 0 <= i < |cles| => Compte(es, cles[i]) as int)
  }

  /** `max(cultures.items(), key=count)[0] if cultures else None`. */
  function CulturePrincipale(es: seq<Exploitation>): Option<string> {
    var cles := ClesCultures(es);
    if cles == [] then None else Some(cles[FirstMaxIndex(ComptesDe(es, cles))])
  }

  /**
   * No dominant crop iff no holding has a truthy crop; otherwise the
   * dominant crop is grown by some holding, no crop is grown more often,
   * and every crop that appeared before it is grown strictly less often.
   */
  lemma CulturePrincipaleCaracterisee(es: seq<Exploitation>)
    ensures CulturePrincipale(es).None? <==> forall i :: 0 <= i < |es| ==> !Cultivee(es[i])
    ensures CulturePrincipale(es).Some? ==>
      var c := CulturePrincipale(es).value;
      var cles := ClesCultures(es);
      |c| > 0 && Compte(es, c) > 0
      && (forall d :: |d| > 0 ==> Compte(es, d) <= Compte(es, c))
      && (forall k :: 0 <= k < |cles| && cles[k] == c ==> forall j :: 0 <= j < k ==> Compte(es, cles[j]) < Compte(es, c))
  {
    var cles := ClesCultures(es);
    ClesCulturesMembres(es);
    if cles == [] {
      forall i | 0 <= i < |es|
        ensures !Cultivee(es[i])
      {
        if es[i].culture.Some? {
          CompteMembre(es, i);
        }
      }
    } else {
      var k := FirstMaxIndex(ComptesDe(es, cles));
      var c := cles[k];
      assert c in cles;
      forall d | |d| > 0
        ensures Compte(es, d) <= Compte(es, c)
      {
        if Compte(es, d) > 0 {
          assert d in cles;
          var m :| 0 <= m < |cles| && cles[m] == d;
          assert ComptesDe(es, cles)[m] <= ComptesDe(es, cles)[k];
        }
      }
      var i := CompteTemoin(es, c);
      assert Cultivee(es[i]);
    }
  }

  lemma {:induction false} CompteMembre(es: seq<Exploitation>, i: nat)
    requires i < |es| && es[i].culture.Some?
    ensures Compte(es, es[i].culture.value) > 0
  {
    if i < |es| - 1 {
      CompteMembre(es[..|es| - 1], i);
    }
  }

  lemma {:induction false} CompteTemoin(es: seq<Exploitation>, c: string) returns (i: nat)
    requires Compte(es, c) > 0
    ensures i < |es| && es[i].culture == Some(c)
  {
    if es[|es| - 1].culture == Some(c) {
      i := |es| - 1;
    } else {
      i := CompteTemoin(es[..|es| - 1], c);
    }
  }

  // ---------------------------------------------------------------------
  // Region comparison.

  /** One item of `comparaison`. */
  datatype Ligne = Ligne(
    region: int,
    nombre: nat,
    superficie: real,
    moyenne: real,
    culturePrincipale: Option<string>,
    pourcentage: real)

  /** The item of region `r` before the percentages are set. */
  function LigneDe(r: int, es: seq<Exploitation>): Ligne {
    var ex := DeLaRegion(es, r);
    var total := SurfaceTotale(ex);
    Ligne(r, |ex|, total, if ex != [] then total / |ex| as real else 0.0, CulturePrincipale(ex), 0.0)
  }

  /** `sum(c['superficie_totale'] for c in comparaison)`. */
  function Nationale(ls: seq<Ligne>): real {
    Sum(seq(|ls|, i requires 0 <= i < |ls| => ls[i].superficie))
  }

  /** The share of the national area, left at 0 when the national area is not positive. */
  function AvecPourcentage(l: Ligne, nationale: real): Ligne {
    if nationale > 0.0 then l.(pourcentage := (l.superficie / nationale) * 100.0) else l
  }

  /** The items of the regions, in the order given, before the percentages are set. */
  function Lignes(regions: seq<int>, es: seq<Exploitation>): seq<Ligne> {
    seq(|regions|, i requires 0 <= i < |regions| => LigneDe(regions[i], es))
  }

  /** Every item with its share of `nationale` set. */
  function AvecPourcentages(ls: seq<Ligne>, nationale: real): seq<Ligne> {
    seq(|ls|, i requires 0 <= i < |ls| => AvecPourcentage(ls[i], nationale))
  }

  /** The shares of a list of items. */
  function Pourcentages(ls: seq<Ligne>): seq<real> {
    seq(|ls|, i requires 0 <= i < |ls| => ls[i].pourcentage)
  }

  /** Specification of `comparer_regions`: the items and the national area. */
  function Comparaison(regions: seq<int>, es: seq<Exploitation>): (seq<Ligne>, real) {
    var ls := Lignes(regions, es);
    var n := Nationale(ls);
    (AvecPourcentages(ls, n), n)
  }

  /** `comparer_regions`: one item per region, then the percentages set in place. */
  method ComparerRegions(regions: seq<int>, es: seq<Exploitation>) returns (comparaison: seq<Ligne>, nationale: real)
    ensures (comparaison, nationale) == Comparaison(regions, es)
  {
    comparaison := [];
    for i := 0 to |regions|
      invariant comparaison == seq(i, k requires 0 <= k < i => LigneDe(regions[k], es))
    {
      var ligne := LigneRegion(regions[i], es);
      comparaison := comparaison + [ligne];
    }
    assert comparaison == Lignes(regions, es);
    var avant := comparaison;
    nationale := Nationale(comparaison);
    for i := 0 to |comparaison|
      invariant |comparaison| == |avant|
      invariant forall k :: 0 <= k < i ==> comparaison[k] == AvecPourcentage(avant[k], nationale)
      invariant forall k :: i <= k < |avant| ==> comparaison[k] == avant[k]
    {
      if nationale > 0.0 {
        comparaison := comparaison[i := comparaison[i].(pourcentage := (comparaison[i].superficie / nationale) * 100.0)];
      }
    }
    assert comparaison == AvecPourcentages(avant, nationale);
  }

  /** The body of the per-region loop. */
  method LigneRegion(r: int, es: seq<Exploitation>) returns (ligne: Ligne)
    ensures ligne == LigneDe(r, es)
  {
    var ex := DeLaRegion(es, r);
    var total := SurfaceTotale(ex);
    var moyenne := if ex != [] then total / |ex| as real else 0.0;
    var cles, comptes := CompterCultures(ex);
    var principale: Option<string> := None;
    if cles != [] {
      var nombres := seq(|cles|, k requires 0 <= k < |cles| => comptes[cles[k]] as int);
      assert nombres == ComptesDe(ex, cles);
      principale := Some(cles[FirstMaxIndex(nombres)]);
    }
    ligne := Ligne(r, |ex|, total, moyenne, principale, 0.0);
  }

  /** The mean area times the count gives the total; a region without holdings has mean and total 0. */
  lemma MoyenneRegion(r: int, es: seq<Exploitation>)
    ensures var l := LigneDe(r, es);
      (l.nombre > 0 ==> l.moyenne * l.nombre as real == l.superficie)
      && (l.nombre == 0 ==> l.moyenne == 0.0 && l.superficie == 0.0)
  {
    var ex := DeLaRegion(es, r);
    if ex != [] {
      Quotient(SurfaceTotale(ex), |ex| as real);
    } else {
      assert Superficies(ex) == [];
    }
  }

  /** `sum(x / n * 100 for x in s) == sum(s) / n * 100`. */
  lemma {:induction false} SommeParts(s: seq<real>, n: real)
    requires n > 0.0
    ensures Sum(seq(|s|, i requires 0 <= i < |s| => (s[i] / n) * 100.0)) == (Sum(s) / n) * 100.0
  {
    var p := seq(|s|, i requires 0 <= i < |s| => (s[i] / n) * 100.0);
    if s != [] {
      var t := s[..|s| - 1];
      var x := s[|s| - 1];
      SommeParts(t, n);
      assert p[..|s| - 1] == seq(|t|, i requires 0 <= i < |t| => (t[i] / n) * 100.0);
      PartsAdditives(Sum(t), x, n);
    }
  }

  lemma PartsAdditives(a: real, b: real, n: real)
    requires n > 0.0
    ensures (a / n) * 100.0 + (b / n) * 100.0 == ((a + b) / n) * 100.0
  {
  }

  /** The share of an item times the national area is its area times 100. */
  predicate PartExacte(l: Ligne, n: real) {
    l.pourcentage * n == l.superficie * 100.0
  }

  /**
   * With a positive national area the shares add up to 100 and each is the
   * region's area over the national one; otherwise every share stays 0.
   * The national area is the sum of the regional totals.
   */
  lemma PourcentagesComplets(regions: seq<int>, es: seq<Exploitation>)
    ensures var (ls, n) := Comparaison(regions, es);
      |ls| == |regions|
      && n == Sum(seq(|regions|, i requires 0 <= i < |regions| => SurfaceTotale(DeLaRegion(es, regions[i]))))
      && (n > 0.0 ==> Sum(Pourcentages(ls)) == 100.0)
      && (n > 0.0 ==> forall i :: 0 <= i < |ls| ==> PartExacte(ls[i], n))
      && (n <= 0.0 ==> forall i :: 0 <= i < |ls| ==> ls[i].pourcentage == 0.0)
  {
    var avant := Lignes(regions, es);
    var sup := seq(|avant|, i requires 0 <= i < |avant| => avant[i].superficie);
    assert sup == seq(|regions|, i requires 0 <= i < |regions| => SurfaceTotale(DeLaRegion(es, regions[i])));
    var n := Nationale(avant);
    var ls := AvecPourcentages(avant, n);
    assert Comparaison(regions, es) == (ls, n);
    PourcentagesListe(avant);
    if n > 0.0 {
      assert Sum(Pourcentages(ls)) == 100.0;
    }
  }

  /** The share properties for any list of items whose shares start at 0. */
  lemma PourcentagesListe(avant: seq<Ligne>)
    requires forall i :: 0 <= i < |avant| ==> avant[i].pourcentage == 0.0
    ensures var n := Nationale(avant);
      var ls := AvecPourcentages(avant, n);
      (n > 0.0 ==> Sum(Pourcentages(ls)) == 100.0)
      && (n > 0.0 ==> forall i :: 0 <= i < |ls| ==> PartExacte(ls[i], n))
      && (n <= 0.0 ==> forall i :: 0 <= i < |ls| ==> ls[i].pourcentage == 0.0)
  {
    var n := Nationale(avant);
    if n > 0.0 {
      SommePourcentages(avant, n);
      PourcentagesExacts(avant, n);
    }
  }

  /** With a positive national area, the shares of a list of items add up to 100. */
  lemma SommePourcentages(ls: seq<Ligne>, n: real)
    requires n > 0.0 && n == Nationale(ls)
    ensures Sum(Pourcentages(AvecPourcentages(ls, n))) == 100.0
  {
    var sup := seq(|ls|, i requires 0 <= i < |ls| => ls[i].superficie);
    SommeParts(sup, n);
    assert Pourcentages(AvecPourcentages(ls, n))
        == seq(|sup|, i requires 0 <= i < |sup| => (sup[i] / n) * 100.0);
    assert Sum(sup) == n;
    Unite(n);
  }

  lemma Unite(n: real)
    requires n > 0.0
    ensures (n / n) * 100.0 == 100.0
  {
  }

  lemma PourcentagesExacts(ls: seq<Ligne>, n: real)
    requires n > 0.0
    ensures forall i :: 0 <= i < |ls| ==> PartExacte(AvecPourcentage(ls[i], n), n)
  {
    forall i | 0 <= i < |ls|
      ensures PartExacte(AvecPourcentage(ls[i], n), n)
    {
      Quotient(ls[i].superficie, n);
    }
  }

  // ---------------------------------------------------------------------
  // Per-crop breakdown of one region.

  /** One item of `repartition_par_culture`. */
  datatype Part = Part(culture: string, nombre: nat, superficie: real)

  /** Specification of the breakdown: one item per key, in key order. */
  function Repartition(es: seq<Exploitation>): seq<Part> {
    var cles := ClesCultures(es);
    seq(|cles|, i requires 0 <= i < |cles| => Part(cles[i], Compte(es, cles[i]), SurfaceCulture(es, cles[i])))
  }

  /** The loop of `get_statistiques_regionales` filling `cultures[c]['nombre']` and `['superficie']`. */
  method RepartitionCultures(es: seq<Exploitation>) returns (parts: seq<Part>)
    ensures parts == Repartition(es)
  {
    var cles: seq<string> := [];
    var nombres: map<string, nat> := map[];
    var surfaces: map<string, real> := map[];
    for i := 0 to |es|
      invariant cles == ClesCultures(es[..i])
      invariant forall c :: c in nombres <==> c in cles
      invariant forall c :: c in nombres ==> |c| > 0
      invariant forall c :: c in surfaces <==> c in cles
      invariant forall c :: c in nombres ==> nombres[c] == Compte(es[..i], c)
      invariant forall c :: c in surfaces ==> surfaces[c] == SurfaceCulture(es[..i], c)
    {
      assert es[..i + 1] == es[..i] + [es[i]];
      Ajout(es[..i], es[i]);
      var e := es[i];
      if e.culture.Some? && |e.culture.value| > 0 {
        var c := e.culture.value;
        if c !in nombres {
          ClesCulturesMembres(es[..i]);
          AbsentSansSurface(es[..i], c);
          cles := cles + [c];
          nombres := nombres[c := 0];
          surfaces := surfaces[c := 0.0];
        }
        nombres := nombres[c := nombres[c] + 1];
        surfaces := surfaces[c := surfaces[c] + e.superficie];
      }
      forall d | d in nombres
        ensures nombres[d] == Compte(es[..i + 1], d)
      {
        AjoutCompte(es[..i], e, d);
      }
      forall d | d in surfaces
        ensures surfaces[d] == SurfaceCulture(es[..i + 1], d)
      {
        AjoutSurface(es[..i], e, d);
      }
    }
    assert es[..|es|] == es;
    assert forall k :: 0 <= k < |cles| ==> cles[k] in nombres;
    parts := seq(|cles|, k requires 0 <= k < |cles| => Part(cles[k], nombres[cles[k]], surfaces[cles[k]]));
  }

  /** The number of holdings with a truthy crop. */
  function NombreCultivees(es: seq<Exploitation>): nat {
    if es == [] then 0 else NombreCultivees(es[..|es| - 1]) + (if Cultivee(es[|es| - 1]) then 1 else 0)
  }

  /** The area of the holdings with a truthy crop. */
  function SurfaceCultivee(es: seq<Exploitation>): real {
    if es == [] then 0.0
    else SurfaceCultivee(es[..|es| - 1]) + (if Cultivee(es[|es| - 1]) then es[|es| - 1].superficie else 0.0)
  }

  function SommeNombres(ps: seq<Part>): nat {
    if ps == [] then 0 else SommeNombres(ps[..|ps| - 1]) + ps[|ps| - 1].nombre
  }

  function SommeSurfaces(ps: seq<Part>): real {
    if ps == [] then 0.0 else SommeSurfaces(ps[..|ps| - 1]) + ps[|ps| - 1].superficie
  }

  /** Sums of the counts and areas of a list of keys. */
  function ComptesCles(es: seq<Exploitation>, cles: seq<string>): nat {
    if cles == [] then 0 else ComptesCles(es, cles[..|cles| - 1]) + Compte(es, cles[|cles| - 1])
  }

  function SurfacesCles(es: seq<Exploitation>, cles: seq<string>): real {
    if cles == [] then 0.0 else SurfacesCles(es, cles[..|cles| - 1]) + SurfaceCulture(es, cles[|cles| - 1])
  }

  /** One more holding adds one to the key sum iff its crop is one of the (distinct) keys. */
  lemma {:induction false} ComptesClesAjout(es: seq<Exploitation>, e: Exploitation, cles: seq<string>)
    requires Distincts(cles)
    ensures ComptesCles(es + [e], cles)
      == ComptesCles(es, cles) + (if e.culture.Some? && e.culture.value in cles then 1 else 0)
    ensures SurfacesCles(es + [e], cles)
      == SurfacesCles(es, cles) + (if e.culture.Some? && e.culture.value in cles then e.superficie else 0.0)
  {
    assert (es + [e])[..|es|] == es;
    if cles != [] {
      var debut := cles[..|cles| - 1];
      assert Distincts(debut);
      ComptesClesAjout(es, e, debut);
      var c := cles[|cles| - 1];
      assert cles == debut + [c];
      assert e.culture == Some(c) ==> c !in debut;
    }
  }

  /**
   * The crop counts add up to the number of holdings with a truthy crop,
   * and the crop areas to the area of those holdings.
   */
  lemma {:induction false} RepartitionTotale(es: seq<Exploitation>)
    ensures ComptesCles(es, ClesCultures(es)) == NombreCultivees(es)
    ensures SurfacesCles(es, ClesCultures(es)) == SurfaceCultivee(es)
  {
    if es != [] {
      var debut := es[..|es| - 1];
      var e := es[|es| - 1];
      assert es == debut + [e];
      var cles := ClesCultures(debut);
      RepartitionTotale(debut);
      ClesCulturesMembres(debut);
      ComptesClesAjout(debut, e, cles);
      if Cultivee(e) && e.culture.value !in cles {
        var c := e.culture.value;
        assert Compte(debut, c) == 0;
        AbsentSansSurface(debut, c);
      }
    }
  }

  lemma {:induction false} AbsentSansSurface(es: seq<Exploitation>, c: string)
    requires Compte(es, c) == 0
    ensures SurfaceCulture(es, c) == 0.0
  {
    if es != [] {
      AbsentSansSurface(es[..|es| - 1], c);
    }
  }

  lemma {:induction false} SommesParts(es: seq<Exploitation>, cles: seq<string>)
    ensures var ps := seq(|cles|, i requires 0 <= i < |cles| => Part(cles[i], Compte(es, cles[i]), SurfaceCulture(es, cles[i])));
      SommeNombres(ps) == ComptesCles(es, cles) && SommeSurfaces(ps) == SurfacesCles(es, cles)
  {
    if cles != [] {
      var debut := cles[..|cles| - 1];
      SommesParts(es, debut);
      var ps := seq(|cles|, i requires 0 <= i < |cles| => Part(cles[i], Compte(es, cles[i]), SurfaceCulture(es, cles[i])));
      assert ps[..|cles| - 1] == seq(|debut|, i requires 0 <= i < |debut| => Part(debut[i], Compte(es, debut[i]), SurfaceCulture(es, debut[i])));
    }
  }

  /** The breakdown's `nombre` values and areas add up to the holdings with a truthy crop. */
  lemma RepartitionComplete(es: seq<Exploitation>)
    ensures SommeNombres(Repartition(es)) == NombreCultivees(es)
    ensures SommeSurfaces(Repartition(es)) == SurfaceCultivee(es)
  {
    SommesParts(es, ClesCultures(es));
    RepartitionTotale(es);
  }

  // ---------------------------------------------------------------------
  // SQL sums.

  /** `func.sum(...)` over a column: NULL over no rows. */
  function SommeSql(s: seq<real>): (r: Option<real>)
    ensures r.None? <==> s == []
  {
    if s == [] then None else Some(Sum(s))
  }

  /** `value or 0` (line 28) and `float(x) if x else 0` (lines 41, 57). */
  function OuZero(o: Option<real>): (r: real)
    ensures o.Some? ==> r == o.value
    ensures o.None? ==> r == 0.0
  {
    if TruthyNum(o) then o.value else 0.0
  }

  /** A reported total is the plain sum; over no rows it is 0. */
  lemma TotalRapporte(s: seq<real>)
    ensures OuZero(SommeSql(s)) == Sum(s)
  {
  }

  // ---------------------------------------------------------------------
  // Evolution over time.

  /** The sample dates, as day numbers: 5 yearly, 12 monthly or 4 weekly steps back from now. */
  function Dates(periode: string, maintenant: int): (r: seq<int>)
    ensures |r| == (if periode == "annee" then 5 else if periode == "mois" then 12 else 4)
    ensures forall i, j :: 0 <= i < j < |r| ==> r[i] < r[j]
    ensures r[|r| - 1] < maintenant
  {
    var (n, pas) := if periode == "annee" then (5, 365) else if periode == "mois" then (12, 30) else (4, 7);
    seq(n, k requires 0 <= k < n => maintenant - pas * (n - k))
  }

  /** `query.filter(created_at <= date).count()`, restricted to the region when `region_id` is truthy. */
  function CreesAvant(es: seq<Exploitation>, date: int, regionId: Option<int>): nat {
    if es == [] then 0
    else
      var e := es[|es| - 1];
      CreesAvant(es[..|es| - 1], date, regionId)
        + (if e.creeLe <= date && (!TruthyInt(regionId) || e.region == regionId.value) then 1 else 0)
  }

  datatype Point = Point(date: int, nombre: nat)

  function Evolution(periode: string, maintenant: int, regionId: Option<int>, es: seq<Exploitation>): seq<Point> {
    var dates := Dates(periode, maintenant);
    seq(|dates|, i requires 0 <= i < |dates| => Point(dates[i], CreesAvant(es, dates[i], regionId)))
  }

  /** `get_evolution_temporelle`: one count per sample date. */
  method EvolutionTemporelle(periode: string, maintenant: int, regionId: Option<int>, es: seq<Exploitation>)
    returns (evolution: seq<Point>)
    ensures evolution == Evolution(periode, maintenant, regionId, es)
  {
    var dates := Dates(periode, maintenant);
    evolution := [];
    for i := 0 to |dates|
      invariant evolution == seq(i, k requires 0 <= k < i => Point(dates[k], CreesAvant(es, dates[k], regionId)))
    {
      evolution := evolution + [Point(dates[i], CreesAvant(es, dates[i], regionId))];
    }
  }

  lemma {:induction false} CreesAvantMonotone(es: seq<Exploitation>, d1: int, d2: int, regionId: Option<int>)
    requires d1 <= d2
    ensures CreesAvant(es, d1, regionId) <= CreesAvant(es, d2, regionId)
  {
    if es != [] {
      CreesAvantMonotone(es[..|es| - 1], d1, d2, regionId);
    }
  }

  /** The counts never decrease along the evolution, and none exceeds the number of holdings. */
  lemma EvolutionCroissante(periode: string, maintenant: int, regionId: Option<int>, es: seq<Exploitation>)
    ensures var ev := Evolution(periode, maintenant, regionId, es);
      (forall i, j :: 0 <= i < j < |ev| ==> ev[i].date < ev[j].date && ev[i].nombre <= ev[j].nombre)
      && (forall i :: 0 <= i < |ev| ==> ev[i].nombre <= |es|)
  {
    var ev := Evolution(periode, maintenant, regionId, es);
    forall i, j | 0 <= i < j < |ev|
      ensures ev[i].nombre <= ev[j].nombre
    {
      CreesAvantMonotone(es, ev[i].date, ev[j].date, regionId);
    }
    forall i | 0 <= i < |ev|
      ensures ev[i].nombre <= |es|
    {
      CreesAvantBorne(es, ev[i].date, regionId);
    }
  }

  lemma {:induction false} CreesAvantBorne(es: seq<Exploitation>, date: int, regionId: Option<int>)
    ensures CreesAvant(es, date, regionId) <= |es|
  {
    if es != [] {
      CreesAvantBorne(es[..|es| - 1], date, regionId);
    }
  }
}
