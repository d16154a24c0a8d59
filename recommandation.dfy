/**
 * Recommendation engine (`generate_recommandations`): independent threshold
 * rules on the latest soil analysis (pH, then N/P/K on the latest analysis or
 * on averages over the three latest), on the latest climate window
 * (rainfall) and on the latest farm input (staleness), followed by an
 * informational fallback when the holding has neither analyses nor climate
 * data. The database queries become three sequences given newest first.
 *
 * Each rule is specified in two steps: which subjects it raises (a sequence
 * of `Sujet`), then the recommendations it issues for them, all carrying the
 * rule's parameter map and plot.
 */
module Recommandation {
  import opened Common

  /** One soil analysis; `date_prelevement` is a day number. */
  datatype AnalyseSol = AnalyseSol(
    datePrelevement: int,
    ph: Option<real>,
    azoteN: Option<real>,
    phosphoreP: Option<real>,
    potassiumK: Option<real>,
    parcelleId: Option<int>)

  /** One climate window; dates are day numbers. */
  datatype DonneeClimatique = DonneeClimatique(
    dateDebut: int,
    dateFin: int,
    temperatureMin: Option<real>,
    temperatureMax: Option<real>,
    pluviometrie: Option<real>)

  /** One farm input (fertiliser, pesticide, seed, ...). */
  datatype Intrant = Intrant(typeIntrant: string, dateApplication: int, parcelleId: Option<int>)

  datatype TypeRecommandation = Amendement | Fertilisation | Irrigation | GestionEau | Planification | Information

  /** What a recommendation is about (its `titre`). */
  datatype Sujet =
    | SolTropAcide
    | SolTropAlcalin
    | CarenceAzote
    | CarencePhosphore
    | CarencePotassium
    | PluviometrieInsuffisante
    | PluviometrieExcessive
    | RevisionIntrants
    | DonneesInsuffisantes

  datatype Recommandation = Recommandation(
    sujet: Sujet,
    typeRecommandation: TypeRecommandation,
    parametres: Params,
    priorite: Priority,
    parcelleId: Option<int>)

  /** The list, or the ZeroDivisionError raised by an average over no value. */
  datatype Resultat = Recommandations(liste: seq<Recommandation>) | DivisionParZero

  /** Position of each subject in the order the rules run. */
  function Rang(s: Sujet): nat {
    match s
    case SolTropAcide => 0
    case SolTropAlcalin => 1
    case CarenceAzote => 2
    case CarencePhosphore => 3
    case CarencePotassium => 4
    case PluviometrieInsuffisante => 5
    case PluviometrieExcessive => 6
    case RevisionIntrants => 7
    case DonneesInsuffisantes => 8
  }

  /** The type each subject is issued with. */
  function TypeDe(s: Sujet): TypeRecommandation {
    match s
    case SolTropAcide => Amendement
    case SolTropAlcalin => Amendement
    case CarenceAzote => Fertilisation
    case CarencePhosphore => Fertilisation
    case CarencePotassium => Fertilisation
    case PluviometrieInsuffisante => Irrigation
    case PluviometrieExcessive => GestionEau
    case RevisionIntrants => Planification
    case DonneesInsuffisantes => Information
  }

  /** The priority each subject is issued with. */
  function PrioriteDe(s: Sujet): Priority {
    match s
    case SolTropAcide => Elevee
    case CarenceAzote => Elevee
    case CarencePhosphore => Elevee
    case PluviometrieInsuffisante => Elevee
    case DonneesInsuffisantes => Faible
    case _ => Moyenne
  }

  // ---------------------------------------------------------------------
  // Lists of subjects and the recommendations issued for them.

  function SujetsDe(rs: seq<Recommandation>): (ss: seq<Sujet>)
    ensures |ss| == |rs|
    ensures forall i :: 0 <= i < |rs| ==> ss[i] == rs[i].sujet
  {
    seq(|rs|, i requires 0 <= i < |rs| => rs[i].sujet)
  }

  lemma SujetsDeConcat(a: seq<Recommandation>, b: seq<Recommandation>)
    ensures SujetsDe(a + b) == SujetsDe(a) + SujetsDe(b)
  {
    assert forall i :: 0 <= i < |a + b| ==> (a + b)[i] == (if i < |a| then a[i] else b[i - |a|]);
  }

  predicate HasSujet(rs: seq<Recommandation>, s: Sujet) { s in SujetsDe(rs) }

  /** Ranks strictly increase, so no subject appears twice. */
  predicate Croissants(ss: seq<Sujet>) {
    forall i, j :: 0 <= i < j < |ss| ==> Rang(ss[i]) < Rang(ss[j])
  }

  /** Every subject of `ss` has its rank in [lo, hi). */
  predicate RangsDans(ss: seq<Sujet>, lo: nat, hi: nat) {
    forall i :: 0 <= i < |ss| ==> lo <= Rang(ss[i]) < hi
  }

  lemma CroissantsConcat(a: seq<Sujet>, b: seq<Sujet>, lo: nat, mid: nat, hi: nat)
    requires lo <= mid <= hi
    requires Croissants(a) && Croissants(b) && RangsDans(a, lo, mid) && RangsDans(b, mid, hi)
    ensures Croissants(a + b) && RangsDans(a + b, lo, hi)
  {
    forall i, j | 0 <= i < j < |a + b| ensures Rang((a + b)[i]) < Rang((a + b)[j]) {
      if j < |a| {
        assert (a + b)[i] == a[i] && (a + b)[j] == a[j];
      } else if i >= |a| {
        assert (a + b)[i] == b[i - |a|] && (a + b)[j] == b[j - |a|];
      } else {
        assert (a + b)[i] == a[i] && (a + b)[j] == b[j - |a|];
      }
    }
    forall i | 0 <= i < |a + b| ensures lo <= Rang((a + b)[i]) < hi {
      if i < |a| { assert (a + b)[i] == a[i]; } else { assert (a + b)[i] == b[i - |a|]; }
    }
  }

  /** Subjects as a rule raises them: one, or none. */
  function Si(c: bool, s: Sujet): seq<Sujet> { if c then [s] else [] }

  /** The recommendations a rule issues for its subjects, with its parameter map and plot. */
  function Emettre(ss: seq<Sujet>, p: Params, parcelle: Option<int>): (rs: seq<Recommandation>)
    ensures |rs| == |ss|
    ensures forall i :: 0 <= i < |ss| ==> rs[i] == Recommandation(ss[i], TypeDe(ss[i]), p, PrioriteDe(ss[i]), parcelle)
  {
    seq(|ss|, i requires 0 <= i < |ss| => Recommandation(ss[i], TypeDe(ss[i]), p, PrioriteDe(ss[i]), parcelle))
  }

  lemma SujetsDeEmettre(ss: seq<Sujet>, p: Params, parcelle: Option<int>)
    ensures SujetsDe(Emettre(ss, p, parcelle)) == ss
  {
  }

  lemma EmettreUn(s: Sujet, p: Params, parcelle: Option<int>)
    ensures Emettre([s], p, parcelle) == [Recommandation(s, TypeDe(s), p, PrioriteDe(s), parcelle)]
  {
  }

  lemma EmettreConcat(a: seq<Sujet>, b: seq<Sujet>, p: Params, parcelle: Option<int>)
    ensures Emettre(a + b, p, parcelle) == Emettre(a, p, parcelle) + Emettre(b, p, parcelle)
  {
    assert forall i :: 0 <= i < |a + b| ==> (a + b)[i] == (if i < |a| then a[i] else b[i - |a|]);
  }

  // ---------------------------------------------------------------------
  // Nutrient averages over the three latest analyses.

  datatype Nutriment = Azote | Phosphore | Potassium

  function Teneur(a: AnalyseSol, n: Nutriment): Option<real> {
    match n
    case Azote => a.azoteN
    case Phosphore => a.phosphoreP
    case Potassium => a.potassiumK
  }

  /** The truthy values of a list of nullable numbers, in order. */
  function Truthy(vs: seq<Option<real>>): (r: seq<real>)
    ensures |r| <= |vs|
    ensures forall i :: 0 <= i < |r| ==> r[i] != 0.0
    ensures forall i :: 0 <= i < |r| ==> Some(r[i]) in vs
  {
    if vs == [] then []
    else
      var last := vs[|vs| - 1];
      var init := Truthy(vs[..|vs| - 1]);
      assert forall x :: x in vs[..|vs| - 1] ==> x in vs;
      if TruthyNum(last) then init + [last.value] else init
  }

  lemma {:induction false} TruthyVide(vs: seq<Option<real>>)
    ensures Truthy(vs) == [] <==> forall i :: 0 <= i < |vs| ==> !TruthyNum(vs[i])
  {
    if vs != [] {
      TruthyVide(vs[..|vs| - 1]);
    }
  }

  /** Nutrient `n` in each of the three latest analyses. */
  function Teneurs(analyses: seq<AnalyseSol>, n: Nutriment): (ts: seq<Option<real>>)
    ensures |ts| == Min(3, |analyses|)
    ensures forall i :: 0 <= i < |ts| ==> ts[i] == Teneur(analyses[i], n)
  {
    seq(Min(3, |analyses|), i requires 0 <= i < Min(3, |analyses|) => Teneur(analyses[i], n))
  }

  /** `[a.<n> for a in analyses_sols[:3] if a.<n>]`. */
  function Valeurs(analyses: seq<AnalyseSol>, n: Nutriment): seq<real> {
    Truthy(Teneurs(analyses, n))
  }

  /** `sum(vs) / len(vs)`, or None where Python raises ZeroDivisionError. */
  function MoyenneArith(vs: seq<real>): (r: Option<real>)
    ensures r.None? <==> vs == []
  {
    if vs == [] then None else Some(Sum(vs) / |vs| as real)
  }

  /** An average lies between any bounds of the values averaged. */
  lemma MoyenneBornee(vs: seq<real>, lo: real, hi: real)
    requires vs != []
    requires forall i :: 0 <= i < |vs| ==> lo <= vs[i] <= hi
    ensures lo <= MoyenneArith(vs).value <= hi
  {
    SumBounds(vs, lo, hi);
    Encadrement(Sum(vs), |vs| as real, lo, hi);
  }

  datatype Moyennes = Moyennes(n: real, p: real, k: real)

  /** The three averages, or None as soon as one of them divides by zero. */
  function MoyennesDe(analyses: seq<AnalyseSol>): (r: Option<Moyennes>)
    ensures r.None? <==> Valeurs(analyses, Azote) == [] || Valeurs(analyses, Phosphore) == [] || Valeurs(analyses, Potassium) == []
  {
    var mn := MoyenneArith(Valeurs(analyses, Azote));
    var mp := MoyenneArith(Valeurs(analyses, Phosphore));
    var mk := MoyenneArith(Valeurs(analyses, Potassium));
    if mn.None? || mp.None? || mk.None? then None else Some(Moyennes(mn.value, mp.value, mk.value))
  }

  // ---------------------------------------------------------------------
  // The rules, one function each.

  /** The soil snapshot of the latest analysis. */
  function ParametresSol(a: AnalyseSol): Params {
    map[
      "ph" := NumOrNull(a.ph),
      "azote_n" := NumOrNull(a.azoteN),
      "phosphore_p" := NumOrNull(a.phosphoreP),
      "potassium_k" := NumOrNull(a.potassiumK),
      "date_prelevement" := VDate(a.datePrelevement)
    ]
  }

  function AvecMoyennes(p: Params, m: Moyennes): Params {
    p["moyenne_azote" := VNum(m.n)]["moyenne_phosphore" := VNum(m.p)]["moyenne_potassium" := VNum(m.k)]
  }

  predicate NpkRenseignes(a: AnalyseSol) {
    a.azoteN.Some? && a.phosphoreP.Some? && a.potassiumK.Some?
  }

  /** The pH rule on the latest analysis. */
  function SujetsPh(a: AnalyseSol): seq<Sujet> {
    if a.ph.None? then []
    else if a.ph.value < 6.0 then [SolTropAcide]
    else if a.ph.value > 7.5 then [SolTropAlcalin]
    else []
  }

  /** The three deficiency rules on the averages. */
  function SujetsCarences(m: Moyennes): seq<Sujet> {
    Si(m.n < 20.0, CarenceAzote) + Si(m.p < 15.0, CarencePhosphore) + Si(m.k < 150.0, CarencePotassium)
  }

  /** Section 1, the soil rules; None when an average divides by zero. */
  function SujetsSol(analyses: seq<AnalyseSol>): Option<seq<Sujet>> {
    if analyses == [] then Some([])
    else
      var a := analyses[0];
      if !NpkRenseignes(a) then Some(SujetsPh(a))
      else if |analyses| > 1 then
        match MoyennesDe(analyses)
        case None => None
        case Some(m) => Some(SujetsPh(a) + SujetsCarences(m))
      else Some(SujetsPh(a) + Si(a.azoteN.value < 20.0, CarenceAzote))
  }

  /**
   * The parameters every soil recommendation ends up holding. The source hands
   * one dictionary to all of them and adds the averages to it after the pH
   * recommendation was appended, so that one shows the averages too.
   */
  function ParametresSolFinal(analyses: seq<AnalyseSol>): Params
    requires analyses != []
  {
    var a := analyses[0];
    if NpkRenseignes(a) && |analyses| > 1 && MoyennesDe(analyses).Some?
    then AvecMoyennes(ParametresSol(a), MoyennesDe(analyses).value)
    else ParametresSol(a)
  }

  function RecosSol(analyses: seq<AnalyseSol>): Option<seq<Recommandation>> {
    match SujetsSol(analyses)
    case None => None
    case Some(ss) => Some(if analyses == [] then [] else Emettre(ss, ParametresSolFinal(analyses), analyses[0].parcelleId))
  }

  function ParametresClimat(d: DonneeClimatique): Params {
    map[
      "temperature_min" := NumOrNull(d.temperatureMin),
      "temperature_max" := NumOrNull(d.temperatureMax),
      "pluviometrie" := NumOrNull(d.pluviometrie),
      "periode" := VPeriod(d.dateDebut, d.dateFin)
    ]
  }

  /** Section 2, the rainfall rule on the latest climate window. */
  function SujetsClimat(climat: seq<DonneeClimatique>): seq<Sujet> {
    if climat == [] || climat[0].pluviometrie.None? then []
    else if climat[0].pluviometrie.value < 50.0 then [PluviometrieInsuffisante]
    else if climat[0].pluviometrie.value > 300.0 then [PluviometrieExcessive]
    else []
  }

  function RecosClimat(climat: seq<DonneeClimatique>): seq<Recommandation> {
    if climat == [] then [] else Emettre(SujetsClimat(climat), ParametresClimat(climat[0]), None)
  }

  /** The inputs the query returns: at most ten. */
  function IntrantsRecents(intrants: seq<Intrant>): seq<Intrant> {
    intrants[..Min(10, |intrants|)]
  }

  function Dates(intrants: seq<Intrant>): (ds: seq<int>)
    ensures |ds| == |intrants|
    ensures forall i :: 0 <= i < |intrants| ==> ds[i] == intrants[i].dateApplication
  {
    seq(|intrants|, i requires 0 <= i < |intrants| => intrants[i].dateApplication)
  }

  /**
   * `sorted(intrants, key=date_application, reverse=True)[0]`: the sort is
   * stable, so this is the first input with the latest date.
   */
  function DernierIntrant(intrants: seq<Intrant>): (d: Intrant)
    requires intrants != []
    ensures d in intrants
    ensures forall x :: x in intrants ==> x.dateApplication <= d.dateApplication
  {
    var k := FirstMaxIndex(Dates(intrants));
    assert forall x :: x in intrants ==> exists j :: 0 <= j < |intrants| && intrants[j] == x;
    intrants[k]
  }

  function ParametresIntrant(d: Intrant, jours: int): Params {
    map["dernier_intrant" := VText(d.typeIntrant), "date_application" := VDate(d.dateApplication), "jours_ecoules" := VInt(jours)]
  }

  /** Days since the latest of the ten latest inputs. */
  function JoursEcoules(intrants: seq<Intrant>, aujourdhui: int): int
    requires intrants != []
  {
    aujourdhui - DernierIntrant(IntrantsRecents(intrants)).dateApplication
  }

  /** Section 3, the staleness rule on the latest input. */
  function SujetsIntrants(intrants: seq<Intrant>, aujourdhui: int): seq<Sujet> {
    if intrants == [] then [] else Si(JoursEcoules(intrants, aujourdhui) > 90, RevisionIntrants)
  }

  function RecoIntrants(intrants: seq<Intrant>, aujourdhui: int): seq<Recommandation> {
    if intrants == [] then []
    else
      var d := DernierIntrant(IntrantsRecents(intrants));
      Emettre(SujetsIntrants(intrants, aujourdhui), ParametresIntrant(d, JoursEcoules(intrants, aujourdhui)), d.parcelleId)
  }

  const RecoInformation := Recommandation(DonneesInsuffisantes, Information, map[], Faible, None)

  /** What `generate_recommandations` returns, or the error it raises. */
  function RecommandationsDe(
    exploitationExiste: bool, analyses: seq<AnalyseSol>, climat: seq<DonneeClimatique>,
    intrants: seq<Intrant>, aujourdhui: int): Resultat
  {
    if !exploitationExiste then Recommandations([])
    else
      match RecosSol(analyses)
      case None => DivisionParZero
      case Some(sol) =>
        var rs := sol + RecosClimat(climat) + RecoIntrants(intrants, aujourdhui);
        if rs == [] && analyses == [] && climat == [] then Recommandations([RecoInformation])
        else Recommandations(rs)
  }

  // ---------------------------------------------------------------------
  // The engine.

  /**
   * Section 1 of the engine: the pH rule, then the nutrient rules. All soil
   * recommendations share one parameter dictionary, which receives the
   * averages after the pH recommendation was appended.
   */
  method RecommandationsSol(analyses: seq<AnalyseSol>) returns (r: Option<seq<Recommandation>>)
    ensures r == RecosSol(analyses)
  {
    var recommandations: seq<Recommandation> := [];
    if analyses == [] {
      return Some(recommandations);
    }
    var a := analyses[0];
    var parametres := ParametresSol(a);
    if a.ph.Some? {
      if a.ph.value < 6.0 {
        recommandations := recommandations + [Recommandation(SolTropAcide, Amendement, parametres, Elevee, a.parcelleId)];
      } else if a.ph.value > 7.5 {
        recommandations := recommandations + [Recommandation(SolTropAlcalin, Amendement, parametres, Moyenne, a.parcelleId)];
      }
    }
    assert recommandations == Emettre(SujetsPh(a), parametres, a.parcelleId);
    if a.azoteN.Some? && a.phosphoreP.Some? && a.potassiumK.Some? {
      if |analyses| > 1 {
        var moyN := MoyenneArith(Valeurs(analyses, Azote));
        if moyN.None? { return None; }
        var moyP := MoyenneArith(Valeurs(analyses, Phosphore));
        if moyP.None? { return None; }
        var moyK := MoyenneArith(Valeurs(analyses, Potassium));
        if moyK.None? { return None; }
        parametres := parametres["moyenne_azote" := VNum(moyN.value)];
        parametres := parametres["moyenne_phosphore" := VNum(moyP.value)];
        parametres := parametres["moyenne_potassium" := VNum(moyK.value)];
        ghost var m := Moyennes(moyN.value, moyP.value, moyK.value);
        var carenceN: seq<Recommandation> := [];
        if moyN.value < 20.0 {
          carenceN := [Recommandation(CarenceAzote, Fertilisation, parametres, Elevee, a.parcelleId)];
        }
        assert carenceN == Emettre(Si(m.n < 20.0, CarenceAzote), parametres, a.parcelleId);
        var carenceP: seq<Recommandation> := [];
        if moyP.value < 15.0 {
          carenceP := [Recommandation(CarencePhosphore, Fertilisation, parametres, Elevee, a.parcelleId)];
        }
        assert carenceP == Emettre(Si(m.p < 15.0, CarencePhosphore), parametres, a.parcelleId);
        var carenceK: seq<Recommandation> := [];
        if moyK.value < 150.0 {
          carenceK := [Recommandation(CarencePotassium, Fertilisation, parametres, Moyenne, a.parcelleId)];
        }
        assert carenceK == Emettre(Si(m.k < 150.0, CarencePotassium), parametres, a.parcelleId);
        var carences := carenceN + carenceP + carenceK;
        EmettreConcat(Si(m.n < 20.0, CarenceAzote), Si(m.p < 15.0, CarencePhosphore), parametres, a.parcelleId);
        EmettreConcat(Si(m.n < 20.0, CarenceAzote) + Si(m.p < 15.0, CarencePhosphore), Si(m.k < 150.0, CarencePotassium), parametres, a.parcelleId);
        // the pH recommendation shares the dictionary just updated
        recommandations := Emettre(SujetsPh(a), parametres, a.parcelleId);
        recommandations := recommandations + carences;
        EmettreConcat(SujetsPh(a), SujetsCarences(m), parametres, a.parcelleId);
        assert MoyennesDe(analyses) == Some(m);
        assert parametres == ParametresSolFinal(analyses);
        return Some(recommandations);
      }
      // a single analysis: only nitrogen is checked
      var carenceN: seq<Recommandation> := [];
      if a.azoteN.value < 20.0 {
        carenceN := [Recommandation(CarenceAzote, Fertilisation, parametres, Elevee, a.parcelleId)];
      }
      assert carenceN == Emettre(Si(a.azoteN.value < 20.0, CarenceAzote), parametres, a.parcelleId);
      EmettreConcat(SujetsPh(a), Si(a.azoteN.value < 20.0, CarenceAzote), parametres, a.parcelleId);
      recommandations := recommandations + carenceN;
    }
    assert parametres == ParametresSolFinal(analyses);
    return Some(recommandations);
  }

  /**
   * The rules run in order, appending to one list. `aujourdhui` stands for
   * `datetime.now().date()`; the three sequences are the query results,
   * newest first.
   */
  method GenerateRecommandations(
    exploitationExiste: bool,
    analyses: seq<AnalyseSol>,
    climat: seq<DonneeClimatique>,
    intrants: seq<Intrant>,
    aujourdhui: int)
    returns (resultat: Resultat)
    ensures resultat == RecommandationsDe(exploitationExiste, analyses, climat, intrants, aujourdhui)
  {
    if !exploitationExiste {
      return Recommandations([]);
    }

    // 1. soil analysis
    var sol := RecommandationsSol(analyses);
    if sol.None? {
      return DivisionParZero;
    }
    var recommandations := sol.value;

    // 2. climate
    var climatiques := RecommandationsClimat(climat);
    recommandations := recommandations + climatiques;

    // 3. latest input
    var revision := RecommandationIntrants(intrants, aujourdhui);
    recommandations := recommandations + revision;
    assert recommandations == sol.value + RecosClimat(climat) + RecoIntrants(intrants, aujourdhui);

    // fallback
    if recommandations == [] && analyses == [] && climat == [] {
      recommandations := recommandations + [RecoInformation];
    }
    return Recommandations(recommandations);
  }

  /** Section 2 of the engine: the rainfall rule on the latest climate window. */
  method RecommandationsClimat(climat: seq<DonneeClimatique>) returns (climatiques: seq<Recommandation>)
    ensures climatiques == RecosClimat(climat)
  {
    climatiques := [];
    if climat != [] {
      var d := climat[0];
      var parametresClimatiques := ParametresClimat(d);
      if d.pluviometrie.Some? {
        if d.pluviometrie.value < 50.0 {
          climatiques := [Recommandation(PluviometrieInsuffisante, Irrigation, parametresClimatiques, Elevee, None)];
          EmettreUn(PluviometrieInsuffisante, parametresClimatiques, None);
        } else if d.pluviometrie.value > 300.0 {
          climatiques := [Recommandation(PluviometrieExcessive, GestionEau, parametresClimatiques, Moyenne, None)];
          EmettreUn(PluviometrieExcessive, parametresClimatiques, None);
        }
      }
    }
  }

  /** Section 3 of the engine: the staleness rule on the latest farm input. */
  method RecommandationIntrants(intrants: seq<Intrant>, aujourdhui: int) returns (revision: seq<Recommandation>)
    ensures revision == RecoIntrants(intrants, aujourdhui)
  {
    revision := [];
    if intrants != [] {
      var dernier := DernierIntrant(IntrantsRecents(intrants));
      var joursEcoules := aujourdhui - dernier.dateApplication;
      if joursEcoules > 90 {
        revision := [Recommandation(RevisionIntrants, Planification, ParametresIntrant(dernier, joursEcoules), Moyenne, dernier.parcelleId)];
        EmettreUn(RevisionIntrants, ParametresIntrant(dernier, joursEcoules), dernier.parcelleId);
      }
    }
  }

  // ---------------------------------------------------------------------
  // What the engine promises.

  /** Every recommendation carries its subject's type and priority. */
  predicate Conformes(rs: seq<Recommandation>) {
    forall i :: 0 <= i < |rs| ==> rs[i].typeRecommandation == TypeDe(rs[i].sujet) && rs[i].priorite == PrioriteDe(rs[i].sujet)
  }

  lemma ConformesConcat(a: seq<Recommandation>, b: seq<Recommandation>)
    requires Conformes(a) && Conformes(b)
    ensures Conformes(a + b)
  {
    forall i | 0 <= i < |a + b|
      ensures (a + b)[i] == (if i < |a| then a[i] else b[i - |a|])
    {
    }
  }

  // Trigger conditions, stated on the data.

  predicate Acide(analyses: seq<AnalyseSol>) {
    analyses != [] && analyses[0].ph.Some? && analyses[0].ph.value < 6.0
  }

  predicate Alcalin(analyses: seq<AnalyseSol>) {
    analyses != [] && analyses[0].ph.Some? && analyses[0].ph.value > 7.5
  }

  /** Averages are taken: at least two analyses and a complete latest one. */
  predicate AvecHistorique(analyses: seq<AnalyseSol>) {
    analyses != [] && NpkRenseignes(analyses[0]) && |analyses| > 1
  }

  predicate CarenceN(analyses: seq<AnalyseSol>) {
    analyses != [] && NpkRenseignes(analyses[0]) &&
    if |analyses| > 1 then MoyennesDe(analyses).Some? && MoyennesDe(analyses).value.n < 20.0
    else analyses[0].azoteN.value < 20.0
  }

  predicate CarenceP(analyses: seq<AnalyseSol>) {
    AvecHistorique(analyses) && MoyennesDe(analyses).Some? && MoyennesDe(analyses).value.p < 15.0
  }

  predicate CarenceK(analyses: seq<AnalyseSol>) {
    AvecHistorique(analyses) && MoyennesDe(analyses).Some? && MoyennesDe(analyses).value.k < 150.0
  }

  predicate Secheresse(climat: seq<DonneeClimatique>) {
    climat != [] && climat[0].pluviometrie.Some? && climat[0].pluviometrie.value < 50.0
  }

  predicate ExcesPluie(climat: seq<DonneeClimatique>) {
    climat != [] && climat[0].pluviometrie.Some? && climat[0].pluviometrie.value > 300.0
  }

  /** Every one of the ten latest inputs was applied more than 90 days ago. */
  predicate IntrantsPerimes(intrants: seq<Intrant>, aujourdhui: int) {
    intrants != [] && forall x :: x in IntrantsRecents(intrants) ==> aujourdhui - x.dateApplication > 90
  }

  /** The informational fallback: no analyses, no climate data and no stale inputs. */
  predicate SansDonnees(analyses: seq<AnalyseSol>, climat: seq<DonneeClimatique>, intrants: seq<Intrant>, aujourdhui: int) {
    analyses == [] && climat == [] && !IntrantsPerimes(intrants, aujourdhui)
  }

  /** The condition under which each subject is issued. */
  predicate Declenche(s: Sujet, analyses: seq<AnalyseSol>, climat: seq<DonneeClimatique>, intrants: seq<Intrant>, aujourdhui: int) {
    match s
    case SolTropAcide => Acide(analyses)
    case SolTropAlcalin => Alcalin(analyses)
    case CarenceAzote => CarenceN(analyses)
    case CarencePhosphore => CarenceP(analyses)
    case CarencePotassium => CarenceK(analyses)
    case PluviometrieInsuffisante => Secheresse(climat)
    case PluviometrieExcessive => ExcesPluie(climat)
    case RevisionIntrants => IntrantsPerimes(intrants, aujourdhui)
    case DonneesInsuffisantes => SansDonnees(analyses, climat, intrants, aujourdhui)
  }

  /** No truthy value of nutrient `n` among the three latest analyses. */
  predicate SansValeur(analyses: seq<AnalyseSol>, n: Nutriment) {
    forall i :: 0 <= i < Min(3, |analyses|) ==> !TruthyNum(Teneur(analyses[i], n))
  }

  // Each rule on its own.

  lemma SujetsPhSpec(a: AnalyseSol)
    ensures |SujetsPh(a)| <= 1 && Croissants(SujetsPh(a)) && RangsDans(SujetsPh(a), 0, 2)
    ensures SolTropAcide in SujetsPh(a) <==> a.ph.Some? && a.ph.value < 6.0
    ensures SolTropAlcalin in SujetsPh(a) <==> a.ph.Some? && a.ph.value > 7.5
  {
  }

  lemma SujetsCarencesSujets(m: Moyennes)
    ensures CarenceAzote in SujetsCarences(m) <==> m.n < 20.0
    ensures CarencePhosphore in SujetsCarences(m) <==> m.p < 15.0
    ensures CarencePotassium in SujetsCarences(m) <==> m.k < 150.0
  {
  }

  lemma SujetsCarencesForme(m: Moyennes)
    ensures |SujetsCarences(m)| <= 3 && Croissants(SujetsCarences(m)) && RangsDans(SujetsCarences(m), 2, 5)
  {
    CroissantsConcat(Si(m.n < 20.0, CarenceAzote), Si(m.p < 15.0, CarencePhosphore), 2, 3, 4);
    CroissantsConcat(Si(m.n < 20.0, CarenceAzote) + Si(m.p < 15.0, CarencePhosphore), Si(m.k < 150.0, CarencePotassium), 2, 4, 5);
  }

  /** The soil rules raise at most four subjects, in rule order. */
  lemma SujetsSolForme(analyses: seq<AnalyseSol>)
    requires SujetsSol(analyses).Some?
    ensures |SujetsSol(analyses).value| <= 4
    ensures Croissants(SujetsSol(analyses).value) && RangsDans(SujetsSol(analyses).value, 0, 5)
    ensures analyses == [] ==> SujetsSol(analyses).value == []
  {
    if analyses != [] {
      var a := analyses[0];
      SujetsPhSpec(a);
      if !NpkRenseignes(a) {
      } else if |analyses| > 1 {
        var m := MoyennesDe(analyses).value;
        SujetsCarencesForme(m);
        CroissantsConcat(SujetsPh(a), SujetsCarences(m), 0, 2, 5);
      } else {
        CroissantsConcat(SujetsPh(a), Si(a.azoteN.value < 20.0, CarenceAzote), 0, 2, 5);
      }
    }
  }

  /** The pH rule: acidic below 6.0, alkaline above 7.5, on the latest analysis. */
  lemma SujetsSolPh(analyses: seq<AnalyseSol>)
    requires SujetsSol(analyses).Some?
    ensures SolTropAcide in SujetsSol(analyses).value <==> Acide(analyses)
    ensures SolTropAlcalin in SujetsSol(analyses).value <==> Alcalin(analyses)
  {
    if analyses != [] {
      SujetsPhSpec(analyses[0]);
    }
  }

  /** The nutrient rules: on averages when there is a history, on nitrogen alone otherwise. */
  lemma SujetsSolCarences(analyses: seq<AnalyseSol>)
    requires SujetsSol(analyses).Some?
    ensures CarenceAzote in SujetsSol(analyses).value <==> CarenceN(analyses)
    ensures CarencePhosphore in SujetsSol(analyses).value <==> CarenceP(analyses)
    ensures CarencePotassium in SujetsSol(analyses).value <==> CarenceK(analyses)
  {
    if analyses != [] {
      var a := analyses[0];
      SujetsPhSpec(a);
      if NpkRenseignes(a) && |analyses| > 1 {
        SujetsCarencesSujets(MoyennesDe(analyses).value);
      }
    }
  }

  /** The rainfall rule raises at most one subject, each exactly on its condition. */
  lemma SujetsClimatSpec(climat: seq<DonneeClimatique>)
    ensures |SujetsClimat(climat)| <= 1 && RangsDans(SujetsClimat(climat), 5, 7)
    ensures PluviometrieInsuffisante in SujetsClimat(climat) <==> Secheresse(climat)
    ensures PluviometrieExcessive in SujetsClimat(climat) <==> ExcesPluie(climat)
  {
  }

  /** The staleness rule fires exactly when all of the ten latest inputs are over 90 days old. */
  lemma SujetsIntrantsSpec(intrants: seq<Intrant>, aujourdhui: int)
    ensures SujetsIntrants(intrants, aujourdhui) == Si(IntrantsPerimes(intrants, aujourdhui), RevisionIntrants)
  {
    if intrants != [] {
      var recents := IntrantsRecents(intrants);
      assert intrants[0] in recents;
      var d := DernierIntrant(recents);
      if JoursEcoules(intrants, aujourdhui) <= 90 {
        assert !IntrantsPerimes(intrants, aujourdhui) by { assert d in recents; }
      }
    }
  }

  /**
   * The staleness recommendation names the latest input and its age, under
   * exactly three keys, on that input's plot.
   */
  lemma RecoIntrantsParametres(intrants: seq<Intrant>, aujourdhui: int)
    requires RecoIntrants(intrants, aujourdhui) != []
    ensures intrants != [] && |RecoIntrants(intrants, aujourdhui)| == 1
    ensures var r := RecoIntrants(intrants, aujourdhui)[0];
      var d := DernierIntrant(IntrantsRecents(intrants));
      r.parcelleId == d.parcelleId
      && r.parametres.Keys == {"dernier_intrant", "date_application", "jours_ecoules"}
      && r.parametres["dernier_intrant"] == VText(d.typeIntrant)
      && r.parametres["jours_ecoules"] == VInt(aujourdhui - d.dateApplication)
      && aujourdhui - d.dateApplication > 90
      && forall x :: x in IntrantsRecents(intrants) ==> x.dateApplication <= d.dateApplication
  {
  }

  // The engine as a whole.

  /** The subjects of the list the engine returns, and their form. */
  lemma SujetsRetournes(analyses: seq<AnalyseSol>, climat: seq<DonneeClimatique>, intrants: seq<Intrant>, aujourdhui: int)
    requires RecosSol(analyses).Some?
    ensures var rs := RecosSol(analyses).value + RecosClimat(climat) + RecoIntrants(intrants, aujourdhui);
      SujetsDe(rs) == SujetsSol(analyses).value + SujetsClimat(climat) + SujetsIntrants(intrants, aujourdhui)
      && Conformes(rs)
  {
    var sol := RecosSol(analyses).value;
    var cl := RecosClimat(climat);
    var it := RecoIntrants(intrants, aujourdhui);
    if analyses != [] {
      SujetsDeEmettre(SujetsSol(analyses).value, ParametresSolFinal(analyses), analyses[0].parcelleId);
    }
    if climat != [] {
      SujetsDeEmettre(SujetsClimat(climat), ParametresClimat(climat[0]), None);
    }
    if intrants != [] {
      var d := DernierIntrant(IntrantsRecents(intrants));
      SujetsDeEmettre(SujetsIntrants(intrants, aujourdhui), ParametresIntrant(d, JoursEcoules(intrants, aujourdhui)), d.parcelleId);
    }
    SujetsDeConcat(sol, cl);
    SujetsDeConcat(sol + cl, it);
    ConformesConcat(sol, cl);
    ConformesConcat(sol + cl, it);
  }

  /**
   * An unknown holding gets nothing; otherwise the engine fails exactly when
   * averages are due and one nutrient has no non-zero value among the three
   * latest analyses.
   */
  lemma DivisionParZeroSsi(existe: bool, analyses: seq<AnalyseSol>, climat: seq<DonneeClimatique>, intrants: seq<Intrant>, aujourdhui: int)
    ensures !existe ==> RecommandationsDe(existe, analyses, climat, intrants, aujourdhui) == Recommandations([])
    ensures existe ==>
      (RecommandationsDe(existe, analyses, climat, intrants, aujourdhui) == DivisionParZero <==>
       AvecHistorique(analyses) &&
       (SansValeur(analyses, Azote) || SansValeur(analyses, Phosphore) || SansValeur(analyses, Potassium)))
  {
    if existe && AvecHistorique(analyses) {
      forall n: Nutriment
        ensures Valeurs(analyses, n) == [] <==> SansValeur(analyses, n)
      {
        TruthyVide(Teneurs(analyses, n));
      }
    }
  }

  /** Before the fallback: at most six recommendations, in rule order. */
  lemma AssembleesOrdonnees(analyses: seq<AnalyseSol>, climat: seq<DonneeClimatique>, intrants: seq<Intrant>, aujourdhui: int)
    requires SujetsSol(analyses).Some?
    ensures var ss := SujetsSol(analyses).value + SujetsClimat(climat) + SujetsIntrants(intrants, aujourdhui);
      |ss| <= 6 && Croissants(ss)
  {
    SujetsSolForme(analyses);
    SujetsClimatSpec(climat);
    SujetsIntrantsSpec(intrants, aujourdhui);
    var ss := SujetsSol(analyses).value;
    CroissantsConcat(ss, SujetsClimat(climat), 0, 5, 7);
    CroissantsConcat(ss + SujetsClimat(climat), SujetsIntrants(intrants, aujourdhui), 0, 7, 8);
  }

  /**
   * Recommendations come in rule order with no subject twice, each with its
   * subject's type and priority; there are at most six.
   */
  lemma RecommandationsOrdonnees(analyses: seq<AnalyseSol>, climat: seq<DonneeClimatique>, intrants: seq<Intrant>, aujourdhui: int)
    requires RecommandationsDe(true, analyses, climat, intrants, aujourdhui).Recommandations?
    ensures var rs := RecommandationsDe(true, analyses, climat, intrants, aujourdhui).liste;
      |rs| <= 6 && Croissants(SujetsDe(rs)) && Conformes(rs)
  {
    var rs := RecosSol(analyses).value + RecosClimat(climat) + RecoIntrants(intrants, aujourdhui);
    if rs == [] && analyses == [] && climat == [] {
      assert SujetsDe([RecoInformation]) == [DonneesInsuffisantes];
    } else {
      SujetsRetournes(analyses, climat, intrants, aujourdhui);
      AssembleesOrdonnees(analyses, climat, intrants, aujourdhui);
    }
  }

  /** The subjects raised, before the fallback: where each can come from. */
  lemma SujetsBruts(analyses: seq<AnalyseSol>, climat: seq<DonneeClimatique>, intrants: seq<Intrant>, aujourdhui: int, s: Sujet)
    requires SujetsSol(analyses).Some?
    ensures s in SujetsSol(analyses).value + SujetsClimat(climat) + SujetsIntrants(intrants, aujourdhui) <==>
      (Rang(s) < 5 && s in SujetsSol(analyses).value)
      || (5 <= Rang(s) < 7 && s in SujetsClimat(climat))
      || (s == RevisionIntrants && IntrantsPerimes(intrants, aujourdhui))
  {
    SujetsSolForme(analyses);
    SujetsClimatSpec(climat);
    SujetsIntrantsSpec(intrants, aujourdhui);
    var ss := SujetsSol(analyses).value;
    var sc := SujetsClimat(climat);
    var si := SujetsIntrants(intrants, aujourdhui);
    assert s in ss + sc + si <==> s in ss || s in sc || s in si;
  }

  /** Outside the fallback, a rule's subject is raised exactly when its condition holds. */
  lemma SujetBrutSsi(analyses: seq<AnalyseSol>, climat: seq<DonneeClimatique>, intrants: seq<Intrant>, aujourdhui: int, s: Sujet)
    requires SujetsSol(analyses).Some? && s != DonneesInsuffisantes
    ensures s in SujetsSol(analyses).value + SujetsClimat(climat) + SujetsIntrants(intrants, aujourdhui)
      <==> Declenche(s, analyses, climat, intrants, aujourdhui)
  {
    SujetsBruts(analyses, climat, intrants, aujourdhui, s);
    if Rang(s) < 5 {
      SujetsSolPh(analyses);
      SujetsSolCarences(analyses);
    } else if Rang(s) < 7 {
      SujetsClimatSpec(climat);
    } else {
      SujetsIntrantsSpec(intrants, aujourdhui);
    }
  }

  /** Each subject is issued exactly when its condition holds on the data. */
  lemma SujetSsiDeclenche(analyses: seq<AnalyseSol>, climat: seq<DonneeClimatique>, intrants: seq<Intrant>, aujourdhui: int, s: Sujet)
    requires RecommandationsDe(true, analyses, climat, intrants, aujourdhui).Recommandations?
    ensures HasSujet(RecommandationsDe(true, analyses, climat, intrants, aujourdhui).liste, s) <==> Declenche(s, analyses, climat, intrants, aujourdhui)
  {
    SujetsRetournes(analyses, climat, intrants, aujourdhui);
    var rs := RecosSol(analyses).value + RecosClimat(climat) + RecoIntrants(intrants, aujourdhui);
    var brut := SujetsSol(analyses).value + SujetsClimat(climat) + SujetsIntrants(intrants, aujourdhui);
    var liste := RecommandationsDe(true, analyses, climat, intrants, aujourdhui).liste;
    if rs == [] && analyses == [] && climat == [] {
      // the fallback: every rule was silent
      assert liste == [RecoInformation];
      assert SujetsDe(liste) == [DonneesInsuffisantes];
      SujetsIntrantsSpec(intrants, aujourdhui);
      if s != DonneesInsuffisantes {
        SujetBrutSsi(analyses, climat, intrants, aujourdhui, s);
        assert brut == [];
      }
    } else {
      assert liste == rs && SujetsDe(liste) == brut;
      if s != DonneesInsuffisantes {
        SujetBrutSsi(analyses, climat, intrants, aujourdhui, s);
      } else {
        SujetsBruts(analyses, climat, intrants, aujourdhui, s);
        SujetsIntrantsSpec(intrants, aujourdhui);
        SujetsSolForme(analyses);
        assert SansDonnees(analyses, climat, intrants, aujourdhui) ==> rs == [];
      }
    }
  }

  /** The informational recommendation comes alone, with an empty parameter map. */
  lemma InformationSeule(analyses: seq<AnalyseSol>, climat: seq<DonneeClimatique>, intrants: seq<Intrant>, aujourdhui: int)
    requires SansDonnees(analyses, climat, intrants, aujourdhui)
    ensures RecommandationsDe(true, analyses, climat, intrants, aujourdhui) == Recommandations([RecoInformation])
    ensures RecoInformation.parametres == map[] && RecoInformation.priorite == Faible && RecoInformation.parcelleId.None?
  {
    SujetsIntrantsSpec(intrants, aujourdhui);
  }

  /** The keys of the soil snapshot, and the keys the averages add to it. */
  const ClesSol: set<string> := {"ph", "azote_n", "phosphore_p", "potassium_k", "date_prelevement"}
  const ClesMoyennes: set<string> := {"moyenne_azote", "moyenne_phosphore", "moyenne_potassium"}

  /** The shared soil map holds the latest analysis' five values. */
  predicate MontreAnalyse(p: Params, a: AnalyseSol) {
    && ClesSol <= p.Keys
    && p["ph"] == NumOrNull(a.ph)
    && p["azote_n"] == NumOrNull(a.azoteN)
    && p["phosphore_p"] == NumOrNull(a.phosphoreP)
    && p["potassium_k"] == NumOrNull(a.potassiumK)
    && p["date_prelevement"] == VDate(a.datePrelevement)
  }

  /** The shared soil map holds the three averages. */
  predicate MontreMoyennes(p: Params, m: Moyennes) {
    && ClesMoyennes <= p.Keys
    && p["moyenne_azote"] == VNum(m.n)
    && p["moyenne_phosphore"] == VNum(m.p)
    && p["moyenne_potassium"] == VNum(m.k)
  }

  /**
   * The soil recommendations all show the latest analysis; when averages were
   * taken they all show the three of them too, the pH one included, because
   * the source hands them one shared dictionary.
   */
  lemma ParametresSolPortes(analyses: seq<AnalyseSol>, i: nat)
    requires RecosSol(analyses).Some? && i < |RecosSol(analyses).value|
    ensures analyses != []
    ensures var r := RecosSol(analyses).value[i];
      && r.parcelleId == analyses[0].parcelleId
      && r.parametres.Keys == ClesSol + (if AvecHistorique(analyses) then ClesMoyennes else {})
      && MontreAnalyse(r.parametres, analyses[0])
      && (AvecHistorique(analyses) ==> MoyennesDe(analyses).Some? && MontreMoyennes(r.parametres, MoyennesDe(analyses).value))
  {
    var ss := SujetsSol(analyses).value;
    assert analyses != [];
    assert AvecHistorique(analyses) ==> MoyennesDe(analyses).Some?;
    var r := RecosSol(analyses).value[i];
    assert r.parametres == ParametresSolFinal(analyses) && r.parcelleId == analyses[0].parcelleId;
    ParametresFinalPortes(analyses);
  }

  /** What the shared soil parameter map holds: exactly the snapshot keys, plus the averages with history. */
  lemma ParametresFinalPortes(analyses: seq<AnalyseSol>)
    requires analyses != [] && (AvecHistorique(analyses) ==> MoyennesDe(analyses).Some?)
    ensures var p := ParametresSolFinal(analyses);
      && p.Keys == ClesSol + (if AvecHistorique(analyses) then ClesMoyennes else {})
      && MontreAnalyse(p, analyses[0])
      && (AvecHistorique(analyses) ==> MontreMoyennes(p, MoyennesDe(analyses).value))
  {
    var a := analyses[0];
    SolCles(a);
    if AvecHistorique(analyses) {
      MoyennesCles(ParametresSol(a), a, MoyennesDe(analyses).value);
    }
  }

  /** The snapshot has exactly the five keys, with the analysis' values. */
  lemma SolCles(a: AnalyseSol)
    ensures ParametresSol(a).Keys == ClesSol
    ensures MontreAnalyse(ParametresSol(a), a)
  {
  }

  /** Adding the averages keeps the snapshot values and adds exactly the three average keys. */
  lemma MoyennesCles(p: Params, a: AnalyseSol, m: Moyennes)
    requires MontreAnalyse(p, a)
    ensures AvecMoyennes(p, m).Keys == p.Keys + ClesMoyennes
    ensures MontreAnalyse(AvecMoyennes(p, m), a)
    ensures MontreMoyennes(AvecMoyennes(p, m), m)
  {
  }

  // The scenarios of the source's test suite.

  lemma ScenarioSolAcide(a: AnalyseSol, aujourdhui: int)
    requires a.ph == Some(5.5) && a.azoteN.None?
    ensures RecommandationsDe(true, [a], [], [], aujourdhui) == Recommandations([Recommandation(SolTropAcide, Amendement, ParametresSol(a), Elevee, a.parcelleId)])
  {
    assert SujetsSol([a]) == Some([SolTropAcide]);
    assert ParametresSolFinal([a]) == ParametresSol(a);
    var e := Emettre([SolTropAcide], ParametresSol(a), a.parcelleId);
    assert e == [Recommandation(SolTropAcide, Amendement, ParametresSol(a), Elevee, a.parcelleId)] by { assert e[0] == Recommandation(SolTropAcide, Amendement, ParametresSol(a), Elevee, a.parcelleId); }
    assert e + [] + [] == e;
  }

  lemma ScenarioAzoteFaible(a: AnalyseSol, aujourdhui: int)
    requires a.ph.None? && a.azoteN == Some(10.0) && a.phosphoreP == Some(15.0) && a.potassiumK == Some(150.0)
    ensures RecommandationsDe(true, [a], [], [], aujourdhui) == Recommandations([Recommandation(CarenceAzote, Fertilisation, ParametresSol(a), Elevee, a.parcelleId)])
  {
    assert SujetsSol([a]) == Some([] + [CarenceAzote]);
    assert [] + [CarenceAzote] == [CarenceAzote];
    assert ParametresSolFinal([a]) == ParametresSol(a);
    var e := Emettre([CarenceAzote], ParametresSol(a), a.parcelleId);
    assert e == [Recommandation(CarenceAzote, Fertilisation, ParametresSol(a), Elevee, a.parcelleId)] by { assert e[0] == Recommandation(CarenceAzote, Fertilisation, ParametresSol(a), Elevee, a.parcelleId); }
    assert e + [] + [] == e;
  }

  lemma ScenarioPluieFaible(d: DonneeClimatique, aujourdhui: int)
    requires d.pluviometrie == Some(30.0)
    ensures RecommandationsDe(true, [], [d], [], aujourdhui) == Recommandations([Recommandation(PluviometrieInsuffisante, Irrigation, ParametresClimat(d), Elevee, None)])
  {
    var r := Recommandation(PluviometrieInsuffisante, Irrigation, ParametresClimat(d), Elevee, None);
    var e := Emettre([PluviometrieInsuffisante], ParametresClimat(d), None);
    assert e == [r] by { assert e[0] == r; }
    assert RecosClimat([d]) == [r];
    assert [] + [r] + [] == [r];
  }

  lemma ScenarioSansDonnees(aujourdhui: int)
    ensures RecommandationsDe(true, [], [], [], aujourdhui) == Recommandations([RecoInformation])
  {
    assert RecosSol([]) == Some([]);
  }
}
