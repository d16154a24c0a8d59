/**
 * Irrigation advisor (`generate_conseils_irrigation`): from the current
 * weather, the 3-hour forecast buckets and the holding's main crop it
 * derives a 24-hour water deficit and emits at most one deficit advisory,
 * independent heat, dry-air and 48-hour planning advisories, and an
 * informational fallback when nothing else applies.
 */
module Irrigation {
  import opened Common

  /** The `meteo_actuelle` dictionary, read through `dict.get`. */
  datatype CurrentWeather = CurrentWeather(
    temperature: Field<real>,
    temperatureMax: Field<real>,
    humidite: Field<real>,
    pluviometrie: Field<real>)

  /** One 3-hour forecast bucket; only its rainfall is read here. */
  datatype Prevision = Prevision(pluviometrie: Option<real>)

  datatype ConseilType =
    | IrrigationUrgente
    | IrrigationRecommandee
    | IrrigationNonNecessaire
    | IrrigationRafraichissement
    | IrrigationHumidite
    | PlanificationIrrigation
    | Information

  /** `quantite_recommandee`: "<x> mm", a fixed "<lo>-<hi> mm" band, or "N/A". */
  datatype Quantite = Millimetres(mm: real) | Fourchette(lo: nat, hi: nat) | NonApplicable

  datatype Conseil = Conseil(
    kind: ConseilType,
    quantite: Quantite,
    priorite: Priority,
    parametres: Params)

  /** Position of each advisory kind in the order the advisor emits them. */
  function Rank(k: ConseilType): nat {
    match k
    case IrrigationUrgente => 0
    case IrrigationRecommandee => 1
    case IrrigationNonNecessaire => 2
    case IrrigationRafraichissement => 3
    case IrrigationHumidite => 4
    case PlanificationIrrigation => 5
    case Information => 6
  }

  predicate IsDeficitKind(k: ConseilType) {
    k == IrrigationUrgente || k == IrrigationRecommandee || k == IrrigationNonNecessaire
  }

  predicate HasKind(cs: seq<Conseil>, k: ConseilType) {
    exists i :: 0 <= i < |cs| && cs[i].kind == k
  }

  // ---------------------------------------------------------------------
  // Crop water need (mm/day).

  const BesoinsEauJournaliers: map<string, real> := map[
    "maïs" := 5.0,
    "riz" := 8.0,
    "coton" := 6.0,
    "manioc" := 3.0,
    "igname" := 4.0,
    "tomate" := 4.5,
    "haricot" := 3.5
  ]

  const BesoinParDefaut: real := 4.0

  /** Lookup key: the lower-cased crop name, or '' when the crop is None or empty. */
  function CleCulture(typeCulture: Option<string>): string {
    if TruthyText(typeCulture) then Lower(typeCulture.value) else ""
  }

  function BesoinEau(typeCulture: Option<string>): (r: real)
    ensures CleCulture(typeCulture) in BesoinsEauJournaliers ==> r == BesoinsEauJournaliers[CleCulture(typeCulture)]
    ensures CleCulture(typeCulture) !in BesoinsEauJournaliers ==> r == BesoinParDefaut
    ensures typeCulture.None? ==> r == BesoinParDefaut
    ensures 3.0 <= r <= 8.0
  {
    var cle := CleCulture(typeCulture);
    if cle in BesoinsEauJournaliers then BesoinsEauJournaliers[cle] else BesoinParDefaut
  }

  // ---------------------------------------------------------------------
  // Rainfall.

  /** `p.get('pluviometrie', 0) or 0` for one bucket. */
  function PluiePrevision(p: Prevision): real { OrZero(p.pluviometrie) }

  /** Sum of the bucket rainfalls, each missing or None value counting 0. */
  function SommePluie(ps: seq<Prevision>): real
  {
    if ps == [] then 0.0 else SommePluie(ps[..|ps| - 1]) + PluiePrevision(ps[|ps| - 1])
  }

  /** `meteo_actuelle.get('pluviometrie', 0) or 0`. */
  function PluieActuelle(m: CurrentWeather): real {
    match m.pluviometrie
    case Val(v) => v
    case _ => 0.0
  }

  /** Rain expected over the next 24 h: the first min(8, n) buckets. */
  function PrevuePluie24h(previsions: seq<Prevision>): real {
    SommePluie(previsions[..Min(8, |previsions|)])
  }

  function PluieTotale(m: CurrentWeather, previsions: seq<Prevision>): real {
    PluieActuelle(m) + PrevuePluie24h(previsions)
  }

  function DeficitHydrique(m: CurrentWeather, previsions: seq<Prevision>, typeCulture: Option<string>): real {
    BesoinEau(typeCulture) - PluieTotale(m, previsions)
  }

  /** Rain expected over 48 h; only read when at least 16 buckets exist. */
  function Pluie48h(previsions: seq<Prevision>): real
    requires |previsions| >= 16
  {
    SommePluie(previsions[..16])
  }

  function Deficit48h(previsions: seq<Prevision>, typeCulture: Option<string>): real
    requires |previsions| >= 16
  {
    BesoinEau(typeCulture) * 2.0 - Pluie48h(previsions)
  }

  // ---------------------------------------------------------------------
  // Triggers of the independent advisories.

  /** `meteo.get('temperature_max', temperature)`: falls back only when the key is absent. */
  function TemperatureMax(m: CurrentWeather): Option<real> {
    match m.temperatureMax
    case Absent => (match m.temperature case Val(t) => Some(t) case _ => None)
    case Null => None
    case Val(t) => Some(t)
  }

  function Humidite(m: CurrentWeather): Option<real> {
    match m.humidite
    case Val(h) => Some(h)
    case _ => None
  }

  /** `temperature_max and temperature_max > 35`. */
  predicate Chaleur(m: CurrentWeather) {
    TruthyNum(TemperatureMax(m)) && TemperatureMax(m).value > 35.0
  }

  /** `humidite and humidite < 40`. */
  predicate AirSec(m: CurrentWeather) {
    TruthyNum(Humidite(m)) && Humidite(m).value < 40.0
  }

  predicate Planification(previsions: seq<Prevision>, typeCulture: Option<string>) {
    |previsions| >= 16 && Deficit48h(previsions, typeCulture) > 10.0
  }

  // ---------------------------------------------------------------------
  // Audit parameters.

  function FieldValue(f: Field<real>): Value {
    match f
    case Val(v) => VNum(v)
    case _ => VNull
  }

  /** `meteo.get('pluviometrie', 0)`: an absent key reads 0, a null one None. */
  function FieldValueOrZero(f: Field<real>): Value {
    match f
    case Absent => VNum(0.0)
    case Null => VNull
    case Val(v) => VNum(v)
  }

  /** The three figures that drive every decision are on record with their values. */
  predicate Traceable(p: Params, besoin: real, totale: real, deficit: real) {
    && "besoin_eau_culture" in p && p["besoin_eau_culture"] == VNum(besoin)
    && "pluviometrie_totale" in p && p["pluviometrie_totale"] == VNum(totale)
    && "deficit_hydrique" in p && p["deficit_hydrique"] == VNum(deficit)
  }

  /** `parametres_utilises` once steps 1 to 4 have filled it in. */
  function ParametresBase(m: CurrentWeather, previsions: seq<Prevision>, typeCulture: Option<string>, now: string): (p: Params)
    ensures Traceable(p, BesoinEau(typeCulture), PluieTotale(m, previsions), DeficitHydrique(m, previsions, typeCulture))
    ensures "date_analyse" in p && p["date_analyse"] == VText(now)
    ensures "pluviometrie_prevue_24h" in p && p["pluviometrie_prevue_24h"] == VNum(PrevuePluie24h(previsions))
    ensures "temperature_actuelle" in p && "humidite_actuelle" in p && "pluviometrie_actuelle" in p
  {
    map[
      "temperature_actuelle" := FieldValue(m.temperature),
      "humidite_actuelle" := FieldValue(m.humidite),
      "pluviometrie_actuelle" := FieldValueOrZero(m.pluviometrie),
      "date_analyse" := VText(now),
      "pluviometrie_prevue_24h" := VNum(PrevuePluie24h(previsions)),
      "pluviometrie_totale" := VNum(PluieTotale(m, previsions)),
      "besoin_eau_culture" := VNum(BesoinEau(typeCulture)),
      "type_culture" := TextOrNull(typeCulture),
      "besoin_eau_24h" := VNum(BesoinEau(typeCulture)),
      "deficit_hydrique" := VNum(DeficitHydrique(m, previsions, typeCulture))
    ]
  }

  /** Priority attached to each advisory kind. */
  function PrioriteDe(k: ConseilType): Priority {
    match k
    case IrrigationUrgente => Elevee
    case IrrigationNonNecessaire => Faible
    case Information => Faible
    case _ => Moyenne
  }

  /** The figures steps 1 to 4 compute, and the 48-hour pair (rain, deficit) when 16 buckets exist. */
  datatype Bilan = Bilan(
    besoin: real,
    totale: real,
    deficit: real,
    chaleur: bool,
    airSec: bool,
    plan48: Option<(real, real)>,
    base: Params)

  function Plan48(previsions: seq<Prevision>, typeCulture: Option<string>): Option<(real, real)> {
    if |previsions| >= 16 then Some((Pluie48h(previsions), Deficit48h(previsions, typeCulture))) else None
  }

  function BilanDe(m: CurrentWeather, previsions: seq<Prevision>, typeCulture: Option<string>, now: string): Bilan {
    Bilan(BesoinEau(typeCulture), PluieTotale(m, previsions), DeficitHydrique(m, previsions, typeCulture),
          Chaleur(m), AirSec(m), Plan48(previsions, typeCulture), ParametresBase(m, previsions, typeCulture, now))
  }

  predicate Planifie(b: Bilan) { b.plan48.Some? && b.plan48.value.1 > 10.0 }

  /** Recommended quantity of each advisory kind. */
  function QuantiteDe(k: ConseilType, b: Bilan): Quantite {
    match k
    case IrrigationUrgente => Millimetres(b.deficit)
    case IrrigationRecommandee => Millimetres(b.deficit)
    case IrrigationNonNecessaire => Millimetres(0.0)
    case IrrigationRafraichissement => Fourchette(2, 3)
    case IrrigationHumidite => Fourchette(3, 5)
    case PlanificationIrrigation => if b.plan48.Some? then Millimetres(b.plan48.value.1) else NonApplicable
    case Information => NonApplicable
  }

  /**
   * What the advisor promises about each advisory it emits: its priority and
   * quantity follow from its kind, and its parameters are the shared snapshot,
   * extended with the 48-hour figures for the planning advisory.
   */
  predicate ConformeA(c: Conseil, b: Bilan) {
    && c.priorite == PrioriteDe(c.kind)
    && c.quantite == QuantiteDe(c.kind, b)
    && (c.kind != PlanificationIrrigation ==> c.parametres == b.base)
    && (c.kind == PlanificationIrrigation ==>
          && b.plan48.Some?
          && c.parametres == b.base["pluviometrie_prevue_48h" := VNum(b.plan48.value.0)]
                                   ["deficit_hydrique_48h" := VNum(b.plan48.value.1)])
  }

  predicate Conforme(c: Conseil, m: CurrentWeather, previsions: seq<Prevision>, typeCulture: Option<string>, now: string) {
    ConformeA(c, BilanDe(m, previsions, typeCulture, now))
  }

  // ---------------------------------------------------------------------
  // The advisory list, step by step.

  /** Step 5: the one deficit advisory, if any. */
  function ConseilDeficit(b: Bilan): seq<Conseil> {
    if b.deficit > 5.0 then [Conseil(IrrigationUrgente, Millimetres(b.deficit), Elevee, b.base)]
    else if b.deficit > 2.0 then [Conseil(IrrigationRecommandee, Millimetres(b.deficit), Moyenne, b.base)]
    else if b.totale >= b.besoin then [Conseil(IrrigationNonNecessaire, Millimetres(0.0), Faible, b.base)]
    else []
  }

  /** Step 6: cooling irrigation in the heat. */
  function ConseilChaleur(b: Bilan): seq<Conseil> {
    if b.chaleur then [Conseil(IrrigationRafraichissement, Fourchette(2, 3), Moyenne, b.base)] else []
  }

  /** Step 7: extra watering in dry air. */
  function ConseilAirSec(b: Bilan): seq<Conseil> {
    if b.airSec then [Conseil(IrrigationHumidite, Fourchette(3, 5), Moyenne, b.base)] else []
  }

  /** Step 8: planning over 48 hours, with the 48-hour figures added to its parameters. */
  function ConseilPlanification(b: Bilan): seq<Conseil> {
    if Planifie(b) then
      [Conseil(PlanificationIrrigation, Millimetres(b.plan48.value.1), Moyenne,
               b.base["pluviometrie_prevue_48h" := VNum(b.plan48.value.0)]
                     ["deficit_hydrique_48h" := VNum(b.plan48.value.1)])]
    else []
  }

  /** The informational fallback. */
  function ConseilInformation(b: Bilan): Conseil {
    Conseil(Information, NonApplicable, Faible, b.base)
  }

  /** Steps 5 to 8 in order, or the fallback alone when they produce nothing. */
  function ConseilsDe(b: Bilan): seq<Conseil> {
    var cs := ConseilDeficit(b) + ConseilChaleur(b) + ConseilAirSec(b) + ConseilPlanification(b);
    if cs == [] then [ConseilInformation(b)] else cs
  }

  /** The list `generate_conseils_irrigation` returns. */
  function ConseilsIrrigation(m: CurrentWeather, previsions: seq<Prevision>, typeCulture: Option<string>, now: string): seq<Conseil> {
    ConseilsDe(BilanDe(m, previsions, typeCulture, now))
  }

  // ---------------------------------------------------------------------
  // What the list promises.

  /** Everything the advisor promises about its list (stated clause by clause on the method). */
  ghost predicate Promesses(cs: seq<Conseil>, b: Bilan) {
    PromessesForme(cs, b) && PromessesGenres(cs, b)
  }

  /** Size, order and conformity of the list. */
  ghost predicate PromessesForme(cs: seq<Conseil>, b: Bilan) {
    && 1 <= |cs| <= 4
    && (forall i, j :: 0 <= i < j < |cs| ==> Rank(cs[i].kind) < Rank(cs[j].kind))
    && ((forall i :: 0 <= i < |cs| ==> !IsDeficitKind(cs[i].kind)) <==> b.deficit <= 2.0 && b.totale < b.besoin)
    && (forall i :: 0 <= i < |cs| ==> ConformeA(cs[i], b))
  }

  /** Which kinds the list holds. */
  ghost predicate PromessesGenres(cs: seq<Conseil>, b: Bilan) {
    && (HasKind(cs, IrrigationUrgente) <==> b.deficit > 5.0)
    && (HasKind(cs, IrrigationRecommandee) <==> 2.0 < b.deficit <= 5.0)
    && (HasKind(cs, IrrigationNonNecessaire) <==> b.deficit <= 2.0 && b.totale >= b.besoin)
    && (HasKind(cs, IrrigationRafraichissement) <==> b.chaleur)
    && (HasKind(cs, IrrigationHumidite) <==> b.airSec)
    && (HasKind(cs, PlanificationIrrigation) <==> Planifie(b))
    && (HasKind(cs, Information) <==> b.deficit <= 2.0 && b.totale < b.besoin && !b.chaleur && !b.airSec && !Planifie(b))
    && (HasKind(cs, Information) ==> |cs| == 1)
  }

  /** The list after step 5: at most one deficit advisory, chosen by the deficit band. */
  ghost predicate EtapeDeficit(cs: seq<Conseil>, b: Bilan) {
    && |cs| <= 1
    && (forall i :: 0 <= i < |cs| ==> IsDeficitKind(cs[i].kind) && ConformeA(cs[i], b))
    && (HasKind(cs, IrrigationUrgente) <==> b.deficit > 5.0)
    && (HasKind(cs, IrrigationRecommandee) <==> 2.0 < b.deficit <= 5.0)
    && (HasKind(cs, IrrigationNonNecessaire) <==> b.deficit <= 2.0 && b.totale >= b.besoin)
    && (cs == [] <==> b.deficit <= 2.0 && b.totale < b.besoin)
  }

  /** Steps 6, 7 and 8 each contribute nothing, or one advisory of their kind exactly when it fires. */
  ghost predicate EtapeUnique(cs: seq<Conseil>, k: ConseilType, fires: bool, b: Bilan) {
    && |cs| <= 1
    && (cs != [] <==> fires)
    && (forall i :: 0 <= i < |cs| ==> cs[i].kind == k && ConformeA(cs[i], b))
  }

  /** A list of at most one advisory has exactly the kind of its element. */
  lemma KindsAtMostOne(cs: seq<Conseil>)
    requires |cs| <= 1
    ensures forall k :: HasKind(cs, k) <==> cs != [] && cs[0].kind == k
  {
    forall k | cs != [] && cs[0].kind == k ensures HasKind(cs, k) {
      assert cs[0].kind == k;
    }
  }

  /** The kinds in the assembled list are those of its four parts. */
  lemma {:induction false} KindsAssembled(d: seq<Conseil>, h: seq<Conseil>, a: seq<Conseil>, p: seq<Conseil>)
    ensures forall k :: HasKind(d + h + a + p, k) <==> HasKind(d, k) || HasKind(h, k) || HasKind(a, k) || HasKind(p, k)
  {
    forall k ensures HasKind(d + h + a + p, k) <==> HasKind(d, k) || HasKind(h, k) || HasKind(a, k) || HasKind(p, k) {
      HasKindConcat(d, h, k);
      HasKindConcat(d + h, a, k);
      HasKindConcat(d + h + a, p, k);
    }
  }

  /** Each position of the assembled list comes from one of its four parts. */
  lemma {:induction false} PartOf(d: seq<Conseil>, h: seq<Conseil>, a: seq<Conseil>, p: seq<Conseil>, i: int)
    requires 0 <= i < |d + h + a + p|
    ensures i < |d| ==> (d + h + a + p)[i] == d[i]
    ensures |d| <= i < |d| + |h| ==> (d + h + a + p)[i] == h[i - |d|]
    ensures |d| + |h| <= i < |d| + |h| + |a| ==> (d + h + a + p)[i] == a[i - |d| - |h|]
    ensures |d| + |h| + |a| <= i ==> (d + h + a + p)[i] == p[i - |d| - |h| - |a|]
  {
  }

  /** Step 5 as the advisor writes it keeps the deficit-band promises. */
  lemma EtapeDeficitTenue(b: Bilan)
    ensures EtapeDeficit(ConseilDeficit(b), b)
  {
    KindsAtMostOne(ConseilDeficit(b));
  }

  /** A step that adds one conforming advisory exactly when its trigger fires. */
  lemma EtapesUniquesTenues(b: Bilan)
    ensures EtapeUnique(ConseilChaleur(b), IrrigationRafraichissement, b.chaleur, b)
    ensures EtapeUnique(ConseilAirSec(b), IrrigationHumidite, b.airSec, b)
    ensures EtapeUnique(ConseilPlanification(b), PlanificationIrrigation, Planifie(b), b)
  {
  }

  /** When steps 5 to 8 produce nothing, the fallback alone keeps every promise. */
  lemma {:induction false} AssemblageVide(
    d: seq<Conseil>, h: seq<Conseil>, a: seq<Conseil>, p: seq<Conseil>, fallback: Conseil, b: Bilan)
    requires EtapeDeficit(d, b)
    requires EtapeUnique(h, IrrigationRafraichissement, b.chaleur, b)
    requires EtapeUnique(a, IrrigationHumidite, b.airSec, b)
    requires EtapeUnique(p, PlanificationIrrigation, Planifie(b), b)
    requires fallback.kind == Information && ConformeA(fallback, b)
    requires d + h + a + p == []
    ensures Promesses([fallback], b)
  {
    assert d == [] && h == [] && a == [] && p == [] by {
      assert |d + h + a + p| == |d| + |h| + |a| + |p|;
    }
    KindsAtMostOne([fallback]);
  }

  /** Every advisory of the assembled list conforms when every advisory of its parts does. */
  lemma {:induction false} AssembleesConformes(d: seq<Conseil>, h: seq<Conseil>, a: seq<Conseil>, p: seq<Conseil>, b: Bilan)
    requires forall i :: 0 <= i < |d| ==> ConformeA(d[i], b)
    requires forall i :: 0 <= i < |h| ==> ConformeA(h[i], b)
    requires forall i :: 0 <= i < |a| ==> ConformeA(a[i], b)
    requires forall i :: 0 <= i < |p| ==> ConformeA(p[i], b)
    ensures forall i :: 0 <= i < |d + h + a + p| ==> ConformeA((d + h + a + p)[i], b)
  {
    forall i | 0 <= i < |d + h + a + p| ensures ConformeA((d + h + a + p)[i], b) {
      PartOf(d, h, a, p, i);
    }
  }

  /** The assembled list is in emission order, with its deficit advisory, if any, first. */
  lemma {:induction false} AssembleesOrdonnees(d: seq<Conseil>, h: seq<Conseil>, a: seq<Conseil>, p: seq<Conseil>)
    requires |d| <= 1 && |h| <= 1 && |a| <= 1 && |p| <= 1
    requires forall i :: 0 <= i < |d| ==> IsDeficitKind(d[i].kind)
    requires forall i :: 0 <= i < |h| ==> h[i].kind == IrrigationRafraichissement
    requires forall i :: 0 <= i < |a| ==> a[i].kind == IrrigationHumidite
    requires forall i :: 0 <= i < |p| ==> p[i].kind == PlanificationIrrigation
    ensures forall i, j :: 0 <= i < j < |d + h + a + p| ==> Rank((d + h + a + p)[i].kind) < Rank((d + h + a + p)[j].kind)
    ensures (forall i :: 0 <= i < |d + h + a + p| ==> !IsDeficitKind((d + h + a + p)[i].kind)) <==> d == []
  {
    var cs := d + h + a + p;
    forall i | 0 <= i < |cs|
      ensures IsDeficitKind(cs[i].kind) <==> i < |d|
      ensures i < |d| ==> Rank(cs[i].kind) <= 2
      ensures |d| <= i < |d| + |h| ==> Rank(cs[i].kind) == 3
      ensures |d| + |h| <= i < |d| + |h| + |a| ==> Rank(cs[i].kind) == 4
      ensures |d| + |h| + |a| <= i ==> Rank(cs[i].kind) == 5
    {
      PartOf(d, h, a, p, i);
    }
    if d != [] {
      assert IsDeficitKind(cs[0].kind);
    }
  }

  /** Steps 5 to 8 put together, when they produce something, hold the kinds promised. */
  lemma {:induction false} GenresNonVide(
    d: seq<Conseil>, h: seq<Conseil>, a: seq<Conseil>, p: seq<Conseil>, b: Bilan)
    requires EtapeDeficit(d, b)
    requires EtapeUnique(h, IrrigationRafraichissement, b.chaleur, b)
    requires EtapeUnique(a, IrrigationHumidite, b.airSec, b)
    requires EtapeUnique(p, PlanificationIrrigation, Planifie(b), b)
    requires d + h + a + p != []
    ensures PromessesGenres(d + h + a + p, b)
  {
    KindsAtMostOne(d);
    KindsAtMostOne(h);
    KindsAtMostOne(a);
    KindsAtMostOne(p);
    KindsAssembled(d, h, a, p);
  }

  /** Steps 5 to 8 put together, when they produce something, have the size, order and content promised. */
  lemma {:induction false} FormeNonVide(
    d: seq<Conseil>, h: seq<Conseil>, a: seq<Conseil>, p: seq<Conseil>, b: Bilan)
    requires EtapeDeficit(d, b)
    requires EtapeUnique(h, IrrigationRafraichissement, b.chaleur, b)
    requires EtapeUnique(a, IrrigationHumidite, b.airSec, b)
    requires EtapeUnique(p, PlanificationIrrigation, Planifie(b), b)
    requires d + h + a + p != []
    ensures PromessesForme(d + h + a + p, b)
  {
    AssembleesConformes(d, h, a, p, b);
    AssembleesOrdonnees(d, h, a, p);
  }

  /** The list built from any figures keeps every promise. */
  lemma ConseilsDePromesses(b: Bilan)
    ensures Promesses(ConseilsDe(b), b)
  {
    EtapeDeficitTenue(b);
    EtapesUniquesTenues(b);
    var cs := ConseilDeficit(b) + ConseilChaleur(b) + ConseilAirSec(b) + ConseilPlanification(b);
    if cs == [] {
      AssemblageVide(ConseilDeficit(b), ConseilChaleur(b), ConseilAirSec(b), ConseilPlanification(b), ConseilInformation(b), b);
    } else {
      GenresNonVide(ConseilDeficit(b), ConseilChaleur(b), ConseilAirSec(b), ConseilPlanification(b), b);
      FormeNonVide(ConseilDeficit(b), ConseilChaleur(b), ConseilAirSec(b), ConseilPlanification(b), b);
    }
  }

  lemma HasKindConcat(a: seq<Conseil>, b: seq<Conseil>, k: ConseilType)
    ensures HasKind(a + b, k) <==> HasKind(a, k) || HasKind(b, k)
  {
    if HasKind(a + b, k) {
      var i :| 0 <= i < |a + b| && (a + b)[i].kind == k;
      if i < |a| { assert a[i].kind == k; } else { assert b[i - |a|].kind == k; }
    }
    if HasKind(a, k) {
      var i :| 0 <= i < |a| && a[i].kind == k;
      assert (a + b)[i].kind == k;
    }
    if HasKind(b, k) {
      var i :| 0 <= i < |b| && b[i].kind == k;
      assert (a + b)[|a| + i].kind == k;
    }
  }

  /** What the advisor promises about the list it returns, on its own inputs. */
  lemma ConseilsIrrigationPromesses(cs: seq<Conseil>, m: CurrentWeather, previsions: seq<Prevision>, typeCulture: Option<string>, now: string)
    requires cs == ConseilsIrrigation(m, previsions, typeCulture, now)
    // never empty, at most one deficit advisory plus three independent ones
    ensures 1 <= |cs| <= 4
    // kinds appear once each, in emission order
    ensures forall i, j :: 0 <= i < j < |cs| ==> Rank(cs[i].kind) < Rank(cs[j].kind)
    // mutually exclusive deficit bands
    ensures HasKind(cs, IrrigationUrgente) <==> DeficitHydrique(m, previsions, typeCulture) > 5.0
    ensures HasKind(cs, IrrigationRecommandee) <==> 2.0 < DeficitHydrique(m, previsions, typeCulture) <= 5.0
    ensures HasKind(cs, IrrigationNonNecessaire) <==>
              DeficitHydrique(m, previsions, typeCulture) <= 2.0 && PluieTotale(m, previsions) >= BesoinEau(typeCulture)
    ensures (forall i :: 0 <= i < |cs| ==> !IsDeficitKind(cs[i].kind)) <==>
              0.0 < DeficitHydrique(m, previsions, typeCulture) <= 2.0
    // independent advisories
    ensures HasKind(cs, IrrigationRafraichissement) <==> Chaleur(m)
    ensures HasKind(cs, IrrigationHumidite) <==> AirSec(m)
    ensures HasKind(cs, PlanificationIrrigation) <==> Planification(previsions, typeCulture)
    // the fallback appears exactly when nothing else does, and then alone
    ensures HasKind(cs, Information) <==>
              0.0 < DeficitHydrique(m, previsions, typeCulture) <= 2.0
              && !Chaleur(m) && !AirSec(m) && !Planification(previsions, typeCulture)
    ensures HasKind(cs, Information) ==> |cs| == 1
    // priority, quantity and provenance of each advisory
    ensures forall i :: 0 <= i < |cs| ==> Conforme(cs[i], m, previsions, typeCulture, now)
  {
    ConseilsDePromesses(BilanDe(m, previsions, typeCulture, now));
  }

  /** Every advisory records the need, the projected rain and the deficit it was derived from. */
  lemma ConseilsTraceables(m: CurrentWeather, previsions: seq<Prevision>, typeCulture: Option<string>, now: string)
    ensures forall c :: c in ConseilsIrrigation(m, previsions, typeCulture, now) ==>
              Traceable(c.parametres, BesoinEau(typeCulture), PluieTotale(m, previsions), DeficitHydrique(m, previsions, typeCulture))
  {
    var cs := ConseilsIrrigation(m, previsions, typeCulture, now);
    ConseilsIrrigationPromesses(cs, m, previsions, typeCulture, now);
    forall c | c in cs
      ensures Traceable(c.parametres, BesoinEau(typeCulture), PluieTotale(m, previsions), DeficitHydrique(m, previsions, typeCulture))
    {
      var i :| 0 <= i < |cs| && cs[i] == c;
      ConformeTraceable(cs[i], m, previsions, typeCulture, now);
    }
  }

  /** A conforming advisory records the need, the projected rain and the deficit. */
  lemma ConformeTraceable(c: Conseil, m: CurrentWeather, previsions: seq<Prevision>, typeCulture: Option<string>, now: string)
    requires Conforme(c, m, previsions, typeCulture, now)
    ensures Traceable(c.parametres, BesoinEau(typeCulture), PluieTotale(m, previsions), DeficitHydrique(m, previsions, typeCulture))
  {
    var base := ParametresBase(m, previsions, typeCulture, now);
    assert Traceable(base, BesoinEau(typeCulture), PluieTotale(m, previsions), DeficitHydrique(m, previsions, typeCulture));
  }

  // ---------------------------------------------------------------------
  // Rainfall arithmetic.

  lemma {:induction false} SommePluieAppend(a: seq<Prevision>, b: seq<Prevision>)
    ensures SommePluie(a + b) == SommePluie(a) + SommePluie(b)
  {
    if b == [] {
      assert a + b == a;
    } else {
      assert (a + b)[..|a + b| - 1] == a + b[..|b| - 1];
      SommePluieAppend(a, b[..|b| - 1]);
    }
  }

  /** A bucket reporting no rain, or no figure, adds nothing. */
  predicate PluieNonNegative(previsions: seq<Prevision>) {
    forall i :: 0 <= i < |previsions| ==> PluiePrevision(previsions[i]) >= 0.0
  }

  lemma {:induction false} SommePluieNonNegative(ps: seq<Prevision>)
    requires PluieNonNegative(ps)
    ensures SommePluie(ps) >= 0.0
  {
    if ps != [] {
      SommePluieNonNegative(ps[..|ps| - 1]);
    }
  }

  /** The 48-hour rain is the 24-hour rain plus that of the next eight buckets. */
  lemma Pluie48hDecomposee(previsions: seq<Prevision>)
    requires |previsions| >= 16
    ensures Pluie48h(previsions) == PrevuePluie24h(previsions) + SommePluie(previsions[8..16])
  {
    assert previsions[..16] == previsions[..8] + previsions[8..16];
    SommePluieAppend(previsions[..8], previsions[8..16]);
  }

  /** Rain never raises the 48-hour deficit above twice the daily need. */
  lemma Deficit48hBorne(previsions: seq<Prevision>, typeCulture: Option<string>)
    requires |previsions| >= 16 && PluieNonNegative(previsions)
    ensures Deficit48h(previsions, typeCulture) <= 2.0 * BesoinEau(typeCulture)
  {
    SommePluieNonNegative(previsions[..16]);
  }

  /**
   * With physical (non-negative) rainfall the 48-hour plan can only fire for a
   * crop needing more than 5 mm a day, that is rice or cotton.
   */
  lemma PlanificationCulturesExigeantes(previsions: seq<Prevision>, typeCulture: Option<string>)
    requires PluieNonNegative(previsions)
    requires Planification(previsions, typeCulture)
    ensures BesoinEau(typeCulture) > 5.0
    ensures CleCulture(typeCulture) == "riz" || CleCulture(typeCulture) == "coton"
  {
    Deficit48hBorne(previsions, typeCulture);
    var cle := CleCulture(typeCulture);
    if cle !in BesoinsEauJournaliers {
      assert false;
    } else if cle != "riz" && cle != "coton" {
      assert false;
    }
  }

  /** The crop lookup does not depend on letter case. */
  lemma BesoinEauSansCasse(nom: string)
    ensures BesoinEau(Some(Lower(nom))) == BesoinEau(Some(nom))
  {
    LowerIdempotent(nom);
  }

  // ---------------------------------------------------------------------
  // Scenarios of the unit tests.

  /** Lower-casing leaves the table's own spelling of maize alone. */
  lemma MaisMinuscule()
    ensures BesoinEau(Some("maïs")) == 5.0
  {
    assert Lower("maïs") == "maïs";
  }

  lemma RizMinuscule()
    ensures BesoinEau(Some("riz")) == 8.0
  {
    assert Lower("riz") == "riz";
  }

  /**
   * Maize, no current rain, buckets 5, 0, 0 repeated three times: the first
   * eight buckets bring 15 mm, three times the daily need, so the advisor
   * says irrigation is not needed and raises nothing of high priority.
   */
  lemma ScenarioCinqZeroZero(now: string)
    ensures var cs := ConseilsIrrigation(CurrentWeather(Val(30.0), Absent, Val(50.0), Val(0.0)),
                                         [Prevision(Some(5.0)), Prevision(Some(0.0)), Prevision(Some(0.0)),
                                          Prevision(Some(5.0)), Prevision(Some(0.0)), Prevision(Some(0.0)),
                                          Prevision(Some(5.0)), Prevision(Some(0.0)), Prevision(Some(0.0))],
                                         Some("maïs"), now);
            HasKind(cs, IrrigationNonNecessaire) && forall i :: 0 <= i < |cs| ==> cs[i].priorite != Elevee
  {
    var m := CurrentWeather(Val(30.0), Absent, Val(50.0), Val(0.0));
    var ps := [Prevision(Some(5.0)), Prevision(Some(0.0)), Prevision(Some(0.0)),
               Prevision(Some(5.0)), Prevision(Some(0.0)), Prevision(Some(0.0)),
               Prevision(Some(5.0)), Prevision(Some(0.0)), Prevision(Some(0.0))];
    var cs := ConseilsIrrigation(m, ps, Some("maïs"), now);
    MaisMinuscule();
    var a, z := Prevision(Some(5.0)), Prevision(Some(0.0));
    var trois, deux := [a, z, z], [a, z];
    assert SommePluie([a]) == 5.0 by {
      assert [a][..0] == [];
    }
    assert SommePluie(deux) == 5.0 by {
      assert deux[..1] == [a];
      assert SommePluie(deux) == SommePluie([a]) + PluiePrevision(z);
    }
    assert SommePluie(trois) == 5.0 by {
      assert trois[..2] == deux;
      assert SommePluie(trois) == SommePluie(deux) + PluiePrevision(z);
    }
    assert ps[..8] == trois + trois + deux;
    SommePluieAppend(trois, trois);
    SommePluieAppend(trois + trois, deux);
    assert PrevuePluie24h(ps) == 15.0;
    ConseilsIrrigationPromesses(cs, m, ps, Some("maïs"), now);
    forall i | 0 <= i < |cs| ensures cs[i].priorite != Elevee {
      assert cs[i].kind != IrrigationUrgente;
      assert Conforme(cs[i], m, ps, Some("maïs"), now);
    }
  }

  /**
   * Maize, no forecast, 38 degrees at most and 40 % humidity: a cooling
   * advisory, the maize need of 5 mm as a recommended irrigation, and no
   * dry-air advisory since 40 is not below 40.
   */
  lemma ScenarioChaleur(now: string)
    ensures var cs := ConseilsIrrigation(CurrentWeather(Val(30.0), Val(38.0), Val(40.0), Val(0.0)), [], Some("maïs"), now);
            && HasKind(cs, IrrigationRafraichissement)
            && HasKind(cs, IrrigationRecommandee)
            && !HasKind(cs, IrrigationHumidite)
            && |cs| == 2
  {
    var m := CurrentWeather(Val(30.0), Val(38.0), Val(40.0), Val(0.0));
    var cs := ConseilsIrrigation(m, [], Some("maïs"), now);
    MaisMinuscule();
    ConseilsIrrigationPromesses(cs, m, [], Some("maïs"), now);
    assert PrevuePluie24h([]) == 0.0;
    AuPlusUnParGenre(cs);
  }

  /**
   * Without any rain, rice (8 mm a day) gets an urgent irrigation where maize
   * (5 mm, not above 5) only gets a recommended one.
   */
  lemma ScenarioRizMais(previsions: seq<Prevision>, now: string)
    requires |previsions| <= 8 && forall i :: 0 <= i < |previsions| ==> previsions[i].pluviometrie == Some(0.0)
    ensures var m := CurrentWeather(Val(25.0), Absent, Val(50.0), Val(0.0));
            && HasKind(ConseilsIrrigation(m, previsions, Some("riz"), now), IrrigationUrgente)
            && HasKind(ConseilsIrrigation(m, previsions, Some("maïs"), now), IrrigationRecommandee)
  {
    var m := CurrentWeather(Val(25.0), Absent, Val(50.0), Val(0.0));
    SansPluie(previsions[..Min(8, |previsions|)]);
    MaisMinuscule();
    RizMinuscule();
    ConseilsIrrigationPromesses(ConseilsIrrigation(m, previsions, Some("riz"), now), m, previsions, Some("riz"), now);
    ConseilsIrrigationPromesses(ConseilsIrrigation(m, previsions, Some("maïs"), now), m, previsions, Some("maïs"), now);
  }

  lemma {:induction false} SansPluie(ps: seq<Prevision>)
    requires forall i :: 0 <= i < |ps| ==> ps[i].pluviometrie == Some(0.0)
    ensures SommePluie(ps) == 0.0
  {
    if ps != [] {
      SansPluie(ps[..|ps| - 1]);
    }
  }

  lemma TroisRangs(cs: seq<Conseil>)
    requires forall i, j :: 0 <= i < j < |cs| ==> Rank(cs[i].kind) < Rank(cs[j].kind)
    ensures |cs| > 2 ==> Rank(cs[0].kind) < Rank(cs[1].kind) < Rank(cs[2].kind)
  {
  }

  /** In emission order, no kind appears twice, so the list is at most as long as its kinds. */
  lemma AuPlusUnParGenre(cs: seq<Conseil>)
    requires forall i, j :: 0 <= i < j < |cs| ==> Rank(cs[i].kind) < Rank(cs[j].kind)
    requires forall i :: 0 <= i < |cs| ==> cs[i].kind == IrrigationRecommandee || cs[i].kind == IrrigationRafraichissement
    ensures |cs| <= 2
  {
    TroisRangs(cs);
  }

  /**
   * Steps 1 to 4: rainfall, temperature and humidity, crop need and deficit,
   * recorded in `parametres_utilises` as they are computed.
   */
  method AnalyserConditions(meteo: CurrentWeather, previsions: seq<Prevision>, typeCulture: Option<string>, now: string)
    returns (parametres: Params, pluviometrieTotale: real, besoinEau24h: real, deficitHydrique: real,
             temperatureMax: Option<real>, humidite: Option<real>)
    ensures parametres == ParametresBase(meteo, previsions, typeCulture, now)
    ensures pluviometrieTotale == PluieTotale(meteo, previsions)
    ensures besoinEau24h == BesoinEau(typeCulture)
    ensures deficitHydrique == DeficitHydrique(meteo, previsions, typeCulture)
    ensures deficitHydrique == besoinEau24h - pluviometrieTotale
    ensures temperatureMax == TemperatureMax(meteo) && humidite == Humidite(meteo)
  {
    parametres := map[
      "temperature_actuelle" := FieldValue(meteo.temperature),
      "humidite_actuelle" := FieldValue(meteo.humidite),
      "pluviometrie_actuelle" := FieldValueOrZero(meteo.pluviometrie),
      "date_analyse" := VText(now)
    ];

    // 1. rainfall, current and forecast
    var pluviometrieActuelle := PluieActuelle(meteo);
    var pluviometriePrevue24h := SommePluie(previsions[..Min(8, |previsions|)]);
    pluviometrieTotale := pluviometrieActuelle + pluviometriePrevue24h;
    parametres := parametres["pluviometrie_prevue_24h" := VNum(pluviometriePrevue24h)];
    parametres := parametres["pluviometrie_totale" := VNum(pluviometrieTotale)];

    // 2. temperature and humidity
    temperatureMax := TemperatureMax(meteo);
    humidite := Humidite(meteo);

    // 3. crop water need
    var besoinEau := BesoinEau(typeCulture);
    parametres := parametres["besoin_eau_culture" := VNum(besoinEau)];
    parametres := parametres["type_culture" := TextOrNull(typeCulture)];

    // 4. water deficit
    besoinEau24h := besoinEau * 1.0;
    deficitHydrique := besoinEau24h - pluviometrieTotale;
    parametres := parametres["besoin_eau_24h" := VNum(besoinEau24h)];
    parametres := parametres["deficit_hydrique" := VNum(deficitHydrique)];
  }

  /**
   * The advisory list. `now` stands for `datetime.now().isoformat()`.
   */
  method GenerateConseilsIrrigation(
    meteo: CurrentWeather,
    previsions: seq<Prevision>,
    typeCulture: Option<string>,
    now: string)
    returns (conseils: seq<Conseil>)
    ensures conseils == ConseilsIrrigation(meteo, previsions, typeCulture, now)
  {
    var parametres, pluviometrieTotale, besoinEau24h, deficitHydrique, temperatureMax, humidite :=
      AnalyserConditions(meteo, previsions, typeCulture, now);
    ghost var b := BilanDe(meteo, previsions, typeCulture, now);

    // 5. one deficit advisory at most
    var etape5: seq<Conseil> := [];
    if deficitHydrique > 5.0 {
      etape5 := [Conseil(IrrigationUrgente, Millimetres(deficitHydrique), Elevee, parametres)];
    } else if deficitHydrique > 2.0 {
      etape5 := [Conseil(IrrigationRecommandee, Millimetres(deficitHydrique), Moyenne, parametres)];
    } else if pluviometrieTotale >= besoinEau24h {
      etape5 := [Conseil(IrrigationNonNecessaire, Millimetres(0.0), Faible, parametres)];
    }
    assert etape5 == ConseilDeficit(b);
    conseils := etape5;

    // 6. heat
    var etape6: seq<Conseil> := [];
    if temperatureMax.Some? && temperatureMax.value != 0.0 && temperatureMax.value > 35.0 {
      etape6 := [Conseil(IrrigationRafraichissement, Fourchette(2, 3), Moyenne, parametres)];
    }
    assert etape6 == ConseilChaleur(b);
    conseils := conseils + etape6;

    // 7. dry air
    var etape7: seq<Conseil> := [];
    if humidite.Some? && humidite.value != 0.0 && humidite.value < 40.0 {
      etape7 := [Conseil(IrrigationHumidite, Fourchette(3, 5), Moyenne, parametres)];
    }
    assert etape7 == ConseilAirSec(b);
    conseils := conseils + etape7;

    // 8. 48-hour outlook
    var etape8: seq<Conseil> := [];
    if |previsions| >= 16 {
      var pluviometrie48h := SommePluie(previsions[..16]);
      var besoinEau48h := besoinEau24h * 2.0;
      var deficit48h := besoinEau48h - pluviometrie48h;
      if deficit48h > 10.0 {
        var parametres48h := parametres["pluviometrie_prevue_48h" := VNum(pluviometrie48h)];
        parametres48h := parametres48h["deficit_hydrique_48h" := VNum(deficit48h)];
        etape8 := [Conseil(PlanificationIrrigation, Millimetres(deficit48h), Moyenne, parametres48h)];
      }
    }
    assert etape8 == ConseilPlanification(b);
    conseils := conseils + etape8;

    // fallback
    if conseils == [] {
      conseils := [Conseil(Information, NonApplicable, Faible, parametres)];
    }
  }
}
