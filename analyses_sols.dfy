/**
 * Soil-analysis creation with sensor readings, and partial update of a
 * stored soil analysis.
 *
 * On creation the request payload is a dictionary; each sensor reading may
 * fill one of five measurement keys (`ph`, `humidite`, `azote_n`,
 * `phosphore_p`, `potassium_k`) when the payload leaves that key absent or
 * null. Truthy sensor ids are collected, and the data source is classified
 * as manual, sensor or mixed. A reading whose `sensor_type` key is bound to
 * null makes `.lower()` raise, which the route turns into a server error.
 */
module AnalysesSols {
  import opened Common

  /** One sensor record: `sensor_id` and `value` via `get`, `sensor_type` with its three outcomes. */
  datatype Lecture = Lecture(sensorId: Option<Value>, sensorType: Field<string>, value: Option<real>)

  /**
   * The decoded `sensor_data` entry of the payload: missing or falsy (null,
   * `{}`, 0, ...), a single non-empty record, or a list of records (an empty
   * list is falsy as well).
   */
  datatype Capteurs = Absents | Un(lecture: Lecture) | Liste(lectures: seq<Lecture>)

  /** `data_source`: 'manual', 'sensor' or 'mixed'. */
  datatype Source = Manuelle | Capteur | Mixte

  /** What the new analysis row receives from the merge. */
  datatype AnalyseCreee = AnalyseCreee(
    donnees: Params,
    sensorData: Option<seq<Lecture>>,
    sensorIds: Option<seq<Value>>,
    source: Source)

  /** Outcome of the creation route once validation has passed. */
  datatype Issue = Creee(analyse: AnalyseCreee) | ErreurServeur

  /** The five measurement keys a reading may fill. */
  const Cles: set<string> := {"ph", "humidite", "azote_n", "phosphore_p", "potassium_k"}

  /** Python truthiness of a JSON value. */
  predicate Vrai(v: Value) {
    match v
    case VNum(r) => r != 0.0
    case VInt(i) => i != 0
    case VText(s) => |s| > 0
    case VNull => false
    case VDate(_) => true
    case VPeriod(_, _) => true
  }

  /** `data.get(k) is None`. */
  predicate EstNul(d: Params, k: string) { k !in d || d[k] == VNull }

  /** `data.get(k)` is truthy. */
  predicate ValeurVraie(d: Params, k: string) { k in d && Vrai(d[k]) }

  /** A single record is wrapped into a one-element list; missing or falsy data gives none. */
  function ListeLectures(c: Capteurs): (ls: seq<Lecture>)
    ensures c.Un? ==> ls == [c.lecture]
    ensures c.Liste? ==> ls == c.lectures
    ensures c.Absents? ==> ls == []
  {
    match c
    case Absents => []
    case Un(l) => [l]
    case Liste(ls) => ls
  }

  /** `get('sensor_type', '').lower()` for a reading whose type is not null. */
  function TypeDe(l: Lecture): string {
    match l.sensorType
    case Val(s) => Lower(s)
    case _ => ""
  }

  /** The alias table: the measurement key a lower-cased sensor type feeds, if any. */
  function Cible(t: string): (k: Option<string>)
    ensures k.Some? ==> k.value in Cles
  {
    if t == "soil_moisture" || t == "humidite" then Some("humidite")
    else if t == "ph" then Some("ph")
    else if t == "nitrogen" || t == "azote" || t == "n" then Some("azote_n")
    else if t == "phosphorus" || t == "phosphore" || t == "p" then Some("phosphore_p")
    else if t == "potassium" || t == "k" then Some("potassium_k")
    else None
  }

  /** The aliases of each measurement key, written as a table from key to names. */
  const Alias: map<string, set<string>> := map[
    "humidite" := {"soil_moisture", "humidite"},
    "ph" := {"ph"},
    "azote_n" := {"nitrogen", "azote", "n"},
    "phosphore_p" := {"phosphorus", "phosphore", "p"},
    "potassium_k" := {"potassium", "k"}]

  /** Each sensor type feeds exactly the key whose alias set contains it, and nothing else feeds a key. */
  lemma CibleAlias(t: string, k: string)
    ensures Cible(t) == Some(k) <==> k in Alias && t in Alias[k]
  {
    assert Alias.Keys == Cles;
  }

  /** The effect of one reading on the payload (the `if`/`elif` chain of the loop body). */
  function Appliquer(d: Params, l: Lecture): Params {
    match Cible(TypeDe(l))
    case Some(k) => if l.value.Some? && EstNul(d, k) then d[k := VNum(l.value.value)] else d
    case None => d
  }

  /** No reading has a `sensor_type` bound to null, so the loop runs to the end. */
  predicate TypesRenseignes(ls: seq<Lecture>) {
    forall i :: 0 <= i < |ls| ==> !ls[i].sensorType.Null?
  }

  /** The payload after the readings have been applied one after the other. */
  function Fusion(d: Params, ls: seq<Lecture>): Params {
    if ls == [] then d else Appliquer(Fusion(d, ls[..|ls| - 1]), ls[|ls| - 1])
  }

  /** The truthy sensor ids, in input order. */
  function Identifiants(ls: seq<Lecture>): seq<Value> {
    if ls == [] then []
    else
      var l := ls[|ls| - 1];
      Identifiants(ls[..|ls| - 1]) + (if l.sensorId.Some? && Vrai(l.sensorId.value) then [l.sensorId.value] else [])
  }

  /** None of the five measurement keys holds a truthy value. */
  predicate AucuneMesureVraie(d: Params) {
    !(ValeurVraie(d, "ph") || ValeurVraie(d, "humidite") || ValeurVraie(d, "azote_n")
      || ValeurVraie(d, "phosphore_p") || ValeurVraie(d, "potassium_k"))
  }

  /** The data source, given the readings and the merged payload. */
  function SourceDe(ls: seq<Lecture>, d: Params): Source {
    if ls == [] then Manuelle else if AucuneMesureVraie(d) then Capteur else Mixte
  }

  /** Specification of the sensor part of the creation route. */
  function Creation(data: Params, c: Capteurs): Issue {
    var ls := ListeLectures(c);
    if !TypesRenseignes(ls) then ErreurServeur
    else
      var d := Fusion(data, ls);
      var ids := Identifiants(ls);
      Creee(AnalyseCreee(d, if ls == [] then None else Some(ls), if ids == [] then None else Some(ids), SourceDe(ls, d)))
  }

  /** The body of the sensor loop: the `if`/`elif` chain that may fill one measurement key. */
  method AppliquerLecture(donnees: Params, l: Lecture) returns (d: Params)
    ensures d == Appliquer(donnees, l)
  {
    d := donnees;
    var t := TypeDe(l);
    if (t == "soil_moisture" || t == "humidite") && l.value.Some? {
      if EstNul(d, "humidite") { d := d["humidite" := VNum(l.value.value)]; }
    } else if t == "ph" && l.value.Some? {
      if EstNul(d, "ph") { d := d["ph" := VNum(l.value.value)]; }
    } else if (t == "nitrogen" || t == "azote" || t == "n") && l.value.Some? {
      if EstNul(d, "azote_n") { d := d["azote_n" := VNum(l.value.value)]; }
    } else if (t == "phosphorus" || t == "phosphore" || t == "p") && l.value.Some? {
      if EstNul(d, "phosphore_p") { d := d["phosphore_p" := VNum(l.value.value)]; }
    } else if (t == "potassium" || t == "k") && l.value.Some? {
      if EstNul(d, "potassium_k") { d := d["potassium_k" := VNum(l.value.value)]; }
    }
  }

  /**
   * The sensor loop: applies the readings in order to the payload and
   * collects the truthy ids; it stops when a reading's type is null.
   */
  method ParcourirLectures(data: Params, lectures: seq<Lecture>) returns (donnees: Params, identifiants: seq<Value>, ok: bool)
    ensures ok <==> TypesRenseignes(lectures)
    ensures ok ==> donnees == Fusion(data, lectures) && identifiants == Identifiants(lectures)
  {
    donnees, identifiants := data, [];
    var i := 0;
    while i < |lectures|
      invariant 0 <= i <= |lectures|
      invariant TypesRenseignes(lectures[..i])
      invariant donnees == Fusion(data, lectures[..i])
      invariant identifiants == Identifiants(lectures[..i])
    {
      var l := lectures[i];
      assert lectures[..i + 1][..i] == lectures[..i];
      if l.sensorType.Null? {
        assert !TypesRenseignes(lectures) by { assert lectures[i].sensorType.Null?; }
        return donnees, identifiants, false;
      }
      if l.sensorId.Some? && Vrai(l.sensorId.value) {
        identifiants := identifiants + [l.sensorId.value];
      }
      donnees := AppliquerLecture(donnees, l);
      i := i + 1;
    }
    assert lectures[..i] == lectures;
    ok := true;
  }

  /** The sensor part of the creation route, from the payload to the fields of the new row. */
  method CreerAnalyse(data: Params, capteurs: Capteurs) returns (issue: Issue)
    ensures issue == Creation(data, capteurs)
  {
    var donnees := data;
    var sensorData: Option<seq<Lecture>> := None;
    var identifiants: seq<Value> := [];
    var source := Manuelle;
    if capteurs != Absents && capteurs != Liste([]) {
      var lectures := ListeLectures(capteurs);
      var ok;
      donnees, identifiants, ok := ParcourirLectures(data, lectures);
      if !ok {
        return ErreurServeur;
      }
      if lectures != [] {
        sensorData := Some(lectures);
        source := if AucuneMesureVraie(donnees) then Capteur else Mixte;
      }
    }
    issue := Creee(AnalyseCreee(donnees, sensorData, if identifiants == [] then None else Some(identifiants), source));
  }

  // ---------------------------------------------------------------------
  // What the merge promises.

  /** A reading with no value or an unknown type leaves the payload as it is. */
  lemma AppliquerNeutre(d: Params, l: Lecture)
    requires l.value.None? || Cible(TypeDe(l)).None?
    ensures Appliquer(d, l) == d
  {
  }

  /**
   * Keys other than the five, and measurement keys the payload already fills,
   * come out of the merge exactly as they went in: explicit values are never
   * overwritten.
   */
  lemma {:induction false} FusionConserve(d: Params, ls: seq<Lecture>, k: string)
    requires k !in Cles || !EstNul(d, k)
    ensures k in Fusion(d, ls) <==> k in d
    ensures k in d ==> Fusion(d, ls)[k] == d[k]
  {
    if ls != [] {
      FusionConserve(d, ls[..|ls| - 1], k);
    }
  }

  /** The value of the first reading, in input order, that feeds key `k` and carries a value. */
  function PremiereValeur(ls: seq<Lecture>, k: string): Option<real> {
    if ls == [] then None
    else if Cible(TypeDe(ls[0])) == Some(k) && ls[0].value.Some? then ls[0].value
    else PremiereValeur(ls[1..], k)
  }

  lemma {:induction false} PremiereValeurAjout(ls: seq<Lecture>, x: Lecture, k: string)
    ensures PremiereValeur(ls + [x], k) ==
      if PremiereValeur(ls, k).Some? then PremiereValeur(ls, k)
      else if Cible(TypeDe(x)) == Some(k) && x.value.Some? then x.value
      else None
  {
    if ls == [] {
      assert [x][1..] == [];
    } else {
      assert (ls + [x])[1..] == ls[1..] + [x];
      PremiereValeurAjout(ls[1..], x, k);
    }
  }

  /**
   * A measurement key the payload leaves absent or null receives the value
   * of the first matching reading, and stays as it was when no reading
   * matches.
   */
  lemma {:induction false} FusionRemplit(d: Params, ls: seq<Lecture>, k: string)
    requires k in Cles && EstNul(d, k)
    ensures PremiereValeur(ls, k).Some? ==> k in Fusion(d, ls) && Fusion(d, ls)[k] == VNum(PremiereValeur(ls, k).value)
    ensures PremiereValeur(ls, k).None? ==> (k in Fusion(d, ls) <==> k in d) && EstNul(Fusion(d, ls), k)
    ensures PremiereValeur(ls, k).None? && k in d ==> Fusion(d, ls)[k] == d[k]
  {
    if ls != [] {
      var init, x := ls[..|ls| - 1], ls[|ls| - 1];
      assert ls == init + [x];
      FusionRemplit(d, init, k);
      PremiereValeurAjout(init, x, k);
    }
  }

  lemma {:induction false} IdentifiantsConcat(a: seq<Lecture>, b: seq<Lecture>)
    ensures Identifiants(a + b) == Identifiants(a) + Identifiants(b)
  {
    if b == [] {
      assert a + b == a;
    } else {
      assert (a + b)[..|a + b| - 1] == a + b[..|b| - 1];
      IdentifiantsConcat(a, b[..|b| - 1]);
    }
  }

  /** The id list holds exactly the truthy ids of the readings, at most one per reading. */
  lemma {:induction false} IdentifiantsExacts(ls: seq<Lecture>)
    ensures |Identifiants(ls)| <= |ls|
    ensures forall j :: 0 <= j < |Identifiants(ls)| ==> Vrai(Identifiants(ls)[j])
    ensures forall v :: v in Identifiants(ls) <==> exists i :: 0 <= i < |ls| && ls[i].sensorId == Some(v) && Vrai(v)
  {
    if ls != [] {
      var init, x := ls[..|ls| - 1], ls[|ls| - 1];
      IdentifiantsExacts(init);
      forall v
        ensures v in Identifiants(ls) <==> exists i :: 0 <= i < |ls| && ls[i].sensorId == Some(v) && Vrai(v)
      {
        if v in Identifiants(ls) && v !in Identifiants(init) {
          assert ls[|ls| - 1].sensorId == Some(v);
        }
        if exists i :: 0 <= i < |ls| && ls[i].sensorId == Some(v) && Vrai(v) {
          var i :| 0 <= i < |ls| && ls[i].sensorId == Some(v) && Vrai(v);
          if i < |ls| - 1 {
            assert init[i] == ls[i];
          }
        }
      }
    }
  }

  /**
   * The data source is 'manual' exactly when there is no reading; with
   * readings it is 'sensor' exactly when no measurement key is truthy after
   * the merge.
   */
  lemma SourceClassee(data: Params, c: Capteurs)
    requires Creation(data, c).Creee?
    ensures var a := Creation(data, c).analyse;
      (a.source == Manuelle <==> c.Absents? || c == Liste([]))
      && (a.source == Capteur <==> !(c.Absents? || c == Liste([])) && AucuneMesureVraie(a.donnees))
      && (a.source == Manuelle <==> a.sensorData.None?)
  {
  }

  /** A truthy measurement typed in by hand survives the merge, so sensor data then always gives 'mixed'. */
  lemma SaisieManuelleMixte(data: Params, c: Capteurs, k: string)
    requires Creation(data, c).Creee? && ListeLectures(c) != []
    requires k in Cles && ValeurVraie(data, k)
    ensures Creation(data, c).analyse.source == Mixte
  {
    var ls := ListeLectures(c);
    FusionConserve(data, ls, k);
  }

  /**
   * The sensor loop raises, which the route turns into a server error, exactly
   * when some reading has a null `sensor_type` (lower-casing None fails).
   */
  lemma ErreurSsiTypeNul(data: Params, c: Capteurs)
    ensures Creation(data, c).ErreurServeur? <==>
      exists i :: 0 <= i < |ListeLectures(c)| && ListeLectures(c)[i].sensorType.Null?
  {
  }

  /** A single reading typed 'PH' fills an empty payload; a non-zero value then counts as 'mixed'. */
  lemma ScenarioCapteurSeul()
    ensures var l := Lecture(Some(VText("S1")), Val("PH"), Some(6.5));
      Creation(map[], Un(l)) == Creee(AnalyseCreee(map["ph" := VNum(6.5)], Some([l]), Some([VText("S1")]), Mixte))
  {
    var l := Lecture(Some(VText("S1")), Val("PH"), Some(6.5));
    assert Lower("PH") == "ph" by {
      assert LowerChar('P') == 'p' && LowerChar('H') == 'h';
    }
    assert TypeDe(l) == "ph";
    assert [l][..0] == [];
    assert Fusion(map[], [l][..0]) == map[];
    var d := Fusion(map[], [l]);
    assert d == Appliquer(map[], l);
    assert d == map["ph" := VNum(6.5)];
    assert Identifiants([l]) == [VText("S1")];
    assert ValeurVraie(d, "ph");
  }

  /** A zero reading fills its key but is falsy, so the source is 'sensor'. */
  lemma ScenarioLectureNulle()
    ensures var l := Lecture(None, Val("k"), Some(0.0));
      Creation(map[], Liste([l])) == Creee(AnalyseCreee(map["potassium_k" := VNum(0.0)], Some([l]), None, Capteur))
  {
    var l := Lecture(None, Val("k"), Some(0.0));
    assert Lower("k") == "k" by {
      assert LowerChar('k') == 'k';
    }
    assert TypeDe(l) == "k";
    assert [l][..0] == [];
    assert Fusion(map[], [l][..0]) == map[];
    var d := Fusion(map[], [l]);
    assert d == Appliquer(map[], l);
    assert d == map["potassium_k" := VNum(0.0)];
    assert Identifiants([l]) == [];
    assert !ValeurVraie(d, "ph") && !ValeurVraie(d, "humidite") && !ValeurVraie(d, "azote_n");
  }

  // ---------------------------------------------------------------------
  // Partial update.

  /** The stored fields an update may assign. */
  datatype EtatAnalyse = EtatAnalyse(
    datePrelevement: int,
    ph: Option<real>,
    humidite: Option<real>,
    texture: Option<string>,
    azoteN: Option<real>,
    phosphoreP: Option<real>,
    potassiumK: Option<real>,
    observations: Option<string>)

  /** An update payload: each key absent, null, or bound to a value (the date already parsed to a day number). */
  datatype Modification = Modification(
    datePrelevement: Field<int>,
    ph: Field<real>,
    humidite: Field<real>,
    texture: Field<string>,
    azoteN: Field<real>,
    phosphoreP: Field<real>,
    potassiumK: Field<real>,
    observations: Field<string>)

  /** `if key in data: field = data[key]`. */
  function Assigne<T>(ancien: Option<T>, f: Field<T>): Option<T> {
    match f
    case Absent => ancien
    case Null => None
    case Val(v) => Some(v)
  }

  /** The stored state after a successful update. */
  function Modifiee(e: EtatAnalyse, m: Modification): EtatAnalyse
    requires !m.datePrelevement.Null?
  {
    EtatAnalyse(
      if m.datePrelevement.Val? then m.datePrelevement.v else e.datePrelevement,
      Assigne(e.ph, m.ph), Assigne(e.humidite, m.humidite), Assigne(e.texture, m.texture),
      Assigne(e.azoteN, m.azoteN), Assigne(e.phosphoreP, m.phosphoreP), Assigne(e.potassiumK, m.potassiumK),
      Assigne(e.observations, m.observations))
  }

  /** Dictionary union `{**m1, **m2}` of two payloads: keys of the second win. */
  function Union(m1: Modification, m2: Modification): Modification {
    Modification(
      if m2.datePrelevement.Absent? then m1.datePrelevement else m2.datePrelevement,
      if m2.ph.Absent? then m1.ph else m2.ph,
      if m2.humidite.Absent? then m1.humidite else m2.humidite,
      if m2.texture.Absent? then m1.texture else m2.texture,
      if m2.azoteN.Absent? then m1.azoteN else m2.azoteN,
      if m2.phosphoreP.Absent? then m1.phosphoreP else m2.phosphoreP,
      if m2.potassiumK.Absent? then m1.potassiumK else m2.potassiumK,
      if m2.observations.Absent? then m1.observations else m2.observations)
  }

  const ModificationVide := Modification(Absent, Absent, Absent, Absent, Absent, Absent, Absent, Absent)

  /** Only the keys present in the payload change; an empty payload changes nothing. */
  lemma SeulesClesPresentes(e: EtatAnalyse, m: Modification)
    requires !m.datePrelevement.Null?
    ensures m.datePrelevement.Absent? ==> Modifiee(e, m).datePrelevement == e.datePrelevement
    ensures m.ph.Absent? ==> Modifiee(e, m).ph == e.ph
    ensures m.humidite.Absent? ==> Modifiee(e, m).humidite == e.humidite
    ensures m.texture.Absent? ==> Modifiee(e, m).texture == e.texture
    ensures m.azoteN.Absent? ==> Modifiee(e, m).azoteN == e.azoteN
    ensures m.phosphoreP.Absent? ==> Modifiee(e, m).phosphoreP == e.phosphoreP
    ensures m.potassiumK.Absent? ==> Modifiee(e, m).potassiumK == e.potassiumK
    ensures m.observations.Absent? ==> Modifiee(e, m).observations == e.observations
    ensures Modifiee(e, ModificationVide) == e
  {
  }

  /** Sending the same payload twice is sending it once. */
  lemma ModifieeIdempotente(e: EtatAnalyse, m: Modification)
    requires !m.datePrelevement.Null?
    ensures Modifiee(Modifiee(e, m), m) == Modifiee(e, m)
  {
  }

  /** Two successive updates amount to one update with the union of their payloads. */
  lemma ModifieeComposee(e: EtatAnalyse, m1: Modification, m2: Modification)
    requires !m1.datePrelevement.Null? && !m2.datePrelevement.Null?
    ensures Modifiee(Modifiee(e, m1), m2) == Modifiee(e, Union(m1, m2))
  {
  }

  /** A stored soil analysis, updated field by field. */
  class FicheAnalyse {
    var datePrelevement: int
    var ph: Option<real>
    var humidite: Option<real>
    var texture: Option<string>
    var azoteN: Option<real>
    var phosphoreP: Option<real>
    var potassiumK: Option<real>
    var observations: Option<string>

    function Etat(): EtatAnalyse
      reads this
    {
      EtatAnalyse(datePrelevement, ph, humidite, texture, azoteN, phosphoreP, potassiumK, observations)
    }

    constructor(e: EtatAnalyse)
      ensures Etat() == e
    {
      datePrelevement, ph, humidite, texture := e.datePrelevement, e.ph, e.humidite, e.texture;
      azoteN, phosphoreP, potassiumK, observations := e.azoteN, e.phosphoreP, e.potassiumK, e.observations;
    }

    /**
     * Assigns every key present in the payload. A null date makes the date
     * parser raise before anything is assigned, and the route reports an error.
     */
    method MettreAJour(m: Modification) returns (ok: bool)
      modifies this
      ensures ok <==> !m.datePrelevement.Null?
      ensures ok ==> Etat() == Modifiee(old(Etat()), m)
      ensures !ok ==> Etat() == old(Etat())
    {
      if m.datePrelevement.Null? {
        return false;
      }
      // Each `if key in data:` assignment, written as an assignment that keeps
      // the old value when the key is absent.
      datePrelevement := if m.datePrelevement.Val? then m.datePrelevement.v else datePrelevement;
      ph := Assigne(ph, m.ph);
      humidite := Assigne(humidite, m.humidite);
      texture := Assigne(texture, m.texture);
      azoteN := Assigne(azoteN, m.azoteN);
      phosphoreP := Assigne(phosphoreP, m.phosphoreP);
      potassiumK := Assigne(potassiumK, m.potassiumK);
      observations := Assigne(observations, m.observations);
      ok := true;
    }
  }
}
