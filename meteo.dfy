/**
 * Weather forecasts (`meteo_service.py`): the rainfall read off an
 * OpenWeather answer, and `group_forecasts_by_day`, which folds the 3-hour
 * forecast buckets into one record per calendar day (rain summed,
 * temperature extremes, the other readings copied from a midday bucket).
 * Dates arrive already parsed into a day number and an hour.
 */
module Meteo {
  import opened Common

  // ---------------------------------------------------------------------
  // Rainfall extraction.

  /** The `rain` object of an answer: its '1h' and '3h' entries, None when missing. */
  datatype Pluie = Pluie(uneHeure: Option<real>, troisHeures: Option<real>)

  /** `x or y` on nullable numbers, also falling back when `x` is 0. */
  function Ou(x: Option<real>, y: real): (r: real)
    ensures TruthyNum(x) ==> r == x.value
    ensures !TruthyNum(x) ==> r == y
  {
    if TruthyNum(x) then x.value else y
  }

  /** Current weather: `rain['1h'] or rain['3h'] or 0`. */
  function PluieActuelle(p: Pluie): real {
    Ou(p.uneHeure, Ou(p.troisHeures, 0.0))
  }

  /** A forecast bucket: `rain['3h'] or 0`. */
  function PluiePrevue(p: Pluie): real {
    Ou(p.troisHeures, 0.0)
  }

  /**
   * The current rainfall is the 1-hour figure when it is non-zero, the
   * 3-hour figure when only that one is non-zero, and 0 otherwise; the
   * forecast rainfall ignores the 1-hour figure.
   */
  lemma PluieExtraite(p: Pluie)
    ensures TruthyNum(p.uneHeure) ==> PluieActuelle(p) == p.uneHeure.value
    ensures !TruthyNum(p.uneHeure) ==> PluieActuelle(p) == PluiePrevue(p)
    ensures PluiePrevue(p) == (if TruthyNum(p.troisHeures) then p.troisHeures.value else 0.0)
    ensures PluieActuelle(p) == 0.0 <==> !TruthyNum(p.uneHeure) && !TruthyNum(p.troisHeures)
  {
  }

  // ---------------------------------------------------------------------
  // Forecast entries.

  /** The `date` of an entry: missing, None or empty; a string ISO parsing rejects; a parsed instant. */
  datatype Horodatage = SansDate | Illisible | Le(jour: int, heure: int)

  /** The readings a daily record copies from its reference bucket. */
  datatype Details = Details(
    humidite: Option<real>,
    pression: Option<real>,
    vitesseVent: Option<real>,
    directionVent: Option<real>,
    description: Option<string>,
    icon: Option<string>,
    nuages: Option<real>,
    latitude: Option<real>,
    longitude: Option<real>)

  /** One 3-hour forecast bucket; None stands for a missing key or a None value. */
  datatype Releve = Releve(
    date: Horodatage,
    temperature: Option<real>,
    temperatureMin: Option<real>,
    temperatureMax: Option<real>,
    pluviometrie: Option<real>,
    details: Details)

  /** One daily record. */
  datatype Journee = Journee(
    jour: int,
    temperature: Option<real>,
    temperatureMin: Option<real>,
    temperatureMax: Option<real>,
    pluviometrie: real,
    details: Details)

  predicate DuJourJ(r: Releve, d: int) {
    r.date.Le? && r.date.jour == d
  }

  /** The entries dated on day `d`, in input order. */
  function DuJour(p: seq<Releve>, d: int): seq<Releve> {
    if p == [] then []
    else DuJour(p[..|p| - 1], d) + (if DuJourJ(p[|p| - 1], d) then [p[|p| - 1]] else [])
  }

  /** The days some entry is dated on. */
  function JoursDe(p: seq<Releve>): set<int> {
    if p == [] then {}
    else JoursDe(p[..|p| - 1]) + (if p[|p| - 1].date.Le? then {p[|p| - 1].date.jour} else {})
  }

  /** An entry lands in the group of day `d` iff it is one of the input's entries dated on `d`. */
  lemma {:induction false} DuJourMembres(p: seq<Releve>, d: int)
    ensures forall r :: r in DuJour(p, d) <==> r in p && DuJourJ(r, d)
  {
    if p != [] {
      DuJourMembres(p[..|p| - 1], d);
      assert p == p[..|p| - 1] + [p[|p| - 1]];
    }
  }

  /** A day has entries iff some entry is dated on it, so no group is ever empty. */
  lemma {:induction false} JourPresent(p: seq<Releve>, d: int)
    ensures d in JoursDe(p) <==> DuJour(p, d) != []
  {
    if p != [] {
      JourPresent(p[..|p| - 1], d);
    }
  }

  // ---------------------------------------------------------------------
  // Sorting the days.

  lemma {:induction false} ExisteMinimum(s: set<int>)
    requires s != {}
    ensures exists m :: m in s && forall x :: x in s ==> m <= x
    decreases |s|
  {
    if forall z :: z !in s {
      assert false;
    }
    var y :| y in s;
    var t := s - {y};
    if t == {} {
      assert s == {y};
      assert forall x :: x in s ==> y <= x;
    } else {
      ExisteMinimum(t);
      var m :| m in t && forall x :: x in t ==> m <= x;
      var k := if y < m then y else m;
      forall x | x in s ensures k <= x {
        if x != y { assert x in t; }
      }
      assert k in s;
    }
  }

  /** `sorted(...)` on the days: every day once, in strictly ascending order. */
  function Croissants(s: set<int>): (r: seq<int>)
    ensures forall x :: x in r <==> x in s
    ensures forall i, j :: 0 <= i < j < |r| ==> r[i] < r[j]
    decreases |s|
  {
    if s == {} then []
    else
      ExisteMinimum(s);
      var m :| m in s && forall x :: x in s ==> m <= x;
      var reste := Croissants(s - {m});
      DevantPlusPetit(m, reste);
      [m] + reste
  }

  /** Putting in front an element below all the others keeps a list strictly increasing. */
  lemma DevantPlusPetit(m: int, s: seq<int>)
    requires forall i, j :: 0 <= i < j < |s| ==> s[i] < s[j]
    requires forall x :: x in s ==> m < x
    ensures forall i, j :: 0 <= i < j < |[m] + s| ==> ([m] + s)[i] < ([m] + s)[j]
  {
    var t := [m] + s;
    forall i, j | 0 <= i < j < |t|
      ensures t[i] < t[j]
    {
      assert t[j] == s[j - 1];
      if i > 0 {
        assert t[i] == s[i - 1];
      } else {
        assert s[j - 1] in s;
      }
    }
  }

  // ---------------------------------------------------------------------
  // One day's record.

  /** The non-None values, in order. */
  function Renseignees(s: seq<Option<real>>): seq<real> {
    if s == [] then []
    else
      var r := Renseignees(s[..|s| - 1]);
      if s[|s| - 1].Some? then r + [s[|s| - 1].value] else r
  }

  /** The kept values are exactly the non-None ones. */
  lemma {:induction false} RenseigneesMembres(s: seq<Option<real>>)
    ensures forall x :: x in Renseignees(s) <==> Some(x) in s
  {
    if s != [] {
      RenseigneesMembres(s[..|s| - 1]);
      assert s == s[..|s| - 1] + [s[|s| - 1]];
    }
  }

  /** `max(...)`: an element no other element exceeds. */
  function Maximum(s: seq<real>): (m: real)
    requires s != []
    ensures m in s
    ensures forall i :: 0 <= i < |s| ==> s[i] <= m
  {
    if |s| == 1 then s[0]
    else
      var m := Maximum(s[1..]);
      assert forall i :: 1 <= i < |s| ==> s[i] == s[1..][i - 1];
      if s[0] > m then s[0] else m
  }

  /** `min(...)`: an element no other element undercuts. */
  function Minimum(s: seq<real>): (m: real)
    requires s != []
    ensures m in s
    ensures forall i :: 0 <= i < |s| ==> m <= s[i]
  {
    if |s| == 1 then s[0]
    else
      var m := Minimum(s[1..]);
      assert forall i :: 1 <= i < |s| ==> s[i] == s[1..][i - 1];
      if s[0] < m then s[0] else m
  }

  function Temperatures(g: seq<Releve>): seq<real> {
    Renseignees(seq(|g|, i requires 0 <= i < |g| => g[i].temperature))
  }

  function TemperaturesMin(g: seq<Releve>): seq<real> {
    Renseignees(seq(|g|, i requires 0 <= i < |g| => g[i].temperatureMin))
  }

  function TemperaturesMax(g: seq<Releve>): seq<real> {
    Renseignees(seq(|g|, i requires 0 <= i < |g| => g[i].temperatureMax))
  }

  /** `f.get('pluviometrie', 0) or 0` for every bucket of the day, added up. */
  function PluieTotale(g: seq<Releve>): real {
    Sum(seq(|g|, i requires 0 <= i < |g| => OrZero(g[i].pluviometrie)))
  }

  predicate AMidi(r: Releve) {
    r.date.Le? && 10 <= r.date.heure <= 14
  }

  /** The position of the first bucket between 10 and 14 o'clock. */
  function PremierMidi(g: seq<Releve>): (r: Option<nat>)
    ensures r.Some? ==> (r.value < |g| && AMidi(g[r.value])
                         && forall j :: 0 <= j < r.value ==> !AMidi(g[j]))
    ensures r.None? ==> forall j :: 0 <= j < |g| ==> !AMidi(g[j])
  {
    if g == [] then None
    else if AMidi(g[0]) then Some(0)
    else match PremierMidi(g[1..])
      case None => None
      case Some(k) => Some(k + 1)
  }

  /** The reference bucket: the first one between 10 and 14 o'clock, else the middle one. */
  function Reference(g: seq<Releve>): Releve
    requires g != []
  {
    match PremierMidi(g)
    case Some(k) => g[k]
    case None => g[|g| / 2]
  }

  /** The record of day `d` from its buckets `g` and its reference bucket. */
  function Resume(d: int, g: seq<Releve>, midi: Releve): (j: Journee)
    ensures j.jour == d
  {
    var temps, mins, maxs := Temperatures(g), TemperaturesMin(g), TemperaturesMax(g);
    Journee(
      d,
      if temps != [] then Some(Maximum(temps)) else midi.temperature,
      if mins != [] then Some(Minimum(mins)) else if temps != [] then Some(Minimum(temps)) else midi.temperatureMin,
      if maxs != [] then Some(Maximum(maxs)) else if temps != [] then Some(Maximum(temps)) else midi.temperatureMax,
      PluieTotale(g),
      midi.details)
  }

  /** The records of the listed days, skipping a day without entries. */
  function Journees(p: seq<Releve>, jours: seq<int>): seq<Journee> {
    if jours == [] then []
    else
      var d := jours[|jours| - 1];
      var g := DuJour(p, d);
      Journees(p, jours[..|jours| - 1]) + (if g == [] then [] else [Resume(d, g, Reference(g))])
  }

  /** Specification of `group_forecasts_by_day`. */
  function Regroupement(p: seq<Releve>): seq<Journee> {
    Journees(p, Croissants(JoursDe(p)))
  }

  // ---------------------------------------------------------------------
  // The grouping, as the service runs it.

  /** The first-midday search with `break`, then the middle bucket as fallback. */
  method ChoisirReference(g: seq<Releve>) returns (midi: Releve)
    requires g != []
    ensures midi == Reference(g)
  {
    var trouve: Option<Releve> := None;
    var i := 0;
    while i < |g|
      invariant 0 <= i <= |g|
      invariant trouve.None?
      invariant forall j :: 0 <= j < i ==> !AMidi(g[j])
      decreases |g| - i
    {
      if g[i].date.Le? && 10 <= g[i].date.heure <= 14 {
        trouve := Some(g[i]);
        PremierIndice(g, i);
        break;
      }
      i := i + 1;
    }
    if trouve.None? {
      midi := g[|g| / 2];
    } else {
      midi := trouve.value;
    }
  }

  lemma PremierIndice(g: seq<Releve>, i: nat)
    requires i < |g| && AMidi(g[i])
    requires forall j :: 0 <= j < i ==> !AMidi(g[j])
    ensures PremierMidi(g) == Some(i)
  {
  }

  /** `group_forecasts_by_day`: bucket by day in a dictionary of lists, then one record per sorted day. */
  method GrouperParJour(previsions: seq<Releve>) returns (journees: seq<Journee>)
    ensures journees == Regroupement(previsions)
  {
    if previsions == [] {
      return [];
    }
    var groupes := Grouper(previsions);
    var jours := Croissants(groupes.Keys);
    journees := [];
    for k := 0 to |jours|
      invariant journees == Journees(previsions, jours[..k])
    {
      JourneesAjout(previsions, jours, k);
      var g := groupes[jours[k]];
      if g == [] {
        continue;
      }
      var midi := ChoisirReference(g);
      journees := journees + [Resume(jours[k], g, midi)];
    }
    assert jours[..|jours|] == jours;
  }

  lemma JourneesAjout(p: seq<Releve>, jours: seq<int>, k: nat)
    requires k < |jours|
    ensures var g := DuJour(p, jours[k]);
      Journees(p, jours[..k + 1])
      == Journees(p, jours[..k]) + (if g == [] then [] else [Resume(jours[k], g, Reference(g))])
  {
    assert jours[..k + 1][..k] == jours[..k];
  }

  /** The `defaultdict(list)` pass: each dated entry is appended to the list of its day. */
  method Grouper(previsions: seq<Releve>) returns (groupes: map<int, seq<Releve>>)
    ensures groupes.Keys == JoursDe(previsions)
    ensures forall d :: d in groupes ==> groupes[d] == DuJour(previsions, d)
  {
    groupes := map[];
    for i := 0 to |previsions|
      invariant groupes.Keys == JoursDe(previsions[..i])
      invariant forall d :: d in groupes ==> groupes[d] == DuJour(previsions[..i], d)
    {
      assert previsions[..i + 1][..i] == previsions[..i];
      var prev := previsions[i];
      if prev.date.Le? {
        var d := prev.date.jour;
        groupes := groupes[d := (if d in groupes then groupes[d] else []) + [prev]];
        JourPresent(previsions[..i], d);
      }
    }
    assert previsions[..|previsions|] == previsions;
  }

  // ---------------------------------------------------------------------
  // Properties.

  /** When every listed day has entries, there is one record per listed day, in the same order. */
  lemma {:induction false} JourneesCompletes(p: seq<Releve>, jours: seq<int>)
    requires forall k :: 0 <= k < |jours| ==> DuJour(p, jours[k]) != []
    ensures |Journees(p, jours)| == |jours|
    ensures forall k :: 0 <= k < |jours| ==> Journees(p, jours)[k].jour == jours[k]
  {
    if jours != [] {
      var debut := jours[..|jours| - 1];
      var d := jours[|jours| - 1];
      JourneesCompletes(p, debut);
      var avant := Journees(p, debut);
      var j := Resume(d, DuJour(p, d), Reference(DuJour(p, d)));
      assert Journees(p, jours) == avant + [j];
      forall k | 0 <= k < |jours|
        ensures (avant + [j])[k].jour == jours[k]
      {
        if k < |debut| {
          assert (avant + [j])[k] == avant[k];
          assert jours[k] == debut[k];
        }
      }
    }
  }

  /**
   * Exactly one record per day some entry is dated on, in strictly
   * ascending order of day; no input gives no record.
   */
  lemma UnParJour(p: seq<Releve>)
    ensures var r := Regroupement(p);
      (forall k :: 0 <= k < |r| ==> r[k].jour in JoursDe(p))
      && (forall d :: d in JoursDe(p) ==> exists k :: 0 <= k < |r| && r[k].jour == d)
      && (forall i, j :: 0 <= i < j < |r| ==> r[i].jour < r[j].jour)
  {
    var jours := Croissants(JoursDe(p));
    forall k | 0 <= k < |jours|
      ensures DuJour(p, jours[k]) != []
    {
      JourPresent(p, jours[k]);
    }
    JourneesCompletes(p, jours);
    var r := Regroupement(p);
    assert r == Journees(p, jours);
    assert |r| == |jours| && forall k :: 0 <= k < |r| ==> r[k].jour == jours[k];
    forall k | 0 <= k < |r|
      ensures r[k].jour in JoursDe(p)
    {
      assert jours[k] in jours;
    }
    forall d | d in JoursDe(p)
      ensures exists k :: 0 <= k < |r| && r[k].jour == d
    {
      assert d in jours;
      var k :| 0 <= k < |jours| && jours[k] == d;
      assert r[k].jour == d;
    }
  }

  lemma RegroupementVide()
    ensures Regroupement([]) == []
  {
  }

  /** Entries without a usable date never reach any group. */
  lemma SansDateIgnore(p: seq<Releve>, r: Releve)
    requires !r.date.Le?
    ensures JoursDe(p + [r]) == JoursDe(p)
    ensures forall d :: DuJour(p + [r], d) == DuJour(p, d)
  {
    assert (p + [r])[..|p + [r]| - 1] == p;
  }

  /** The record of the day at position `k` is computed from that day's entries, in input order. */
  lemma {:induction false} JourneeDuJour(p: seq<Releve>, jours: seq<int>, k: nat)
    requires forall i :: 0 <= i < |jours| ==> DuJour(p, jours[i]) != []
    requires k < |jours|
    ensures k < |Journees(p, jours)|
    ensures Journees(p, jours)[k] == Resume(jours[k], DuJour(p, jours[k]), Reference(DuJour(p, jours[k])))
  {
    JourneesCompletes(p, jours);
    if k < |jours| - 1 {
      JourneesCompletes(p, jours[..|jours| - 1]);
      JourneeDuJour(p, jours[..|jours| - 1], k);
    }
  }

  /**
   * A daily record's temperatures: the highest reported temperature; the
   * lowest reported minimum, else the lowest temperature; the highest
   * reported maximum, else the highest temperature; each one of the
   * day's reported values whenever any is reported.
   */
  lemma ResumeTemperatures(d: int, g: seq<Releve>, midi: Releve)
    ensures var j := Resume(d, g, midi);
      var temps, mins, maxs := Temperatures(g), TemperaturesMin(g), TemperaturesMax(g);
      j.jour == d
      && (temps != [] ==> (j.temperature.Some? && j.temperature.value in temps
                           && forall t :: t in temps ==> t <= j.temperature.value))
      && (mins != [] ==> (j.temperatureMin.Some? && j.temperatureMin.value in mins
                          && forall t :: t in mins ==> j.temperatureMin.value <= t))
      && (mins == [] && temps != [] ==> (j.temperatureMin.Some? && j.temperatureMin.value in temps
                                         && forall t :: t in temps ==> j.temperatureMin.value <= t))
      && (maxs != [] ==> (j.temperatureMax.Some? && j.temperatureMax.value in maxs
                          && forall t :: t in maxs ==> t <= j.temperatureMax.value))
      && (maxs == [] && temps != [] ==> (j.temperatureMax.Some? && j.temperatureMax.value in temps
                                         && forall t :: t in temps ==> t <= j.temperatureMax.value))
      && (temps == [] ==> j.temperature == midi.temperature)
      && (mins == [] && temps == [] ==> j.temperatureMin == midi.temperatureMin)
      && (maxs == [] && temps == [] ==> j.temperatureMax == midi.temperatureMax)
      && j.details == midi.details
  {
  }

  /** The reported temperatures of a day are exactly its entries' non-None temperatures. */
  lemma TemperaturesRenseignees(g: seq<Releve>)
    ensures forall t :: t in Temperatures(g) <==> exists i :: 0 <= i < |g| && g[i].temperature == Some(t)
  {
    var s := seq(|g|, i requires 0 <= i < |g| => g[i].temperature);
    RenseigneesMembres(s);
    forall t
      ensures Some(t) in s <==> exists i :: 0 <= i < |g| && g[i].temperature == Some(t)
    {
      if Some(t) in s {
        var i :| 0 <= i < |s| && s[i] == Some(t);
        assert g[i].temperature == Some(t);
      }
      if exists i :: 0 <= i < |g| && g[i].temperature == Some(t) {
        var i :| 0 <= i < |g| && g[i].temperature == Some(t);
        assert s[i] == Some(t);
      }
    }
  }

  /**
   * The reference bucket is one of the day's buckets: the first between 10
   * and 14 o'clock when there is one, the middle bucket otherwise.
   */
  lemma ReferenceChoisie(g: seq<Releve>)
    requires g != []
    ensures Reference(g) in g
    ensures (exists i :: 0 <= i < |g| && AMidi(g[i])) ==>
      AMidi(Reference(g)) && exists k :: 0 <= k < |g| && g[k] == Reference(g) && forall j :: 0 <= j < k ==> !AMidi(g[j])
    ensures (forall i :: 0 <= i < |g| ==> !AMidi(g[i])) ==> Reference(g) == g[|g| / 2]
  {
    match PremierMidi(g)
    case Some(k) => assert g[k] == Reference(g);
    case None =>
  }

  /** A day's rain adds the buckets one by one, a missing or None figure counting as 0. */
  lemma PluieAjout(g: seq<Releve>, r: Releve)
    ensures PluieTotale(g + [r]) == PluieTotale(g) + OrZero(r.pluviometrie)
  {
    var s := seq(|g + [r]|, i requires 0 <= i < |g + [r]| => OrZero((g + [r])[i].pluviometrie));
    assert s[..|s| - 1] == seq(|g|, i requires 0 <= i < |g| => OrZero(g[i].pluviometrie));
  }

  lemma PluieVide()
    ensures PluieTotale([]) == 0.0
  {
  }
}
