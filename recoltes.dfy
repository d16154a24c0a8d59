/**
 * Harvest records: the yield derived on creation and on import, the
 * row-by-row import with its error list, and the partial update that
 * recomputes the yield.
 */
module Recoltes {
  import opened Common

  /** A harvest payload, each key read with `get` (None: absent or null). */
  datatype Saisie = Saisie(
    exploitationId: Option<int>,
    parcelleId: Option<int>,
    typeCulture: Option<string>,
    mois: Option<int>,
    annee: Option<int>,
    quantite: Option<real>,
    uniteMesure: Option<string>,
    superficie: Option<real>,
    rendement: Option<real>,
    prixVente: Option<real>,
    coutProduction: Option<real>,
    qualite: Option<string>,
    conditionsClimatiques: Option<string>,
    observations: Option<string>)

  /** A stored harvest record. */
  datatype Recolte = Recolte(
    exploitationId: int,
    parcelleId: Option<int>,
    typeCulture: string,
    mois: int,
    annee: int,
    quantite: real,
    uniteMesure: string,
    superficie: Option<real>,
    rendement: Option<real>,
    prixVente: Option<real>,
    coutProduction: Option<real>,
    qualite: Option<string>,
    conditionsClimatiques: Option<string>,
    observations: Option<string>)

  /** The five keys a harvest cannot do without are all truthy. */
  predicate Complete(s: Saisie) {
    TruthyInt(s.exploitationId) && TruthyText(s.typeCulture) && TruthyInt(s.mois)
    && TruthyInt(s.annee) && TruthyNum(s.quantite)
  }

  /** `quantite / superficie` when the area is truthy and positive. */
  function RendementCalcule(quantite: real, superficie: Option<real>): Option<real> {
    if TruthyNum(superficie) && superficie.value > 0.0 then Some(quantite / superficie.value) else None
  }

  /** `rendement or data.get('rendement')`: the computed yield unless it is missing or zero. */
  function RendementRetenu(quantite: real, superficie: Option<real>, fourni: Option<real>): Option<real> {
    var calcule := RendementCalcule(quantite, superficie);
    if TruthyNum(calcule) then calcule else fourni
  }

  /**
   * With a positive area and a non-zero quantity the computed yield wins over
   * the supplied one and multiplies back to the quantity; without a positive
   * area the supplied yield is kept as it is.
   */
  lemma RendementPriorite(quantite: real, superficie: Option<real>, fourni: Option<real>)
    ensures quantite != 0.0 && superficie.Some? && superficie.value > 0.0 ==>
      RendementRetenu(quantite, superficie, fourni) == Some(quantite / superficie.value)
      && RendementRetenu(quantite, superficie, fourni).value * superficie.value == quantite
    ensures superficie.None? || superficie.value <= 0.0 ==> RendementRetenu(quantite, superficie, fourni) == fourni
    ensures quantite == 0.0 ==> RendementRetenu(quantite, superficie, fourni) == fourni
  {
    if quantite != 0.0 && superficie.Some? && superficie.value > 0.0 {
      var s := superficie.value;
      assert (quantite / s) * s == quantite;
      assert quantite / s != 0.0 by {
        assert (quantite / s) * s != 0.0;
      }
    }
  }

  /** The record built from a complete payload. */
  function VersRecolte(s: Saisie): Recolte
    requires Complete(s)
  {
    Recolte(
      s.exploitationId.value, s.parcelleId, s.typeCulture.value, s.mois.value, s.annee.value, s.quantite.value,
      if s.uniteMesure.Some? then s.uniteMesure.value else "kg",
      s.superficie, RendementRetenu(s.quantite.value, s.superficie, s.rendement),
      s.prixVente, s.coutProduction, s.qualite, s.conditionsClimatiques, s.observations)
  }

  datatype Creation = Incomplete | ExploitationInconnue | Creee(recolte: Recolte)

  /** The creation route: validation, then the holding lookup, then the record. */
  function Creer(s: Saisie, exploitationExiste: bool): (r: Creation)
    ensures r.Incomplete? <==> !Complete(s)
    ensures r.ExploitationInconnue? <==> Complete(s) && !exploitationExiste
    ensures r.Creee? ==> r.recolte.quantite == s.quantite.value && r.recolte.superficie == s.superficie
    ensures r.Creee? && s.superficie.Some? && s.superficie.value > 0.0 ==> r.recolte.rendement.Some? && r.recolte.rendement.value * s.superficie.value == r.recolte.quantite
    ensures r.Creee? && s.uniteMesure.None? ==> r.recolte.uniteMesure == "kg"
  {
    if !Complete(s) then Incomplete
    else if !exploitationExiste then ExploitationInconnue
    else
      RendementPriorite(s.quantite.value, s.superficie, s.rendement);
      Creee(VersRecolte(s))
  }

  // ---------------------------------------------------------------------
  // Import.

  /** One element of the `recoltes` list: a payload, or an element whose processing raises (not an object). */
  datatype Entree = Ligne(saisie: Saisie) | Illisible

  datatype Motif = DonneesIncompletes | Exception

  /** `'Ligne {idx + 1}: ...'`. */
  datatype ErreurLigne = ErreurLigne(ligne: nat, motif: Motif)

  datatype Import = FormatInvalide | Importe(recoltes: seq<Recolte>, erreurs: seq<ErreurLigne>)

  /** The reason a row is rejected, if it is. */
  function Rejet(e: Entree): Option<Motif> {
    match e
    case Illisible => Some(Exception)
    case Ligne(s) => if Complete(s) then None else Some(DonneesIncompletes)
  }

  /** The records imported from the rows, in row order. */
  function Importees(rows: seq<Entree>): seq<Recolte> {
    if rows == [] then []
    else
      var e := rows[|rows| - 1];
      Importees(rows[..|rows| - 1]) + (if Rejet(e).None? then [VersRecolte(e.saisie)] else [])
  }

  /** The errors, numbered from 1 by row. */
  function Erreurs(rows: seq<Entree>): seq<ErreurLigne> {
    if rows == [] then []
    else
      var e := rows[|rows| - 1];
      Erreurs(rows[..|rows| - 1]) + (if Rejet(e).Some? then [ErreurLigne(|rows|, Rejet(e).value)] else [])
  }

  /** The import route once the payload is decoded: a missing, empty or non-list `recoltes` is refused. */
  function ImportDe(donnees: Option<seq<Entree>>): Import {
    if donnees.None? || donnees.value == [] then FormatInvalide
    else Importe(Importees(donnees.value), Erreurs(donnees.value))
  }

  /** The import loop. */
  method ImporterRecoltes(donnees: Option<seq<Entree>>) returns (r: Import)
    ensures r == ImportDe(donnees)
  {
    if donnees.None? || donnees.value == [] {
      return FormatInvalide;
    }
    var rows := donnees.value;
    var recoltesImportees: seq<Recolte> := [];
    var erreurs: seq<ErreurLigne> := [];
    for idx := 0 to |rows|
      invariant recoltesImportees == Importees(rows[..idx])
      invariant erreurs == Erreurs(rows[..idx])
    {
      assert rows[..idx + 1][..idx] == rows[..idx];
      match rows[idx]
      case Illisible =>
        erreurs := erreurs + [ErreurLigne(idx + 1, Exception)];
      case Ligne(s) =>
        if !Complete(s) {
          erreurs := erreurs + [ErreurLigne(idx + 1, DonneesIncompletes)];
        } else {
          recoltesImportees := recoltesImportees + [VersRecolte(s)];
        }
    }
    assert rows[..|rows|] == rows;
    r := Importe(recoltesImportees, erreurs);
  }

  /** Every row is either imported or reported, never both and never skipped. */
  lemma {:induction false} ImportComptes(rows: seq<Entree>)
    ensures |Importees(rows)| + |Erreurs(rows)| == |rows|
    ensures |Erreurs(rows)| == |set i | 0 <= i < |rows| && Rejet(rows[i]).Some?|
  {
    if rows != [] {
      var init := rows[..|rows| - 1];
      ImportComptes(init);
      var avant := set i | 0 <= i < |init| && Rejet(init[i]).Some?;
      var apres := set i | 0 <= i < |rows| && Rejet(rows[i]).Some?;
      if Rejet(rows[|rows| - 1]).Some? {
        assert apres == avant + {|rows| - 1};
      } else {
        assert apres == avant;
      }
    }
  }

  /**
   * The error list names rows by their 1-based number, in increasing order,
   * and names row `k` exactly when row `k` is rejected, with its reason.
   */
  lemma {:induction false} ErreursNumerotees(rows: seq<Entree>)
    ensures forall j :: 0 <= j < |Erreurs(rows)| ==> 1 <= Erreurs(rows)[j].ligne <= |rows|
    ensures forall j, l :: 0 <= j < l < |Erreurs(rows)| ==> Erreurs(rows)[j].ligne < Erreurs(rows)[l].ligne
    ensures forall k: nat, m :: ErreurLigne(k, m) in Erreurs(rows) <==> 1 <= k <= |rows| && Rejet(rows[k - 1]) == Some(m)
  {
    if rows != [] {
      var init := rows[..|rows| - 1];
      ErreursNumerotees(init);
      forall k: nat, m
        ensures ErreurLigne(k, m) in Erreurs(rows) <==> 1 <= k <= |rows| && Rejet(rows[k - 1]) == Some(m)
      {
        if 1 <= k < |rows| {
          assert init[k - 1] == rows[k - 1];
        }
      }
    }
  }

  lemma {:induction false} ImporteesConcat(a: seq<Entree>, b: seq<Entree>)
    ensures Importees(a + b) == Importees(a) + Importees(b)
  {
    if b == [] {
      assert a + b == a;
    } else {
      assert (a + b)[..|a + b| - 1] == a + b[..|b| - 1];
      ImporteesConcat(a, b[..|b| - 1]);
    }
  }

  /** Each row's record is the one the creation route would build for it, and imported records keep row order. */
  lemma ImportCommeCreation(rows: seq<Entree>, i: nat)
    requires i < |rows| && Rejet(rows[i]).None?
    ensures Creer(rows[i].saisie, true) == Creee(VersRecolte(rows[i].saisie))
    ensures Importees(rows) == Importees(rows[..i]) + [VersRecolte(rows[i].saisie)] + Importees(rows[i + 1..])
  {
    assert rows == rows[..i] + [rows[i]] + rows[i + 1..];
    ImporteesConcat(rows[..i] + [rows[i]], rows[i + 1..]);
    ImporteesConcat(rows[..i], [rows[i]]);
    assert [rows[i]][..0] == [];
  }

  // ---------------------------------------------------------------------
  // Partial update.

  /** An update payload: each key absent, null or bound to a value. */
  datatype Modification = Modification(
    typeCulture: Field<string>,
    mois: Field<int>,
    annee: Field<int>,
    quantite: Field<real>,
    superficie: Field<real>,
    prixVente: Field<real>,
    coutProduction: Field<real>,
    qualite: Field<string>,
    observations: Field<string>)

  /**
   * A null for a column the schema declares NOT NULL: the commit (or, for the
   * quantity, the yield division) fails and the update is rolled back.
   */
  predicate NullInterdit(m: Modification) {
    m.typeCulture.Null? || m.mois.Null? || m.annee.Null? || m.quantite.Null?
  }

  /** `if key in data: field = data[key]` for a non-nullable column (the payload carries no null). */
  function Requis<T>(ancien: T, f: Field<T>): T {
    if f.Val? then f.v else ancien
  }

  /** `if key in data: field = data[key]` for a nullable column. */
  function Facultatif<T>(ancien: Option<T>, f: Field<T>): Option<T> {
    match f
    case Absent => ancien
    case Null => None
    case Val(v) => Some(v)
  }

  /** The record once the keys present in the payload are assigned. */
  function Affectee(e: Recolte, m: Modification): Recolte
    requires !NullInterdit(m)
  {
    Recolte(
      e.exploitationId, e.parcelleId,
      Requis(e.typeCulture, m.typeCulture), Requis(e.mois, m.mois), Requis(e.annee, m.annee),
      Requis(e.quantite, m.quantite), e.uniteMesure, Facultatif(e.superficie, m.superficie), e.rendement,
      Facultatif(e.prixVente, m.prixVente), Facultatif(e.coutProduction, m.coutProduction),
      Facultatif(e.qualite, m.qualite), e.conditionsClimatiques, Facultatif(e.observations, m.observations))
  }

  /** The record after a successful update: assignments first, then the yield recomputation. */
  function RecolteModifiee(e: Recolte, m: Modification): Recolte
    requires !NullInterdit(m)
  {
    var a := Affectee(e, m);
    var calcule := RendementCalcule(a.quantite, a.superficie);
    a.(rendement := if calcule.Some? then calcule else a.rendement)
  }

  /** Keys absent from the payload keep their value; holding, plot, unit and weather notes never change. */
  lemma RecolteSeulesClesPresentes(e: Recolte, m: Modification)
    requires !NullInterdit(m)
    ensures var r := RecolteModifiee(e, m);
      r.exploitationId == e.exploitationId && r.parcelleId == e.parcelleId
      && r.uniteMesure == e.uniteMesure && r.conditionsClimatiques == e.conditionsClimatiques
      && (m.typeCulture.Absent? ==> r.typeCulture == e.typeCulture)
      && (m.mois.Absent? ==> r.mois == e.mois)
      && (m.annee.Absent? ==> r.annee == e.annee)
      && (m.quantite.Absent? ==> r.quantite == e.quantite)
      && (m.superficie.Absent? ==> r.superficie == e.superficie)
      && (m.prixVente.Absent? ==> r.prixVente == e.prixVente)
      && (m.coutProduction.Absent? ==> r.coutProduction == e.coutProduction)
      && (m.qualite.Absent? ==> r.qualite == e.qualite)
      && (m.observations.Absent? ==> r.observations == e.observations)
  {
  }

  /**
   * The yield is recomputed from the resulting quantity and area exactly when
   * that area is positive, and multiplies back to the quantity; otherwise the
   * stored yield stays.
   */
  lemma RendementApresModification(e: Recolte, m: Modification)
    requires !NullInterdit(m)
    ensures var r := RecolteModifiee(e, m);
      (r.superficie.Some? && r.superficie.value > 0.0 ==>
        r.rendement == Some(r.quantite / r.superficie.value) && r.rendement.value * r.superficie.value == r.quantite)
      && (r.superficie.None? || r.superficie.value <= 0.0 ==> r.rendement == e.rendement)
  {
    var r := RecolteModifiee(e, m);
    if r.superficie.Some? && r.superficie.value > 0.0 {
      assert (r.quantite / r.superficie.value) * r.superficie.value == r.quantite;
    }
  }

  /** Sending the same update twice is sending it once. */
  lemma RecolteModifieeIdempotente(e: Recolte, m: Modification)
    requires !NullInterdit(m)
    ensures RecolteModifiee(RecolteModifiee(e, m), m) == RecolteModifiee(e, m)
  {
  }

  /** A stored harvest record, updated field by field. */
  class FicheRecolte {
    const exploitationId: int
    const parcelleId: Option<int>
    var typeCulture: string
    var mois: int
    var annee: int
    var quantite: real
    const uniteMesure: string
    var superficie: Option<real>
    var rendement: Option<real>
    var prixVente: Option<real>
    var coutProduction: Option<real>
    var qualite: Option<string>
    const conditionsClimatiques: Option<string>
    var observations: Option<string>

    function Etat(): Recolte
      reads this
    {
      Recolte(exploitationId, parcelleId, typeCulture, mois, annee, quantite, uniteMesure, superficie,
        rendement, prixVente, coutProduction, qualite, conditionsClimatiques, observations)
    }

    constructor(r: Recolte)
      ensures Etat() == r
    {
      exploitationId, parcelleId, typeCulture, mois, annee := r.exploitationId, r.parcelleId, r.typeCulture, r.mois, r.annee;
      quantite, uniteMesure, superficie, rendement := r.quantite, r.uniteMesure, r.superficie, r.rendement;
      prixVente, coutProduction, qualite := r.prixVente, r.coutProduction, r.qualite;
      conditionsClimatiques, observations := r.conditionsClimatiques, r.observations;
    }

    /**
     * Assigns every key present in the payload, then recomputes the yield
     * when the area is truthy and positive. A null for a non-nullable column
     * ends in a rollback, which leaves the record as it was.
     */
    method MettreAJour(m: Modification) returns (ok: bool)
      modifies this
      ensures ok <==> !NullInterdit(m)
      ensures ok ==> Etat() == RecolteModifiee(old(Etat()), m)
      ensures !ok ==> Etat() == old(Etat())
    {
      if NullInterdit(m) {
        return false;
      }
      Affecter(m);
      if superficie.Some? && superficie.value != 0.0 && superficie.value > 0.0 {
        rendement := Some(quantite / superficie.value);
      }
      ok := true;
    }

    /** The `if key in data:` assignments, one field after the other. */
    method Affecter(m: Modification)
      requires !NullInterdit(m)
      modifies this
      ensures Etat() == Affectee(old(Etat()), m)
    {
      // Each assignment keeps the old value when the key is absent.
      typeCulture, mois, annee, quantite :=
        Requis(typeCulture, m.typeCulture), Requis(mois, m.mois), Requis(annee, m.annee), Requis(quantite, m.quantite);
      superficie, prixVente, coutProduction, qualite, observations :=
        Facultatif(superficie, m.superficie), Facultatif(prixVente, m.prixVente),
        Facultatif(coutProduction, m.coutProduction), Facultatif(qualite, m.qualite),
        Facultatif(observations, m.observations);
    }
  }
}
