/**
 * Validation of the user fields (`utils/validators.py`): each of the four
 * checks appends at most one message, in field order.
 */
module Validateurs {
  import opened Common

  /** The submitted fields; `None` stands for a missing key or a JSON null. */
  datatype DonneesUtilisateur = DonneesUtilisateur(
    username: Option<string>,
    email: Option<string>,
    password: Option<string>,
    roleId: Option<int>)

  const UsernameRequis := "Le username est requis"
  const UsernameCourt := "Le username doit contenir au moins 3 caractères"
  const EmailRequis := "L'email est requis"
  const EmailInvalide := "Email invalide"
  const MotDePasseRequis := "Le mot de passe est requis"
  const MotDePasseCourt := "Le mot de passe doit contenir au moins 6 caractères"
  const RoleRequis := "Le rôle est requis"

  /** The message of the username check, if it fails. */
  function ErreurUsername(d: DonneesUtilisateur): seq<string> {
    if !TruthyText(d.username) then [UsernameRequis]
    else if |d.username.value| < 3 then [UsernameCourt]
    else []
  }

  function ErreurEmail(d: DonneesUtilisateur): seq<string> {
    if !TruthyText(d.email) then [EmailRequis]
    else if '@' !in d.email.value then [EmailInvalide]
    else []
  }

  function ErreurMotDePasse(d: DonneesUtilisateur): seq<string> {
    if !TruthyText(d.password) then [MotDePasseRequis]
    else if |d.password.value| < 6 then [MotDePasseCourt]
    else []
  }

  function ErreurRole(d: DonneesUtilisateur): seq<string> {
    if !TruthyInt(d.roleId) then [RoleRequis] else []
  }

  /** The list `validate_user_data` returns. */
  function Erreurs(d: DonneesUtilisateur): seq<string> {
    ErreurUsername(d) + ErreurEmail(d) + ErreurMotDePasse(d) + ErreurRole(d)
  }

  /** `validate_user_data`: the four checks append to `errors` in turn. */
  method ValiderUtilisateur(d: DonneesUtilisateur) returns (errors: seq<string>)
    ensures errors == Erreurs(d)
  {
    errors := [];
    if d.username.None? || |d.username.value| == 0 {
      errors := errors + [UsernameRequis];
    } else if |d.username.value| < 3 {
      errors := errors + [UsernameCourt];
    }
    assert errors == ErreurUsername(d);
    if d.email.None? || |d.email.value| == 0 {
      errors := errors + [EmailRequis];
    } else if '@' !in d.email.value {
      errors := errors + [EmailInvalide];
    }
    assert errors == ErreurUsername(d) + ErreurEmail(d);
    if d.password.None? || |d.password.value| == 0 {
      errors := errors + [MotDePasseRequis];
    } else if |d.password.value| < 6 {
      errors := errors + [MotDePasseCourt];
    }
    assert errors == ErreurUsername(d) + ErreurEmail(d) + ErreurMotDePasse(d);
    if d.roleId.None? || d.roleId.value == 0 {
      errors := errors + [RoleRequis];
    }
  }

  /** The account data is acceptable: a username of 3 or more characters, an email with '@', a password of 6 or more, a non-zero role. */
  predicate Valide(d: DonneesUtilisateur) {
    d.username.Some? && |d.username.value| >= 3
    && d.email.Some? && '@' in d.email.value
    && d.password.Some? && |d.password.value| >= 6
    && d.roleId.Some? && d.roleId.value != 0
  }

  /** No message iff the data is acceptable. */
  lemma SansErreurSsiValide(d: DonneesUtilisateur)
    ensures Erreurs(d) == [] <==> Valide(d)
  {
    if Erreurs(d) == [] {
      assert |ErreurUsername(d)| == 0 && |ErreurEmail(d)| == 0;
      assert |ErreurMotDePasse(d)| == 0 && |ErreurRole(d)| == 0;
    }
  }

  /** The field a message is about: 0 username, 1 email, 2 password, 3 role. */
  function Champ(m: string): (k: int)
    ensures k == -1 <==> m !in {UsernameRequis, UsernameCourt, EmailRequis, EmailInvalide, MotDePasseRequis, MotDePasseCourt, RoleRequis}
  {
    if m == UsernameRequis || m == UsernameCourt then 0
    else if m == EmailRequis || m == EmailInvalide then 1
    else if m == MotDePasseRequis || m == MotDePasseCourt then 2
    else if m == RoleRequis then 3
    else -1
  }

  /**
   * At most four messages, each about a known field, the fields strictly
   * increasing along the list: one message per field at most, in the order
   * username, email, password, role.
   */
  lemma UnMessageParChamp(d: DonneesUtilisateur)
    ensures var e := Erreurs(d);
      |e| <= 4
      && (forall i :: 0 <= i < |e| ==> 0 <= Champ(e[i]) <= 3)
      && (forall i, j :: 0 <= i < j < |e| ==> Champ(e[i]) < Champ(e[j]))
  {
    var u, m, p, r := ErreurUsername(d), ErreurEmail(d), ErreurMotDePasse(d), ErreurRole(d);
    assert forall x :: x in u ==> Champ(x) == 0;
    assert forall x :: x in m ==> Champ(x) == 1;
    assert forall x :: x in p ==> Champ(x) == 2;
    assert forall x :: x in r ==> Champ(x) == 3;
    var e := Erreurs(d);
    forall i, j | 0 <= i < j < |e|
      ensures Champ(e[i]) < Champ(e[j])
    {
      RangDansErreurs(d, i);
      RangDansErreurs(d, j);
    }
    forall i | 0 <= i < |e|
      ensures 0 <= Champ(e[i]) <= 3
    {
      RangDansErreurs(d, i);
    }
  }

  /** The field of the message at position `i` counts the checks that failed before it. */
  lemma RangDansErreurs(d: DonneesUtilisateur, i: int)
    requires 0 <= i < |Erreurs(d)|
    ensures var u, m, p := |ErreurUsername(d)|, |ErreurEmail(d)|, |ErreurMotDePasse(d)|;
      var k := Champ(Erreurs(d)[i]);
      (i < u ==> k == 0)
      && (u <= i < u + m ==> k == 1)
      && (u + m <= i < u + m + p ==> k == 2)
      && (u + m + p <= i ==> k == 3)
  {
  }

  /** A failing check names its field; a username, email or password never draws both of its messages. */
  lemma MessagesParChamp(d: DonneesUtilisateur)
    ensures UsernameRequis in Erreurs(d) <==> !TruthyText(d.username)
    ensures UsernameCourt in Erreurs(d) <==> TruthyText(d.username) && |d.username.value| < 3
    ensures EmailRequis in Erreurs(d) <==> !TruthyText(d.email)
    ensures EmailInvalide in Erreurs(d) <==> TruthyText(d.email) && '@' !in d.email.value
    ensures MotDePasseRequis in Erreurs(d) <==> !TruthyText(d.password)
    ensures MotDePasseCourt in Erreurs(d) <==> TruthyText(d.password) && |d.password.value| < 6
    ensures RoleRequis in Erreurs(d) <==> !TruthyInt(d.roleId)
  {
    var e := Erreurs(d);
    assert e == ErreurUsername(d) + ErreurEmail(d) + ErreurMotDePasse(d) + ErreurRole(d);
    assert forall x :: x in e <==> x in ErreurUsername(d) || x in ErreurEmail(d) || x in ErreurMotDePasse(d) || x in ErreurRole(d);
  }

  /** The three user cases of the test suite: valid data, a missing email, a short password. */
  lemma ScenariosUtilisateur()
    ensures Erreurs(DonneesUtilisateur(Some("testuser"), Some("test@example.com"), Some("password123"), Some(1))) == []
    ensures Erreurs(DonneesUtilisateur(Some("testuser"), None, Some("password123"), Some(1))) == [EmailRequis]
    ensures Erreurs(DonneesUtilisateur(Some("testuser"), Some("test@example.com"), Some("12345"), Some(1))) == [MotDePasseCourt]
  {
    SansErreurSsiValide(DonneesUtilisateur(Some("testuser"), Some("test@example.com"), Some("password123"), Some(1)));
    assert '@' in "test@example.com" by { assert "test@example.com"[4] == '@'; }
  }
}
