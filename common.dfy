/**
 * Shared vocabulary of the agronomic advisory core: optional values, the
 * loosely typed parameter maps attached to every advisory, the priority
 * scale, Python truthiness on the few value kinds the core inspects, sums
 * over real sequences, the subset of `str.lower` the crop lookup relies on,
 * and the "first maximal element" choice made by Python's `max` and by a
 * stable descending sort.
 */
module Common {

  datatype Option<T> = None | Some(value: T)

  /** The three outcomes of `d.get(key)` on a dictionary: no key, a key bound to None, a value. */
  datatype Field<T> = Absent | Null | Val(v: T)

  /** Advisory priority: 'faible', 'moyenne', 'élevée'. */
  datatype Priority = Faible | Moyenne | Elevee

  /** A value stored in a `parametres_utilises` audit map. */
  datatype Value =
    | VNum(r: real)
    | VInt(i: int)
    | VText(s: string)
    | VDate(day: int)
    | VPeriod(start: int, end: int)
    | VNull

  type Params = map<string, Value>

  function Min(a: int, b: int): int { if a <= b then a else b }

  /** A nullable number as it lands in a parameter map. */
  function NumOrNull(o: Option<real>): Value {
    match o
    case Some(v) => VNum(v)
    case None => VNull
  }

  /** A nullable string as it lands in a parameter map. */
  function TextOrNull(o: Option<string>): Value {
    match o
    case Some(s) => VText(s)
    case None => VNull
  }

  /** Python truthiness of a nullable number: present and non-zero. */
  predicate TruthyNum(o: Option<real>) { o.Some? && o.value != 0.0 }

  /** Python truthiness of a nullable integer: present and non-zero. */
  predicate TruthyInt(o: Option<int>) { o.Some? && o.value != 0 }

  /** Python truthiness of a nullable string: present and non-empty. */
  predicate TruthyText(o: Option<string>) { o.Some? && |o.value| > 0 }

  /** `x or 0` on a nullable number (None and 0 both give 0). */
  function OrZero(o: Option<real>): (r: real)
    ensures o.Some? ==> r == o.value
    ensures o.None? ==> r == 0.0
  {
    if o.Some? then o.value else 0.0
  }

  /** `lo <= s / n <= hi` from `n * lo <= s <= n * hi`. */
  lemma Encadrement(s: real, n: real, lo: real, hi: real)
    requires n > 0.0 && n * lo <= s <= n * hi
    ensures lo <= s / n <= hi
  {
  }

  /** Dividing by a positive number and multiplying back gives the number again. */
  lemma Quotient(s: real, n: real)
    requires n > 0.0
    ensures (s / n) * n == s
    ensures s >= 0.0 ==> s / n >= 0.0
  {
  }

  // ---------------------------------------------------------------------
  // Sums, built from the last element so that prefix loops extend them.

  function Sum(s: seq<real>): real
  {
    if s == [] then 0.0 else Sum(s[..|s| - 1]) + s[|s| - 1]
  }

  lemma {:induction false} SumAppend(a: seq<real>, b: seq<real>)
    ensures Sum(a + b) == Sum(a) + Sum(b)
  {
    if b == [] {
      assert a + b == a;
    } else {
      assert (a + b)[..|a + b| - 1] == a + b[..|b| - 1];
      SumAppend(a, b[..|b| - 1]);
    }
  }

  lemma {:induction false} SumBounds(s: seq<real>, lo: real, hi: real)
    requires forall i :: 0 <= i < |s| ==> lo <= s[i] <= hi
    ensures |s| as real * lo <= Sum(s) <= |s| as real * hi
  {
    if s != [] {
      SumBounds(s[..|s| - 1], lo, hi);
    }
  }

  lemma {:induction false} SumNonNegative(s: seq<real>)
    requires forall i :: 0 <= i < |s| ==> 0.0 <= s[i]
    ensures 0.0 <= Sum(s)
  {
    if s != [] {
      SumNonNegative(s[..|s| - 1]);
    }
  }

  /** Sums do not depend on the order of the summands. */
  lemma {:induction false} SumPermutation(s: seq<real>, t: seq<real>)
    requires multiset(s) == multiset(t)
    ensures Sum(s) == Sum(t)
    decreases |s|
  {
    if s != [] {
      var x := s[|s| - 1];
      assert x in multiset(t) by { assert x in multiset(s); }
      var j :| 0 <= j < |t| && t[j] == x;
      var t' := t[..j] + t[j + 1..];
      assert t == t[..j] + [x] + t[j + 1..];
      assert s == s[..|s| - 1] + [x];
      assert multiset(t) == multiset(t[..j]) + multiset{x} + multiset(t[j + 1..]);
      assert multiset(s) == multiset(s[..|s| - 1]) + multiset{x};
      assert multiset(t') == multiset(t[..j]) + multiset(t[j + 1..]);
      assert multiset(s[..|s| - 1]) == multiset(s) - multiset{x};
      assert multiset(t') == multiset(t) - multiset{x};
      SumPermutation(s[..|s| - 1], t');
      SumAppend(t[..j] + [x], t[j + 1..]);
      SumAppend(t[..j], [x]);
      SumAppend(t[..j], t[j + 1..]);
      assert Sum([x]) == x by { assert [x][..0] == []; }
    }
  }

  // ---------------------------------------------------------------------
  // Lower-casing, as far as the crop table needs it.

  /** `str.lower` on one character: ASCII letters and the Latin-1 capitals. */
  function LowerChar(c: char): (r: char)
    ensures 'A' <= c <= 'Z' ==> r as int == c as int + 32
    ensures !('A' <= c <= 'Z') && !('À' <= c <= 'Þ' && c != '×') ==> r == c
  {
    if 'A' <= c <= 'Z' then (c as int + 32) as char
    else if 'À' <= c <= 'Þ' && c != '×' then (c as int + 32) as char
    else c
  }

  function Lower(s: string): (r: string)
    ensures |r| == |s|
    ensures forall i :: 0 <= i < |s| ==> r[i] == LowerChar(s[i])
  {
    seq(|s|, i requires 0 <= i < |s| => LowerChar(s[i]))
  }

  /** Lower-casing twice is lower-casing once. */
  lemma LowerIdempotent(s: string)
    ensures Lower(Lower(s)) == Lower(s)
  {
    forall i | 0 <= i < |s|
      ensures Lower(Lower(s))[i] == Lower(s)[i]
    {
      var c := s[i];
      if 'A' <= c <= 'Z' {
        assert 'a' <= LowerChar(c) <= 'z';
      } else if 'À' <= c <= 'Þ' && c != '×' {
        assert 'à' <= LowerChar(c) <= 'þ';
      }
    }
  }

  // ---------------------------------------------------------------------
  // First maximal element (Python `max(..., key=...)` returns the first of
  // equal maxima; `sorted(..., reverse=True)[0]` is stable, so it does too).

  function FirstMaxIndex(keys: seq<int>): (k: nat)
    requires |keys| > 0
    ensures k < |keys|
    ensures forall j :: 0 <= j < |keys| ==> keys[j] <= keys[k]
    ensures forall j :: 0 <= j < k ==> keys[j] < keys[k]
  {
    if |keys| == 1 then 0
    else
      var k := FirstMaxIndex(keys[..|keys| - 1]);
      if keys[|keys| - 1] > keys[k] then |keys| - 1 else k
  }
}
