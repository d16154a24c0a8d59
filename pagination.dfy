/** The pagination parameters of the list routes (`routes/utils.py`). */
module Pagination {
  import opened Common

  const PageParDefaut := 1
  const TailleParDefaut := 50
  const TailleMaximale := 100

  /** `per_page` brought into [1, 100]: above 100 becomes 100, below 1 becomes 1. */
  function Borner(perPage: int): (r: int)
    ensures 1 <= r <= TailleMaximale
    ensures 1 <= perPage <= TailleMaximale ==> r == perPage
    ensures perPage > TailleMaximale ==> r == TailleMaximale
    ensures perPage < 1 ==> r == 1
  {
    var p := if perPage > TailleMaximale then TailleMaximale else perPage;
    if p < 1 then 1 else p
  }

  /**
   * `get_pagination_params`: each argument is `None` when absent or not an
   * integer and then takes its default; the page is passed through
   * unchecked, the size is bounded.
   */
  function Parametres(page: Option<int>, perPage: Option<int>): (r: (int, int))
    ensures r.0 == (if page.Some? then page.value else PageParDefaut)
    ensures 1 <= r.1 <= TailleMaximale
    ensures perPage.None? ==> r.1 == TailleParDefaut
  {
    (if page.Some? then page.value else PageParDefaut,
     Borner(if perPage.Some? then perPage.value else TailleParDefaut))
  }

  /** Bounding twice is bounding once. */
  lemma BornerIdempotent(perPage: int)
    ensures Borner(Borner(perPage)) == Borner(perPage)
  {
  }

  /** A bounded size is the nearest value of [1, 100]. */
  lemma BornerPlusProche(perPage: int, q: int)
    requires 1 <= q <= TailleMaximale
    ensures Dist(Borner(perPage), perPage) <= Dist(q, perPage)
  {
  }

  function Dist(a: int, b: int): nat {
    if a >= b then a - b else b - a
  }

  /** Bounding keeps the order of sizes. */
  lemma BornerCroissant(a: int, b: int)
    requires a <= b
    ensures Borner(a) <= Borner(b)
  {
  }

  /** The page is not bounded: a zero or negative page comes back as given. */
  lemma PageNonBornee()
    ensures Parametres(Some(0), None) == (0, 50)
    ensures Parametres(Some(-3), Some(500)) == (-3, 100)
    ensures Parametres(None, Some(0)) == (1, 1)
  {
  }
}
