/**
 * The genre drop-down every catalog page shares: the options are "Todos" and then
 * the distinct genres of the listed movies, and a selection other than "Todos"
 * keeps the movies of that genre.
 */
module GenreFilter {
  import opened Seqs
  import opened Records

  /** Whether a movie passes the genre selection `g`. */
  predicate Selects(g: string, m: Movie)
  {
    g == "Todos" || m.genero == g
  }

  /** `["Todos", ...new Set(ms.map((p) => p.genero))]`. */
  function GenreOptions(ms: seq<Movie>): (r: seq<string>)
    ensures |r| >= 1 && r[0] == "Todos"
    ensures forall g :: g in r[1..] <==> exists m :: m in ms && m.genero == g
    ensures NoDuplicates(r[1..])
  {
    var genres := Map(ms, (m: Movie) => m.genero);
    var r := ["Todos"] + Distinct(genres);
    assert r[1..] == Distinct(genres);
    forall g ensures g in genres <==> exists m :: m in ms && m.genero == g {
      if g in genres {
        var i :| 0 <= i < |genres| && genres[i] == g;
        assert ms[i] in ms;
      }
      if exists m :: m in ms && m.genero == g {
        var m :| m in ms && m.genero == g;
        var i :| 0 <= i < |ms| && ms[i] == m;
        assert genres[i] == g;
      }
    }
    r
  }

  /** The genres after "Todos" come in the order in which they first appear in the list. */
  lemma GenreOptionsOrder(ms: seq<Movie>)
    ensures var genres := Map(ms, (m: Movie) => m.genero);
      var opts := GenreOptions(ms)[1..];
      forall i, j :: 0 <= i < j < |opts| ==> IndexOf(genres, opts[i]) < IndexOf(genres, opts[j])
  {
    var genres := Map(ms, (m: Movie) => m.genero);
    DistinctFirstAppearance(genres);
    assert GenreOptions(ms)[1..] == Distinct(genres);
  }

  /** `g === "Todos" ? ms : ms.filter((p) => p.genero === g)`. */
  function ByGenre(ms: seq<Movie>, g: string): (r: seq<Movie>)
    ensures g == "Todos" ==> r == ms
    ensures forall m :: m in r <==> m in ms && Selects(g, m)
    ensures IsSubsequence(r, ms)
  {
    if g == "Todos" then
      IsSubsequenceRefl(ms);
      ms
    else
      FilterIsSubsequence(ms, (p: Movie) => p.genero == g);
      Filter(ms, (p: Movie) => p.genero == g)
  }

  /** Every genre the drop-down offers selects at least one movie. */
  lemma OfferedGenreSelects(ms: seq<Movie>, g: string)
    requires g in GenreOptions(ms)[1..]
    ensures ByGenre(ms, g) != []
  {
    var m :| m in ms && m.genero == g;
    assert m in ByGenre(ms, g);
  }

  /** A genre none of the movies has selects nothing. */
  lemma {:induction false} AbsentGenreSelectsNothing(ms: seq<Movie>, g: string)
    requires g != "Todos"
    requires forall i :: 0 <= i < |ms| ==> ms[i].genero != g
    ensures ByGenre(ms, g) == []
  {
    if ms != [] {
      AbsentGenreSelectsNothing(ms[1..], g);
      assert ByGenre(ms, g) == ByGenre(ms[1..], g);
    }
  }

  /**
   * Filtering a base list by genre is one pass over the catalog with the
   * conjunction `pq` of the base condition and the genre selection.
   */
  lemma ByGenreOnePass(catalog: seq<Movie>, base: Movie -> bool, g: string, pq: Movie -> bool)
    requires forall m :: pq(m) == (base(m) && Selects(g, m))
    ensures ByGenre(Filter(catalog, base), g) == Filter(catalog, pq)
  {
    if g == "Todos" {
      FilterConjunction(catalog, base, (m: Movie) => true, pq);
      FilterIdentityIff(Filter(catalog, base), (m: Movie) => true);
    } else {
      FilterConjunction(catalog, base, (p: Movie) => p.genero == g, pq);
    }
  }
}
