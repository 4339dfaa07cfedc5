/**
 * The home page: the search over the whole catalog and, when something matches,
 * one row per fixed category holding the matching movies of that category.
 * Lower-casing is the abstract `lower`.
 */
module Inicio {
  import opened Js
  import opened JsString
  import opened Seqs
  import opened Records
  import JsNumber

  /** The rows of the home page, in display order. */
  const Categorias: seq<string> := ["Top 10", "Basadas en Libros", "Kids", "Documentales", "Asiáticas"]

  /** `scroll`'s step: 300 pixels to the left for "left", to the right for any other direction. */
  function ScrollAmount(direccion: string): (r: int)
    ensures r == -300 <==> direccion == "left"
    ensures r == 300 <==> direccion != "left"
  {
    if direccion == "left" then -300 else 300
  }

  /**
   * The search predicate: the lower-cased query occurs in the lower-cased title
   * (when there is one), genre or category, or in the year written out (when there is one).
   */
  predicate Matches(lower: string -> string, query: string, m: Movie)
  {
    var q := lower(query);
    (m.titulo.Some? && Includes(lower(m.titulo.value), q))
    || Includes(lower(m.genero), q)
    || Includes(lower(m.categoria), q)
    || (m.anio.Some? && Includes(JsNumber.NumberToString(m.anio.value), q))
  }

  /** The same predicate, stated with substring positions instead of `includes`. */
  lemma MatchesIff(lower: string -> string, query: string, m: Movie)
    ensures var q := lower(query);
      Matches(lower, query, m) <==>
        (m.titulo.Some? && exists i :: OccursAt(lower(m.titulo.value), q, i))
        || (exists i :: OccursAt(lower(m.genero), q, i))
        || (exists i :: OccursAt(lower(m.categoria), q, i))
        || (m.anio.Some? && exists i :: OccursAt(JsNumber.NumberToString(m.anio.value), q, i))
  {
    var q := lower(query);
    if m.titulo.Some? {
      IncludesIff(lower(m.titulo.value), q);
    }
    IncludesIff(lower(m.genero), q);
    IncludesIff(lower(m.categoria), q);
    if m.anio.Some? {
      IncludesIff(JsNumber.NumberToString(m.anio.value), q);
    }
  }

  /** `peliculasFiltradas`: the matching movies, in catalog order. */
  function Search(lower: string -> string, catalog: seq<Movie>, query: string): (r: seq<Movie>)
    ensures forall m :: m in r <==> m in catalog && Matches(lower, query, m)
    ensures IsSubsequence(r, catalog)
  {
    FilterIsSubsequence(catalog, (m: Movie) => Matches(lower, query, m));
    Filter(catalog, (m: Movie) => Matches(lower, query, m))
  }

  /** The empty query (the page's default) lists the whole catalog: every genre includes "". */
  lemma EmptyQueryMatchesAll(lower: string -> string, catalog: seq<Movie>)
    requires lower("") == ""
    ensures Search(lower, catalog, "") == catalog
  {
    var p := (m: Movie) => Matches(lower, "", m);
    FilterIdentityIff(catalog, p);
    forall i | 0 <= i < |catalog| ensures p(catalog[i]) {
      assert Includes(lower(catalog[i].genero), "");
    }
  }

  /** A movie belongs to a row when its category and the row's name lower-case alike. */
  predicate InRow(lower: string -> string, row: string, m: Movie)
  {
    lower(m.categoria) == lower(row)
  }

  /** A row of the page: its heading and its movies. */
  datatype Row = Row(categoria: string, peliculas: seq<Movie>)

  /** The headings of the rows, in order. */
  function RowNames(rows: seq<Row>): (r: seq<string>)
    ensures |r| == |rows| && forall k :: 0 <= k < |rows| ==> r[k] == rows[k].categoria
  {
    if rows == [] then [] else [rows[0].categoria] + RowNames(rows[1..])
  }

  /** `peliculasFiltradas.filter(...)` for one row: the results of that category, in order. */
  function RowMovies(lower: string -> string, results: seq<Movie>, c: string): (r: seq<Movie>)
    ensures forall m :: m in r <==> m in results && InRow(lower, c, m)
    ensures IsSubsequence(r, results)
  {
    FilterIsSubsequence(results, (m: Movie) => InRow(lower, c, m));
    Filter(results, (m: Movie) => InRow(lower, c, m))
  }

  /**
   * `categorias.map(...)` over the search results: for each name in `names`, the
   * results of that category, with the row left out when there are none.
   */
  function BuildRows(lower: string -> string, names: seq<string>, results: seq<Movie>): (r: seq<Row>)
    ensures forall k :: 0 <= k < |r| ==>
      r[k].categoria in names && r[k].peliculas != [] && r[k].peliculas == RowMovies(lower, results, r[k].categoria)
    ensures forall x :: x in RowNames(r) ==> x in names
  {
    if names == [] then []
    else
      var c := names[0];
      var row := RowMovies(lower, results, c);
      var rest := BuildRows(lower, names[1..], results);
      assert forall k :: 0 <= k < |rest| ==> rest[k].categoria in names by {
        forall k | 0 <= k < |rest| ensures rest[k].categoria in names {
          assert rest[k].categoria in names[1..];
        }
      }
      if row == [] then rest
      else
        var r := [Row(c, row)] + rest;
        assert forall k :: 1 <= k < |r| ==> r[k] == rest[k - 1];
        assert r[1..] == rest;
        r
  }

  /** A category gets a row exactly when some result belongs to it. */
  lemma {:induction false} BuildRowsPresence(lower: string -> string, names: seq<string>, results: seq<Movie>, c: string)
    requires c in names
    ensures c in RowNames(BuildRows(lower, names, results)) <==> RowMovies(lower, results, c) != []
  {
    var r := BuildRows(lower, names, results);
    var row := RowMovies(lower, results, names[0]);
    var rest := BuildRows(lower, names[1..], results);
    if c in names[1..] {
      BuildRowsPresence(lower, names[1..], results, c);
    } else {
      assert c == names[0];
      assert c !in RowNames(rest);
    }
    if row != [] {
      assert r == [Row(names[0], row)] + rest;
      assert r[1..] == rest;
      assert RowNames(r) == [names[0]] + RowNames(rest);
    } else {
      assert r == rest;
    }
  }

  /** The rows keep the order of the category list. */
  lemma {:induction false} BuildRowsOrder(lower: string -> string, names: seq<string>, results: seq<Movie>)
    ensures IsSubsequence(RowNames(BuildRows(lower, names, results)), names)
  {
    if names != [] {
      BuildRowsOrder(lower, names[1..], results);
      var r := BuildRows(lower, names, results);
      var row := RowMovies(lower, results, names[0]);
      var rest := BuildRows(lower, names[1..], results);
      if row != [] {
        assert r == [Row(names[0], row)] + rest;
        assert r[1..] == rest;
        assert RowNames(r)[1..] == RowNames(rest);
      }
    }
  }

  /** What the page shows below its title. */
  datatype HomeView = NoResults | Rows(rows: seq<Row>)

  /** The "no movies found" message when nothing matches, otherwise the non-empty category rows. */
  function Home(lower: string -> string, catalog: seq<Movie>, query: string): (v: HomeView)
    ensures v.NoResults? <==> forall m :: m in catalog ==> !Matches(lower, query, m)
    ensures v.Rows? ==> IsSubsequence(RowNames(v.rows), Categorias)
  {
    var results := Search(lower, catalog, query);
    if |results| == 0 then NoResults
    else
      assert results[0] in results;
      BuildRowsOrder(lower, Categorias, results);
      Rows(BuildRows(lower, Categorias, results))
  }

  /** Whether movie `m` is in one of the rows shown. */
  predicate Displayed(v: HomeView, m: Movie)
  {
    v.Rows? && exists k :: 0 <= k < |v.rows| && m in v.rows[k].peliculas
  }

  /**
   * A movie is on the page exactly when it matches the query and its category
   * lower-cases like one of the five row names; any other category is never shown.
   */
  lemma DisplayedIff(lower: string -> string, catalog: seq<Movie>, query: string, m: Movie)
    ensures Displayed(Home(lower, catalog, query), m) <==>
      m in catalog && Matches(lower, query, m) && exists c :: c in Categorias && InRow(lower, c, m)
  {
    if Displayed(Home(lower, catalog, query), m) {
      DisplayedSound(lower, catalog, query, m);
    }
    if m in catalog && Matches(lower, query, m) && exists c :: c in Categorias && InRow(lower, c, m) {
      var c :| c in Categorias && InRow(lower, c, m);
      DisplayedComplete(lower, catalog, query, m, c);
    }
  }

  /** A movie on the page matches the query and belongs to one of the rows. */
  lemma DisplayedSound(lower: string -> string, catalog: seq<Movie>, query: string, m: Movie)
    requires Displayed(Home(lower, catalog, query), m)
    ensures m in catalog && Matches(lower, query, m) && exists c :: c in Categorias && InRow(lower, c, m)
  {
    var v := Home(lower, catalog, query);
    var k :| 0 <= k < |v.rows| && m in v.rows[k].peliculas;
    var results := Search(lower, catalog, query);
    assert v.rows == BuildRows(lower, Categorias, results);
    assert v.rows[k].categoria in Categorias;
    assert m in RowMovies(lower, results, v.rows[k].categoria);
  }

  /** A matching movie of a row's category is on the page. */
  lemma DisplayedComplete(lower: string -> string, catalog: seq<Movie>, query: string, m: Movie, c: string)
    requires m in catalog && Matches(lower, query, m) && c in Categorias && InRow(lower, c, m)
    ensures Displayed(Home(lower, catalog, query), m)
  {
    var results := Search(lower, catalog, query);
    assert m in results;
    var rows := BuildRows(lower, Categorias, results);
    assert Home(lower, catalog, query) == Rows(rows);
    assert m in RowMovies(lower, results, c);
    BuildRowsPresence(lower, Categorias, results, c);
    var k :| 0 <= k < |rows| && RowNames(rows)[k] == c;
    assert m in rows[k].peliculas;
  }
}
