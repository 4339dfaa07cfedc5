/** The top-ten page: movies filed under "Top 10", with the genre drop-down. */
module PeliTops {
  import opened Seqs
  import opened Records
  import opened GenreFilter

  predicate InBase(m: Movie)
  {
    m.categoria == "Top 10"
  }

  /** `topPeliculas`: the catalog's top-ten movies, in catalog order. */
  function Base(catalog: seq<Movie>): (r: seq<Movie>)
    ensures forall m :: m in r <==> m in catalog && m.categoria == "Top 10"
    ensures IsSubsequence(r, catalog)
  {
    FilterIsSubsequence(catalog, InBase);
    Filter(catalog, InBase)
  }

  /** `generos`: "Todos", then each genre of the page's movies once. */
  function Generos(catalog: seq<Movie>): (r: seq<string>)
    ensures |r| >= 1 && r[0] == "Todos"
    ensures forall g :: g in r[1..] <==> exists m :: m in Base(catalog) && m.genero == g
    ensures NoDuplicates(r[1..])
  {
    GenreOptions(Base(catalog))
  }

  /** `peliculasFiltradas`: the page's movies that pass the genre selection, in catalog order. */
  function Filtradas(catalog: seq<Movie>, generoSeleccionado: string): (r: seq<Movie>)
    ensures generoSeleccionado == "Todos" ==> r == Base(catalog)
    ensures forall m :: m in r <==> m in Base(catalog) && Selects(generoSeleccionado, m)
    ensures IsSubsequence(r, Base(catalog))
  {
    ByGenre(Base(catalog), generoSeleccionado)
  }

  /** The page is one pass over the catalog keeping the movies that are in the base and in the genre. */
  lemma FiltradasOnePass(catalog: seq<Movie>, g: string)
    ensures Filtradas(catalog, g) == Filter(catalog, (m: Movie) => InBase(m) && Selects(g, m))
  {
    ByGenreOnePass(catalog, InBase, g, (m: Movie) => InBase(m) && Selects(g, m));
  }

  /** A genre picked from the drop-down never leaves the page empty. */
  lemma OfferedGenreShowsMovies(catalog: seq<Movie>, g: string)
    requires g in Generos(catalog)[1..]
    ensures Filtradas(catalog, g) != []
  {
    OfferedGenreSelects(Base(catalog), g);
  }
}
