/** The documentaries page: movies whose category lower-cases to "documentales", with the genre drop-down. */
module PeliDocumentales {
  import opened Seqs
  import opened Records
  import opened GenreFilter

  /** `categoria.toLowerCase() === "documentales"`, with the lower-casing given as `lower`. */
  predicate InBase(lower: string -> string, m: Movie)
  {
    lower(m.categoria) == "documentales"
  }

  /** `peliculasDocumentales`: the catalog's documentaries, in catalog order. */
  function Base(lower: string -> string, catalog: seq<Movie>): (r: seq<Movie>)
    ensures forall m :: m in r <==> m in catalog && lower(m.categoria) == "documentales"
    ensures IsSubsequence(r, catalog)
  {
    FilterIsSubsequence(catalog, (m: Movie) => InBase(lower, m));
    Filter(catalog, (m: Movie) => InBase(lower, m))
  }

  /** `generos`: "Todos", then each genre of the page's movies once. */
  function Generos(lower: string -> string, catalog: seq<Movie>): (r: seq<string>)
    ensures |r| >= 1 && r[0] == "Todos"
    ensures forall g :: g in r[1..] <==> exists m :: m in Base(lower, catalog) && m.genero == g
    ensures NoDuplicates(r[1..])
  {
    GenreOptions(Base(lower, catalog))
  }

  /** `peliculasFiltradas`: the page's movies that pass the genre selection, in catalog order. */
  function Filtradas(lower: string -> string, catalog: seq<Movie>, generoSeleccionado: string): (r: seq<Movie>)
    ensures generoSeleccionado == "Todos" ==> r == Base(lower, catalog)
    ensures forall m :: m in r <==> m in Base(lower, catalog) && Selects(generoSeleccionado, m)
    ensures IsSubsequence(r, Base(lower, catalog))
  {
    ByGenre(Base(lower, catalog), generoSeleccionado)
  }

  /** The page is one pass over the catalog keeping the movies that are in the base and in the genre. */
  lemma FiltradasOnePass(lower: string -> string, catalog: seq<Movie>, g: string)
    ensures Filtradas(lower, catalog, g) == Filter(catalog, (m: Movie) => InBase(lower, m) && Selects(g, m))
  {
    ByGenreOnePass(catalog, (m: Movie) => InBase(lower, m), g, (m: Movie) => InBase(lower, m) && Selects(g, m));
  }

  /** A genre picked from the drop-down never leaves the page empty. */
  lemma OfferedGenreShowsMovies(lower: string -> string, catalog: seq<Movie>, g: string)
    requires g in Generos(lower, catalog)[1..]
    ensures Filtradas(lower, catalog, g) != []
  {
    OfferedGenreSelects(Base(lower, catalog), g);
  }
}
