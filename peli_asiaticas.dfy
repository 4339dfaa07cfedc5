/**
 * The Asian cinema page: a category drop-down (the normalised categories of the
 * Asian and anime movies) and, below it, a genre drop-down over the chosen
 * category. Changing the category puts the genre back to "Todos".
 */
module PeliAsiaticas {
  import opened Js
  import opened Seqs
  import opened Records
  import opened GenreFilter

  predicate IsAsian(m: Movie)
  {
    m.categoria == "Asiaticas" || m.categoria == "Asiáticas" || m.categoria == "Animes"
  }

  /** `peliculasAsiaticasBase`: the catalog's Asian and anime movies, in catalog order. */
  function Base(catalog: seq<Movie>): (r: seq<Movie>)
    ensures forall m :: m in r <==> m in catalog && (m.categoria == "Asiaticas" || m.categoria == "Asiáticas" || m.categoria == "Animes")
    ensures IsSubsequence(r, catalog)
  {
    FilterIsSubsequence(catalog, IsAsian);
    Filter(catalog, IsAsian)
  }

  /** `c.replace(/s$/, '')`: one final "s" is dropped, nothing else changes. */
  function Normalize(c: string): (r: string)
    ensures r <= c && |c| - 1 <= |r|
    ensures r != c <==> c != "" && c[|c| - 1] == 's'
  {
    if c != "" && c[|c| - 1] == 's' then c[..|c| - 1] else c
  }

  /** The category a movie is listed under in the drop-down. */
  function CategoryOf(m: Movie): string
  {
    Normalize(m.categoria)
  }

  /** The three category names the drop-down can offer. */
  lemma NormalizedCategories(m: Movie)
    requires IsAsian(m)
    ensures m.categoria == "Asiaticas" ==> CategoryOf(m) == "Asiatica"
    ensures m.categoria == "Asiáticas" ==> CategoryOf(m) == "Asiática"
    ensures m.categoria == "Animes" ==> CategoryOf(m) == "Anime"
  {
  }

  /** The normalised categories of some movies are exactly the categories of those movies. */
  lemma CategoriesOfMovies(b: seq<Movie>)
    ensures forall c :: c in Map(b, CategoryOf) <==> exists m :: m in b && CategoryOf(m) == c
  {
    var cats := Map(b, CategoryOf);
    forall c ensures c in cats <==> exists m :: m in b && CategoryOf(m) == c {
      if c in cats {
        var i :| 0 <= i < |cats| && cats[i] == c;
        assert b[i] in b;
      }
      if exists m :: m in b && CategoryOf(m) == c {
        var m :| m in b && CategoryOf(m) == c;
        var i :| 0 <= i < |b| && b[i] == m;
        assert cats[i] == c;
      }
    }
  }

  /**
   * `categoriasUnicas`: "Todas", then each normalised category of the base once,
   * in order of first appearance; every one of them is "Asiatica", "Asiática" or "Anime".
   */
  function Categorias(catalog: seq<Movie>): (r: seq<string>)
    ensures |r| >= 1 && r[0] == "Todas"
    ensures forall c :: c in r[1..] <==> exists m :: m in Base(catalog) && CategoryOf(m) == c
    ensures forall c :: c in r[1..] ==> c == "Asiatica" || c == "Asiática" || c == "Anime"
    ensures NoDuplicates(r[1..])
  {
    var b := Base(catalog);
    var cats := Map(b, CategoryOf);
    var r := ["Todas"] + Distinct(cats);
    assert r[1..] == Distinct(cats);
    CategoriesOfMovies(b);
    forall c | c in r[1..] ensures c == "Asiatica" || c == "Asiática" || c == "Anime" {
      var m :| m in b && CategoryOf(m) == c;
      NormalizedCategories(m);
    }
    r
  }

  /** Whether a movie passes the category selection `cat`. */
  predicate InCategory(cat: string, m: Movie)
  {
    cat == "Todas" || CategoryOf(m) == cat
  }

  /** `peliculasPorCategoria`: the whole base for "Todas", otherwise the base movies of that normalised category. */
  function PorCategoria(catalog: seq<Movie>, cat: string): (r: seq<Movie>)
    ensures cat == "Todas" ==> r == Base(catalog)
    ensures forall m :: m in r <==> m in Base(catalog) && InCategory(cat, m)
    ensures IsSubsequence(r, Base(catalog))
  {
    if cat == "Todas" then
      IsSubsequenceRefl(Base(catalog));
      Base(catalog)
    else
      FilterIsSubsequence(Base(catalog), (p: Movie) => CategoryOf(p) == cat);
      Filter(Base(catalog), (p: Movie) => CategoryOf(p) == cat)
  }

  /** `generosDisponibles`: "Todos", then each genre of the chosen category once. */
  function Generos(catalog: seq<Movie>, cat: string): (r: seq<string>)
    ensures |r| >= 1 && r[0] == "Todos"
    ensures forall g :: g in r[1..] <==> exists m :: m in PorCategoria(catalog, cat) && m.genero == g
    ensures NoDuplicates(r[1..])
  {
    GenreOptions(PorCategoria(catalog, cat))
  }

  /** `peliculasFiltradas`: the chosen category's movies that pass the genre selection. */
  function Filtradas(catalog: seq<Movie>, cat: string, g: string): (r: seq<Movie>)
    ensures g == "Todos" ==> r == PorCategoria(catalog, cat)
    ensures forall m :: m in r <==> m in PorCategoria(catalog, cat) && Selects(g, m)
    ensures IsSubsequence(r, PorCategoria(catalog, cat))
  {
    ByGenre(PorCategoria(catalog, cat), g)
  }

  /** The two-level filter is one pass over the catalog with the conjunction of the three conditions. */
  lemma FiltradasOnePass(catalog: seq<Movie>, cat: string, g: string)
    ensures Filtradas(catalog, cat, g) ==
      Filter(catalog, (m: Movie) => IsAsian(m) && InCategory(cat, m) && Selects(g, m))
  {
    var both := (m: Movie) => IsAsian(m) && InCategory(cat, m);
    if cat == "Todas" {
      FilterConjunction(catalog, IsAsian, (m: Movie) => true, both);
      FilterIdentityIff(Filter(catalog, IsAsian), (m: Movie) => true);
    } else {
      FilterConjunction(catalog, IsAsian, (p: Movie) => CategoryOf(p) == cat, both);
    }
    assert PorCategoria(catalog, cat) == Filter(catalog, both);
    ByGenreOnePass(catalog, both, g, (m: Movie) => IsAsian(m) && InCategory(cat, m) && Selects(g, m));
  }

  /** Any selection offered by the two drop-downs, other than "Todas" with "Todos", shows at least one movie. */
  lemma OfferedSelectionShowsMovies(catalog: seq<Movie>, cat: string, g: string)
    requires cat in Categorias(catalog) && g in Generos(catalog, cat)
    requires cat != "Todas" || g != "Todos"
    ensures Filtradas(catalog, cat, g) != []
  {
    if g != "Todos" {
      assert g in Generos(catalog, cat)[1..];
      OfferedGenreSelects(PorCategoria(catalog, cat), g);
    } else {
      assert cat in Categorias(catalog)[1..];
      var m :| m in Base(catalog) && CategoryOf(m) == cat;
      assert m in PorCategoria(catalog, cat);
    }
  }

  /** Every Asian movie's category is offered, and so is its genre within that category. */
  lemma MovieOptionsOffered(catalog: seq<Movie>, m: Movie)
    requires m in catalog && IsAsian(m)
    ensures CategoryOf(m) in Categorias(catalog)
    ensures m.genero in Generos(catalog, CategoryOf(m))
  {
    assert m in Base(catalog);
    assert CategoryOf(m) in Categorias(catalog)[1..];
    assert m in PorCategoria(catalog, CategoryOf(m));
    assert m.genero in Generos(catalog, CategoryOf(m))[1..];
  }

  /**
   * Why the genre is reset: a genre offered for one category may select nothing
   * in another, so keeping it across a category change would empty the page.
   * Here `a` is an Asian movie whose genre no anime shares.
   */
  lemma StaleGenreCanEmptyPage(catalog: seq<Movie>, a: Movie, b: Movie)
    requires a in catalog && a.categoria == "Asiaticas"
    requires b in catalog && b.categoria == "Animes"
    requires a.genero != "Todos"
    requires forall m :: m in catalog && m.categoria == "Animes" ==> m.genero != a.genero
    ensures a.genero in Generos(catalog, "Asiatica") && "Anime" in Categorias(catalog)
    ensures Filtradas(catalog, "Anime", a.genero) == []
  {
    MovieOptionsOffered(catalog, a);
    MovieOptionsOffered(catalog, b);
    var por := PorCategoria(catalog, "Anime");
    forall i | 0 <= i < |por| ensures por[i].genero != a.genero {
      var m := por[i];
      assert m in por;
      assert m in catalog && IsAsian(m) && CategoryOf(m) == "Anime";
      NormalizedCategories(m);
    }
    AbsentGenreSelectsNothing(por, a.genero);
  }

  /** The page's two selections over a fixed catalog. */
  class AsianPage {
    const catalog: seq<Movie>
    var categoriaSeleccionada: string
    var generoSeleccionado: string

    /** Both selections are among the options currently offered. */
    ghost predicate Valid()
      reads this
    {
      categoriaSeleccionada in Categorias(catalog) && generoSeleccionado in Generos(catalog, categoriaSeleccionada)
    }

    /** What the page lists. */
    function Shown(): seq<Movie>
      reads this
    {
      Filtradas(catalog, categoriaSeleccionada, generoSeleccionado)
    }

    constructor (catalog: seq<Movie>)
      ensures this.catalog == catalog
      ensures categoriaSeleccionada == "Todas" && generoSeleccionado == "Todos"
      ensures Valid() && Shown() == Base(catalog)
    {
      this.catalog := catalog;
      categoriaSeleccionada := "Todas";
      generoSeleccionado := "Todos";
    }

    /**
     * `handleCategoriaChange`: the new category is selected and the genre goes
     * back to "Todos", so the selection stays one the genre drop-down offers and
     * the page lists the whole category.
     */
    method HandleCategoriaChange(nuevaCategoria: string)
      requires Valid() && nuevaCategoria in Categorias(catalog)
      modifies this
      ensures categoriaSeleccionada == nuevaCategoria && generoSeleccionado == "Todos"
      ensures Valid()
      ensures Shown() == PorCategoria(catalog, nuevaCategoria)
    {
      categoriaSeleccionada := nuevaCategoria;
      generoSeleccionado := "Todos";
    }

    /** Picking a genre from the genre drop-down; the category stays. */
    method SetGenero(g: string)
      requires Valid() && g in Generos(catalog, categoriaSeleccionada)
      modifies this
      ensures generoSeleccionado == g && categoriaSeleccionada == old(categoriaSeleccionada)
      ensures Valid()
      ensures g != "Todos" ==> Shown() != []
    {
      generoSeleccionado := g;
      if g != "Todos" {
        OfferedSelectionShowsMovies(catalog, categoriaSeleccionada, g);
      }
    }
  }
}
