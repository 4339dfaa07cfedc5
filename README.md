# Cine-Verso storefront logic in Dafny

Cine-Verso is a client-side movie storefront. It has:

- a catalog of movies, with pages that filter it by category and genre;
- a home page with a search box and one row per category;
- a detail page per movie, which adds the movie to a cart kept in the browser's `localStorage`;
- a cart page;
- a reviews widget per movie, also kept in `localStorage`;
- a sign-up form, a profile form and an account area;
- a colour theme that persists across visits.

This project models the logic behind those screens and proves what it promises:

- the cart never holds two items with the same movie id;
- removal keeps everything else, in order;
- the reviews widget posts only valid drafts;
- an edit touches only the text and rating of one review;
- every genre offered in a drop-down shows at least one movie;
- the page shows a movie exactly when the search matches it and its category has a row;
- a saved theme reads back as itself.

Modules follow the source files:

| module | models |
|---|---|
| `Detalle` | `src/Paginas/Detalle.jsx` |
| `Carrito` | `src/Paginas/Carrito.jsx` |
| `Comentarios` | `src/Componentes/Comentarios.jsx` |
| `PeliAsiaticas` | `src/Paginas/PeliAsiaticas.jsx` |
| `PeliKids`, `PeliTops`, `PeliDocumentales`, `PeliLibros` | the four single-filter pages |
| `GenreFilter` | the genre drop-down shared by those pages |
| `Inicio` | `src/Paginas/Inicio.jsx` |
| `Registro` | `src/Componentes/Registro.jsx` |
| `Dashboard` | `src/Componentes/Dashboard.jsx` |
| `DashboardContent` | `src/Componentes/DashboardContent.jsx` |
| `ThemeContext` | `src/Context/ThemeContext.jsx` |
| `Navbar` | `src/Componentes/Navbar.jsx` |
| `ZonaUsuario` | `src/Componentes/ZonaUsuario.jsx` |

Shared modules model the JavaScript the pages rely on:

- `Js`: `undefined`/`null` as `Option`, and truthiness with `||`.
- `JsString`: ECMAScript white space, `trim`, `split` on one character, `includes`, `slice(-n)`.
- `JsNumber`: `String(n)`, and `parseInt` with its white-space, sign and `0x` rules.
- `Seqs`: `filter`, `find`, `map`, and `[...new Set(xs)]`.
- `Records`: the catalog, cart, review and user records.
- `BrowserStorage`: `localStorage` as a map from key to the last value written. Its keys are `"carrito"`, `"tema"` and `comentarios_<id>`.

State the source keeps in React state or in `localStorage` is modelled as Dafny classes: `CartPage`, `CommentsWidget`, `AsianPage`, `RegistroForm`, `ProfilePage`, `ThemeProvider`, `NavbarState`, `UserMenu` and `LocalStorage`. Their methods have `modifies` clauses, and each `ensures` states the whole new state. Derived lists and fallbacks are functions, and lemmas prove properties about them.

Inputs from outside the model are parameters of the members that use them: the catalog, the shipped reviews, the signed-in user, `Date.now()`, the answer to `confirm`, the identity provider's outcome, and lower- and upper-casing.

## Model

| member | source | states |
|---|---|---|
| BrowserStorage.StoredCart | src/Paginas/Detalle.jsx:27 | A missing "carrito" key reads as the empty cart; a stored cart reads back as written. |
| BrowserStorage.StoredComments | src/Componentes/Comentarios.jsx:17-18 | A missing `comentarios_<id>` key reads as the empty list; a stored list reads back as written. |
| BrowserStorage.StoredTheme | src/Context/ThemeContext.jsx:6 | A missing "tema" key reads as null; a stored text reads back as written. |
| BrowserStorage.CommentsKey | src/Componentes/Comentarios.jsx:32 | The reference definition of a movie's review key, `comentarios_` followed by the id written out; `KeysDistinct` proves it collides with no other key. |
| BrowserStorage.KeysDistinct | src/Componentes/Comentarios.jsx:32 | A review key never equals "carrito" or "tema", and two movies' review keys are equal only when the movie ids are. |
| BrowserStorage.CommentsWriteIsolated | src/Componentes/Comentarios.jsx:32 | Writing one movie's reviews leaves the cart, the theme and every other movie's reviews as they were, and reads back as written. |
| BrowserStorage.LocalStorage.SetItem | src/Paginas/Detalle.jsx:37 | `setItem` replaces one key's value; all other keys stay unchanged. |
| BrowserStorage.LocalStorage.constructor | src/Paginas/Detalle.jsx:27 | The store the pages share starts with whatever the browser already holds for the site. |
| JsNumber.ParseIntNumberToString | src/Paginas/Detalle.jsx:10 | `parseInt(String(n))` is `n` for every integer, so the route id of a `/detalle/${p.id}` link parses back to the movie's id. |
| JsNumber.NumberToStringInjective | src/Paginas/Detalle.jsx:10 | Distinct ids are written as distinct strings. |
| JsString.TrimEmptyIff | src/Componentes/Comentarios.jsx:37 | `!s.trim()` holds exactly when every character of `s` is ECMAScript white space. |
| JsString.SplitJoin | src/Componentes/Dashboard.jsx:25 | Joining the pieces of `split(sep)` with `sep` gives back the original string. |
| JsString.SplitFirstPiece | src/Componentes/Dashboard.jsx:25 | Splitting `a + sep + rest` with `sep` not in `a` gives `a` followed by the pieces of `rest`. |
| JsString.SplitAfterFirst | src/Componentes/Dashboard.jsx:25 | When the separator occurs, the pieces after the first are exactly the pieces of what follows its first occurrence. |
| JsString.IncludesIff | src/Paginas/Inicio.jsx:29-32 | `includes` holds exactly when the needle occurs at some position. |
| JsString.SliceLast | src/Componentes/DashboardContent.jsx:65 | `slice(-n)` has length `min(n, |s|)` and is a suffix of `s`. |
| Seqs.Filter | src/Paginas/Carrito.jsx:17 | An element is kept exactly when it was present and passes the predicate; the result is never longer. |
| Seqs.FilterIsSubsequence | src/Paginas/Carrito.jsx:17 | `filter` keeps the surviving elements in their original order. |
| Seqs.FilterIdentityIff | src/Paginas/Carrito.jsx:17 | A filter changes nothing exactly when every element passes. |
| Seqs.FilterConjunction | src/Paginas/PeliAsiaticas.jsx:32-48 | Filtering by `p` and then by `q` is one filter by `p && q`. |
| Seqs.Distinct | src/Paginas/PeliKids.jsx:17 | `[...new Set(xs)]` holds exactly the values of `xs`, with no duplicates. |
| Seqs.DistinctFirstAppearance | src/Paginas/PeliAsiaticas.jsx:24 | The distinct values come in the order of each one's first occurrence. |
| Seqs.Find | src/Paginas/Detalle.jsx:10 | `find` gives undefined exactly when nothing matches; otherwise it gives the first match. |
| Records.AvatarUrl | src/Componentes/ZonaUsuario.jsx:17-20 | `user?.photoURL \|\| user?.avatar` uses the photo when it is truthy, otherwise the avatar; the result is truthy exactly when one of the two is. |
| Detalle.FindMovie | src/Paginas/Detalle.jsx:10-23 | The not-found branch is taken exactly when no movie's id equals `parseInt` of the route id; otherwise the page shows the first such movie. |
| Detalle.LinkOpensMovie | src/Paginas/Detalle.jsx:10 | With unique catalog ids, the link built from a movie's id opens that movie. |
| Detalle.ItemOf | src/Paginas/Detalle.jsx:31-35 | The reference definition of the cart item `{id, titulo, imagen}` built from a movie; the contracts of `AddToCart` and `HandleAddToCart` are stated with it. |
| Detalle.AddToCart | src/Paginas/Detalle.jsx:28-36 | An absent id appends exactly `{id, titulo, imagen}` at the end. A present id leaves the cart unchanged. Existing items keep their contents and order. The id is in the result, and unique ids stay unique. |
| Detalle.AddToCartIdempotent | src/Paginas/Detalle.jsx:28-41 | Adding the same movie twice gives the cart that adding it once gives. |
| Detalle.HandleAddToCart | src/Paginas/Detalle.jsx:26-42 | Reads the stored cart. When the id is absent it writes the extended cart under "carrito" and reports the "added" alert. Otherwise it writes nothing and reports the "already in cart" alert. |
| Carrito.RemoveFromCart | src/Paginas/Carrito.jsx:17 | No item with the id remains. Exactly the items with other ids are kept, in their original order. |
| Carrito.RemoveKeepsOthers | src/Paginas/Carrito.jsx:17 | Every item with another id is kept as many times as it occurred. |
| Carrito.RemoveAbsentOrTwice | src/Paginas/Carrito.jsx:17 | Removing an absent id changes nothing, and removing twice is removing once. |
| Carrito.RemoveFromUnique | src/Paginas/Carrito.jsx:17 | Removal keeps ids unique and shortens a cart with unique ids by exactly one when the id was present. |
| Carrito.RemoveUndoesAdd | src/Paginas/Carrito.jsx:17 | Removing a movie just added to a cart that lacked it gives back the original cart. |
| Carrito.CartPage.constructor | src/Paginas/Carrito.jsx:6-12 | The page loads the stored cart, or the empty list when none is stored. |
| Carrito.CartPage.TotalItems | src/Paginas/Carrito.jsx:26 | The reference definition of the count in the heading, the length of the page's cart; `Eliminar` states how it drops. |
| Carrito.CartPage.Eliminar | src/Paginas/Carrito.jsx:15-26 | The filtered cart becomes both the stored and the displayed cart. With unique ids, `totalItems` drops by one when the id was present. |
| Comentarios.InitialComments | src/Componentes/Comentarios.jsx:16-27 | A non-empty stored list is used as it is. Otherwise exactly the shipped reviews of this movie are used, in their shipped order. |
| Comentarios.ReloadAfterSave | src/Componentes/Comentarios.jsx:16-33 | A non-empty list written for a movie is what that movie loads next time. |
| Comentarios.EmptySaveReseeds | src/Componentes/Comentarios.jsx:19-25 | After the last review is deleted, the next load shows the movie's shipped reviews again. |
| Comentarios.AuthorName | src/Componentes/Comentarios.jsx:50 | The author is the display name, else the e-mail, else "Usuario anónimo"; it is never empty. |
| Comentarios.NewComment | src/Componentes/Comentarios.jsx:47-54 | The reference definition of the posted review: clock id, movie id, `AuthorName`, draft text and rating, and the user's uid; `AuthorCanModify` proves its author owns it. |
| Comentarios.CanModify | src/Componentes/Comentarios.jsx:138 | The reference definition of the ownership test `user && comentario.uid === user.uid` that `AuthorCanModify` and `EditKeepsIdentity` are about. |
| Comentarios.AuthorCanModify | src/Componentes/Comentarios.jsx:138 | A posted review can be edited and deleted by its author, and by no visitor with another uid or without a session. |
| Comentarios.CheckAdd | src/Componentes/Comentarios.jsx:37-45 | A draft is refused as incomplete exactly when its text is all white space or its rating is 0. It is then refused for a missing session exactly when there is no user, and accepted otherwise. |
| Comentarios.EditComments | src/Componentes/Comentarios.jsx:70-74 | The length is unchanged. Every review whose id is not `editandoId` is unchanged. The edited review takes the draft's text and rating. |
| Comentarios.EditKeepsIdentity | src/Componentes/Comentarios.jsx:70-74 | An edit keeps every review's id, movie, author and uid, and so who may modify it. |
| Comentarios.EditIdempotent | src/Componentes/Comentarios.jsx:70-74 | Saving the same edit twice is saving it once; saving with no review selected changes nothing. |
| Comentarios.RemoveComment | src/Componentes/Comentarios.jsx:84 | Exactly the reviews with other ids are kept, each as often as before, in their original order. |
| Comentarios.RemoveAbsent | src/Componentes/Comentarios.jsx:84 | Deleting an id that is not there changes nothing. |
| Comentarios.CommentsWidget.constructor | src/Componentes/Comentarios.jsx:10-27 | The draft starts empty, and the list is the loaded or seeded list. |
| Comentarios.CommentsWidget.ShowMovie | src/Componentes/Comentarios.jsx:16-27 | Showing another movie reloads the list for that movie and keeps the draft. |
| Comentarios.CommentsWidget.GuardarComentarios | src/Componentes/Comentarios.jsx:30-33 | The shown list and the movie's key both become the new list; nothing else changes. |
| Comentarios.CommentsWidget.SetNuevoComentario | src/Componentes/Comentarios.jsx:170 | Typing changes only the draft text. |
| Comentarios.CommentsWidget.SetPuntuacion | src/Componentes/Comentarios.jsx:180 | Clicking a star changes only the draft rating. |
| Comentarios.CommentsWidget.HandleAgregar | src/Componentes/Comentarios.jsx:36-59 | A refused draft changes neither the list, the store nor the draft. An accepted draft appends exactly one review, saves it and resets the draft to "" and 0. That review carries the movie id, the author, the text, the rating and the user's uid. |
| Comentarios.CommentsWidget.HandleEditar | src/Componentes/Comentarios.jsx:62-67 | The draft is filled from the first review with that id, which becomes the one being edited. With no such review nothing changes. |
| Comentarios.CommentsWidget.HandleGuardarEdicion | src/Componentes/Comentarios.jsx:69-79 | The edited list is saved, the draft is cleared and `editandoId` goes back to null. |
| Comentarios.CommentsWidget.HandleEliminar | src/Componentes/Comentarios.jsx:82-87 | A confirmed delete removes that id's reviews and saves the list; an unconfirmed one changes nothing. |
| Comentarios.CommentsWidget.Editing | src/Componentes/Comentarios.jsx:193 | The reference definition of edit mode: `editandoId` is truthy, so an id of 0 counts as no edit; `Submit` dispatches by it. |
| Comentarios.CommentsWidget.Submit | src/Componentes/Comentarios.jsx:193 | With a truthy `editandoId` the button saves the edit: the edited list is written under the movie's key and the draft and `editandoId` are cleared. Otherwise it posts the draft with the `CheckAdd` outcome. An accepted post appends the review, writes the list under the movie's key and resets the draft. A refused post changes neither the list, the store nor the draft. |
| GenreFilter.GenreOptions | src/Paginas/PeliKids.jsx:16-18 | The options are "Todos", then exactly the genres of the listed movies, each once. |
| GenreFilter.GenreOptionsOrder | src/Paginas/PeliKids.jsx:17 | The genres come in the order in which they first appear. |
| GenreFilter.ByGenre | src/Paginas/PeliKids.jsx:21-25 | "Todos" keeps the list. Otherwise exactly the movies of that genre are kept, in order. |
| GenreFilter.OfferedGenreSelects | src/Paginas/PeliKids.jsx:16-25 | Every genre offered selects at least one movie. |
| GenreFilter.AbsentGenreSelectsNothing | src/Paginas/PeliAsiaticas.jsx:48 | A genre that no listed movie has selects nothing. |
| GenreFilter.ByGenreOnePass | src/Paginas/PeliKids.jsx:11-25 | Filtering a base list by genre is one filter of the catalog by both conditions. |
| PeliKids.Base | src/Paginas/PeliKids.jsx:11-13 | Exactly the catalog movies filed under "Kids" or "Familiar", in catalog order. |
| PeliKids.Generos | src/Paginas/PeliKids.jsx:16-18 | "Todos", then the distinct genres of the base list. |
| PeliKids.Filtradas | src/Paginas/PeliKids.jsx:21-25 | "Todos" gives the base list. Another genre gives the base movies of that genre, in order. |
| PeliKids.FiltradasOnePass | src/Paginas/PeliKids.jsx:11-25 | The page lists the catalog filtered once by base and genre together. |
| PeliKids.OfferedGenreShowsMovies | src/Paginas/PeliKids.jsx:16-25 | No offered genre leaves the page empty. |
| PeliTops.Base | src/Paginas/PeliTops.jsx:11-13 | Exactly the catalog movies filed under "Top 10", in catalog order. |
| PeliTops.Generos | src/Paginas/PeliTops.jsx:16-18 | "Todos", then the distinct genres of the base list. |
| PeliTops.Filtradas | src/Paginas/PeliTops.jsx:21-25 | "Todos" gives the base list. Another genre gives the base movies of that genre, in order. |
| PeliTops.FiltradasOnePass | src/Paginas/PeliTops.jsx:11-25 | The page lists the catalog filtered once by base and genre together. |
| PeliTops.OfferedGenreShowsMovies | src/Paginas/PeliTops.jsx:16-25 | No offered genre leaves the page empty. |
| PeliDocumentales.Base | src/Paginas/PeliDocumentales.jsx:11-13 | Exactly the catalog movies whose lower-cased category is "documentales", in catalog order. |
| PeliDocumentales.Generos | src/Paginas/PeliDocumentales.jsx:16-18 | "Todos", then the distinct genres of the base list. |
| PeliDocumentales.Filtradas | src/Paginas/PeliDocumentales.jsx:21-25 | "Todos" gives the base list. Another genre gives the base movies of that genre, in order. |
| PeliDocumentales.FiltradasOnePass | src/Paginas/PeliDocumentales.jsx:11-25 | The page lists the catalog filtered once by base and genre together. |
| PeliDocumentales.OfferedGenreShowsMovies | src/Paginas/PeliDocumentales.jsx:16-25 | No offered genre leaves the page empty. |
| PeliLibros.Base | src/Paginas/PeliLibros.jsx:11-13 | Exactly the catalog movies whose lower-cased category is "basadas en libros", in catalog order. |
| PeliLibros.Generos | src/Paginas/PeliLibros.jsx:16-18 | "Todos", then the distinct genres of the base list. |
| PeliLibros.Filtradas | src/Paginas/PeliLibros.jsx:21-25 | "Todos" gives the base list. Another genre gives the base movies of that genre, in order. |
| PeliLibros.FiltradasOnePass | src/Paginas/PeliLibros.jsx:11-25 | The page lists the catalog filtered once by base and genre together. |
| PeliLibros.OfferedGenreShowsMovies | src/Paginas/PeliLibros.jsx:16-25 | No offered genre leaves the page empty. |
| PeliAsiaticas.Base | src/Paginas/PeliAsiaticas.jsx:14-19 | Exactly the catalog movies filed under "Asiaticas", "Asiáticas" or "Animes", in catalog order. |
| PeliAsiaticas.Normalize | src/Paginas/PeliAsiaticas.jsx:24 | `replace(/s$/, '')` drops one final "s" and changes nothing else. |
| PeliAsiaticas.NormalizedCategories | src/Paginas/PeliAsiaticas.jsx:24 | The three base categories normalise to "Asiatica", "Asiática" and "Anime". |
| PeliAsiaticas.Categorias | src/Paginas/PeliAsiaticas.jsx:22-25 | "Todas", then exactly the normalised categories of the base, each once; each is one of the three names. |
| PeliAsiaticas.PorCategoria | src/Paginas/PeliAsiaticas.jsx:28-35 | "Todas" gives the whole base. Another choice gives exactly the base movies of that normalised category, in order. |
| PeliAsiaticas.Generos | src/Paginas/PeliAsiaticas.jsx:38-41 | "Todos", then exactly the genres of the category's movies, each once. |
| PeliAsiaticas.Filtradas | src/Paginas/PeliAsiaticas.jsx:44-49 | "Todos" gives the category list. Another genre gives exactly the category's movies of that genre, in order. |
| PeliAsiaticas.FiltradasOnePass | src/Paginas/PeliAsiaticas.jsx:14-49 | The two-level filter is one filter of the catalog by all three conditions. |
| PeliAsiaticas.OfferedSelectionShowsMovies | src/Paginas/PeliAsiaticas.jsx:22-49 | Any offered pair of selections shows at least one movie (unless both are the "all" options). |
| PeliAsiaticas.MovieOptionsOffered | src/Paginas/PeliAsiaticas.jsx:22-41 | Every Asian movie's category is offered, and so is its genre within that category. |
| PeliAsiaticas.StaleGenreCanEmptyPage | src/Paginas/PeliAsiaticas.jsx:52-55 | A genre offered for one category can select nothing in another, which is why the genre is reset. |
| PeliAsiaticas.AsianPage.constructor | src/Paginas/PeliAsiaticas.jsx:10-11 | The page starts on "Todas"/"Todos" and lists the whole base. |
| PeliAsiaticas.AsianPage.HandleCategoriaChange | src/Paginas/PeliAsiaticas.jsx:52-55 | The category changes and the genre goes back to "Todos". Both selections stay among the offered options, and the page lists the whole category. |
| PeliAsiaticas.AsianPage.SetGenero | src/Paginas/PeliAsiaticas.jsx:106 | Picking an offered genre keeps the category and never empties the page. |
| Inicio.ScrollAmount | src/Paginas/Inicio.jsx:14 | -300 exactly for "left", 300 for any other direction. |
| Inicio.Matches | src/Paginas/Inicio.jsx:26-34 | The reference definition of the search test that `MatchesIff`, `Search` and `DisplayedIff` are about. |
| Inicio.MatchesIff | src/Paginas/Inicio.jsx:26-34 | A movie matches exactly when the lower-cased query occurs in one of four places. They are the lower-cased title (when present), genre or category, or the year written out (when present). |
| Inicio.Search | src/Paginas/Inicio.jsx:26-34 | The results are exactly the matching catalog movies, in catalog order. |
| Inicio.EmptyQueryMatchesAll | src/Paginas/Inicio.jsx:6-34 | The default empty query lists the whole catalog. |
| Inicio.RowMovies | src/Paginas/Inicio.jsx:64-66 | A row holds exactly the results whose category lower-cases like the row name, in order. |
| Inicio.BuildRows | src/Paginas/Inicio.jsx:63-68 | Every row is named in the list, is non-empty and holds its category's results. |
| Inicio.BuildRowsPresence | src/Paginas/Inicio.jsx:63-68 | A category gets a row exactly when some result belongs to it. |
| Inicio.BuildRowsOrder | src/Paginas/Inicio.jsx:7-68 | The rows keep the order of the fixed category list. |
| Inicio.Home | src/Paginas/Inicio.jsx:54-68 | The "no movies found" message is shown exactly when nothing matches. Otherwise the rows follow the fixed category order. |
| Inicio.DisplayedIff | src/Paginas/Inicio.jsx:26-68 | A movie is on the page exactly when it matches and its category lower-cases like one of the five row names. |
| Registro.TraducirError | src/Componentes/Registro.jsx:59-70 | The three known codes get their own messages. Every other code, and a missing one, gets the generic message. The function is total and returns a non-empty message. |
| Registro.TraducirErrorInjectiveOnKnown | src/Componentes/Registro.jsx:59-70 | A specific message identifies its code. |
| Registro.ChosenFile | src/Componentes/Registro.jsx:74-75 | `files?.[0] \|\| null` is the first chosen file, or null when there is none. |
| Registro.RegistroForm.constructor | src/Componentes/Registro.jsx:10-14 | The form starts with every field empty and no error. |
| Registro.RegistroForm.HandleSubmit | src/Componentes/Registro.jsx:29-44 | `register` receives the form's values. Afterwards the error is empty on success and the translated message on failure; the fields are unchanged. |
| Registro.RegistroForm.HandleGoogle | src/Componentes/Registro.jsx:47-56 | The error is empty after a successful Google sign-in and the translated message after a failed one. |
| Registro.RegistroForm.SetUsername | src/Componentes/Registro.jsx:101 | Typing changes only the user name. |
| Registro.RegistroForm.SetEmail | src/Componentes/Registro.jsx:133 | Typing changes only the e-mail. |
| Registro.RegistroForm.SetPassword | src/Componentes/Registro.jsx:148 | Typing changes only the password. |
| Registro.RegistroForm.HandleAvatarChange | src/Componentes/Registro.jsx:73-76 | The chosen file becomes the avatar; choosing none sets it to null. |
| Dashboard.With | src/Componentes/Dashboard.jsx:40 | The named field takes the value and every other field keeps its own. |
| Dashboard.WithLaws | src/Componentes/Dashboard.jsx:40 | Writing back a field's value changes nothing, and of two writes to one field the last wins. |
| Dashboard.NameWords | src/Componentes/Dashboard.jsx:25 | The first word is the text up to the first space. The second word is the text between the first and the second space, so it is '' for two adjacent spaces. Without a display name both words are ''. A name without spaces is all first word. |
| Dashboard.Prefill | src/Componentes/Dashboard.jsx:25-35 | `nombre` is `username`, else the first word of the display name. `apellido` is `lastName`, else the second word. The other five fields are the profile's value, or '' when absent. |
| Dashboard.PrefillSplitsDisplayName | src/Componentes/Dashboard.jsx:25-29 | A display name "first last" fills the two name fields with its two words. |
| Dashboard.PrefillSecondWord | src/Componentes/Dashboard.jsx:25-29 | A display name of three or more words fills the last name with its second word and drops the rest. |
| Dashboard.ProfilePage.constructor | src/Componentes/Dashboard.jsx:14-21 | The form starts empty: no file, not saving, no messages. |
| Dashboard.ProfilePage.PrefillEffect | src/Componentes/Dashboard.jsx:23-37 | The form is prefilled only when a user is present and loading has finished; otherwise it is unchanged. |
| Dashboard.ProfilePage.HandleChange | src/Componentes/Dashboard.jsx:39-42 | Only the named field changes, and the success message is cleared. |
| Dashboard.ProfilePage.HandleFileChange | src/Componentes/Dashboard.jsx:44-46 | The first chosen file becomes the new avatar. |
| Dashboard.ProfilePage.HandleSubmit | src/Componentes/Dashboard.jsx:48-54 | While a save runs a submit changes nothing. Otherwise saving starts with both messages cleared and the current form and file captured. |
| Dashboard.ProfilePage.FinishSubmit | src/Componentes/Dashboard.jsx:56-70 | Saving stops and exactly one message is shown: success only when every attempted call succeeded. The picked file is dropped only after a successful upload. |
| DashboardContent.ItemTitle | src/Componentes/DashboardContent.jsx:72 | A string item is its own title. An object uses its truthy `titulo`, else "Película". |
| DashboardContent.ItemImage | src/Componentes/DashboardContent.jsx:73-76 | An object's truthy `imagen`, else the fixed placeholder URL; never empty. |
| DashboardContent.PurchaseLabel | src/Componentes/DashboardContent.jsx:65 | "Compra #" followed by the last five characters of the id (all of it when shorter). |
| DashboardContent.LabelsTellApart | src/Componentes/DashboardContent.jsx:65 | Ids that differ in their last five characters get different labels. |
| DashboardContent.RenderPurchases | src/Componentes/DashboardContent.jsx:27-110 | The empty state is shown exactly when there are no purchases. Otherwise there is one card per purchase, in order, with its label, count and one card per item. |
| DashboardContent.RenderedSections | src/Componentes/DashboardContent.jsx:225-227 | Exactly the section named by `activeTab` is rendered, and an unknown tab renders none. |
| DashboardContent.AvatarPreview | src/Componentes/DashboardContent.jsx:137 | The preview is a new file first, then the photo, then the uploaded avatar, then the placeholder. |
| ThemeContext.InitialTheme | src/Context/ThemeContext.jsx:6 | The stored "tema" value when truthy, else "dark". |
| ThemeContext.ToggleTheme | src/Context/ThemeContext.jsx:18 | "dark" becomes "light" and every other value becomes "dark". |
| ThemeContext.PersistedTheme | src/Context/ThemeContext.jsx:9-15 | The stored value is always "dark" or "light", and is "dark" exactly when the theme is. |
| ThemeContext.ToggleTwice | src/Context/ThemeContext.jsx:18 | Toggling twice from "dark" or "light" gives back the same theme. |
| ThemeContext.ReloadKeepsTheme | src/Context/ThemeContext.jsx:6-15 | A reload reads back the persisted theme, which persists as itself. |
| ThemeContext.ThemeProvider.constructor | src/Context/ThemeContext.jsx:6-16 | Mounting loads the stored theme and writes its persisted form under "tema". |
| ThemeContext.ThemeProvider.Toggle | src/Context/ThemeContext.jsx:8-18 | The toggle flips the theme and writes the new persisted value, keeping store and theme in agreement. |
| Navbar.MenuItems | src/Componentes/Navbar.jsx:46-58 | The seven fixed entries come first, in order. "Mi Cuenta" is appended last exactly when a user is signed in and loading has finished. |
| Navbar.DashboardOnlyWhenSignedIn | src/Componentes/Navbar.jsx:46-58 | The menu links to "/dashboard" exactly when a user is signed in and loading has finished. |
| Navbar.NavbarState.ToggleMenu | src/Componentes/Navbar.jsx:20 | `toggleMenu` flips `isOpen`. |
| Navbar.NavbarState.constructor | src/Componentes/Navbar.jsx:19 | The mobile menu starts closed. |
| Navbar.NavbarState.CloseMenu | src/Componentes/Navbar.jsx:21 | `closeMenu` sets `isOpen` to false. |
| Navbar.NavbarState.HandleAuthRedirect | src/Componentes/Navbar.jsx:63-66 | The menu is left closed and the router goes to the given path. |
| Navbar.NavbarState.HandleAbrirLogin | src/Componentes/Navbar.jsx:69-71 | The router goes to "/login" and the menu state is untouched. |
| ZonaUsuario.DisplayUsername | src/Componentes/ZonaUsuario.jsx:49 | The name is `username`, else `displayName`, else the part of the e-mail before the first '@'. There is none without an e-mail. |
| ZonaUsuario.DisplayUsernameFromEmail | src/Componentes/ZonaUsuario.jsx:49 | For an address `local@domain` the name is `local`. |
| ZonaUsuario.InitialLetter | src/Componentes/ZonaUsuario.jsx:68 | The upper-cased first character of the name when that is non-empty. It is "U" when there is no name or when the upper-cased first character is empty; it is never empty. |
| ZonaUsuario.NamelessUserShowsU | src/Componentes/ZonaUsuario.jsx:49-68 | A user with no user name or display name whose e-mail is missing, empty or starts with '@' gets the letter "U". |
| ZonaUsuario.AvatarButton | src/Componentes/ZonaUsuario.jsx:59-69 | The button shows the picture exactly when the photo or the avatar is truthy; otherwise it shows the initial. |
| ZonaUsuario.UserMenu.ToggleMenu | src/Componentes/ZonaUsuario.jsx:55 | The avatar button flips the menu. |
| ZonaUsuario.UserMenu.constructor | src/Componentes/ZonaUsuario.jsx:13 | The user menu starts closed. |
| ZonaUsuario.UserMenu.HandleMenuItemClick | src/Componentes/ZonaUsuario.jsx:37-40 | Any menu item closes the menu and navigates to its path. |
| ZonaUsuario.UserMenu.HandleLogout | src/Componentes/ZonaUsuario.jsx:120 | Signing out requests the logout, closes the menu and navigates to "/". |

## Left out

- `src/Context/AuthContext.jsx` is not part of this model. Sign-up, Google sign-in, the profile and avatar updates and logout are remote calls. Their outcomes are inputs of `Registro.RegistroForm.HandleSubmit`, `Registro.RegistroForm.HandleGoogle` and `Dashboard.ProfilePage.FinishSubmit`.
- The live purchases query (`onSnapshot`) and the `date-fns` formatting of purchase dates are remote I/O and a library call. The purchases are an input of `DashboardContent.RenderPurchases`, and the date line is not modelled.
- JSON encoding in `localStorage` is not modelled: a key reads back the value last written to it. A key holding a value of the wrong kind reads as absent; the source would throw or show it.
- `alert` messages are not modelled. `window.confirm` is the boolean input `confirmed`.
- `Date.now()` is the input `now`. Review ids are therefore not claimed to be unique, because the source does not guarantee it.
- The `setInterval` auto-scroll and `scrollBy` are timer and DOM calls; only the scroll step is modelled.
- These are DOM side effects and are not modelled:
  - the theme's `classList` changes on the document and the body;
  - `URL.createObjectURL`, modelled as the file itself;
  - the user menu's click-outside listener;
  - focusing the e-mail input.
- `toLowerCase` and `toUpperCase` are abstract functions, because Unicode case mapping is outside the model.
- Numbers are unbounded integers. `String(n)` of very large Numbers (exponent form, lost precision) is not modelled.
- These files hold only markup or wiring and are not modelled: `src/Componentes/Footer.jsx`, `src/Componentes/DashboardNav.jsx`, `src/App.jsx` and `src/main.jsx`.
- `Carrito.CartPage.constructor`: loads the stored cart at mount. The source first renders an empty cart and loads the stored one in an effect; that first empty render is not modelled.
- The catalog (`PeliculasData`) and the shipped reviews are parameters. They are not part of this model.
- `Registro.RegistroForm.HandleSubmit`: treats the asynchronous handler as one step. The error cleared before `await` is not observable in between.
- `Comentarios.CommentsWidget.HandleEditar`: when no review has the id, the source throws a TypeError before any state change. The model reports `found == false` and changes nothing.
- `PeliAsiaticas.AsianPage.HandleCategoriaChange` and `PeliAsiaticas.AsianPage.SetGenero` require the new value to be one the drop-down offers. Only those values can come from the `select` elements.
- `Inicio.EmptyQueryMatchesAll` assumes `lower("") == ""`, which `toLowerCase` satisfies.
