/**
 * The reviews widget of a movie page: the list shown (loaded from the store or
 * seeded from the reviews shipped with the site), the draft being written
 * (`nuevoComentario`, `puntuacion`) and the review being edited (`editandoId`).
 * Every change of the list is written to the movie's own store key.
 */
module Comentarios {
  import opened Js
  import opened JsString
  import opened Seqs
  import opened Records
  import opened BrowserStorage

  /**
   * The list shown after loading: a non-empty stored list as it is, otherwise the
   * shipped reviews of this movie, in their shipped order.
   */
  function InitialComments(stored: seq<Comment>, seed: seq<Comment>, peliculaId: int): (r: seq<Comment>)
    ensures stored != [] ==> r == stored
    ensures stored == [] ==> (forall c :: c in r <==> c in seed && c.peliculaId == peliculaId) && IsSubsequence(r, seed)
  {
    if |stored| > 0 then stored
    else
      FilterIsSubsequence(seed, (c: Comment) => c.peliculaId == peliculaId);
      Filter(seed, (c: Comment) => c.peliculaId == peliculaId)
  }

  /** A non-empty list written for a movie is what that movie's page loads next time. */
  lemma ReloadAfterSave(entries: map<string, Stored>, seed: seq<Comment>, peliculaId: int, nuevos: seq<Comment>)
    requires nuevos != []
    ensures InitialComments(StoredComments(entries[CommentsKey(peliculaId) := CommentList(nuevos)], peliculaId), seed, peliculaId) == nuevos
  {
  }

  /**
   * Writing the empty list (every review deleted) does not stick: the next load
   * shows this movie's shipped reviews again.
   */
  lemma EmptySaveReseeds(entries: map<string, Stored>, seed: seq<Comment>, peliculaId: int)
    ensures InitialComments(StoredComments(entries[CommentsKey(peliculaId) := CommentList([])], peliculaId), seed, peliculaId) ==
      InitialComments([], seed, peliculaId)
  {
  }

  /** `user.displayName || user.email || "Usuario anónimo"`. */
  function AuthorName(user: AuthUser): (r: string)
    ensures r != ""
    ensures Truthy(user.displayName) ==> r == user.displayName.value
    ensures !Truthy(user.displayName) && Truthy(user.email) ==> r == user.email.value
    ensures !Truthy(user.displayName) && !Truthy(user.email) ==> r == "Usuario anónimo"
  {
    OrDefault(Or(user.displayName, user.email), "Usuario anónimo")
  }

  /** The review posted by `user`; `id` is the clock reading `Date.now()` at the time. */
  function NewComment(id: int, peliculaId: int, user: AuthUser, mensaje: string, puntuacion: int): Comment
  {
    Comment(id, peliculaId, AuthorName(user), mensaje, puntuacion, Some(user.uid))
  }

  /** `user && comentario.uid === user.uid`: the edit and delete buttons are shown for this review. */
  predicate CanModify(user: Option<AuthUser>, c: Comment)
  {
    user.Some? && c.uid == Some(user.value.uid)
  }

  /** A review can be edited and deleted by its author, and by no user with another uid. */
  lemma AuthorCanModify(id: int, peliculaId: int, author: AuthUser, mensaje: string, puntuacion: int, other: AuthUser)
    ensures CanModify(Some(author), NewComment(id, peliculaId, author, mensaje, puntuacion))
    ensures other.uid != author.uid ==> !CanModify(Some(other), NewComment(id, peliculaId, author, mensaje, puntuacion))
    ensures !CanModify(None, NewComment(id, peliculaId, author, mensaje, puntuacion))
  {
  }

  /** Why `handleAgregar` did or did not post. */
  datatype AddOutcome = MissingFields | NotSignedIn | Added

  /**
   * The checks of `handleAgregar`, in order: a blank text (only white space) or no
   * rating is refused first, then a visitor who is not signed in.
   */
  function CheckAdd(texto: string, puntuacion: int, user: Option<AuthUser>): (r: AddOutcome)
    ensures r == MissingFields <==> AllWhiteSpace(texto) || puntuacion == 0
    ensures r == NotSignedIn <==> !AllWhiteSpace(texto) && puntuacion != 0 && user.None?
    ensures r == Added <==> !AllWhiteSpace(texto) && puntuacion != 0 && user.Some?
  {
    TrimEmptyIff(texto);
    if Trim(texto) == "" || puntuacion == 0 then MissingFields
    else if user.None? then NotSignedIn
    else Added
  }

  /** The list after saving an edit: the review with id `editandoId` takes the draft's text and rating. */
  function EditComments(list: seq<Comment>, editandoId: Option<int>, mensaje: string, puntuacion: int): (r: seq<Comment>)
    ensures |r| == |list|
    ensures forall i :: 0 <= i < |list| && editandoId != Some(list[i].id) ==> r[i] == list[i]
    ensures forall i :: 0 <= i < |list| && editandoId == Some(list[i].id) ==>
      r[i].mensaje == mensaje && r[i].puntuacion == puntuacion
  {
    Map(list, (c: Comment) => if editandoId == Some(c.id) then c.(mensaje := mensaje, puntuacion := puntuacion) else c)
  }

  /** An edit touches nothing but text and rating: ids, movie, author and owner stay, so do the edit rights. */
  lemma EditKeepsIdentity(list: seq<Comment>, editandoId: Option<int>, mensaje: string, puntuacion: int, user: Option<AuthUser>)
    ensures var r := EditComments(list, editandoId, mensaje, puntuacion);
      forall i :: 0 <= i < |list| ==>
        r[i].id == list[i].id && r[i].peliculaId == list[i].peliculaId &&
        r[i].nombreUsuario == list[i].nombreUsuario && r[i].uid == list[i].uid &&
        CanModify(user, r[i]) == CanModify(user, list[i])
  {
    var r := EditComments(list, editandoId, mensaje, puntuacion);
    forall i | 0 <= i < |list|
      ensures r[i].id == list[i].id && r[i].peliculaId == list[i].peliculaId
      ensures r[i].nombreUsuario == list[i].nombreUsuario && r[i].uid == list[i].uid
    {
      if editandoId == Some(list[i].id) {
        assert r[i] == list[i].(mensaje := mensaje, puntuacion := puntuacion);
      }
    }
  }

  /** Saving the same edit twice is saving it once; saving with no review selected changes nothing. */
  lemma EditIdempotent(list: seq<Comment>, editandoId: Option<int>, mensaje: string, puntuacion: int)
    ensures EditComments(EditComments(list, editandoId, mensaje, puntuacion), editandoId, mensaje, puntuacion) ==
      EditComments(list, editandoId, mensaje, puntuacion)
    ensures EditComments(list, None, mensaje, puntuacion) == list
  {
    var r := EditComments(list, editandoId, mensaje, puntuacion);
    EditKeepsIdentity(list, editandoId, mensaje, puntuacion, None);
    var rr := EditComments(r, editandoId, mensaje, puntuacion);
    forall i | 0 <= i < |list| ensures rr[i] == r[i] {
      if editandoId == Some(list[i].id) {
        assert r[i] == list[i].(mensaje := mensaje, puntuacion := puntuacion);
      }
    }
  }

  /** `comentarios.filter((c) => c.id !== id)`: every review with that id goes, the rest keep their order. */
  function RemoveComment(list: seq<Comment>, id: int): (r: seq<Comment>)
    ensures forall c :: c in r <==> c in list && c.id != id
    ensures forall c :: multiset(r)[c] == if c.id != id then multiset(list)[c] else 0
    ensures IsSubsequence(r, list)
  {
    var p := (c: Comment) => c.id != id;
    FilterIsSubsequence(list, p);
    forall c ensures multiset(Filter(list, p))[c] == if c.id != id then multiset(list)[c] else 0 {
      FilterMultiplicity(list, p, c);
    }
    Filter(list, p)
  }

  /** Deleting an id that is not there changes nothing. */
  lemma RemoveAbsent(list: seq<Comment>, id: int)
    requires forall i :: 0 <= i < |list| ==> list[i].id != id
    ensures RemoveComment(list, id) == list
  {
    FilterIdentityIff(list, (c: Comment) => c.id != id);
  }

  /** The widget of one movie page. */
  class CommentsWidget {
    const store: LocalStorage
    /** The reviews shipped with the site, for all movies. */
    const seed: seq<Comment>
    var peliculaId: int
    var comentarios: seq<Comment>
    var nuevoComentario: string
    var puntuacion: int
    var editandoId: Option<int>

    /** Mounting: an empty draft, and the list loaded for the movie. */
    constructor (store: LocalStorage, seed: seq<Comment>, peliculaId: int)
      ensures this.store == store && this.seed == seed && this.peliculaId == peliculaId
      ensures comentarios == InitialComments(StoredComments(store.entries, peliculaId), seed, peliculaId)
      ensures nuevoComentario == "" && puntuacion == 0 && editandoId == None
    {
      this.store := store;
      this.seed := seed;
      this.peliculaId := peliculaId;
      comentarios := InitialComments(StoredComments(store.entries, peliculaId), seed, peliculaId);
      nuevoComentario := "";
      puntuacion := 0;
      editandoId := None;
    }

    /** The loading effect run again when the page shows another movie; the draft is kept. */
    method ShowMovie(id: int)
      modifies this
      ensures peliculaId == id
      ensures comentarios == InitialComments(StoredComments(store.entries, id), seed, id)
      ensures nuevoComentario == old(nuevoComentario) && puntuacion == old(puntuacion) && editandoId == old(editandoId)
    {
      peliculaId := id;
      comentarios := InitialComments(StoredComments(store.entries, id), seed, id);
    }

    /** `guardarComentarios`: the list shown and the movie's store key both become `nuevos`. */
    method GuardarComentarios(nuevos: seq<Comment>)
      modifies this, store
      ensures comentarios == nuevos
      ensures store.entries == old(store.entries)[CommentsKey(peliculaId) := CommentList(nuevos)]
      ensures StoredComments(store.entries, peliculaId) == comentarios
      ensures peliculaId == old(peliculaId) && nuevoComentario == old(nuevoComentario)
      ensures puntuacion == old(puntuacion) && editandoId == old(editandoId)
    {
      comentarios := nuevos;
      store.SetItem(CommentsKey(peliculaId), CommentList(nuevos));
    }

    /** Typing in the text area. */
    method SetNuevoComentario(texto: string)
      modifies this
      ensures nuevoComentario == texto
      ensures comentarios == old(comentarios) && puntuacion == old(puntuacion)
      ensures editandoId == old(editandoId) && peliculaId == old(peliculaId)
    {
      nuevoComentario := texto;
    }

    /** Clicking a star. */
    method SetPuntuacion(valor: int)
      modifies this
      ensures puntuacion == valor
      ensures comentarios == old(comentarios) && nuevoComentario == old(nuevoComentario)
      ensures editandoId == old(editandoId) && peliculaId == old(peliculaId)
    {
      puntuacion := valor;
    }

    /**
     * `handleAgregar`: when the checks pass, the review built from the draft is
     * appended and saved and the draft is cleared; otherwise nothing changes.
     */
    method HandleAgregar(user: Option<AuthUser>, now: int) returns (outcome: AddOutcome)
      modifies this, store
      ensures outcome == CheckAdd(old(nuevoComentario), old(puntuacion), user)
      ensures outcome != Added ==>
        comentarios == old(comentarios) && store.entries == old(store.entries) &&
        nuevoComentario == old(nuevoComentario) && puntuacion == old(puntuacion)
      ensures outcome == Added ==>
        comentarios == old(comentarios) + [NewComment(now, peliculaId, user.value, old(nuevoComentario), old(puntuacion))] &&
        store.entries == old(store.entries)[CommentsKey(peliculaId) := CommentList(comentarios)] &&
        nuevoComentario == "" && puntuacion == 0
      ensures editandoId == old(editandoId) && peliculaId == old(peliculaId)
    {
      outcome := CheckAdd(nuevoComentario, puntuacion, user);
      if outcome == Added {
        var nuevo := NewComment(now, peliculaId, user.value, nuevoComentario, puntuacion);
        GuardarComentarios(comentarios + [nuevo]);
        nuevoComentario := "";
        puntuacion := 0;
      }
    }

    /**
     * `handleEditar(id)`: the draft is filled from the first review with that id,
     * which becomes the one being edited. With no such review the handler fails
     * before changing anything, which `found == false` stands for.
     */
    method HandleEditar(id: int) returns (found: bool)
      modifies this
      ensures var hit := Find(old(comentarios), (c: Comment) => c.id == id);
        found == hit.Some? &&
        (found ==> nuevoComentario == hit.value.mensaje && puntuacion == hit.value.puntuacion && editandoId == Some(id))
      ensures found <==> exists i :: 0 <= i < |comentarios| && comentarios[i].id == id
      ensures !found ==> nuevoComentario == old(nuevoComentario) && puntuacion == old(puntuacion) && editandoId == old(editandoId)
      ensures comentarios == old(comentarios) && peliculaId == old(peliculaId)
    {
      var comentario := Find(comentarios, (c: Comment) => c.id == id);
      found := comentario.Some?;
      if found {
        nuevoComentario := comentario.value.mensaje;
        puntuacion := comentario.value.puntuacion;
        editandoId := Some(id);
      }
    }

    /** `handleGuardarEdicion`: the edited list is saved, the draft cleared and edit mode left. */
    method HandleGuardarEdicion()
      modifies this, store
      ensures comentarios == EditComments(old(comentarios), old(editandoId), old(nuevoComentario), old(puntuacion))
      ensures store.entries == old(store.entries)[CommentsKey(peliculaId) := CommentList(comentarios)]
      ensures nuevoComentario == "" && puntuacion == 0 && editandoId == None
      ensures peliculaId == old(peliculaId)
    {
      GuardarComentarios(EditComments(comentarios, editandoId, nuevoComentario, puntuacion));
      nuevoComentario := "";
      puntuacion := 0;
      editandoId := None;
    }

    /** `handleEliminar(id)`: only when the visitor confirms are the reviews with that id removed and the list saved. */
    method HandleEliminar(id: int, confirmed: bool)
      modifies this, store
      ensures confirmed ==>
        comentarios == RemoveComment(old(comentarios), id) &&
        store.entries == old(store.entries)[CommentsKey(peliculaId) := CommentList(comentarios)]
      ensures !confirmed ==> comentarios == old(comentarios) && store.entries == old(store.entries)
      ensures nuevoComentario == old(nuevoComentario) && puntuacion == old(puntuacion)
      ensures editandoId == old(editandoId) && peliculaId == old(peliculaId)
    {
      if confirmed {
        GuardarComentarios(RemoveComment(comentarios, id));
      }
    }

    /** `editandoId ? …`: edit mode, as JavaScript truthiness sees the id (0 counts as none). */
    predicate Editing()
      reads this
    {
      editandoId.Some? && editandoId.value != 0
    }

    /**
     * The form's button: saves the edit in edit mode, posts a new review otherwise.
     * `outcome` is `None` when an edit was saved.
     */
    method Submit(user: Option<AuthUser>, now: int) returns (outcome: Option<AddOutcome>)
      modifies this, store
      ensures old(Editing()) ==>
        outcome.None? &&
        comentarios == EditComments(old(comentarios), old(editandoId), old(nuevoComentario), old(puntuacion)) &&
        store.entries == old(store.entries)[CommentsKey(peliculaId) := CommentList(comentarios)] &&
        nuevoComentario == "" && puntuacion == 0 && editandoId == None
      ensures !old(Editing()) ==>
        outcome == Some(CheckAdd(old(nuevoComentario), old(puntuacion), user)) &&
        editandoId == old(editandoId)
      ensures !old(Editing()) && outcome == Some(Added) ==>
        comentarios == old(comentarios) + [NewComment(now, peliculaId, user.value, old(nuevoComentario), old(puntuacion))] &&
        store.entries == old(store.entries)[CommentsKey(peliculaId) := CommentList(comentarios)] &&
        nuevoComentario == "" && puntuacion == 0
      ensures !old(Editing()) && outcome != Some(Added) ==>
        comentarios == old(comentarios) && store.entries == old(store.entries) &&
        nuevoComentario == old(nuevoComentario) && puntuacion == old(puntuacion)
      ensures peliculaId == old(peliculaId)
    {
      if Editing() {
        HandleGuardarEdicion();
        outcome := None;
      } else {
        var r := HandleAgregar(user, now);
        outcome := Some(r);
      }
    }
  }
}
