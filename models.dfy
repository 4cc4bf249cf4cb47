/**
  The records of the catalogue (netflix/models.py) and their field rules.

  Rows are values; the store in module Views keeps them in maps keyed by their
  surrogate ids. The many-to-many relation between movies and actors is a set of
  actor ids inside each movie. The cascade rules (a comment disappears with its
  movie or its author; an actor disappears from every movie's set when deleted)
  are the map functions at the end of this module.
 */
module Models {
  import opened Validators

  type ActorId = int
  type MovieId = int
  type CommentId = int
  type UserId = int

  /** Moment of creation of a comment (`auto_now_add`), supplied by the caller. */
  type Timestamp = int

  /** `max_length` of both name columns. */
  const MaxNameLength: int := 255

  datatype Actor = Actor(name: string, dateBirth: Date)

  datatype Movie = Movie(name: string, dateCreated: Date, actors: set<ActorId>)

  datatype Comment = Comment(movie: MovieId, user: UserId, content: string, createdAt: Timestamp)

  /** A stored password; the hashing scheme is not modelled. */
  datatype Password = Hashed(secret: string)

  datatype User = User(username: string, password: Password, isStaff: bool, isSuperuser: bool)

  /** Who sends a request: nobody authenticated, or a user of the store. */
  datatype Requester = Anonymous | Member(id: UserId)

  // ---------------------------------------------------------------- field rules

  /**
    An actor's name: not blank (the serializer rejects a blank string before any
    validator runs), at most 255 characters, upper-case first, letters and spaces.
   */
  predicate ValidActorName(name: string) {
    name != [] && |name| <= MaxNameLength &&
    StartsWithUppercase(name) == Pass && ContainsOnlyLetters(name) == Pass
  }

  /** A movie's name: not blank, at most 255 characters, letters and spaces. */
  predicate ValidMovieName(name: string) {
    name != [] && |name| <= MaxNameLength && ContainsOnlyLetters(name) == Pass
  }

  predicate ValidActor(a: Actor, currentYear: int) {
    ValidActorName(a.name) && AgeValidator(a.dateBirth, currentYear) == Pass
  }

  predicate ValidMovie(m: Movie, currentYear: int) {
    ValidMovieName(m.name) && AgeValidator(m.dateCreated, currentYear) == Pass
  }

  /**
    Comment content as the serializer's character field accepts it: not blank,
    and without a NUL character (the field's null-character validator).
   */
  predicate ValidContent(content: string) {
    content != [] && '\0' !in content
  }

  /** The actor name rule spelled out character by character. */
  lemma ActorNameRule(name: string)
    ensures ValidActorName(name) <==>
      0 < |name| <= MaxNameLength && IsUpper(name[0]) &&
      forall i :: 0 <= i < |name| ==> name[i] == ' ' || IsAlpha(name[i])
  {
    LettersRule(name);
    if 0 < |name| && IsUpper(name[0]) {
      assert name[0] != ' ';
    }
  }

  /** The movie name rule spelled out character by character. */
  lemma MovieNameRule(name: string)
    ensures ValidMovieName(name) <==>
      |name| <= MaxNameLength &&
      (exists i :: 0 <= i < |name| && name[i] != ' ') &&
      forall i :: 0 <= i < |name| ==> name[i] == ' ' || IsAlpha(name[i])
  {
    LettersRule(name);
  }

  /** Every valid actor name is also a valid movie name. */
  lemma ActorNameIsMovieName(name: string)
    requires ValidActorName(name)
    ensures ValidMovieName(name)
  {
  }

  /** The converse fails: a movie name need not start with an upper-case letter. */
  lemma MovieNameNeedNotBeCapitalised()
    ensures ValidMovieName("matrix") && !ValidActorName("matrix")
  {
    var s := "matrix";
    LettersRule(s);
    assert s[0] != ' ';
    assert forall i :: 0 <= i < |s| ==> IsAlpha(s[i]);
  }

  /** A valid record never has a date in a year after the current one. */
  lemma ValidDatesNotInFuture(a: Actor, m: Movie, currentYear: int)
    ensures ValidActor(a, currentYear) ==> a.dateBirth.year <= currentYear
    ensures ValidMovie(m, currentYear) ==> m.dateCreated.year <= currentYear
  {
  }

  // ---------------------------------------------------------------- relation and cascades

  /** `movie.actors.add(actor)`. */
  function Attach(m: Movie, a: ActorId): (r: Movie)
    ensures a in r.actors
    ensures forall b :: b != a ==> (b in r.actors <==> b in m.actors)
    ensures r.name == m.name && r.dateCreated == m.dateCreated
  {
    m.(actors := m.actors + {a})
  }

  /** `movie.actors.remove(actor)`. */
  function Detach(m: Movie, a: ActorId): (r: Movie)
    ensures a !in r.actors
    ensures forall b :: b != a ==> (b in r.actors <==> b in m.actors)
    ensures r.name == m.name && r.dateCreated == m.dateCreated
  {
    m.(actors := m.actors - {a})
  }

  /** Adding an actor twice is the same as adding it once; adding a present actor changes nothing. */
  lemma AttachIdempotent(m: Movie, a: ActorId)
    ensures Attach(Attach(m, a), a) == Attach(m, a)
    ensures a in m.actors ==> Attach(m, a) == m
  {
  }

  /** Removing an absent actor changes nothing; removing what was just added restores the movie. */
  lemma DetachUndoesAttach(m: Movie, a: ActorId)
    ensures a !in m.actors ==> Detach(m, a) == m
    ensures a !in m.actors ==> Detach(Attach(m, a), a) == m
    ensures a in m.actors ==> Attach(Detach(m, a), a) == m
  {
  }

  /** Deleting an actor removes its rows from the relation of every movie. */
  function DetachEverywhere(movies: map<MovieId, Movie>, a: ActorId): (r: map<MovieId, Movie>)
    ensures r.Keys == movies.Keys
    ensures forall m :: m in r ==> a !in r[m].actors
    ensures forall m, b :: m in r && b != a ==> (b in r[m].actors <==> b in movies[m].actors)
    ensures forall m :: m in r ==> r[m].name == movies[m].name && r[m].dateCreated == movies[m].dateCreated
  {
    map m | m in movies :: Detach(movies[m], a)
  }

  /** `on_delete=CASCADE` on `Comment.movie`: the comments left are those on other movies. */
  function DropCommentsOnMovie(comments: map<CommentId, Comment>, m: MovieId): (r: map<CommentId, Comment>)
    ensures forall c :: c in r ==> c in comments && r[c] == comments[c] && r[c].movie != m
    ensures forall c :: c in comments && comments[c].movie != m ==> c in r
  {
    map c | c in comments && comments[c].movie != m :: comments[c]
  }

  /** `on_delete=CASCADE` on `Comment.user`: the comments left are those by other users. */
  function DropCommentsByUser(comments: map<CommentId, Comment>, u: UserId): (r: map<CommentId, Comment>)
    ensures forall c :: c in r ==> c in comments && r[c] == comments[c] && r[c].user != u
    ensures forall c :: c in comments && comments[c].user != u ==> c in r
  {
    map c | c in comments && comments[c].user != u :: comments[c]
  }

  /** The ids of the comments a user wrote (the `comments` related name). */
  function CommentsBy(comments: map<CommentId, Comment>, u: UserId): (r: set<CommentId>)
    ensures forall c :: c in r <==> c in comments && comments[c].user == u
  {
    set c | c in comments && comments[c].user == u
  }

  /** Every comment either was written by `u` or survives the deletion of `u`. */
  lemma AuthorCascadePartition(comments: map<CommentId, Comment>, u: UserId)
    ensures CommentsBy(comments, u) !! DropCommentsByUser(comments, u).Keys
    ensures CommentsBy(comments, u) + DropCommentsByUser(comments, u).Keys == comments.Keys
    ensures CommentsBy(DropCommentsByUser(comments, u), u) == {}
  {
  }
}
