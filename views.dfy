/**
  The request handlers of the catalogue (netflix/views.py) as methods of one
  store object.

  The store holds the tables as maps from surrogate ids to rows, with the
  auto-increment counters that pick the next id, and the token table used by
  logout. Each handler takes the requester and the request's arguments, returns
  the HTTP status code, and changes the store as the view does. The framework's
  steps before the view body are spelled out where a view relies on them: the
  permission class of the view, the 404 of a missing row, and the serializer's
  field checks (required fields, blank strings, unknown primary keys, the field
  validators of module Models).

  A permission class that refuses an anonymous requester answers 401 (the
  framework's NotAuthenticated, with the authentication header of the JSON web
  token scheme); one that refuses an authenticated requester answers 403.
 */
module Views {
  import opened Wrappers
  import opened Validators
  import opened Models
  import opened Permissions

  const OK: int := 200
  const Created: int := 201
  const NoContent: int := 204
  const BadRequest: int := 400
  const Unauthorized: int := 401
  const Forbidden: int := 403
  const NotFound: int := 404

  /** The answer of a permission class that refuses the requester. */
  function DenialStatus(requester: Requester): (status: int)
    ensures requester.Anonymous? <==> status == Unauthorized
    ensures requester.Member? <==> status == Forbidden
  {
    if requester.Anonymous? then Unauthorized else Forbidden
  }

  // ---------------------------------------------------------------- request bodies

  /** Body of an actor create or update; an absent field is None. */
  datatype ActorPayload = ActorPayload(name: Option<string>, dateBirth: Option<Date>)

  /**
    Body of a movie create or update. The list of actor ids is kept as the set it
    becomes (order and repetitions do not reach the relation); it is read only on
    update.
   */
  datatype MoviePayload = MoviePayload(actors: Option<set<ActorId>>, name: Option<string>, dateCreated: Option<Date>)

  /** Body of a comment create; a `user` in it is not one of the serializer's fields. */
  datatype CommentPayload = CommentPayload(movie: Option<MovieId>, content: Option<string>, user: Option<UserId>)

  /** The serializer accepts an actor body: both fields present and valid. */
  predicate ActorPayloadAccepted(p: ActorPayload, currentYear: int) {
    p.name.Some? && p.dateBirth.Some? && ValidActor(Actor(p.name.value, p.dateBirth.value), currentYear)
  }

  /**
    The create serializer accepts a movie body: a non-empty list of existing actor
    ids (the relation is required and may not be empty), a valid name and a valid
    date.
   */
  predicate MovieCreateAccepted(p: MoviePayload, knownActors: set<ActorId>, currentYear: int) {
    && p.actors.Some? && p.actors.value != {} && p.actors.value <= knownActors
    && p.name.Some? && p.dateCreated.Some?
    && ValidMovie(Movie(p.name.value, p.dateCreated.value, {}), currentYear)
  }

  /** The update serializer accepts a movie body: every field present when not partial, every present field valid. */
  predicate MovieUpdateAccepted(p: MoviePayload, partial: bool, currentYear: int) {
    && (partial || (p.name.Some? && p.dateCreated.Some?))
    && (p.name.Some? ==> ValidMovieName(p.name.value))
    && (p.dateCreated.Some? ==> AgeValidator(p.dateCreated.value, currentYear) == Pass)
  }

  /** The movie after an accepted update: present fields replaced, the actor set untouched. */
  function UpdatedMovie(m: Movie, p: MoviePayload): (r: Movie)
    ensures r.actors == m.actors
    ensures r.name == (if p.name.Some? then p.name.value else m.name)
    ensures r.dateCreated == (if p.dateCreated.Some? then p.dateCreated.value else m.dateCreated)
  {
    Movie(if p.name.Some? then p.name.value else m.name,
          if p.dateCreated.Some? then p.dateCreated.value else m.dateCreated,
          m.actors)
  }

  /** A comment body is accepted when it names an existing movie and has valid content. */
  predicate CommentPayloadAccepted(p: CommentPayload, knownMovies: set<MovieId>) {
    p.movie.Some? && p.movie.value in knownMovies && ContentAccepted(p.content)
  }

  /** The content field of a comment body is present and valid. */
  predicate ContentAccepted(content: Option<string>) {
    content.Some? && ValidContent(content.value)
  }

  /** Python truthiness of an `actor_id` read from the body: absent and 0 are false. */
  predicate Truthy(actorId: Option<int>) {
    actorId.Some? && actorId.value != 0
  }

  /** Python truthiness of a username or password read from the body. */
  predicate TruthyText(s: Option<string>) {
    s.Some? && s.value != []
  }

  // ---------------------------------------------------------------- the store

  class Store {
    var actors: map<ActorId, Actor>
    var movies: map<MovieId, Movie>
    var comments: map<CommentId, Comment>
    var users: map<UserId, User>
    /** The authentication token of each user that has one. */
    var tokens: map<UserId, string>
    var nextActor: int
    var nextMovie: int
    var nextComment: int
    var nextUser: int

    ghost predicate ActorsValid()
      reads this
    {
      && 0 < nextActor
      && forall a :: a in actors ==> 0 < a < nextActor && ValidActorName(actors[a].name)
    }

    ghost predicate MoviesValid()
      reads this
    {
      && 0 < nextMovie
      && forall m :: m in movies ==>
           0 < m < nextMovie && ValidMovieName(movies[m].name) && movies[m].actors <= actors.Keys
    }

    ghost predicate CommentsValid()
      reads this
    {
      && 0 < nextComment
      && forall c :: c in comments ==>
           && 0 < c < nextComment
           && comments[c].movie in movies && comments[c].user in users
           && ValidContent(comments[c].content)
    }

    ghost predicate UsersValid()
      reads this
    {
      && 0 < nextUser
      && (forall u :: u in users ==> 0 < u < nextUser && users[u].username != [])
      && (forall u, v :: u in users && v in users && users[u].username == users[v].username ==> u == v)
      && tokens.Keys <= users.Keys
    }

    /**
      No stored name breaks its field rules, every reference between rows
      resolves, usernames are unique, and the counters are ahead of every id.
     */
    ghost predicate Valid()
      reads this
    {
      ActorsValid() && MoviesValid() && CommentsValid() && UsersValid()
    }

    /** No comment that survives a step has its creation time changed. */
    twostate predicate CreatedAtKept()
      reads this
    {
      forall c :: c in old(comments) && c in comments ==> comments[c].createdAt == old(comments[c].createdAt)
    }

    twostate predicate ActorTableKept() reads this { actors == old(actors) && nextActor == old(nextActor) }
    twostate predicate MovieTableKept() reads this { movies == old(movies) && nextMovie == old(nextMovie) }
    twostate predicate CommentTableKept() reads this { comments == old(comments) && nextComment == old(nextComment) }
    twostate predicate UserTableKept() reads this { users == old(users) && nextUser == old(nextUser) }

    constructor ()
      ensures Valid()
      ensures actors == map[] && movies == map[] && comments == map[] && users == map[] && tokens == map[]
      ensures nextActor == 1 && nextMovie == 1 && nextComment == 1 && nextUser == 1
    {
      actors, movies, comments, users, tokens := map[], map[], map[], map[], map[];
      nextActor, nextMovie, nextComment, nextUser := 1, 1, 1, 1;
    }

    /** The framework only authenticates users that exist. */
    predicate Known(requester: Requester)
      reads this
    {
      requester.Member? ==> requester.id in users
    }

    /** `request.user.is_staff`, which the admin permission class tests. */
    predicate IsStaff(requester: Requester)
      reads this
    {
      requester.Member? && requester.id in users && users[requester.id].isStaff
    }

    /** `request.user.is_superuser`, which the create views test. */
    predicate IsSuperuser(requester: Requester)
      reads this
    {
      requester.Member? && requester.id in users && users[requester.id].isSuperuser
    }

    predicate UsernameTaken(username: string)
      reads this
    {
      exists u :: u in users && users[u].username == username
    }

    // ------------------------------------------------------------ actors

    /** POST /actors/ (`ActorListCreateApiView.post`). */
    method CreateActor(requester: Requester, data: ActorPayload, currentYear: int) returns (status: int)
      requires Valid() && Known(requester)
      modifies this
      ensures Valid() && CreatedAtKept()
      ensures !old(IsSuperuser(requester)) ==> status == Forbidden && unchanged(this)
      ensures old(IsSuperuser(requester)) && !ActorPayloadAccepted(data, currentYear) ==>
        status == BadRequest && unchanged(this)
      ensures old(IsSuperuser(requester)) && ActorPayloadAccepted(data, currentYear) ==>
        && status == Created
        && old(nextActor) !in old(actors)
        && actors == old(actors)[old(nextActor) := Actor(data.name.value, data.dateBirth.value)]
        && |actors| == |old(actors)| + 1 && nextActor == old(nextActor) + 1
        && ValidActor(actors[old(nextActor)], currentYear)
        && MovieTableKept() && CommentTableKept() && UserTableKept() && tokens == old(tokens)
    {
      if !IsSuperuser(requester) {
        return Forbidden;
      }
      if !ActorPayloadAccepted(data, currentYear) {
        return BadRequest;
      }
      actors := actors[nextActor := Actor(data.name.value, data.dateBirth.value)];
      nextActor := nextActor + 1;
      status := Created;
    }

    /** GET /actors/{pk}/ (`ActorDetailAPIView.get`, admin only). */
    method RetrieveActor(requester: Requester, pk: ActorId) returns (status: int, actor: Option<Actor>)
      ensures !IsStaff(requester) ==> status == DenialStatus(requester) && actor == None
      ensures IsStaff(requester) && pk !in actors ==> status == NotFound && actor == None
      ensures IsStaff(requester) && pk in actors ==> status == OK && actor == Some(actors[pk])
    {
      if !IsStaff(requester) {
        return DenialStatus(requester), None;
      }
      if pk !in actors {
        return NotFound, None;
      }
      return OK, Some(actors[pk]);
    }

    /** PUT /actors/{pk}/ (`ActorDetailAPIView.put`, admin only): replaces both fields. */
    method UpdateActor(requester: Requester, pk: ActorId, data: ActorPayload, currentYear: int) returns (status: int)
      requires Valid() && Known(requester)
      modifies this
      ensures Valid() && CreatedAtKept()
      ensures !old(IsStaff(requester)) ==> status == DenialStatus(requester) && unchanged(this)
      ensures old(IsStaff(requester)) && pk !in old(actors) ==> status == NotFound && unchanged(this)
      ensures old(IsStaff(requester)) && pk in old(actors) && !ActorPayloadAccepted(data, currentYear) ==>
        status == BadRequest && unchanged(this)
      ensures old(IsStaff(requester)) && pk in old(actors) && ActorPayloadAccepted(data, currentYear) ==>
        && status == OK
        && actors == old(actors)[pk := Actor(data.name.value, data.dateBirth.value)]
        && ValidActor(actors[pk], currentYear)
        && nextActor == old(nextActor)
        && MovieTableKept() && CommentTableKept() && UserTableKept() && tokens == old(tokens)
    {
      if !IsStaff(requester) {
        return DenialStatus(requester);
      }
      if pk !in actors {
        return NotFound;
      }
      if !ActorPayloadAccepted(data, currentYear) {
        return BadRequest;
      }
      actors := actors[pk := Actor(data.name.value, data.dateBirth.value)];
      status := OK;
    }

    /** DELETE /actors/{pk}/ (`ActorDetailAPIView.delete`, admin only): the actor leaves every movie too. */
    method DeleteActor(requester: Requester, pk: ActorId) returns (status: int)
      requires Valid() && Known(requester)
      modifies this
      ensures Valid() && CreatedAtKept()
      ensures !old(IsStaff(requester)) ==> status == DenialStatus(requester) && unchanged(this)
      ensures old(IsStaff(requester)) && pk !in old(actors) ==> status == NotFound && unchanged(this)
      ensures old(IsStaff(requester)) && pk in old(actors) ==>
        && status == NoContent
        && actors == old(actors) - {pk}
        && movies == DetachEverywhere(old(movies), pk)
        && nextActor == old(nextActor) && nextMovie == old(nextMovie)
        && CommentTableKept() && UserTableKept() && tokens == old(tokens)
    {
      if !IsStaff(requester) {
        return DenialStatus(requester);
      }
      if pk !in actors {
        return NotFound;
      }
      actors := actors - {pk};
      movies := DetachEverywhere(movies, pk);
      status := NoContent;
    }

    // ------------------------------------------------------------ movies

    /** POST /movies/ (`MovieListCreateAPIView.post`). */
    method CreateMovie(requester: Requester, data: MoviePayload, currentYear: int) returns (status: int)
      requires Valid() && Known(requester)
      modifies this
      ensures Valid() && CreatedAtKept()
      ensures !old(IsSuperuser(requester)) ==> status == Forbidden && unchanged(this)
      ensures old(IsSuperuser(requester)) && !MovieCreateAccepted(data, old(actors).Keys, currentYear) ==>
        status == BadRequest && unchanged(this)
      ensures old(IsSuperuser(requester)) && MovieCreateAccepted(data, old(actors).Keys, currentYear) ==>
        && status == Created
        && old(nextMovie) !in old(movies)
        && movies == old(movies)[old(nextMovie) := Movie(data.name.value, data.dateCreated.value, data.actors.value)]
        && |movies| == |old(movies)| + 1 && nextMovie == old(nextMovie) + 1
        && ValidMovie(movies[old(nextMovie)], currentYear)
        && ActorTableKept() && CommentTableKept() && UserTableKept() && tokens == old(tokens)
    {
      if !IsSuperuser(requester) {
        return Forbidden;
      }
      if !MovieCreateAccepted(data, actors.Keys, currentYear) {
        return BadRequest;
      }
      movies := movies[nextMovie := Movie(data.name.value, data.dateCreated.value, data.actors.value)];
      nextMovie := nextMovie + 1;
      status := Created;
    }

    /** GET /movies/{pk}/ (the view set's retrieve, admin only). */
    method RetrieveMovie(requester: Requester, pk: MovieId) returns (status: int, movie: Option<Movie>)
      ensures !IsStaff(requester) ==> status == DenialStatus(requester) && movie == None
      ensures IsStaff(requester) && pk !in movies ==> status == NotFound && movie == None
      ensures IsStaff(requester) && pk in movies ==> status == OK && movie == Some(movies[pk])
    {
      if !IsStaff(requester) {
        return DenialStatus(requester), None;
      }
      if pk !in movies {
        return NotFound, None;
      }
      return OK, Some(movies[pk]);
    }

    /**
      PUT (`partial` false) or PATCH (`partial` true) /movies/{pk}/ (the view
      set's update, admin only). The actor set is read only here.
     */
    method UpdateMovie(requester: Requester, pk: MovieId, data: MoviePayload, partial: bool, currentYear: int)
      returns (status: int)
      requires Valid() && Known(requester)
      modifies this
      ensures Valid() && CreatedAtKept()
      ensures !old(IsStaff(requester)) ==> status == DenialStatus(requester) && unchanged(this)
      ensures old(IsStaff(requester)) && pk !in old(movies) ==> status == NotFound && unchanged(this)
      ensures old(IsStaff(requester)) && pk in old(movies) && !MovieUpdateAccepted(data, partial, currentYear) ==>
        status == BadRequest && unchanged(this)
      ensures old(IsStaff(requester)) && pk in old(movies) && MovieUpdateAccepted(data, partial, currentYear) ==>
        && status == OK
        && movies == old(movies)[pk := UpdatedMovie(old(movies)[pk], data)]
        && movies[pk].actors == old(movies)[pk].actors
        && nextMovie == old(nextMovie)
        && ActorTableKept() && CommentTableKept() && UserTableKept() && tokens == old(tokens)
    {
      if !IsStaff(requester) {
        return DenialStatus(requester);
      }
      if pk !in movies {
        return NotFound;
      }
      if !MovieUpdateAccepted(data, partial, currentYear) {
        return BadRequest;
      }
      movies := movies[pk := UpdatedMovie(movies[pk], data)];
      status := OK;
    }

    /** DELETE /movies/{pk}/ (the view set's destroy, admin only): its comments go with it. */
    method DeleteMovie(requester: Requester, pk: MovieId) returns (status: int)
      requires Valid() && Known(requester)
      modifies this
      ensures Valid() && CreatedAtKept()
      ensures !old(IsStaff(requester)) ==> status == DenialStatus(requester) && unchanged(this)
      ensures old(IsStaff(requester)) && pk !in old(movies) ==> status == NotFound && unchanged(this)
      ensures old(IsStaff(requester)) && pk in old(movies) ==>
        && status == NoContent
        && movies == old(movies) - {pk}
        && comments == DropCommentsOnMovie(old(comments), pk)
        && nextMovie == old(nextMovie) && nextComment == old(nextComment)
        && ActorTableKept() && UserTableKept() && tokens == old(tokens)
    {
      if !IsStaff(requester) {
        return DenialStatus(requester);
      }
      if pk !in movies {
        return NotFound;
      }
      movies := movies - {pk};
      comments := DropCommentsOnMovie(comments, pk);
      status := NoContent;
    }

    /** POST /movies/{pk}/add_actor/ (`MovieDetailViewSet.add_actor`, admin only). */
    method AddActor(requester: Requester, pk: MovieId, actorId: Option<int>) returns (status: int)
      requires Valid() && Known(requester)
      modifies this
      ensures Valid() && CreatedAtKept()
      ensures !old(IsStaff(requester)) ==> status == DenialStatus(requester) && unchanged(this)
      ensures old(IsStaff(requester)) && pk !in old(movies) ==> status == NotFound && unchanged(this)
      ensures old(IsStaff(requester)) && pk in old(movies) && !Truthy(actorId) ==>
        status == BadRequest && unchanged(this)
      ensures old(IsStaff(requester)) && pk in old(movies) && Truthy(actorId) && actorId.value !in old(actors) ==>
        status == NotFound && unchanged(this)
      ensures old(IsStaff(requester)) && pk in old(movies) && Truthy(actorId) && actorId.value in old(actors) ==>
        && status == OK
        && movies == old(movies)[pk := Attach(old(movies)[pk], actorId.value)]
        && nextMovie == old(nextMovie)
        && ActorTableKept() && CommentTableKept() && UserTableKept() && tokens == old(tokens)
    {
      if !IsStaff(requester) {
        return DenialStatus(requester);
      }
      if pk !in movies {
        return NotFound;
      }
      if !Truthy(actorId) {
        return BadRequest;
      }
      if actorId.value !in actors {
        return NotFound;
      }
      movies := movies[pk := Attach(movies[pk], actorId.value)];
      status := OK;
    }

    /** POST /movies/{pk}/remove_actor/ (`MovieDetailViewSet.remove_actor`, admin only). */
    method RemoveActor(requester: Requester, pk: MovieId, actorId: Option<int>) returns (status: int)
      requires Valid() && Known(requester)
      modifies this
      ensures Valid() && CreatedAtKept()
      ensures !old(IsStaff(requester)) ==> status == DenialStatus(requester) && unchanged(this)
      ensures old(IsStaff(requester)) && pk !in old(movies) ==> status == NotFound && unchanged(this)
      ensures old(IsStaff(requester)) && pk in old(movies) && !Truthy(actorId) ==>
        status == BadRequest && unchanged(this)
      ensures old(IsStaff(requester)) && pk in old(movies) && Truthy(actorId) && actorId.value !in old(actors) ==>
        status == NotFound && unchanged(this)
      ensures old(IsStaff(requester)) && pk in old(movies) && Truthy(actorId) && actorId.value in old(actors) ==>
        && status == OK
        && movies == old(movies)[pk := Detach(old(movies)[pk], actorId.value)]
        && nextMovie == old(nextMovie)
        && ActorTableKept() && CommentTableKept() && UserTableKept() && tokens == old(tokens)
    {
      if !IsStaff(requester) {
        return DenialStatus(requester);
      }
      if pk !in movies {
        return NotFound;
      }
      if !Truthy(actorId) {
        return BadRequest;
      }
      if actorId.value !in actors {
        return NotFound;
      }
      movies := movies[pk := Detach(movies[pk], actorId.value)];
      status := OK;
    }

    // ------------------------------------------------------------ comments

    /**
      POST /comment/ (`CommentListCreateAPIView.post`). The permission class stops
      an anonymous requester before the view body runs; the author is the
      requester whatever the body says.
     */
    method CreateComment(requester: Requester, data: CommentPayload, now: Timestamp) returns (status: int)
      requires Valid() && Known(requester)
      modifies this
      ensures Valid() && CreatedAtKept()
      ensures requester.Anonymous? ==> status == Unauthorized && unchanged(this)
      ensures requester.Member? && !CommentPayloadAccepted(data, old(movies).Keys) ==>
        status == BadRequest && unchanged(this)
      ensures requester.Member? && CommentPayloadAccepted(data, old(movies).Keys) ==>
        && status == Created
        && old(nextComment) !in old(comments)
        && comments == old(comments)[old(nextComment) := Comment(data.movie.value, requester.id, data.content.value, now)]
        && comments[old(nextComment)].user == requester.id
        && comments[old(nextComment)].createdAt == now
        && nextComment == old(nextComment) + 1
        && ActorTableKept() && MovieTableKept() && UserTableKept() && tokens == old(tokens)
    {
      if requester.Anonymous? {
        return DenialStatus(requester);
      }
      if !CommentPayloadAccepted(data, movies.Keys) {
        return BadRequest;
      }
      comments := comments[nextComment := Comment(data.movie.value, requester.id, data.content.value, now)];
      nextComment := nextComment + 1;
      status := Created;
    }

    /** GET /comment/{pk}/ (`CommentDetailAPIView.get`): open to everyone. */
    method RetrieveComment(pk: CommentId) returns (status: int, comment: Option<Comment>)
      ensures pk !in comments ==> status == NotFound && comment == None
      ensures pk in comments ==> status == OK && comment == Some(comments[pk])
    {
      if pk !in comments {
        return NotFound, None;
      }
      return OK, Some(comments[pk]);
    }

    /**
      PUT /comment/{pk}/ (`CommentDetailAPIView.put`): the owner check runs before
      the body is validated, and only the content can change.
     */
    method UpdateComment(requester: Requester, pk: CommentId, content: Option<string>) returns (status: int)
      requires Valid() && Known(requester)
      modifies this
      ensures Valid() && CreatedAtKept()
      ensures pk !in old(comments) ==> status == NotFound && unchanged(this)
      ensures pk in old(comments) && !HasObjectPermission(PUT, requester, old(comments)[pk].user) ==>
        status == DenialStatus(requester) && unchanged(this)
      ensures pk in old(comments) && HasObjectPermission(PUT, requester, old(comments)[pk].user) && !ContentAccepted(content) ==>
        status == BadRequest && unchanged(this)
      ensures pk in old(comments) && HasObjectPermission(PUT, requester, old(comments)[pk].user) && ContentAccepted(content) ==>
        && status == OK
        && comments == old(comments)[pk := old(comments)[pk].(content := content.value)]
        && nextComment == old(nextComment)
        && ActorTableKept() && MovieTableKept() && UserTableKept() && tokens == old(tokens)
    {
      if pk !in comments {
        return NotFound;
      }
      if !HasObjectPermission(PUT, requester, comments[pk].user) {
        return DenialStatus(requester);
      }
      if !ContentAccepted(content) {
        return BadRequest;
      }
      comments := comments[pk := comments[pk].(content := content.value)];
      status := OK;
    }

    /** DELETE /comment/{pk}/ (`CommentDetailAPIView.delete`): owner only. */
    method DeleteComment(requester: Requester, pk: CommentId) returns (status: int)
      requires Valid() && Known(requester)
      modifies this
      ensures Valid() && CreatedAtKept()
      ensures pk !in old(comments) ==> status == NotFound && unchanged(this)
      ensures pk in old(comments) && !HasObjectPermission(DELETE, requester, old(comments)[pk].user) ==>
        status == DenialStatus(requester) && unchanged(this)
      ensures pk in old(comments) && HasObjectPermission(DELETE, requester, old(comments)[pk].user) ==>
        && status == NoContent
        && comments == old(comments) - {pk}
        && nextComment == old(nextComment)
        && ActorTableKept() && MovieTableKept() && UserTableKept() && tokens == old(tokens)
    {
      if pk !in comments {
        return NotFound;
      }
      if !HasObjectPermission(DELETE, requester, comments[pk].user) {
        return DenialStatus(requester);
      }
      comments := comments - {pk};
      status := NoContent;
    }

    /**
      GET /user-comments/ (`UserCommentListAPIView.get`): the requester's own
      comments. The anonymous user has no comments relation; the read-only
      nested field is then skipped, so the answer is still 200, with no comments.
     */
    method UserComments(requester: Requester) returns (status: int, ids: set<CommentId>)
      ensures status == OK
      ensures requester.Anonymous? ==> ids == {}
      ensures requester.Member? ==> forall c :: c in ids <==> c in comments && comments[c].user == requester.id
    {
      if requester.Anonymous? {
        return OK, {};
      }
      return OK, CommentsBy(comments, requester.id);
    }

    // ------------------------------------------------------------ users

    /** `User.objects.create_user`: a new account under a free, non-empty username. */
    method CreateUser(username: string, password: string, isStaff: bool, isSuperuser: bool) returns (id: UserId)
      requires Valid() && username != [] && !UsernameTaken(username)
      modifies this
      ensures Valid() && CreatedAtKept()
      ensures id == old(nextUser) && id !in old(users)
      ensures users == old(users)[id := User(username, Hashed(password), isStaff, isSuperuser)]
      ensures |users| == |old(users)| + 1 && nextUser == old(nextUser) + 1
      ensures ActorTableKept() && MovieTableKept() && CommentTableKept() && tokens == old(tokens)
    {
      id := nextUser;
      users := users[id := User(username, Hashed(password), isStaff, isSuperuser)];
      nextUser := nextUser + 1;
    }

    /** POST /register/ (`CustomRegisterView.post`): open to everyone. */
    method Register(username: Option<string>, password: Option<string>) returns (status: int)
      requires Valid()
      modifies this
      ensures Valid() && CreatedAtKept()
      ensures (!TruthyText(username) || !TruthyText(password)) ==> status == BadRequest && unchanged(this)
      ensures TruthyText(username) && TruthyText(password) && old(UsernameTaken(username.value)) ==>
        status == BadRequest && unchanged(this)
      ensures TruthyText(username) && TruthyText(password) && !old(UsernameTaken(username.value)) ==>
        && status == Created
        && old(nextUser) !in old(users)
        && users == old(users)[old(nextUser) := User(username.value, Hashed(password.value), false, false)]
        && |users| == |old(users)| + 1 && nextUser == old(nextUser) + 1
        && ActorTableKept() && MovieTableKept() && CommentTableKept() && tokens == old(tokens)
    {
      if !TruthyText(username) || !TruthyText(password) {
        return BadRequest;
      }
      if UsernameTaken(username.value) {
        return BadRequest;
      }
      var _ := CreateUser(username.value, password.value, false, false);
      status := Created;
    }

    /** POST /logout/ (`CustomLogoutView.post`): deletes the requester's token. */
    method Logout(requester: Requester) returns (status: int)
      requires Valid() && Known(requester)
      modifies this
      ensures Valid() && CreatedAtKept()
      ensures requester.Anonymous? ==> status == Unauthorized && unchanged(this)
      ensures requester.Member? && requester.id !in old(tokens) ==> status == NotFound && unchanged(this)
      ensures requester.Member? && requester.id in old(tokens) ==>
        && status == OK
        && tokens == old(tokens) - {requester.id}
        && ActorTableKept() && MovieTableKept() && CommentTableKept() && UserTableKept()
    {
      if requester.Anonymous? {
        return DenialStatus(requester);
      }
      if requester.id !in tokens {
        return NotFound;
      }
      tokens := tokens - {requester.id};
      status := OK;
    }

    /**
      Deleting a user (an administrative action outside these views): their
      comments and their token go with them.
     */
    method DeleteUser(u: UserId)
      requires Valid() && u in users
      modifies this
      ensures Valid() && CreatedAtKept()
      ensures users == old(users) - {u}
      ensures comments == DropCommentsByUser(old(comments), u)
      ensures CommentsBy(comments, u) == {}
      ensures tokens == old(tokens) - {u}
      ensures nextComment == old(nextComment) && nextUser == old(nextUser)
      ensures ActorTableKept() && MovieTableKept()
    {
      users := users - {u};
      comments := DropCommentsByUser(comments, u);
      tokens := tokens - {u};
    }
  }
}
