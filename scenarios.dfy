/**
  Sequences of requests against the store, proved from the handlers' contracts
  alone: what a client of the API can rely on across several calls.
 */
module Scenarios {
  import opened Wrappers
  import opened Validators
  import opened Models
  import opened Permissions
  import opened Views

  /** Sending the same add_actor request twice has the effect of sending it once. */
  method AddActorTwice(s: Store, requester: Requester, pk: MovieId, actorId: Option<int>)
    returns (first: int, second: int)
    requires s.Valid() && s.Known(requester)
    modifies s
    ensures s.Valid()
    ensures first == second
    ensures first != OK ==> unchanged(s)
    ensures first == OK ==>
      && pk in old(s.movies) && Truthy(actorId)
      && s.movies == old(s.movies)[pk := Attach(old(s.movies)[pk], actorId.value)]
      && actorId.value in s.movies[pk].actors
  {
    first := s.AddActor(requester, pk, actorId);
    second := s.AddActor(requester, pk, actorId);
    if first == OK {
      AttachIdempotent(old(s.movies)[pk], actorId.value);
      assert old(s.movies)[pk := Attach(old(s.movies)[pk], actorId.value)][pk := Attach(Attach(old(s.movies)[pk], actorId.value), actorId.value)]
          == old(s.movies)[pk := Attach(old(s.movies)[pk], actorId.value)];
    }
  }

  /** An add_actor followed by a remove_actor of an actor that was not in the movie restores the movie. */
  method AddThenRemove(s: Store, requester: Requester, pk: MovieId, actorId: Option<int>)
    returns (added: int, removed: int)
    requires s.Valid() && s.Known(requester)
    requires pk in s.movies && actorId.Some? && actorId.value !in s.movies[pk].actors
    modifies s
    ensures s.Valid()
    ensures added == removed
    ensures s.movies == old(s.movies)
  {
    ghost var before := s.movies;
    added := s.AddActor(requester, pk, actorId);
    ghost var between := s.movies;
    removed := s.RemoveActor(requester, pk, actorId);
    if added == OK {
      DetachUndoesAttach(before[pk], actorId.value);
      assert between == before[pk := Attach(before[pk], actorId.value)];
      assert s.movies == between[pk := Detach(between[pk], actorId.value)];
      assert s.movies == before[pk := before[pk]];
    }
  }

  /** Registering the same username twice: the second request is refused and creates nobody. */
  method RegisterTwice(s: Store, username: string, password: string) returns (first: int, second: int)
    requires s.Valid()
    modifies s
    ensures s.Valid()
    ensures second == BadRequest
    ensures first == Created <==> username != [] && password != [] && !old(s.UsernameTaken(username))
    ensures |s.users| <= |old(s.users)| + 1
    ensures first != Created ==> unchanged(s)
  {
    first := s.Register(Some(username), Some(password));
    if first == Created {
      assert s.users[old(s.nextUser)].username == username;
    }
    second := s.Register(Some(username), Some(password));
  }

  /** The names used by the sessions below pass their field rules. */
  lemma SampleNamesValid()
    ensures ValidActorName("Neo") && ValidMovieName("Matrix")
  {
    var neo := "Neo";
    LettersRule(neo);
    assert neo[0] != ' ' && forall i :: 0 <= i < |neo| ==> IsAlpha(neo[i]);
    var matrix := "Matrix";
    LettersRule(matrix);
    assert matrix[0] != ' ' && forall i :: 0 <= i < |matrix| ==> IsAlpha(matrix[i]);
  }

  /** An administrator account that adds one actor and one movie starring that actor. */
  method SeedCatalogue() returns (s: Store, actorStatus: int, movieStatus: int)
    ensures fresh(s) && s.Valid()
    ensures actorStatus == Created && movieStatus == Created
    ensures s.users == map[1 := User("root", Hashed("secret"), true, true)] && s.nextUser == 2
    ensures s.movies.Keys == {1} && s.movies[1].actors == {1}
    ensures s.comments == map[] && s.nextComment == 1 && s.tokens == map[]
  {
    s := new Store();
    var root := s.CreateUser("root", "secret", true, true);
    assert s.IsSuperuser(Member(root));
    SampleNamesValid();
    var neo := ActorPayload(Some("Neo"), Some(Date(1964, 9, 2)));
    assert ActorPayloadAccepted(neo, 2024);
    actorStatus := s.CreateActor(Member(root), neo, 2024);
    assert s.actors.Keys == {1} && s.IsSuperuser(Member(root));
    var matrix := MoviePayload(Some({1}), Some("Matrix"), Some(Date(1999, 3, 31)));
    assert MovieCreateAccepted(matrix, s.actors.Keys, 2024);
    movieStatus := s.CreateMovie(Member(root), matrix, 2024);
  }

  /** After the seed, alice (id 2) and bob (id 3) register and alice comments on the movie, naming bob in the body. */
  method SeedComment() returns (s: Store, codes: seq<int>)
    ensures fresh(s) && s.Valid()
    ensures codes == [Created, Created, Created, Created, Created]
    ensures s.users.Keys == {1, 2, 3}
    ensures s.comments == map[1 := Comment(1, 2, "hi", 42)]
  {
    var c1, c2;
    s, c1, c2 := SeedCatalogue();
    assert !s.UsernameTaken("alice");
    var c3 := s.Register(Some("alice"), Some("p1"));
    assert c3 == Created && s.users.Keys == {1, 2} && s.users[2].username == "alice";
    assert !s.UsernameTaken("bob");
    var c4 := s.Register(Some("bob"), Some("p2"));
    assert c4 == Created && s.users.Keys == {1, 2, 3} && s.comments == map[] && s.nextComment == 1;
    var hi := CommentPayload(Some(1), Some("hi"), Some(3));
    assert CommentPayloadAccepted(hi, s.movies.Keys) && s.Known(Member(2));
    var c5 := s.CreateComment(Member(2), hi, 42);
    codes := [c1, c2, c3, c4, c5];
  }

  /**
    A whole session: bob may not edit alice's comment, alice may, and the comment
    still belongs to alice with its creation time.
   */
  method CommentOwnershipSession() returns (codes: seq<int>, final: Option<Comment>)
    ensures codes == [Created, Created, Created, Created, Created, Forbidden, OK]
    ensures final == Some(Comment(1, 2, "edited", 42))
  {
    var s, seeded := SeedComment();
    assert s.Known(Member(3)) && !HasObjectPermission(PUT, Member(3), s.comments[1].user);
    var c6 := s.UpdateComment(Member(3), 1, Some("mine now"));
    assert c6 == Forbidden && s.comments == map[1 := Comment(1, 2, "hi", 42)];
    assert s.Known(Member(2)) && HasObjectPermission(PUT, Member(2), s.comments[1].user);
    var c7 := s.UpdateComment(Member(2), 1, Some("edited"));
    assert s.comments[1] == Comment(1, 2, "edited", 42);
    codes := seeded + [c6, c7];
    var _, found := s.RetrieveComment(1);
    final := found;
  }
}
