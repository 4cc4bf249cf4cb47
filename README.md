# Movie catalogue backend: a verified model

This project models the domain core of a small REST backend for a movie catalogue:
actors, movies, the many-to-many relation between them, user comments, registration
and logout. It has four parts:

- `validators.dfy` (module `Validators`) holds the three field validators of
  `netflix/validators.py`. They are pure functions. The year read from the clock
  becomes the parameter `currentYear`.
- `permissions.dfy` (module `Permissions`) holds the owner-or-read-only permission
  of `netflix/permissions.py`. It is one boolean function.
- `models.dfy` (module `Models`) holds the rows of `netflix/models.py` as datatypes.
  It also holds the field rules as predicates, and the relation and cascade rules as
  map functions.
- `views.dfy` (module `Views`) holds the request handlers of `netflix/views.py`.
  They are methods of one class, `Store`, with these fields:
  - maps from id to actor, movie, comment and user;
  - the token table;
  - the auto-increment counters.

  Each handler takes the requester (anonymous, or a stored user with staff and
  superuser flags) and the request's arguments. It returns the HTTP status and
  changes the store as the view does. `Store.Valid()` is the invariant every
  handler keeps:
  - stored names obey their field rules;
  - every reference between rows resolves;
  - usernames are unique;
  - every id is below its counter.

`scenarios.dfy` (module `Scenarios`) holds client methods. They string several
requests together and prove, from the handler contracts alone, what a client can
rely on:
- add_actor is idempotent;
- add_actor followed by remove_actor restores the movie;
- a second registration under the same name is refused;
- in a full session, another user may not edit a comment and its author may.

Character classes follow Python's `str.isupper`/`str.isalpha` on ASCII, on the
basic Cyrillic block (U+0400 to U+045F), and on two blocks of upper-case characters
that are not letters: the capital Roman numerals (U+2160 to U+216F) and the circled
capitals (U+24B6 to U+24CF). Every other character is neither a letter nor upper
case.

The framework steps that run before a view body are written out where a view
depends on them:
- the view's permission class. A refusal answers 403 to an authenticated
  requester. For an anonymous requester, the model assumes 401. The framework
  answers 401 only when the first configured authenticator sends an
  authentication header, as the JSON web token authenticator does. The settings
  that configure this are not part of the source.
- the 404 for a missing row.
- the serializer's field checks: required fields, blank strings, the NUL
  character refused in character fields, unknown primary keys, non-empty to-many
  relations, and the field validators.

The project settings are not part of this model. The default permission class is
taken to be the framework's own default, which allows everyone.

Where the code and its written description differ, the model follows the code:
- The letters check also rejects the empty name and all-space names, because
  `isalpha` is false on an empty string.
- Creating a movie needs a non-empty list of existing actor ids. The relation
  field is not `blank=True`, so the serializer requires it and refuses an empty
  list. A movie's set can still become empty later through remove_actor.
- Under the authenticator assumption above, anonymous requests are refused with
  401, not 403. This covers comment create, comment update and delete, and the
  admin-only views. For comment create, the permission class answers before the
  view's own 403 branch is reached.
- A comment on an unknown movie is refused with 400, because the serializer rejects
  the primary key. It is not a 404.
- The detail views for actors and movies test `is_staff`. The create views test
  `is_superuser`.

## Model

| member | source | states |
|---|---|---|
| Validators.RemoveSpaces | netflix/validators.py:14 | `replace(" ", "")` contains exactly the characters of the input that are not `' '`; it is empty exactly when the input is all spaces; it is never longer than the input |
| Validators.RemoveSpacesCounts | netflix/validators.py:14 | every character other than `' '` occurs in the result as often as in the input, and `' '` does not occur |
| Validators.RemoveSpacesAppend | netflix/validators.py:14 | removing spaces from a concatenation is the concatenation of the two results, so the kept characters keep their order |
| Validators.RemoveSpacesKeepsSpaceless | netflix/validators.py:14 | a string without a space is returned unchanged |
| Validators.StartsWithUppercase | netflix/validators.py:5-10 | an empty name gives an index error rather than a validation error; a non-empty name passes exactly when its first character is upper case; a failure carries the uppercase message |
| Validators.UppercaseReadsOnlyFirst | netflix/validators.py:6 | two non-empty names with the same first character get the same verdict, so the characters after the first are never examined |
| Validators.ContainsOnlyLetters | netflix/validators.py:13-18 | the only failure is a validation error with the letters message |
| Validators.LettersRule | netflix/validators.py:13-18 | a name passes the letters check exactly when some character is not a space and every character is a letter or a space |
| Validators.AllSpacesRejected | netflix/validators.py:14 | the empty name and every all-space name strip to the empty string and are rejected |
| Validators.NonLetterRejected | netflix/validators.py:14 | only `' '` is stripped: one tab, digit or punctuation mark anywhere rejects the name |
| Validators.SpacesDoNotMatter | netflix/validators.py:14 | inserting a space into an accepted name keeps it accepted |
| Validators.AgeValidator | netflix/validators.py:21-28 | a date is rejected, with the age message, exactly when its year is after the current year |
| Validators.AgeAcceptsUpToCurrentYear | netflix/validators.py:24 | the current year and every earlier year are accepted (there is no lower bound), and an accepted date stays accepted in every later year |
| Validators.UpperNeedNotBeLetter | netflix/validators.py:6-14 | upper case does not imply a letter: the name "Ⅰ" (U+2160) passes the uppercase check and fails the letters check; every upper-case letter is both upper case and a letter |
| Validators.IsUpper | netflix/validators.py:6 | `str.isupper()` on one character: the upper-case letters, the capital Roman numerals and the circled capitals |
| Validators.IsAlpha | netflix/validators.py:14 | `str.isalpha()` on one character: the upper-case and lower-case letters of ASCII and basic Cyrillic |
| Validators.IsAlphaString | netflix/validators.py:14 | `str.isalpha()` on a string: true exactly when it is non-empty and every character is a letter |
| Permissions.IsSafe | netflix/permissions.py:11 | the safe methods are exactly GET, HEAD and OPTIONS |
| Permissions.IsOwner | netflix/permissions.py:14 | the requester owns the object exactly when it is a stored user with the owner's id; the anonymous user owns nothing |
| Permissions.HasObjectPermission | netflix/permissions.py:10-14 | safe methods are always allowed; any other method is allowed exactly when the requester is a user whose id is the owner's |
| Permissions.NonOwnerOnlyReads | netflix/permissions.py:14 | a requester who is not the owner, the anonymous one included, is allowed exactly the safe methods, and never PUT or DELETE |
| Permissions.OwnerMayDoAnything | netflix/permissions.py:14 | the owner is allowed every method |
| Permissions.PermissionDependsOnOwnerOnly | netflix/permissions.py:10-14 | the answer depends only on the method and on whether the requester is the owner, not on anything else about the request |
| Models.ValidActorName | netflix/models.py:8 | an actor name is valid when it is not blank, has at most 255 characters, and passes the uppercase and letters validators |
| Models.ValidMovieName | netflix/models.py:17 | a movie name is valid when it is not blank, has at most 255 characters, and passes the letters validator |
| Models.ValidActor | netflix/models.py:8-9 | an actor is valid when its name is valid and its birth date passes the age validator |
| Models.ValidMovie | netflix/models.py:17-18 | a movie is valid when its name is valid and its creation date passes the age validator |
| Models.ValidContent | netflix/models.py:27 | comment content is valid when it is not blank and has no NUL character, as the serializer's character field for the text column demands |
| Models.ActorNameRule | netflix/models.py:8 | a valid actor name has 1 to 255 characters, an upper-case first character, and only letters and spaces, and conversely |
| Models.MovieNameRule | netflix/models.py:17 | a valid movie name has at most 255 characters, at least one non-space character, and only letters and spaces, and conversely |
| Models.ActorNameIsMovieName | netflix/models.py:8-17 | every valid actor name is a valid movie name |
| Models.MovieNameNeedNotBeCapitalised | netflix/models.py:17 | "matrix" is a valid movie name and not a valid actor name |
| Models.ValidDatesNotInFuture | netflix/models.py:9-18 | a valid actor's birth year and a valid movie's creation year are at most the current year |
| Models.Attach | netflix/views.py:150 | after `actors.add`, the actor is in the movie's set, every other membership is unchanged, and so are the name and the date |
| Models.Detach | netflix/views.py:173 | after `actors.remove`, the actor is not in the movie's set, every other membership is unchanged, and so are the name and the date |
| Models.AttachIdempotent | netflix/views.py:150 | adding an actor twice equals adding it once; adding an actor that is already present changes nothing |
| Models.DetachUndoesAttach | netflix/views.py:150-173 | removing an absent actor changes nothing; removing a just-added actor restores the movie; adding back a just-removed actor restores it |
| Models.DetachEverywhere | netflix/models.py:16 | deleting an actor drops it from every movie's set and keeps every other membership, name and date |
| Models.DropCommentsOnMovie | netflix/models.py:25 | the comments left after a movie is deleted are exactly the others, unchanged |
| Models.DropCommentsByUser | netflix/models.py:26 | the comments left after a user is deleted are exactly the ones by other users, unchanged |
| Models.CommentsBy | netflix/serializers.py:46-51 | a user's comments are exactly the stored comments whose author is that user |
| Models.AuthorCascadePartition | netflix/models.py:26 | a user's comments and the comments that survive that user's deletion are disjoint and together make up all comments; none of the survivors is by that user |
| Views.ActorPayloadAccepted | netflix/serializers.py:6-9 | the actor serializer accepts a body exactly when both fields are present and make a valid actor |
| Views.MovieCreateAccepted | netflix/serializers.py:20-23 | the movie create serializer accepts a body exactly when the actor list is present, non-empty and names existing actors, and the name and date are present and valid |
| Views.MovieUpdateAccepted | netflix/serializers.py:12-17 | the movie serializer accepts an update when, unless it is partial, name and date are present, and every present field is valid; the nested actor list is read-only and not read |
| Views.CommentPayloadAccepted | netflix/serializers.py:34-37 | the comment create serializer accepts a body exactly when it names an existing movie and carries valid content; any `user` in the body is not a field |
| Views.ContentAccepted | netflix/serializers.py:40-43 | the comment update serializer accepts a body exactly when content is present and valid |
| Views.Truthy | netflix/views.py:143-144 | an `actor_id` is taken exactly when it is present and not 0, Python's truthiness of an integer |
| Views.TruthyText | netflix/views.py:259-261 | a username or password is taken exactly when it is present and not empty, Python's truthiness of a string |
| Views.DenialStatus | netflix/views.py:41 | a refusing permission class answers 401 exactly to the anonymous requester, which is an assumption about the authenticator, and 403 exactly to a user |
| Views.UpdatedMovie | netflix/serializers.py:12-17 | the movie serializer saves the name and date that are present in the body, keeps the others, and never changes the read-only actor set |
| Views.Store.IsSuperuser | netflix/views.py:26 | `request.user.is_superuser`: the requester is a stored user whose superuser flag is set |
| Views.Store.IsStaff | netflix/views.py:41 | the admin permission class: the requester is a stored user whose staff flag is set |
| Views.Store.UsernameTaken | netflix/views.py:263 | some stored user already has the username |
| Views.Store.CreateActor | netflix/views.py:25-36 | a non-superuser gets 403 and an invalid or incomplete body gets 400, both with the store unchanged; otherwise 201 and exactly one valid actor is added under a fresh id; the invariant is kept |
| Views.Store.RetrieveActor | netflix/views.py:43-52 | a non-staff requester is refused (401/403); an unknown id gets 404; otherwise 200 with the stored actor |
| Views.Store.UpdateActor | netflix/views.py:55-66 | refusal, 404 on an unknown id, 400 on an invalid body, each with the store unchanged; otherwise 200, and only that actor's row changes, to the valid new values |
| Views.Store.DeleteActor | netflix/views.py:68-71 | refusal or 404 leave the store unchanged; otherwise 204, the actor is gone and no movie lists it any more; the invariant is kept |
| Views.Store.CreateMovie | netflix/views.py:82-95 | a non-superuser gets 403; a body without a valid name and date, or without a non-empty list of existing actors, gets 400; both leave the store unchanged; otherwise 201 and exactly one valid movie is added with that actor set |
| Views.Store.RetrieveMovie | netflix/views.py:99-102 | a non-staff requester is refused; an unknown id gets 404; otherwise 200 with the stored movie |
| Views.Store.UpdateMovie | netflix/views.py:99-102 | refusal, 404, or 400 (a missing field on PUT, an invalid present field) leave the store unchanged; otherwise 200, only that movie changes, and its actor set never does |
| Views.Store.DeleteMovie | netflix/views.py:99-102 | refusal or 404 leave the store unchanged; otherwise 204, the movie is gone with every comment on it; the invariant is kept |
| Views.Store.AddActor | netflix/views.py:141-155 | refusal, 404 on an unknown movie, 400 on a missing or falsy `actor_id`, 404 on an unknown actor, each with the store unchanged; otherwise 200 and only that movie's set gains the actor |
| Views.Store.RemoveActor | netflix/views.py:164-178 | the same guards as add_actor; on success only that movie's set loses the actor, and nothing changes when the actor was not in it |
| Views.Store.CreateComment | netflix/views.py:183-199 | an anonymous requester is refused; a body without an existing movie, or without content that is non-blank and free of NUL characters, gets 400; otherwise 201, and the new comment's author is the requester whatever the body says, stamped with the creation time |
| Views.Store.RetrieveComment | netflix/views.py:206-215 | open to everyone: 404 on an unknown id, otherwise 200 with the stored comment |
| Views.Store.UpdateComment | netflix/views.py:218-230 | 404 on an unknown id; a non-author is refused before the body is validated; missing or blank content, or content with a NUL character, gets 400; all of these leave the store unchanged; otherwise 200 and only the content of that comment changes |
| Views.Store.DeleteComment | netflix/views.py:232-236 | 404 on an unknown id; a non-author is refused, with the store unchanged; otherwise 204 and only that comment is gone |
| Views.Store.UserComments | netflix/views.py:240-244 | the answer is always 200; a user gets exactly the comments they wrote; the anonymous requester gets none, because the read-only nested field is skipped when the attribute is missing (netflix/serializers.py:47) |
| Views.Store.CreateUser | netflix/views.py:265 | a new user with a free, non-empty username is added under a fresh id with the password stored hashed; nothing else changes; the invariant, including unique usernames, is kept |
| Views.Store.Register | netflix/views.py:258-266 | a missing or empty username or password gets 400; a taken username gets 400; both leave the store unchanged; otherwise 201 and exactly one ordinary user is added |
| Views.Store.Logout | netflix/views.py:270-281 | an anonymous requester gets 401; a user without a token gets 404; both leave the store unchanged; otherwise 200 and only that user's token is removed |
| Views.Store.DeleteUser | netflix/models.py:26 | deleting a user removes them, every comment they wrote and their token; no comment by them remains |
| Scenarios.AddActorTwice | netflix/views.py:141-155 | two identical add_actor requests answer alike, and together have the effect of one |
| Scenarios.AddThenRemove | netflix/views.py:141-178 | add_actor then remove_actor of an actor not in the movie answer alike and leave the movies as they were |
| Scenarios.RegisterTwice | netflix/views.py:258-266 | the second registration under one username always gets 400, and at most one user is added in all |
| Scenarios.CommentOwnershipSession | netflix/views.py:192-236 | creating an actor, creating a movie, two registrations and creating a comment give 201 five times; then the other user's edit gets 403 and the author's edit gets 200; the comment keeps its author and creation time |

## Left out

- Response bodies are not modelled: no serialised data and no error messages in 400 bodies. Handlers return the status code, plus the row for retrieve.
- The list endpoints that serialise every row are not modelled: GET on /actors/, /movies/ and /comment/.
- Login is not modelled, because token issuance belongs to the JSON web token library. Nothing in the model fills the token table that logout reads.
- The project settings are not visible. The default permission class is taken as "allow everyone". A refusal of an anonymous requester is taken as 401, not 403.
- Whitespace trimming is not modelled. The serializer's character fields strip leading and trailing whitespace before validation; here names and content are validated as given.
- Characters outside ASCII, basic Cyrillic, the capital Roman numerals and the circled capitals are classified as neither letters nor upper case. This includes the other letters of Unicode and the other upper-case characters that are not letters. Unicode normalisation of usernames at account creation is not modelled.
- Date parsing and Python's year range are not modelled. A date field is either absent or an already parsed date.
- `actor_id` is an optional integer. A non-numeric string, which the source turns into a server error, is not modelled.
- The list of actor ids in a movie body is modelled as the set it becomes.
- Password hashing is abstract: `Hashed(secret)`.
- Username length limits and database errors are not modelled.
- Transactions and concurrency are not modelled. Every handler is one atomic step on the store.
- Ids are unbounded integers.
- HEAD, OPTIONS and PATCH on the actor and comment views are not modelled. For movies, PATCH is the `partial` flag of `UpdateMovie`.
- Two branches of the views are never reached, so they have no separate model:
  - the view-level 403 of comment create (netflix/views.py:198-199);
  - the 401 branch of logout (netflix/views.py:280-281).

  In both cases the permission class refuses the anonymous requester first.
- The `get`, `put` and `delete` methods written inside the movie view set are not modelled (netflix/views.py:104-132). The router sends GET, PUT, PATCH and DELETE on /movies/{pk}/ to the view set's own retrieve, update, partial update and destroy, so those methods are never reached. `RetrieveMovie`, `UpdateMovie` and `DeleteMovie` model the view set's own actions.
- `Comment.__str__` and the API-documentation configuration are not modelled.
- Deleting users is not an endpoint. `DeleteUser` models only the cascade of an administrative deletion.
- Validators.ContainsOnlyLetters: its own contract fixes only the failure message. What it accepts is stated by the lemma `LettersRule`.
