/**
  The object-level permission of the comment endpoints (netflix/permissions.py):
  read-only methods are open to everyone, anything else only to the owner of the
  object. The decision takes the method, the requester and the owner's id; the
  view and every other part of the request play no part in it.
 */
module Permissions {
  import opened Models

  datatype HttpMethod = GET | HEAD | OPTIONS | POST | PUT | PATCH | DELETE

  /** The framework's SAFE_METHODS. */
  predicate IsSafe(verb: HttpMethod) {
    verb == GET || verb == HEAD || verb == OPTIONS
  }

  /**
    `obj.user == request.user`: the anonymous user equals no stored user, and two
    users are equal when their ids are.
   */
  predicate IsOwner(requester: Requester, owner: UserId) {
    requester.Member? && requester.id == owner
  }

  /** `IsOwnerOrReadOnly.has_object_permission`. */
  function HasObjectPermission(verb: HttpMethod, requester: Requester, owner: UserId): (allowed: bool)
    ensures IsSafe(verb) ==> allowed
    ensures !IsSafe(verb) ==> (allowed <==> IsOwner(requester, owner))
  {
    IsSafe(verb) || IsOwner(requester, owner)
  }

  /** Anyone who is not the owner, the anonymous requester included, may only read. */
  lemma NonOwnerOnlyReads(verb: HttpMethod, requester: Requester, owner: UserId)
    requires !IsOwner(requester, owner)
    ensures HasObjectPermission(verb, requester, owner) <==> IsSafe(verb)
    ensures !HasObjectPermission(PUT, requester, owner) && !HasObjectPermission(DELETE, requester, owner)
  {
  }

  /** The owner may do anything. */
  lemma OwnerMayDoAnything(verb: HttpMethod, owner: UserId)
    ensures HasObjectPermission(verb, Member(owner), owner)
  {
  }

  /** Two requests with the same verb whose requesters stand in the same ownership relation get the same answer. */
  lemma PermissionDependsOnOwnerOnly(verb: HttpMethod, r1: Requester, r2: Requester, o1: UserId, o2: UserId)
    requires r1.Member? == r2.Member?
    requires r1.Member? ==> (r1.id == o1 <==> r2.id == o2)
    ensures HasObjectPermission(verb, r1, o1) == HasObjectPermission(verb, r2, o2)
  {
  }
}
