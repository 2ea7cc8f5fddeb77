/**
 * `/api/follow` (src/app/api/follow/route.ts): a user follows (POST) or
 * unfollows (DELETE) a trainer. The only table either handler writes is the
 * follow-edge set, keyed by (followerId, trainerId).
 */
module FollowRoute {
  import opened Domain

  predicate IsTrainerAccount(db: Db, id: Id) {
    id in db.users && db.users[id] == Trainer
  }

  /**
   * The guard chain of POST and the edge it would insert: 403 unless a
   * user is signed in, 400 without a trainerId, 404 unless the target is a
   * trainer, 409 when the edge exists, 500 when the store refuses the
   * follower reference.
   */
  function FollowCheck(db: Db, session: Option<Actor>, trainerId: Id): (r: Result<FollowEdge>)
    ensures r == Err(Forbidden) <==> !HasRole(session, User)
    ensures r == Err(BadRequest) <==> HasRole(session, User) && trainerId == ""
    ensures r == Err(NotFound) <==> HasRole(session, User) && trainerId != "" && !IsTrainerAccount(db, trainerId)
    ensures r == Err(Conflict) <==> HasRole(session, User) && trainerId != "" && IsTrainerAccount(db, trainerId)
                                    && FollowEdge(session.value.id, trainerId) in db.follows
    ensures r.Ok? ==> HasRole(session, User) && r.value == FollowEdge(session.value.id, trainerId)
    ensures r.Ok? ==> r.value !in db.follows && IsTrainerAccount(db, trainerId) && session.value.id in db.users
    ensures r == Err(Internal) <==> HasRole(session, User) && trainerId != "" && IsTrainerAccount(db, trainerId)
                                    && FollowEdge(session.value.id, trainerId) !in db.follows
                                    && session.value.id !in db.users
    ensures r.Err? ==> r.error in {Forbidden, BadRequest, NotFound, Conflict, Internal}
  {
    if !HasRole(session, User) then Err(Forbidden)
    else if trainerId == "" then Err(BadRequest)
    else if !IsTrainerAccount(db, trainerId) then Err(NotFound)
    else if FollowEdge(session.value.id, trainerId) in db.follows then Err(Conflict)
    else if session.value.id !in db.users then Err(Internal)
    else Ok(FollowEdge(session.value.id, trainerId))
  }

  /** POST /api/follow with body `{ trainerId }`. */
  method Follow(store: Store, session: Option<Actor>, trainerId: Id) returns (r: Result<FollowEdge>)
    requires store.Valid()
    modifies store`follows
    ensures store.Valid()
    ensures r == FollowCheck(old(store.Snapshot()), session, trainerId)
    ensures r.Ok? ==> store.follows == old(store.follows) + {r.value}
    ensures r.Ok? ==> |store.follows| == |old(store.follows)| + 1
    ensures r.Err? ==> store.follows == old(store.follows)
  {
    if session.None? || session.value.role != User {
      return Err(Forbidden);
    }
    var userId := session.value.id;
    if trainerId == "" {
      return Err(BadRequest);
    }
    if trainerId !in store.users || store.users[trainerId] != Trainer {
      return Err(NotFound);
    }
    var edge := FollowEdge(userId, trainerId);
    if edge in store.follows {
      return Err(Conflict);
    }
    if userId !in store.users {
      return Err(Internal);
    }
    store.follows := store.follows + {edge};
    r := Ok(edge);
  }

  /**
   * The guard chain of DELETE, which takes the caller from the `x-user-id`
   * and `x-user-role` request headers rather than from the session: 403
   * unless the id is present and the role is "USER", 400 without a
   * trainerId, 404 when the edge does not exist.
   */
  function UnfollowCheck(db: Db, userIdHeader: string, roleHeader: string, trainerId: Id): (r: Result<FollowEdge>)
    ensures r == Err(Forbidden) <==> userIdHeader == "" || roleHeader != "USER"
    ensures r == Err(BadRequest) <==> userIdHeader != "" && roleHeader == "USER" && trainerId == ""
    ensures r == Err(NotFound) <==> userIdHeader != "" && roleHeader == "USER" && trainerId != ""
                                    && FollowEdge(userIdHeader, trainerId) !in db.follows
    ensures r.Ok? ==> r.value == FollowEdge(userIdHeader, trainerId) && r.value in db.follows
    ensures r.Err? ==> r.error in {Forbidden, BadRequest, NotFound}
  {
    if userIdHeader == "" || ParseRole(roleHeader) != User then Err(Forbidden)
    else if trainerId == "" then Err(BadRequest)
    else if FollowEdge(userIdHeader, trainerId) !in db.follows then Err(NotFound)
    else Ok(FollowEdge(userIdHeader, trainerId))
  }

  /** DELETE /api/follow?trainerId=.. */
  method Unfollow(store: Store, userIdHeader: string, roleHeader: string, trainerId: Id) returns (r: Result<FollowEdge>)
    requires store.Valid()
    modifies store`follows
    ensures store.Valid()
    ensures r == UnfollowCheck(old(store.Snapshot()), userIdHeader, roleHeader, trainerId)
    ensures r.Ok? ==> store.follows == old(store.follows) - {r.value}
    ensures r.Ok? ==> |store.follows| == |old(store.follows)| - 1
    ensures r.Err? ==> store.follows == old(store.follows)
  {
    if userIdHeader == "" || ParseRole(roleHeader) != User {
      return Err(Forbidden);
    }
    if trainerId == "" {
      return Err(BadRequest);
    }
    var edge := FollowEdge(userIdHeader, trainerId);
    if edge !in store.follows {
      return Err(NotFound);
    }
    store.follows := store.follows - {edge};
    r := Ok(edge);
  }

  /** Following twice: the second request is refused with 409 and adds nothing. */
  lemma FollowTwiceConflicts(db: Db, session: Option<Actor>, trainerId: Id)
    requires FollowCheck(db, session, trainerId).Ok?
    ensures var after := db.(follows := db.follows + {FollowCheck(db, session, trainerId).value});
      FollowCheck(after, session, trainerId) == Err(Conflict)
  {
  }

  /**
   * Unfollowing, with headers naming the same user, undoes a follow exactly:
   * the edge set returns to what it was.
   */
  lemma UnfollowUndoesFollow(db: Db, session: Option<Actor>, trainerId: Id)
    requires FollowCheck(db, session, trainerId).Ok?
    requires session.value.id != ""
    ensures var edge := FollowCheck(db, session, trainerId).value;
      var after := db.(follows := db.follows + {edge});
      UnfollowCheck(after, session.value.id, "USER", trainerId) == Ok(edge)
      && (after.follows - {edge}) == db.follows
  {
  }

  /**
   * DELETE never looks at the session: any request whose headers claim a
   * user id with role "USER" removes that user's edge.
   */
  lemma UnfollowTrustsHeaders(db: Db, followerId: Id, trainerId: Id)
    requires FollowEdge(followerId, trainerId) in db.follows
    requires followerId != "" && trainerId != ""
    ensures UnfollowCheck(db, followerId, "USER", trainerId) == Ok(FollowEdge(followerId, trainerId))
  {
  }
}
