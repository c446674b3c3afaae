/** The user handlers that change a profile:
  * SetFollowCommandHandler (Features/Followers/SetFollow/SetFollowCommand.cs)
  * and UpdateUserCommandHandler (Features/Users/UpdateUser/UpdateUserCommand.cs).
  * The User entity's AddFollower and RemoveFollower are not part of this
  * model: they are parameters that give the target's new follower list and
  * the flag they return. Failures of the saves are parameters. */
module Profiles {
  import opened Wrappers
  import opened Text
  import opened Results
  import opened Accounts
  import opened Persistence
  import Pictures

  // -----------------------------------------------------------------------
  // SetFollowCommandHandler
  // -----------------------------------------------------------------------

  /** The ids of the users whose UserName is name. */
  function UsersNamed(users: map<string, User>, name: string): (ids: set<string>)
    ensures forall id :: id in ids <==> id in users && users[id].userName == name
  {
    set id | id in users && users[id].userName == name
  }

  /** A set of one element holds nothing else. */
  lemma SingletonHolds(ids: set<string>, id: string)
    requires |ids| == 1 && id in ids
    ensures ids == {id}
  {
    assert |ids - {id}| == 0;
  }

  /** SingleOrDefault(u => u.UserName == name): null when no user has the
    * name, that user when one has, InvalidOperationException when several
    * have. */
  ghost function FindByUserName(users: map<string, User>, name: string): (r: Result<Option<User>, Exception>)
    ensures r == Ok(None) <==> UsersNamed(users, name) == {}
    ensures r == Err(InvalidOperationException) <==> |UsersNamed(users, name)| > 1
    ensures r.Ok? && r.value.Some? ==>
              exists id :: UsersNamed(users, name) == {id} && r.value.value == users[id]
  {
    var ids := UsersNamed(users, name);
    if ids == {} then Ok(None)
    else if |ids| > 1 then Err(InvalidOperationException)
    else
      var id :| id in ids;
      SingletonHolds(ids, id);
      Ok(Some(users[id]))
  }

  /** What target.AddFollower(observer) or target.RemoveFollower(observer)
    * does: the target's new followers and the returned flag. */
  type FollowerUpdate = (User, string) -> (seq<FollowedUser>, bool)

  /** SetFollowCommandHandler.Handle: the result and the tables it leaves. */
  ghost function SetFollowSpec(data: Tables, userId: string, username: string, isFollowing: bool,
                               addFollower: FollowerUpdate, removeFollower: FollowerUpdate, saveFails: bool)
    : (Outcome<bool>, Tables)
  {
    if userId !in data.users then (Returned(Fail(Unauthorized)), data)
    else
      match FindByUserName(data.users, ToLower(Trim(username)))
      case Err(e) => (Raised(e), data)
      case Ok(None) => (Returned(Fail(NotFound)), data)
      case Ok(Some(target)) =>
        if target.id == userId then (Returned(Fail(Forbidden)), data)
        else
          var update := if isFollowing then addFollower(target, userId) else removeFollower(target, userId);
          if saveFails then (Raised(DatabaseException), data)
          else (Returned(Success(update.1)), data.(users := data.users[target.id := target.(followers := update.0)]))
  }

  /** SetFollowCommandHandler.Handle */
  method SetFollow(db: Database, userId: string, username: string, isFollowing: bool,
                   addFollower: FollowerUpdate, removeFollower: FollowerUpdate, saveFails: bool)
    returns (o: Outcome<bool>)
    requires db.Valid()
    modifies db
    ensures db.Valid() && db.snapshot == old(db.snapshot) && db.events == old(db.events)
    ensures (o, db.data) == SetFollowSpec(old(db.data), userId, username, isFollowing, addFollower, removeFollower, saveFails)
  {
    if userId !in db.data.users {
      return Returned(Fail(Unauthorized));
    }
    var ids := UsersNamed(db.data.users, ToLower(Trim(username)));
    if ids == {} {
      return Returned(Fail(NotFound));
    }
    if |ids| > 1 {
      return Raised(InvalidOperationException);
    }
    var id :| id in ids;
    SingletonHolds(ids, id);
    var target := db.data.users[id];
    if target.id == userId {
      return Returned(Fail(Forbidden));
    }
    var update := if isFollowing then addFollower(target, userId) else removeFollower(target, userId);
    var saved := db.SaveUser(target.(followers := update.0), saveFails);
    if saved.Err? {
      return Raised(saved.error);
    }
    o := Returned(Success(update.1));
  }

  /** The refusals, in order: an unknown caller; no user with the trimmed,
    * lower-cased name; that user being the caller. None changes a table. */
  lemma SetFollowRefusals(data: Tables, userId: string, username: string, isFollowing: bool,
                          addFollower: FollowerUpdate, removeFollower: FollowerUpdate, saveFails: bool)
    ensures var outcome := SetFollowSpec(data, userId, username, isFollowing, addFollower, removeFollower, saveFails);
            var o, after := outcome.0, outcome.1;
            var named := UsersNamed(data.users, ToLower(Trim(username)));
            && (o.IsFailure(Unauthorized) <==> userId !in data.users)
            && (o.IsFailure(NotFound) <==> userId in data.users && named == {})
            && (o.IsFailure(Forbidden) <==>
                  userId in data.users && exists id :: named == {id} && data.users[id].id == userId)
            && (o.Returned? && !o.result.isSuccess ==> after == data)
  {
    var o := SetFollowSpec(data, userId, username, isFollowing, addFollower, removeFollower, saveFails).0;
    var found := FindByUserName(data.users, ToLower(Trim(username)));
    if userId !in data.users {
      assert o == Returned(Fail(Unauthorized));
    } else if found.Err? {
      assert o.Raised?;
    } else if found.value.None? {
      assert o == Returned(Fail(NotFound));
    } else if found.value.value.id == userId {
      assert o == Returned(Fail(Forbidden));
    } else {
      assert o.Raised? || o.result.isSuccess;
    }
  }

  /** On success the target is the one user with the trimmed, lower-cased
    * name, it is not the caller, its followers are those the follower
    * operation gives, the returned flag is the operation's, and no other
    * user changes. */
  lemma SetFollowSucceeds(data: Tables, userId: string, username: string, isFollowing: bool,
                          addFollower: FollowerUpdate, removeFollower: FollowerUpdate, saveFails: bool)
    ensures var outcome := SetFollowSpec(data, userId, username, isFollowing, addFollower, removeFollower, saveFails);
            var o, after := outcome.0, outcome.1;
            var named := UsersNamed(data.users, ToLower(Trim(username)));
            && (o.Returned? && o.result.isSuccess <==>
                  userId in data.users && !saveFails && exists id :: named == {id} && data.users[id].id != userId)
            && (o.Returned? && o.result.isSuccess ==>
                  exists id :: named == {id} &&
                    var target := data.users[id];
                    var update := if isFollowing then addFollower(target, userId) else removeFollower(target, userId);
                    && o == Returned(Success(update.1))
                    && after == data.(users := data.users[target.id := target.(followers := update.0)]))
  {
  }

  /** On success the caller's followings, which the profiles count, change
    * only at the target: there they are the rows of the target's new
    * followers with the caller as observer, and at every other user they
    * stay as they were. */
  lemma SetFollowFollowings(data: Tables, userId: string, username: string, isFollowing: bool,
                            addFollower: FollowerUpdate, removeFollower: FollowerUpdate, saveFails: bool)
    requires forall k :: k in data.users ==> data.users[k].id == k
    requires var o := SetFollowSpec(data, userId, username, isFollowing, addFollower, removeFollower, saveFails).0;
             o.Returned? && o.result.isSuccess
    ensures var after := SetFollowSpec(data, userId, username, isFollowing, addFollower, removeFollower, saveFails).1;
            exists id :: UsersNamed(data.users, ToLower(Trim(username))) == {id} &&
              var update := if isFollowing then addFollower(data.users[id], userId) else removeFollower(data.users[id], userId);
              forall u, i :: (u, i) in FollowingRows(after.users, userId) <==>
                               if u == id then 0 <= i < |update.0| && update.0[i].observerId == userId
                               else (u, i) in FollowingRows(data.users, userId)
  {
    SetFollowSucceeds(data, userId, username, isFollowing, addFollower, removeFollower, saveFails);
    var named := UsersNamed(data.users, ToLower(Trim(username)));
    var id :| named == {id};
    var target := data.users[id];
    var update := if isFollowing then addFollower(target, userId) else removeFollower(target, userId);
    FollowingRowsReplaced(data.users, id, update.0, userId);
  }

  /** Several users with the looked-up name make SingleOrDefault raise. */
  lemma SetFollowAmbiguousName(data: Tables, userId: string, username: string, isFollowing: bool,
                               addFollower: FollowerUpdate, removeFollower: FollowerUpdate, saveFails: bool)
    requires userId in data.users && |UsersNamed(data.users, ToLower(Trim(username)))| > 1
    ensures SetFollowSpec(data, userId, username, isFollowing, addFollower, removeFollower, saveFails)
            == (Raised(InvalidOperationException), data)
  {
  }

  // -----------------------------------------------------------------------
  // UpdateUserCommandHandler
  // -----------------------------------------------------------------------

  /** UpdateUserCommandHandler.Handle: the result and the tables it leaves. */
  function UpdateUserSpec(data: Tables, request: UpdateUserRequest, update: Pictures.IdentityUpdate)
    : (Outcome<bool>, Tables)
  {
    if request.userId !in data.users then (Returned(Fail(Unauthorized)), data)
    else
      var user := UpdatedUser(data.users[request.userId], request);
      match update
      case Throws => (Raised(DatabaseException), data)
      case Rejected => (Returned(Success(true)), data)
      case Succeeded => (Returned(Success(true)), data.(users := data.users[user.id := user]))
  }

  /** UpdateUserCommandHandler.Handle */
  method UpdateUser(db: Database, request: UpdateUserRequest, update: Pictures.IdentityUpdate)
    returns (o: Outcome<bool>)
    requires db.Valid()
    modifies db
    ensures db.Valid() && db.snapshot == old(db.snapshot) && db.events == old(db.events)
    ensures (o, db.data) == UpdateUserSpec(old(db.data), request, update)
  {
    if request.userId !in db.data.users {
      return Returned(Fail(Unauthorized));
    }
    var user := UpdatedUser(db.data.users[request.userId], request);
    var saved := Pictures.UpdateUser(db, user, update);
    if saved.Err? {
      return Raised(saved.error);
    }
    o := Returned(Success(true));
  }

  /** An unknown user is Unauthorized and changes nothing; otherwise the
    * result is Success(true) unless the user manager throws, whether or not
    * the display name was accepted, and a saved user follows the
    * display-name rule and keeps About and Website when they are null. */
  lemma UpdateUserOutcomes(data: Tables, request: UpdateUserRequest, update: Pictures.IdentityUpdate)
    ensures var outcome := UpdateUserSpec(data, request, update);
            var o, after := outcome.0, outcome.1;
            && (o.IsFailure(Unauthorized) <==> request.userId !in data.users)
            && (o.IsFailure(Unauthorized) ==> after == data)
            && (o == Returned(Success(true)) <==> request.userId in data.users && update != Pictures.Throws)
            && (after != data ==>
                  var user := data.users[request.userId];
                  var saved := after.users[user.id];
                  && after == data.(users := data.users[user.id := saved])
                  && (DisplayNameAccepted(user, request.displayName) ==> saved.displayName == request.displayName)
                  && (!DisplayNameAccepted(user, request.displayName) ==> saved.displayName == user.displayName)
                  && (request.about.None? ==> saved.about == user.about)
                  && (request.website.None? ==> saved.website == user.website)
                  && saved.(displayName := user.displayName, about := user.about, website := user.website) == user)
  {
    if request.userId in data.users {
      UpdatedUserRules(data.users[request.userId], request);
    }
  }
}
