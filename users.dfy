/** Users: the profile projections (Common/Mappings/UserMappings.cs and
  * Features/Users/Mappings/UserProfileMapping.cs) and the profile update
  * rule of Features/Users/UpdateUser/UpdateUserCommand.cs. The User entity
  * file is not part of this model; a user is given by the fields these
  * files read and write. A user's followers are the FollowedUsers rows
  * whose target it is; its followings and its audios are not stored with
  * it: the projections count them in the FollowedUsers and Audios tables,
  * as the database does when it runs the projection. */
module Accounts {
  import opened Wrappers
  import opened Text
  import opened Entities

  /** A follow relation: the observer follows the target. */
  datatype FollowedUser = FollowedUser(observerId: string, targetId: string)

  datatype User = User(
    id: string,
    userName: string,
    displayName: Option<string>,
    about: Option<string>,
    website: Option<string>,
    picture: Option<string>,
    followers: seq<FollowedUser>)

  /** user.Followers.Any(f => f.ObserverId == observer) */
  predicate HasFollower(user: User, observer: string)
  {
    exists i :: 0 <= i < |user.followers| && user.followers[i].observerId == observer
  }

  datatype ProfileViewModel = ProfileViewModel(
    id: string,
    username: string,
    aboutMe: Option<string>,
    website: Option<string>,
    picture: Option<string>,
    audioCount: nat,
    followerCount: nat,
    followingCount: nat,
    isFollowing: Option<bool>)

  /** The FollowedUsers rows whose observer is id: user.Followings, as
    * positions in the target's follower list. */
  function FollowingRows(users: map<string, User>, id: string): set<(string, int)>
  {
    set u, i | u in users && 0 <= i < |users[u].followers| && users[u].followers[i].observerId == id :: (u, i)
  }

  /** user.Audios: the ids of the stored audios the user owns. */
  function OwnedAudios(audios: map<int, AudioRow>, id: string): set<int>
  {
    set a | a in audios && audios[a].userId == Some(id)
  }

  /** UserMappings.Map: the flag is null for an anonymous caller. The
    * counts are taken in the Users and Audios tables. */
  function MapProfile(user: User, users: map<string, User>, audios: map<int, AudioRow>, currentUserId: Option<string>)
    : ProfileViewModel
  {
    ProfileViewModel(user.id, user.userName, user.about, user.website, user.picture,
                     |OwnedAudios(audios, user.id)|, |user.followers|, |FollowingRows(users, user.id)|,
                     if !IsNullOrEmpty(currentUserId) then Some(HasFollower(user, currentUserId.value)) else None)
  }

  /** UserProfileMapping.Map: the flag is always set; no follower has a
    * null observer, so a null caller follows nobody. */
  function MapUserProfile(user: User, users: map<string, User>, audios: map<int, AudioRow>,
                          currentUserId: Option<string>): ProfileViewModel
  {
    ProfileViewModel(user.id, user.userName, user.about, user.website, user.picture,
                     |OwnedAudios(audios, user.id)|, |user.followers|, |FollowingRows(users, user.id)|,
                     Some(currentUserId.Some? && HasFollower(user, currentUserId.value)))
  }

  /** The flag of UserMappings.Map: unset exactly for an anonymous caller,
    * otherwise whether the caller is among the followers; a caller shown as
    * following is counted among the followers. */
  lemma ProfileFollowing(user: User, users: map<string, User>, audios: map<int, AudioRow>, currentUserId: Option<string>)
    ensures var p := MapProfile(user, users, audios, currentUserId);
            && (p.isFollowing.None? <==> IsNullOrEmpty(currentUserId))
            && (p.isFollowing == Some(true) <==> !IsNullOrEmpty(currentUserId) && HasFollower(user, currentUserId.value))
            && (p.isFollowing == Some(true) ==> p.followerCount >= 1)
            && p.followerCount == |user.followers|
  {
  }

  /** The following count is positive exactly when some stored user has
    * the user among its followers, and the audio count exactly when some
    * stored audio is the user's. */
  lemma ProfileCounts(user: User, users: map<string, User>, audios: map<int, AudioRow>, currentUserId: Option<string>)
    ensures var p := MapProfile(user, users, audios, currentUserId);
            && (p.followingCount > 0 <==> exists u :: u in users && HasFollower(users[u], user.id))
            && (p.audioCount > 0 <==> exists a :: a in audios && audios[a].userId == Some(user.id))
  {
    var rows := FollowingRows(users, user.id);
    if |rows| > 0 {
      var r :| r in rows;
      assert HasFollower(users[r.0], user.id);
    }
    if exists u :: u in users && HasFollower(users[u], user.id) {
      var u :| u in users && HasFollower(users[u], user.id);
      var i :| 0 <= i < |users[u].followers| && users[u].followers[i].observerId == user.id;
      assert (u, i) in rows;
    }
    var owned := OwnedAudios(audios, user.id);
    if !exists a :: a in audios && audios[a].userId == Some(user.id) {
      assert owned == {};
    }
    if exists a :: a in audios && audios[a].userId == Some(user.id) {
      var a :| a in audios && audios[a].userId == Some(user.id);
      assert a in owned;
    }
  }

  /** Replacing one user's followers changes an observer's followings only
    * at that user: there they become the new list's rows with that
    * observer. */
  lemma FollowingRowsReplaced(users: map<string, User>, target: string, followers: seq<FollowedUser>, id: string)
    requires target in users
    ensures var after := users[target := users[target].(followers := followers)];
            forall u, i :: (u, i) in FollowingRows(after, id) <==>
                             if u == target then 0 <= i < |followers| && followers[i].observerId == id
                             else (u, i) in FollowingRows(users, id)
  {
  }

  /** Storing a new audio owned by the user adds one to its audio count; an
    * audio of another owner leaves the count alone. */
  lemma OwnedAudiosAdded(audios: map<int, AudioRow>, id: string, key: int, row: AudioRow)
    requires key !in audios
    ensures |OwnedAudios(audios[key := row], id)| == |OwnedAudios(audios, id)| + (if row.userId == Some(id) then 1 else 0)
  {
    var before := OwnedAudios(audios, id);
    if row.userId == Some(id) {
      assert OwnedAudios(audios[key := row], id) == before + {key};
    } else {
      assert OwnedAudios(audios[key := row], id) == before;
    }
  }

  /** Removing a stored audio of the user takes one from its audio count. */
  lemma OwnedAudiosRemoved(audios: map<int, AudioRow>, id: string, key: int)
    ensures |OwnedAudios(audios - {key}, id)|
            == |OwnedAudios(audios, id)| - (if key in audios && audios[key].userId == Some(id) then 1 else 0)
  {
    var before := OwnedAudios(audios, id);
    if key in audios && audios[key].userId == Some(id) {
      assert before == OwnedAudios(audios - {key}, id) + {key};
    } else {
      assert OwnedAudios(audios - {key}, id) == before;
    }
  }

  /** The flag of UserProfileMapping.Map is never unset, and is true exactly
    * when the caller is among the followers, which then number at least one. */
  lemma UserProfileFollowing(user: User, users: map<string, User>, audios: map<int, AudioRow>,
                             currentUserId: Option<string>)
    ensures var p := MapUserProfile(user, users, audios, currentUserId);
            && p.isFollowing.Some?
            && (p.isFollowing.value <==> exists f :: f in user.followers && Some(f.observerId) == currentUserId)
            && (p.isFollowing.value ==> p.followerCount >= 1)
  {
    var p := MapUserProfile(user, users, audios, currentUserId);
    if p.isFollowing.value {
      var i :| 0 <= i < |user.followers| && user.followers[i].observerId == currentUserId.value;
      assert user.followers[i] in user.followers;
    }
  }

  /** The two projections agree except on the flag of an anonymous caller. */
  lemma ProfileMappingsAgree(user: User, users: map<string, User>, audios: map<int, AudioRow>,
                             currentUserId: Option<string>)
    ensures !IsNullOrEmpty(currentUserId) ==>
              MapProfile(user, users, audios, currentUserId) == MapUserProfile(user, users, audios, currentUserId)
    ensures IsNullOrEmpty(currentUserId) ==>
              MapProfile(user, users, audios, currentUserId)
              == MapUserProfile(user, users, audios, currentUserId).(isFollowing := None)
  {
  }

  datatype UpdateUserRequest = UpdateUserRequest(
    userId: string, displayName: Option<string>, about: Option<string>, website: Option<string>)

  /** The display name may differ from the user name only in letter case
    * and surrounding white space. */
  predicate DisplayNameAccepted(user: User, displayName: Option<string>)
  {
    !IsNullOrWhiteSpace(displayName) && EqualsIgnoreCase(Trim(user.userName), Trim(displayName.value))
  }

  /** The field updates of UpdateUserCommandHandler.Handle. */
  function UpdatedUser(user: User, request: UpdateUserRequest): User
  {
    user.(displayName := if DisplayNameAccepted(user, request.displayName) then request.displayName else user.displayName,
          about := if request.about.Some? then request.about else user.about,
          website := if request.website.Some? then request.website else user.website)
  }

  /** The display name changes only to a value equal to the user name up to
    * case and trimming; About and Website keep their values when the
    * request leaves them null; nothing else changes. */
  lemma UpdatedUserRules(user: User, request: UpdateUserRequest)
    ensures var u := UpdatedUser(user, request);
            && (u.displayName != user.displayName ==>
                  u.displayName == request.displayName && request.displayName.Some?
                  && ToLower(Trim(request.displayName.value)) == ToLower(Trim(user.userName)))
            && (request.about.None? ==> u.about == user.about)
            && (request.about.Some? ==> u.about == request.about)
            && (request.website.None? ==> u.website == user.website)
            && (request.website.Some? ==> u.website == request.website)
            && u.(displayName := user.displayName, about := user.about, website := user.website) == user
  {
  }

  /** The lower-cased user name is always an accepted display name. */
  lemma DisplayNameLowerCaseAccepted(user: User, request: UpdateUserRequest)
    requires !IsBlank(user.userName) && request.displayName == Some(ToLower(user.userName))
    ensures UpdatedUser(user, request).displayName == request.displayName
  {
    var name := ToLower(user.userName);
    assert EqualsIgnoreCase(Trim(user.userName), Trim(name)) by {
      TrimToLower(user.userName);
      ToLowerIdempotent(Trim(user.userName));
    }
    assert !IsBlank(name) by {
      var i :| 0 <= i < |user.userName| && !IsWhiteSpace(user.userName[i]);
      ToLowerCharWhite(user.userName[i]);
      assert name[i] == ToLowerChar(user.userName[i]);
    }
  }
}
