/** Audio listings: the visibility rule, the filters and the sort orders of
  * the three QueryableExtensions classes (Features/Audios/Extensions,
  * Features/Audio and Persistence/Repositories/Extensions), the list and
  * feed queries of Features/Audio (GetAudioList, GetAudioFeed) and the
  * queries of Persistence/Repositories/AudioRepository.cs. A table is a
  * sequence of rows in store order; a query is a function from rows to
  * rows, and the projection to view models, which the mappings model,
  * and pagination are not applied. Where the three classes agree, the
  * rule is written once. */
module AudioQueries {
  import opened Wrappers
  import opened Text
  import opened Results
  import opened Entities
  import opened Accounts
  import opened Genres

  // -----------------------------------------------------------------------
  // Where and Distinct
  // -----------------------------------------------------------------------

  /** Queryable.Where: the rows that satisfy keep, in their order. */
  function Where(s: seq<AudioRow>, keep: AudioRow -> bool): (r: seq<AudioRow>)
    ensures forall a :: a in r <==> a in s && keep(a)
    ensures multiset(r) <= multiset(s)
  {
    if s == [] then []
    else
      assert s == [s[0]] + s[1..];
      (if keep(s[0]) then [s[0]] else []) + Where(s[1..], keep)
  }

  predicate NoDuplicates(s: seq<AudioRow>)
  {
    forall i, j :: 0 <= i < j < |s| ==> s[i] != s[j]
  }

  /** Queryable.Distinct: each row once. */
  function Distinct(s: seq<AudioRow>): (r: seq<AudioRow>)
    ensures forall a :: a in r <==> a in s
    ensures NoDuplicates(r)
  {
    if s == [] then []
    else if s[0] in s[1..] then Distinct(s[1..])
    else [s[0]] + Distinct(s[1..])
  }

  // -----------------------------------------------------------------------
  // Visibility and filters
  // -----------------------------------------------------------------------

  /** a.UserId == currentUserId || a.IsPublic, with C# equality on a null
    * caller. */
  predicate Visible(a: AudioRow, currentUserId: Option<string>)
  {
    a.userId == currentUserId || a.isPublic
  }

  /** DefaultQueryable (the same in all three classes). */
  function DefaultQueryable(audios: seq<AudioRow>, currentUserId: Option<string>): (r: seq<AudioRow>)
    ensures multiset(r) <= multiset(audios)
    ensures forall a :: a in r <==> a in audios && (a.userId == currentUserId || a.isPublic)
  {
    Where(audios, a => Visible(a, currentUserId))
  }

  /** a.User.UserName: null for an audio without a stored owner. */
  function OwnerName(users: map<string, User>, a: AudioRow): (r: Option<string>)
    ensures r.Some? <==> a.userId.Some? && a.userId.value in users
  {
    if a.userId.Some? && a.userId.value in users then Some(users[a.userId.value].userName) else None
  }

  /** FilterByUsername: the owner's name equals the lower-cased input,
    * which is not trimmed. */
  function FilterByUsername(s: seq<AudioRow>, users: map<string, User>, username: Option<string>): (r: seq<AudioRow>)
    ensures multiset(r) <= multiset(s)
    ensures IsNullOrWhiteSpace(username) ==> r == s
    ensures forall a :: a in r <==>
              a in s && (!IsNullOrWhiteSpace(username) ==> OwnerName(users, a) == Some(ToLower(username.value)))
  {
    if IsNullOrWhiteSpace(username) then s
    else Where(s, a => OwnerName(users, a) == Some(ToLower(username.value)))
  }

  /** a.GenreId == id || a.Genre.Slug == slug, false on nulls. */
  predicate GenreMatches(a: AudioRow, id: int, slug: string)
  {
    a.genreId == Some(id) || (a.genre.Some? && a.genre.value.slug == slug)
  }

  /** FilterByGenre (the same in all three classes): the parsed id, 0 when
    * the input is not a number, or the trimmed, lower-cased slug. */
  function FilterByGenre(s: seq<AudioRow>, input: Option<string>): (r: seq<AudioRow>)
    ensures multiset(r) <= multiset(s)
    ensures IsNullOrWhiteSpace(input) ==> r == s
    ensures forall a :: a in r <==>
              a in s && (!IsNullOrWhiteSpace(input) ==>
                           a.genreId == Some(ParsedId(input.value))
                           || (a.genre.Some? && a.genre.value.slug == ToLower(Trim(input.value))))
  {
    if IsNullOrWhiteSpace(input) then s
    else Where(s, a => GenreMatches(a, ParsedId(input.value), NormalisedSlug(input.value)))
  }

  /** The pieces of a tag list, each trimmed and lower-cased. */
  function ParsedTags(parts: seq<string>): (r: seq<string>)
    ensures |r| == |parts| && forall i :: 0 <= i < |r| ==> r[i] == ToLower(Trim(parts[i]))
  {
    seq(|parts|, i requires 0 <= i < |parts| => ToLower(Trim(parts[i])))
  }

  /** A tag id is among the parsed pieces exactly when some piece, trimmed
    * and lower-cased, is that id. */
  lemma ParsedTagsHold(parts: seq<string>, id: string)
    ensures id in ParsedTags(parts) <==> exists p :: p in parts && id == ToLower(Trim(p))
  {
    if id in ParsedTags(parts) {
      var i :| 0 <= i < |parts| && ParsedTags(parts)[i] == id;
      assert parts[i] in parts;
    }
    if p :| p in parts && id == ToLower(Trim(p)) {
      var i :| 0 <= i < |parts| && parts[i] == p;
      assert ParsedTags(parts)[i] == id;
    }
  }

  /** a.Tags.Any(t => parsed.Contains(t.Id)) */
  predicate HasAnyTag(a: AudioRow, parsed: seq<string>)
  {
    exists t :: t in a.tags && t.id in parsed
  }

  /** An audio has one of the parsed tags exactly when one of its tags is
    * a piece of the list, trimmed and lower-cased. */
  lemma HasAnyTagHolds(a: AudioRow, parts: seq<string>)
    ensures HasAnyTag(a, ParsedTags(parts)) <==> exists t, p :: t in a.tags && p in parts && t.id == ToLower(Trim(p))
  {
    forall t | t in a.tags {
      ParsedTagsHold(parts, t.id);
    }
  }

  /** FilterByTags of Features/Audios/Extensions and Features/Audio: the
    * input split on ','. */
  function FilterByTags(s: seq<AudioRow>, tags: Option<string>): (r: seq<AudioRow>)
    ensures multiset(r) <= multiset(s)
    ensures IsNullOrWhiteSpace(tags) ==> r == s
    ensures forall a :: a in r <==>
              a in s && (!IsNullOrWhiteSpace(tags) ==> HasAnyTag(a, ParsedTags(Split(tags.value, ','))))
  {
    if IsNullOrWhiteSpace(tags) then s
    else Where(s, a => HasAnyTag(a, ParsedTags(Split(tags.value, ','))))
  }

  /** FilterByTags of the repository extensions: split on the given
    * delimiter. */
  function FilterByTagsWith(s: seq<AudioRow>, tags: Option<string>, delimiter: string): (r: seq<AudioRow>)
    ensures multiset(r) <= multiset(s)
    ensures IsNullOrWhiteSpace(tags) ==> r == s
    ensures forall a :: a in r <==>
              a in s && (!IsNullOrWhiteSpace(tags) ==> HasAnyTag(a, ParsedTags(SplitOn(tags.value, delimiter))))
  {
    if IsNullOrWhiteSpace(tags) then s
    else Where(s, a => HasAnyTag(a, ParsedTags(SplitOn(tags.value, delimiter))))
  }

  /** a.Title.ToLower().Contains(q.ToLower()): false for a null title. */
  predicate TitleContains(a: AudioRow, q: string)
  {
    a.title.Some? && Contains(ToLower(a.title.value), ToLower(q))
  }

  /** FilterBySearchTerm (Features/Audio and the repository extensions). */
  function FilterBySearchTerm(s: seq<AudioRow>, q: Option<string>): (r: seq<AudioRow>)
    ensures multiset(r) <= multiset(s)
    ensures IsNullOrWhiteSpace(q) ==> r == s
    ensures forall a :: a in r <==>
              a in s && (!IsNullOrWhiteSpace(q) ==> a.title.Some? && Contains(ToLower(a.title.value), ToLower(q.value)))
  {
    if IsNullOrWhiteSpace(q) then s
    else Where(s, a => TitleContains(a, q.value))
  }

  // -----------------------------------------------------------------------
  // Sort orders
  // -----------------------------------------------------------------------

  /** The orderings the queries use: favourite count descending, creation
    * time descending, or favourite count then creation time, descending. */
  datatype AudioOrder = ByFavoriteCount | ByCreated | ByFavoriteCountThenCreated

  /** a may precede b in the order. */
  predicate Precedes(order: AudioOrder, a: AudioRow, b: AudioRow)
  {
    match order
    case ByFavoriteCount => |a.favorited| >= |b.favorited|
    case ByCreated => a.created >= b.created
    case ByFavoriteCountThenCreated =>
      |a.favorited| > |b.favorited| || (|a.favorited| == |b.favorited| && a.created >= b.created)
  }

  /** Either of two rows may come first in each order. */
  lemma PrecedesTotal(order: AudioOrder, a: AudioRow, b: AudioRow)
    ensures Precedes(order, a, b) || Precedes(order, b, a)
  {
  }

  lemma PrecedesTransitive(order: AudioOrder, a: AudioRow, b: AudioRow, c: AudioRow)
    requires Precedes(order, a, b) && Precedes(order, b, c)
    ensures Precedes(order, a, c)
  {
  }

  /** Each row may precede the next. */
  predicate Ordered(order: AudioOrder, s: seq<AudioRow>)
  {
    forall i :: 0 <= i < |s| - 1 ==> Precedes(order, s[i], s[i + 1])
  }

  /** An ordered list is ordered pairwise: each row may precede every
    * later one. */
  lemma {:induction false} OrderedPairwise(order: AudioOrder, s: seq<AudioRow>)
    requires Ordered(order, s)
    ensures forall i, j :: 0 <= i < j < |s| ==> Precedes(order, s[i], s[j])
  {
    if |s| > 1 {
      OrderedPairwise(order, s[1..]);
      forall j | 1 < j < |s| ensures Precedes(order, s[0], s[j]) {
        assert s[1..][0] == s[1] && s[1..][j - 1] == s[j];
        PrecedesTransitive(order, s[0], s[1], s[j]);
      }
      forall i, j | 0 <= i < j < |s| ensures Precedes(order, s[i], s[j]) {
        if i > 0 {
          assert s[1..][i - 1] == s[i] && s[1..][j - 1] == s[j];
        }
      }
    }
  }

  function InsertOrdered(order: AudioOrder, x: AudioRow, s: seq<AudioRow>): (r: seq<AudioRow>)
    requires Ordered(order, s)
    ensures Ordered(order, r) && multiset(r) == multiset(s) + multiset{x}
    ensures r != [] && (r[0] == x || (s != [] && r[0] == s[0]))
  {
    if s == [] || Precedes(order, x, s[0]) then [x] + s
    else
      PrecedesTotal(order, x, s[0]);
      assert s == [s[0]] + s[1..];
      [s[0]] + InsertOrdered(order, x, s[1..])
  }

  /** OrderByDescending (then ThenByDescending) on the order's keys. */
  function SortAudios(order: AudioOrder, s: seq<AudioRow>): (r: seq<AudioRow>)
    ensures Ordered(order, r) && multiset(r) == multiset(s)
  {
    if s == [] then []
    else
      assert s == [s[0]] + s[1..];
      InsertOrdered(order, s[0], SortAudios(order, s[1..]))
  }

  /** Sort of Features/Audios/Extensions, and the switch of
    * GetAudioListQueryHandler: exactly "favorites" orders by favourite
    * count, anything else (null included) by creation time. */
  function AudiosSortOrder(orderBy: Option<string>): AudioOrder
  {
    if orderBy == Some("favorites") then ByFavoriteCount else ByCreated
  }

  /** Sort of Features/Audio: the key is lower-cased first, so a null key
    * raises. */
  function AudioSortOrder(sort: Option<string>): (r: Result<AudioOrder, Exception>)
    ensures r.Err? <==> sort.None?
  {
    if sort.None? then Err(NullReferenceException)
    else if ToLower(sort.value) == "favorites" then Ok(ByFavoriteCount)
    else Ok(ByCreated)
  }

  /** Sort of the repository extensions: "favorites" in any case orders by
    * favourite count, then creation time; "latest" and anything else by
    * creation time. */
  function RepositorySortOrder(sort: Option<string>): (r: Result<AudioOrder, Exception>)
    ensures r.Err? <==> sort.None?
  {
    if sort.None? then Err(NullReferenceException)
    else if ToLower(sort.value) == "favorites" then Ok(ByFavoriteCountThenCreated)
    else Ok(ByCreated)
  }

  /** For every key, the first variant orders by favourite count exactly on
    * "favorites" itself, the other two on any key that lower-cases to it;
    * so the case of the key matters to the first variant only. */
  lemma SortKeyCase(k: string)
    ensures AudiosSortOrder(Some(k)) == ByFavoriteCount <==> k == "favorites"
    ensures AudioSortOrder(Some(k)) == Ok(ByFavoriteCount) <==> ToLower(k) == "favorites"
    ensures RepositorySortOrder(Some(k)) == Ok(ByFavoriteCountThenCreated) <==> ToLower(k) == "favorites"
  {
  }

  /** "Favorites" separates the variants: the first orders it by creation
    * time, the other two by favourite count. */
  lemma SortKeyCaseExample()
    ensures AudiosSortOrder(Some("Favorites")) == ByCreated
    ensures AudioSortOrder(Some("Favorites")) == Ok(ByFavoriteCount)
    ensures RepositorySortOrder(Some("Favorites")) == Ok(ByFavoriteCountThenCreated)
  {
    assert ToLower("Favorites") == "favorites";
  }

  /** The tie-break order refines the favourite-count order: rows with as
    * many favourites come newest first. */
  lemma ThenCreatedRefines(s: seq<AudioRow>)
    requires Ordered(ByFavoriteCountThenCreated, s)
    ensures Ordered(ByFavoriteCount, s)
    ensures forall i, j :: 0 <= i < j < |s| && |s[i].favorited| == |s[j].favorited| ==> s[i].created >= s[j].created
  {
    OrderedPairwise(ByFavoriteCountThenCreated, s);
  }

  /** Reordering a list without duplicates leaves none. */
  lemma PermutationKeepsNoDuplicates(s: seq<AudioRow>, r: seq<AudioRow>)
    requires NoDuplicates(s) && multiset(r) == multiset(s)
    ensures NoDuplicates(r)
  {
    forall i, j | 0 <= i < j < |r| ensures r[i] != r[j] {
      if r[i] == r[j] {
        assert multiset(r)[r[i]] >= 2 by {
          assert r == r[..j] + [r[j]] + r[j + 1..];
          assert r[i] in r[..j];
        }
        DistinctOnce(s, r[i]);
      }
    }
  }

  /** A list without duplicates holds each of its rows once. */
  lemma {:induction false} DistinctOnce(d: seq<AudioRow>, x: AudioRow)
    requires NoDuplicates(d)
    ensures multiset(d)[x] <= 1
  {
    if d != [] {
      assert d == [d[0]] + d[1..];
      DistinctOnce(d[1..], x);
      if d[0] == x {
        assert x !in d[1..];
      }
    }
  }

  // -----------------------------------------------------------------------
  // GetAudioListQueryHandler and GetAudioFeedQueryHandler (Features/Audio)
  // -----------------------------------------------------------------------

  datatype AudioListRequest = AudioListRequest(
    username: Option<string>, tags: Option<string>, sort: Option<string>, genre: Option<string>)

  /** The rows GetAudioListQueryHandler keeps: visible ones, then the
    * trimmed, lower-cased username, the tags and the genre. */
  function AudioListRows(audios: seq<AudioRow>, users: map<string, User>, currentUserId: Option<string>,
                         request: AudioListRequest): (r: seq<AudioRow>)
    ensures multiset(r) <= multiset(audios)
    ensures forall a :: a in r <==>
              && a in audios && Visible(a, currentUserId)
              && (!IsNullOrWhiteSpace(request.username) ==>
                    OwnerName(users, a) == Some(ToLower(Trim(request.username.value))))
              && (!IsNullOrWhiteSpace(request.tags) ==> HasAnyTag(a, ParsedTags(Split(request.tags.value, ','))))
              && (!IsNullOrWhiteSpace(request.genre) ==>
                    GenreMatches(a, ParsedId(request.genre.value), NormalisedSlug(request.genre.value)))
  {
    var visible := DefaultQueryable(audios, currentUserId);
    var byUser := if IsNullOrWhiteSpace(request.username) then visible
                  else Where(visible, a => OwnerName(users, a) == Some(ToLower(Trim(request.username.value))));
    FilterByGenre(FilterByTags(byUser, request.tags), request.genre)
  }

  /** GetAudioListQueryHandler.Handle, before the projection and the
    * paging. */
  function GetAudioList(audios: seq<AudioRow>, users: map<string, User>, currentUserId: Option<string>,
                        request: AudioListRequest): seq<AudioRow>
  {
    SortAudios(AudiosSortOrder(request.sort), AudioListRows(audios, users, currentUserId, request))
  }

  /** The list holds the kept rows, each as often as it is stored at most,
    * in the requested order. */
  lemma GetAudioListContents(audios: seq<AudioRow>, users: map<string, User>, currentUserId: Option<string>,
                             request: AudioListRequest)
    ensures var r := GetAudioList(audios, users, currentUserId, request);
            && multiset(r) == multiset(AudioListRows(audios, users, currentUserId, request))
            && multiset(r) <= multiset(audios)
            && Ordered(AudiosSortOrder(request.sort), r)
            && (forall a :: a in r <==> a in AudioListRows(audios, users, currentUserId, request))
  {
    var rows := AudioListRows(audios, users, currentUserId, request);
    var r := GetAudioList(audios, users, currentUserId, request);
    forall a ensures a in r <==> a in rows {
      assert a in r <==> a in multiset(r);
      assert a in rows <==> a in multiset(rows);
    }
  }

  /** The ids the observer follows, from the FollowedUsers table. */
  function FollowedIds(follows: seq<FollowedUser>, observerId: string): (ids: seq<string>)
    ensures forall id :: id in ids <==> FollowedUser(observerId, id) in follows
  {
    if follows == [] then []
    else
      assert follows == [follows[0]] + follows[1..];
      (if follows[0].observerId == observerId then [follows[0].targetId] else []) + FollowedIds(follows[1..], observerId)
  }

  /** followedIds.Contains(a.UserId): false for an audio without owner. */
  predicate ByFollowed(a: AudioRow, ids: seq<string>)
  {
    a.userId.Some? && a.userId.value in ids
  }

  /** The audios a feed shows: visible to the user, and owned by a user the
    * user follows. */
  function FeedRows(audios: seq<AudioRow>, follows: seq<FollowedUser>, userId: string): (r: seq<AudioRow>)
    ensures multiset(r) <= multiset(audios)
    ensures forall a :: a in r <==>
              a in audios && Visible(a, Some(userId)) && a.userId.Some? && FollowedUser(userId, a.userId.value) in follows
  {
    var ids := FollowedIds(follows, userId);
    Where(DefaultQueryable(audios, Some(userId)), a => ByFollowed(a, ids))
  }

  /** GetAudioFeedQueryHandler.Handle: the feed rows, each once, newest
    * first. */
  function GetAudioFeed(audios: seq<AudioRow>, follows: seq<FollowedUser>, userId: string): seq<AudioRow>
  {
    SortAudios(ByCreated, Distinct(FeedRows(audios, follows, userId)))
  }

  /** Exactly the feed rows appear, none twice, newest first. */
  lemma GetAudioFeedContents(audios: seq<AudioRow>, follows: seq<FollowedUser>, userId: string)
    ensures var r := GetAudioFeed(audios, follows, userId);
            && NoDuplicates(r)
            && Ordered(ByCreated, r)
            && (forall a :: a in r <==> a in FeedRows(audios, follows, userId))
  {
    var d := Distinct(FeedRows(audios, follows, userId));
    var r := SortAudios(ByCreated, d);
    PermutationKeepsNoDuplicates(d, r);
    forall a ensures a in r <==> a in d {
      assert a in r <==> a in multiset(r);
      assert a in d <==> a in multiset(d);
    }
  }

  // -----------------------------------------------------------------------
  // AudioRepository
  // -----------------------------------------------------------------------

  /** The rows visible to the caller with the id. */
  function VisibleWithId(audios: seq<AudioRow>, currentUserId: Option<string>, id: int): (r: seq<AudioRow>)
    ensures multiset(r) <= multiset(audios)
    ensures forall a :: a in r <==> a in audios && Visible(a, currentUserId) && a.id == id
  {
    Where(audios, a => Visible(a, currentUserId) && a.id == id)
  }

  /** GetAsync: SingleOrDefault over the visible rows with the id. */
  function GetAsync(audios: seq<AudioRow>, currentUserId: Option<string>, id: int)
    : (r: Result<Option<AudioRow>, Exception>)
    ensures r == Ok(None) <==> forall a :: a in audios && a.id == id ==> !Visible(a, currentUserId)
    ensures r.Ok? && r.value.Some? ==>
              r.value.value in audios && r.value.value.id == id && Visible(r.value.value, currentUserId)
  {
    var found := VisibleWithId(audios, currentUserId, id);
    if found == [] then Ok(None)
    else if |found| == 1 then
      assert found[0] in found;
      Ok(Some(found[0]))
    else
      assert found[0] in found;
      Err(InvalidOperationException)
  }

  /** Rows with distinct ids. */
  predicate UniqueIds(audios: seq<AudioRow>)
  {
    forall i, j :: 0 <= i < j < |audios| ==> audios[i].id != audios[j].id
  }

  /** With distinct ids GetAsync never raises. */
  lemma GetAsyncNeverRaises(audios: seq<AudioRow>, currentUserId: Option<string>, id: int)
    requires UniqueIds(audios)
    ensures GetAsync(audios, currentUserId, id).Ok?
  {
    var found := VisibleWithId(audios, currentUserId, id);
    if |found| > 1 {
      assert found[0] in found && found[1] in found;
      var i :| 0 <= i < |audios| && audios[i] == found[0];
      var j :| 0 <= j < |audios| && audios[j] == found[1];
      if i == j {
        RepeatedFirstCounted(found);
        OnceInUnique(audios, i);
      }
    }
  }

  /** A list whose first two rows are equal holds that row twice. */
  lemma RepeatedFirstCounted(s: seq<AudioRow>)
    requires |s| > 1 && s[0] == s[1]
    ensures multiset(s)[s[0]] >= 2
  {
    assert s == [s[0]] + [s[1]] + s[2..];
  }

  /** In rows with distinct ids, each row is stored once. */
  lemma OnceInUnique(audios: seq<AudioRow>, i: nat)
    requires UniqueIds(audios) && i < |audios|
    ensures multiset(audios)[audios[i]] == 1
  {
    var x := audios[i];
    assert audios == audios[..i] + [x] + audios[i + 1..];
    var head, tail := audios[..i], audios[i + 1..];
    assert x !in head by {
      forall y | y in head ensures y != x {
        var k :| 0 <= k < i && head[k] == y;
        assert audios[k] == y;
      }
    }
    assert x !in tail by {
      forall y | y in tail ensures y != x {
        var k :| 0 <= k < |tail| && tail[k] == y;
        assert audios[i + 1 + k] == y;
      }
    }
  }

  /** The rows ListAsync keeps: visible ones, those the extra predicate
    * accepts when there is one, and those of the genre. */
  function ListRows(audios: seq<AudioRow>, currentUserId: Option<string>, whereExpression: Option<AudioRow -> bool>,
                    genre: Option<string>): (r: seq<AudioRow>)
    ensures multiset(r) <= multiset(audios)
    ensures forall a :: a in r <==>
              a in audios && Visible(a, currentUserId)
              && (whereExpression.Some? ==> whereExpression.value(a))
              && (!IsNullOrWhiteSpace(genre) ==> GenreMatches(a, ParsedId(genre.value), NormalisedSlug(genre.value)))
  {
    var visible := DefaultQueryable(audios, currentUserId);
    FilterByGenre(if whereExpression.Some? then Where(visible, whereExpression.value) else visible, genre)
  }

  /** ListAsync: the kept rows in the repository sort's order. */
  function ListAsync(audios: seq<AudioRow>, currentUserId: Option<string>, whereExpression: Option<AudioRow -> bool>,
                     genre: Option<string>, sort: Option<string>): Result<seq<AudioRow>, Exception>
  {
    match RepositorySortOrder(sort)
    case Err(e) => Err(e)
    case Ok(order) => Ok(SortAudios(order, ListRows(audios, currentUserId, whereExpression, genre)))
  }

  /** ListAsync raises on a null sort key; otherwise it lists exactly the
    * kept rows, in the sort's order. */
  lemma ListAsyncContents(audios: seq<AudioRow>, currentUserId: Option<string>,
                          whereExpression: Option<AudioRow -> bool>, genre: Option<string>, sort: Option<string>)
    ensures var l := ListAsync(audios, currentUserId, whereExpression, genre, sort);
            var rows := ListRows(audios, currentUserId, whereExpression, genre);
            && (l.Err? <==> sort.None?)
            && (l.Ok? ==> multiset(l.value) == multiset(rows) && Ordered(RepositorySortOrder(sort).value, l.value))
            && (l.Ok? ==> forall a :: a in l.value <==> a in rows)
  {
    var l := ListAsync(audios, currentUserId, whereExpression, genre, sort);
    var rows := ListRows(audios, currentUserId, whereExpression, genre);
    if l.Ok? {
      forall a ensures a in l.value <==> a in rows {
        assert a in l.value <==> a in multiset(l.value);
        assert a in rows <==> a in multiset(rows);
      }
    }
  }

  /** The rows SearchAsync keeps: visible ones, then the search term,
    * genre and comma-separated tag filters. */
  function SearchRows(audios: seq<AudioRow>, currentUserId: Option<string>, q: Option<string>,
                      genre: Option<string>, tags: Option<string>): (r: seq<AudioRow>)
    ensures multiset(r) <= multiset(audios)
    ensures forall a :: a in r <==>
              a in audios && Visible(a, currentUserId)
              && (!IsNullOrWhiteSpace(q) ==> TitleContains(a, q.value))
              && (!IsNullOrWhiteSpace(genre) ==> GenreMatches(a, ParsedId(genre.value), NormalisedSlug(genre.value)))
              && (!IsNullOrWhiteSpace(tags) ==> HasAnyTag(a, ParsedTags(SplitOn(tags.value, ","))))
  {
    FilterByTagsWith(FilterByGenre(FilterBySearchTerm(DefaultQueryable(audios, currentUserId), q), genre), tags, ",")
  }

  /** SearchAsync: the kept rows in the repository sort's order. */
  function SearchAsync(audios: seq<AudioRow>, currentUserId: Option<string>, q: Option<string>,
                       genre: Option<string>, tags: Option<string>, sort: Option<string>): Result<seq<AudioRow>, Exception>
  {
    match RepositorySortOrder(sort)
    case Err(e) => Err(e)
    case Ok(order) => Ok(SortAudios(order, SearchRows(audios, currentUserId, q, genre, tags)))
  }

  /** SearchAsync raises on a null sort key; otherwise it lists exactly the
    * kept rows, in the sort's order. */
  lemma SearchAsyncContents(audios: seq<AudioRow>, currentUserId: Option<string>, q: Option<string>,
                            genre: Option<string>, tags: Option<string>, sort: Option<string>)
    ensures var s := SearchAsync(audios, currentUserId, q, genre, tags, sort);
            var rows := SearchRows(audios, currentUserId, q, genre, tags);
            && (s.Err? <==> sort.None?)
            && (s.Ok? ==> multiset(s.value) == multiset(rows) && Ordered(RepositorySortOrder(sort).value, s.value))
            && (s.Ok? ==> forall a :: a in s.value <==> a in rows)
  {
    var s := SearchAsync(audios, currentUserId, q, genre, tags, sort);
    var rows := SearchRows(audios, currentUserId, q, genre, tags);
    if s.Ok? {
      forall a ensures a in s.value <==> a in rows {
        assert a in s.value <==> a in multiset(s.value);
        assert a in rows <==> a in multiset(rows);
      }
    }
  }

  /** FeedAsync: the feed rows, newest first. */
  function FeedAsync(audios: seq<AudioRow>, follows: seq<FollowedUser>, userId: string): seq<AudioRow>
  {
    SortAudios(ByCreated, FeedRows(audios, follows, userId))
  }

  /** The repository's feed and the Features/Audio feed show the same
    * rows, both newest first; only the latter drops duplicates. */
  lemma FeedsAgree(audios: seq<AudioRow>, follows: seq<FollowedUser>, userId: string)
    ensures var f := FeedAsync(audios, follows, userId);
            && Ordered(ByCreated, f)
            && multiset(f) == multiset(FeedRows(audios, follows, userId))
            && forall a :: a in f <==> a in GetAudioFeed(audios, follows, userId)
  {
    GetAudioFeedContents(audios, follows, userId);
    var f := FeedAsync(audios, follows, userId);
    var rows := FeedRows(audios, follows, userId);
    forall a ensures a in f <==> a in rows {
      assert a in f <==> a in multiset(f);
      assert a in rows <==> a in multiset(rows);
    }
  }
}
