/** Genres: the lookup of a genre from user input, written three times with
  * the same body (Services/GenreService.cs, Features/Genres/GetGenre/
  * GetGenreQuery.cs, Persistence/Repositories/GenreRepository.cs), and the
  * genre list with its audio counts and sort orders
  * (GenreRepository.ListAsync, Features/Genres/ListGenre/ListGenreQuery.cs).
  * The genres table is a sequence in store order. */
module Genres {
  import opened Wrappers
  import opened Text
  import opened Results
  import opened Entities

  /** The id an input stands for: the number it parses to, or 0. */
  function ParsedId(input: string): int
  {
    TryParseInt64(input).GetOr(0)
  }

  /** The slug an input stands for: trimmed and lower-cased. */
  function NormalisedSlug(input: string): string
  {
    ToLower(Trim(input))
  }

  /** The query predicate: same id or same slug. */
  predicate Matches(g: Genre, id: int, slug: string)
  {
    g.id == id || g.slug == slug
  }

  /** FirstOrDefault over Where: the position of the first match. */
  function FirstMatch(genres: seq<Genre>, id: int, slug: string): (r: Option<nat>)
    ensures r.Some? ==> r.value < |genres| && Matches(genres[r.value], id, slug)
    ensures r.Some? ==> forall k :: 0 <= k < r.value ==> !Matches(genres[k], id, slug)
    ensures r.None? ==> forall k :: 0 <= k < |genres| ==> !Matches(genres[k], id, slug)
  {
    if genres == [] then None
    else if Matches(genres[0], id, slug) then Some(0)
    else
      var rest := FirstMatch(genres[1..], id, slug);
      if rest.Some? then Some(rest.value + 1) else None
  }

  /** GetGenre: null for blank input; otherwise the first genre in store
    * order whose id is the parsed id or whose slug is the normalised input,
    * and null when there is none. */
  function GetGenre(genres: seq<Genre>, input: Option<string>): (r: Option<Genre>)
    ensures IsNullOrWhiteSpace(input) ==> r == None
    ensures r.Some? ==> !IsNullOrWhiteSpace(input)
    ensures r.Some? ==> exists i :: 0 <= i < |genres| && genres[i] == r.value
                          && Matches(genres[i], ParsedId(input.value), NormalisedSlug(input.value))
                          && forall k :: 0 <= k < i ==> !Matches(genres[k], ParsedId(input.value), NormalisedSlug(input.value))
    ensures !IsNullOrWhiteSpace(input) && r.None? ==>
              forall g :: g in genres ==> !Matches(g, ParsedId(input.value), NormalisedSlug(input.value))
  {
    if IsNullOrWhiteSpace(input) then None
    else
      var m := FirstMatch(genres, ParsedId(input.value), NormalisedSlug(input.value));
      if m.Some? then Some(genres[m.value]) else None
  }

  /** An input without digits looks genres up by id 0; the printed form of
    * an id looks them up by that id. */
  lemma ParsedIdCases(input: string, n: int)
    requires Int64Min <= n <= Int64Max
    ensures (forall i :: 0 <= i < |input| ==> !IsDigit(input[i])) ==> ParsedId(input) == 0
    ensures ParsedId(Int64ToString(n)) == n
  {
    if forall i :: 0 <= i < |input| ==> !IsDigit(input[i]) {
      NoDigitNoNumber(input);
    }
    ParsePrintedInt64(n);
  }

  /** The first genre of the table is found by its printed id. */
  lemma GetGenreByPrintedId(genres: seq<Genre>)
    requires genres != [] && Int64Min <= genres[0].id <= Int64Max
    ensures GetGenre(genres, Some(Int64ToString(genres[0].id))) == Some(genres[0])
  {
    var input := Int64ToString(genres[0].id);
    ParsedIdCases(input, genres[0].id);
    assert !IsBlank(input) by {
      var d := input[|input| - 1];
      assert IsDigit(d) by {
        if genres[0].id < 0 {
          assert input[1..][|input| - 2] == d;
        }
      }
    }
  }

  // -----------------------------------------------------------------------
  // The genre list
  // -----------------------------------------------------------------------

  datatype ListGenresSort = Alphabetically | Popularity | UndefinedSort(value: int)

  datatype GenreViewModel = GenreViewModel(id: int, name: string, slug: string, count: nat)

  /** Genre.Audios.Count: the audios whose genre is the given one. */
  function AudioCount(audios: seq<AudioRow>, genreId: int): (n: nat)
    ensures n <= |audios|
  {
    if audios == [] then 0
    else AudioCount(audios[..|audios| - 1], genreId) + (if audios[|audios| - 1].genreId == Some(genreId) then 1 else 0)
  }

  function GenreIdsOf(audios: seq<AudioRow>): seq<Option<int>>
  {
    seq(|audios|, i requires 0 <= i < |audios| => audios[i].genreId)
  }

  /** The count is the number of audios referring to the genre. */
  lemma {:induction false} AudioCountIsMultiplicity(audios: seq<AudioRow>, genreId: int)
    ensures AudioCount(audios, genreId) == multiset(GenreIdsOf(audios))[Some(genreId)]
  {
    if audios != [] {
      var init := audios[..|audios| - 1];
      AudioCountIsMultiplicity(init, genreId);
      assert GenreIdsOf(audios) == GenreIdsOf(init) + [audios[|audios| - 1].genreId];
    }
  }

  /** The projection of one genre. */
  function View(g: Genre, audios: seq<AudioRow>): GenreViewModel
  {
    GenreViewModel(g.id, g.name, g.slug, AudioCount(audios, g.id))
  }

  function Project(genres: seq<Genre>, audios: seq<AudioRow>): seq<GenreViewModel>
  {
    seq(|genres|, i requires 0 <= i < |genres| => View(genres[i], audios))
  }

  /** Ordinal string comparison, as the database orders names. */
  predicate NameLe(a: string, b: string)
    decreases |a|
  {
    |a| == 0 || (|b| > 0 && (a[0] < b[0] || (a[0] == b[0] && NameLe(a[1..], b[1..]))))
  }

  lemma {:induction false} NameLeTotal(a: string, b: string)
    ensures NameLe(a, b) || NameLe(b, a)
    decreases |a|
  {
    if |a| > 0 && |b| > 0 && a[0] == b[0] {
      NameLeTotal(a[1..], b[1..]);
    }
  }

  /** x may precede y: by count descending, by name ascending; an undefined
    * sort value imposes no order. */
  predicate Before(sort: ListGenresSort, x: GenreViewModel, y: GenreViewModel)
  {
    match sort
    case Popularity => x.count >= y.count
    case Alphabetically => NameLe(x.name, y.name)
    case UndefinedSort(_) => true
  }

  lemma BeforeTotal(sort: ListGenresSort, x: GenreViewModel, y: GenreViewModel)
    ensures Before(sort, x, y) || Before(sort, y, x)
  {
    if sort.Alphabetically? {
      NameLeTotal(x.name, y.name);
    }
  }

  predicate Sorted(sort: ListGenresSort, s: seq<GenreViewModel>)
  {
    forall i :: 0 <= i < |s| - 1 ==> Before(sort, s[i], s[i + 1])
  }

  function Insert(sort: ListGenresSort, x: GenreViewModel, s: seq<GenreViewModel>): (r: seq<GenreViewModel>)
    requires Sorted(sort, s)
    ensures Sorted(sort, r) && multiset(r) == multiset(s) + multiset{x}
    ensures r != [] && (r[0] == x || (s != [] && r[0] == s[0]))
  {
    if s == [] || Before(sort, x, s[0]) then [x] + s
    else
      BeforeTotal(sort, x, s[0]);
      assert s == [s[0]] + s[1..];
      [s[0]] + Insert(sort, x, s[1..])
  }

  /** OrderBy / OrderByDescending on the key of the sort. */
  function SortBy(sort: ListGenresSort, s: seq<GenreViewModel>): (r: seq<GenreViewModel>)
    ensures Sorted(sort, r) && multiset(r) == multiset(s)
  {
    if s == [] then []
    else
      assert s == [s[0]] + s[1..];
      Insert(sort, s[0], SortBy(sort, s[1..]))
  }

  /** GenreRepository.ListAsync: every genre with its audio count, by count
    * descending or by name; any other sort value is refused. */
  function ListAsync(genres: seq<Genre>, audios: seq<AudioRow>, sort: ListGenresSort)
    : (r: Result<seq<GenreViewModel>, Exception>)
    ensures r.Err? <==> sort.UndefinedSort?
    ensures r.Err? ==> r.error == ArgumentOutOfRangeException("sort")
    ensures r.Ok? ==> Sorted(sort, r.value) && multiset(r.value) == multiset(Project(genres, audios))
  {
    match sort
    case UndefinedSort(_) => Err(ArgumentOutOfRangeException("sort"))
    case _ => Ok(SortBy(sort, Project(genres, audios)))
  }

  /** ListGenreQuery.Sort is get-only and keeps its default. */
  const ListGenreQuerySort: ListGenresSort := Alphabetically

  /** ListGenreQueryHandler.Handle: the switch without a default leaves an
    * undefined sort value in store order. */
  function ListGenres(genres: seq<Genre>, audios: seq<AudioRow>, sort: ListGenresSort): (r: seq<GenreViewModel>)
    ensures Sorted(sort, r) && multiset(r) == multiset(Project(genres, audios))
    ensures sort.UndefinedSort? ==> r == Project(genres, audios)
  {
    match sort
    case UndefinedSort(_) => Project(genres, audios)
    case _ => SortBy(sort, Project(genres, audios))
  }

  /** Every listed entry is the view of a stored genre with its own count,
    * and every stored genre is listed. */
  lemma ListedGenres(genres: seq<Genre>, audios: seq<AudioRow>, e: GenreViewModel)
    ensures e in ListGenres(genres, audios, ListGenreQuerySort) ==>
              exists g :: g in genres && e == View(g, audios)
    ensures forall g :: g in genres ==> View(g, audios) in ListGenres(genres, audios, ListGenreQuerySort)
  {
    var p := Project(genres, audios);
    var r := ListGenres(genres, audios, ListGenreQuerySort);
    assert multiset(r) == multiset(p);
    if e in r {
      assert e in multiset(p);
      var i :| 0 <= i < |p| && p[i] == e;
      assert genres[i] in genres;
    }
    forall g | g in genres ensures View(g, audios) in r {
      var i :| 0 <= i < |genres| && genres[i] == g;
      assert p[i] in multiset(r);
    }
  }
}
