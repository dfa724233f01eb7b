/**
 * The resource catalogue page: bookmarks over resource ids, a
 * difficulty/bookmark filter, and a case-insensitive search over title,
 * description and tags. The two stages are applied one after the other.
 */
module Resources {
  import opened Wrappers
  import Text
  import Seqs
  import Bookmarks

  datatype Difficulty = Beginner | Intermediate | Advanced

  function DifficultyName(d: Difficulty): string
  {
    match d
    case Beginner => "Beginner"
    case Intermediate => "Intermediate"
    case Advanced => "Advanced"
  }

  /** A catalogue entry; `kind` is the source's `type`, and the icon is not modelled. */
  datatype Resource = Resource(
    id: string, title: string, kind: string, description: string, link: string,
    difficulty: Difficulty, duration: Option<string>, tags: seq<string>,
    downloads: Option<int>, views: Option<int>)

  /** The catalogue the page lists. */
  const Catalogue: seq<Resource> := [
    Resource("1", "Algebra Fundamentals", "Video Course",
      "Master the basics of algebra with our comprehensive video series", "#",
      Beginner, Some("2.5 hours"), ["algebra", "basics", "equations"], None, Some(1234)),
    Resource("2", "Geometry Handbook", "PDF Guide",
      "Complete guide to geometric concepts and problem-solving techniques", "#",
      Intermediate, None, ["geometry", "shapes", "formulas"], Some(567), None),
    Resource("3", "Calculus Practice Problems", "Interactive",
      "Collection of calculus problems with step-by-step solutions", "#",
      Advanced, None, ["calculus", "practice", "derivatives"], None, Some(890))
  ]

  /** The first stage: "all", "bookmarked", or a lower-case difficulty. */
  function MatchesFilter(r: Resource, filter: string, bookmarks: seq<string>): (b: bool)
    ensures filter == "all" ==> b
    ensures filter == "bookmarked" ==> (b <==> r.id in bookmarks)
    ensures filter !in {"all", "bookmarked", "beginner", "intermediate", "advanced"} ==> !b
  {
    LowerDifficultyName(r.difficulty);
    if filter == "all" then true
    else if filter == "bookmarked" then r.id in bookmarks
    else Text.ToLower(DifficultyName(r.difficulty)) == filter
  }

  /** `tags.some(tag => tag.toLowerCase().includes(query))`: an empty query is in any tag, so only an empty tag list misses it. */
  function AnyTagIncludes(tags: seq<string>, query: string): (b: bool)
    ensures query == "" ==> (b <==> tags != [])
  {
    assert tags != [] && query == "" ==> Text.Includes(Text.ToLower(tags[0]), query);
    exists i :: 0 <= i < |tags| && Text.Includes(Text.ToLower(tags[i]), query)
  }

  /**
   * The second stage: an empty query keeps everything, and searching for the
   * title or one of the tags, in any case, finds the resource.
   */
  function MatchesSearch(r: Resource, searchQuery: string): (b: bool)
    ensures searchQuery == "" ==> b
    ensures Text.ToLower(searchQuery) == Text.ToLower(r.title) ==> b
    ensures forall i :: 0 <= i < |r.tags| && Text.ToLower(searchQuery) == Text.ToLower(r.tags[i]) ==> b
  {
    Text.IncludesItself(Text.ToLower(searchQuery));
    if searchQuery == "" then true
    else
      var query := Text.ToLower(searchQuery);
      Text.Includes(Text.ToLower(r.title), query)
      || Text.Includes(Text.ToLower(r.description), query)
      || AnyTagIncludes(r.tags, query)
  }

  /** `filteredResources`: only catalogue entries that pass both stages are listed. */
  function FilterResources(resources: seq<Resource>, filter: string, bookmarks: seq<string>, searchQuery: string): (r: seq<Resource>)
    ensures |r| <= |resources|
    ensures forall x :: x in r ==> x in resources && MatchesFilter(x, filter, bookmarks) && MatchesSearch(x, searchQuery)
  {
    Seqs.FilterMembers((r: Resource) => MatchesFilter(r, filter, bookmarks), resources);
    Seqs.FilterMembers((r: Resource) => MatchesSearch(r, searchQuery),
      Seqs.Filter((r: Resource) => MatchesFilter(r, filter, bookmarks), resources));
    Seqs.Filter((r: Resource) => MatchesSearch(r, searchQuery),
      Seqs.Filter((r: Resource) => MatchesFilter(r, filter, bookmarks), resources))
  }

  /**
   * The result is the catalogue filtered by the conjunction of the two
   * stages, so the stages commute; it is an order-preserving subsequence
   * and holds exactly the resources that pass both.
   */
  lemma FilterResourcesSpec(resources: seq<Resource>, filter: string, bookmarks: seq<string>, searchQuery: string)
    ensures var r := FilterResources(resources, filter, bookmarks, searchQuery);
      r == Seqs.Filter((x: Resource) => MatchesFilter(x, filter, bookmarks) && MatchesSearch(x, searchQuery), resources)
      && r == Seqs.Filter((x: Resource) => MatchesFilter(x, filter, bookmarks),
                Seqs.Filter((x: Resource) => MatchesSearch(x, searchQuery), resources))
      && Seqs.Subsequence(r, resources)
      && forall x :: x in r <==> x in resources && MatchesFilter(x, filter, bookmarks) && MatchesSearch(x, searchQuery)
  {
    var f := (x: Resource) => MatchesFilter(x, filter, bookmarks);
    var s := (x: Resource) => MatchesSearch(x, searchQuery);
    var fs := (x: Resource) => MatchesFilter(x, filter, bookmarks) && MatchesSearch(x, searchQuery);
    Seqs.FilterFilter(f, s, fs, resources);
    Seqs.FilterCommutes(f, s, resources);
    Seqs.FilterIsSubsequence(fs, resources);
    Seqs.FilterMembers(fs, resources);
  }

  /** "all" with an empty search lists the whole catalogue. */
  lemma AllUnfiltered(resources: seq<Resource>, bookmarks: seq<string>)
    ensures FilterResources(resources, "all", bookmarks, "") == resources
  {
    Seqs.FilterAll((r: Resource) => MatchesFilter(r, "all", bookmarks), resources);
    Seqs.FilterAll((r: Resource) => MatchesSearch(r, ""), resources);
  }

  /** The value of the filter button for each level. */
  function DifficultyKey(d: Difficulty): string
  {
    match d
    case Beginner => "beginner"
    case Intermediate => "intermediate"
    case Advanced => "advanced"
  }

  /** A capital followed by lower-case letters lowers to the lower-case capital followed by the same letters. */
  lemma LowerCapitalised(s: string, key: string, head: char, tail: string)
    requires Text.IsUpper(head) && forall i :: 0 <= i < |tail| ==> 'a' <= tail[i] <= 'z'
    requires s == [head] + tail && key == [Text.LowerChar(head)] + tail
    ensures Text.ToLower(s) == key
  {
    assert forall i :: 1 <= i < |s| ==> s[i] == tail[i - 1];
  }

  /** The lower-cased name of a level is its button value. */
  lemma LowerDifficultyName(d: Difficulty)
    ensures Text.ToLower(DifficultyName(d)) == DifficultyKey(d)
  {
    match d {
      case Beginner => LowerCapitalised("Beginner", "beginner", 'B', "eginner");
      case Intermediate => LowerCapitalised("Intermediate", "intermediate", 'I', "ntermediate");
      case Advanced => LowerCapitalised("Advanced", "advanced", 'A', "dvanced");
    }
  }

  /** The difficulty buttons: each lower-case name selects exactly its own level. */
  lemma DifficultyFilterIff(r: Resource, bookmarks: seq<string>, d: Difficulty)
    ensures MatchesFilter(r, DifficultyKey(d), bookmarks) <==> r.difficulty == d
  {
    LowerDifficultyName(r.difficulty);
  }

  /**
   * A search keeps a resource exactly when the query is empty, or its lower
   * case occurs in the lower-cased title, description or one of the tags.
   */
  lemma MatchesSearchIff(r: Resource, searchQuery: string)
    ensures var q := Text.ToLower(searchQuery);
      MatchesSearch(r, searchQuery) <==>
        searchQuery == ""
        || Text.Found(Text.ToLower(r.title), q)
        || Text.Found(Text.ToLower(r.description), q)
        || exists k :: 0 <= k < |r.tags| && Text.Found(Text.ToLower(r.tags[k]), q)
  {
    var q := Text.ToLower(searchQuery);
    Text.IncludesIff(Text.ToLower(r.title), q);
    Text.IncludesIff(Text.ToLower(r.description), q);
    forall k | 0 <= k < |r.tags| {
      Text.IncludesIff(Text.ToLower(r.tags[k]), q);
    }
  }

  /** The search ignores the case of the query. */
  lemma SearchIgnoresQueryCase(r: Resource, searchQuery: string)
    ensures MatchesSearch(r, searchQuery) == MatchesSearch(r, Text.ToLower(searchQuery))
  {
    Text.ToLowerIdempotent(searchQuery);
  }

  class ResourcesPage {
    var filter: string
    var searchQuery: string
    var bookmarkedResources: seq<string>

    ghost predicate Valid()
      reads this
    {
      Bookmarks.NoDuplicates(bookmarkedResources)
    }

    constructor ()
      ensures Valid()
      ensures filter == "all" && searchQuery == "" && bookmarkedResources == []
    {
      filter, searchQuery, bookmarkedResources := "all", "", [];
    }

    /** What the page shows. */
    function FilteredResources(): seq<Resource>
      reads this
    {
      FilterResources(Catalogue, filter, bookmarkedResources, searchQuery)
    }

    /** `handleBookmark`: the id's bookmark flips and the list stays free of duplicates. */
    method HandleBookmark(resourceId: string)
      requires Valid()
      modifies this`bookmarkedResources
      ensures Valid()
      ensures bookmarkedResources == Bookmarks.Toggle(old(bookmarkedResources), resourceId)
      ensures resourceId in bookmarkedResources <==> resourceId !in old(bookmarkedResources)
    {
      Bookmarks.ToggleNoDuplicates(bookmarkedResources, resourceId);
      Bookmarks.ToggleMembership(bookmarkedResources, resourceId);
      bookmarkedResources := Bookmarks.Toggle(bookmarkedResources, resourceId);
    }

    method SetFilter(f: string)
      modifies this`filter
      ensures filter == f
    {
      filter := f;
    }

    method SetSearchQuery(q: string)
      modifies this`searchQuery
      ensures searchQuery == q
    {
      searchQuery := q;
    }
  }
}
