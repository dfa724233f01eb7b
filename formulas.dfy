/**
 * The formula library page: per-category search over name, formula and
 * explanation, bookmarks by formula name, and the tab key each category is
 * shown under.
 */
module Formulas {
  import Text
  import Seqs
  import Bookmarks

  datatype Formula = Formula(name: string, formula: string, explanation: string, example: string)

  datatype FormulaCategory = FormulaCategory(category: string, formulas: seq<Formula>)

  /** The library the page shows. */
  const TrigFormulas: seq<FormulaCategory> := [
    FormulaCategory("Basic Ratios", [
      Formula("Sine", "sin θ = opposite / hypotenuse",
        "The sine of an angle is the ratio of the length of the opposite side to the length of the hypotenuse.",
        "In a right triangle with angle θ = 30°, if hypotenuse = 10, then opposite = 5 (sin 30° = 0.5)"),
      Formula("Cosine", "cos θ = adjacent / hypotenuse",
        "The cosine of an angle is the ratio of the length of the adjacent side to the length of the hypotenuse.",
        "In a right triangle with angle θ = 60°, if hypotenuse = 2, then adjacent = 1 (cos 60° = 0.5)"),
      Formula("Tangent", "tan θ = opposite / adjacent",
        "The tangent of an angle is the ratio of the length of the opposite side to the length of the adjacent side.",
        "In a right triangle with angle θ = 45°, if adjacent = 1, then opposite = 1 (tan 45° = 1)")]),
    FormulaCategory("Reciprocal Functions", [
      Formula("Cosecant", "csc θ = 1 / sin θ",
        "The cosecant is the reciprocal of sine.",
        "If sin θ = 0.5, then csc θ = 2"),
      Formula("Secant", "sec θ = 1 / cos θ",
        "The secant is the reciprocal of cosine.",
        "If cos θ = 0.5, then sec θ = 2"),
      Formula("Cotangent", "cot θ = 1 / tan θ",
        "The cotangent is the reciprocal of tangent.",
        "If tan θ = 1, then cot θ = 1")]),
    FormulaCategory("Pythagorean Identities", [
      Formula("Main Identity", "sin²θ + cos²θ = 1",
        "The sum of the squares of sine and cosine of any angle equals 1.",
        "For θ = 30°: sin²(30°) + cos²(30°) = 0.25 + 0.75 = 1"),
      Formula("Tangent Identity", "1 + tan²θ = sec²θ",
        "The sum of 1 and the square of tangent equals the square of secant.",
        "For θ = 45°: 1 + tan²(45°) = 1 + 1 = 2 = sec²(45°)"),
      Formula("Cotangent Identity", "1 + cot²θ = csc²θ",
        "The sum of 1 and the square of cotangent equals the square of cosecant.",
        "For θ = 60°: 1 + cot²(60°) = 1 + (1/√3)² = 4/3 = csc²(60°)")])
  ]

  /** The search test; `example` is not searched and an empty query matches everything. */
  function FormulaMatches(f: Formula, searchQuery: string): (b: bool)
    ensures searchQuery == "" ==> b
    ensures Text.ToLower(searchQuery) == Text.ToLower(f.name) ==> b
  {
    Text.IncludesItself(Text.ToLower(searchQuery));
    var query := Text.ToLower(searchQuery);
    searchQuery == ""
    || Text.Includes(Text.ToLower(f.name), query)
    || Text.Includes(Text.ToLower(f.formula), query)
    || Text.Includes(Text.ToLower(f.explanation), query)
  }

  /** One category's search: only its matching formulas are listed. */
  function FilterFormulas(formulas: seq<Formula>, searchQuery: string): (r: seq<Formula>)
    ensures |r| <= |formulas|
    ensures forall f :: f in r ==> f in formulas && FormulaMatches(f, searchQuery)
  {
    Seqs.FilterMembers((f: Formula) => FormulaMatches(f, searchQuery), formulas);
    Seqs.Filter((f: Formula) => FormulaMatches(f, searchQuery), formulas)
  }

  /** `filteredCategories`: every category kept, in order, with its formulas filtered. */
  function FilterCategories(categories: seq<FormulaCategory>, searchQuery: string): (r: seq<FormulaCategory>)
    ensures |r| == |categories|
    ensures forall i :: 0 <= i < |categories| ==>
      r[i].category == categories[i].category && r[i].formulas == FilterFormulas(categories[i].formulas, searchQuery)
  {
    if categories == [] then []
    else
      var c := categories[0];
      [c.(formulas := FilterFormulas(c.formulas, searchQuery))] + FilterCategories(categories[1..], searchQuery)
  }

  /**
   * What the view keeps: every category, even one left empty; in each, an
   * order-preserving subsequence of its formulas holding exactly those that
   * match, each as many times as the category lists it.
   */
  lemma FilterCategoriesSpec(categories: seq<FormulaCategory>, searchQuery: string, i: nat)
    requires i < |categories|
    ensures var r := FilterCategories(categories, searchQuery);
      Seqs.Subsequence(r[i].formulas, categories[i].formulas)
      && (forall f :: f in r[i].formulas <==> f in categories[i].formulas && FormulaMatches(f, searchQuery))
      && forall f :: multiset(r[i].formulas)[f] ==
           if FormulaMatches(f, searchQuery) then multiset(categories[i].formulas)[f] else 0
  {
    Seqs.FilterIsSubsequence((f: Formula) => FormulaMatches(f, searchQuery), categories[i].formulas);
    Seqs.FilterMembers((f: Formula) => FormulaMatches(f, searchQuery), categories[i].formulas);
    Seqs.FilterCount((f: Formula) => FormulaMatches(f, searchQuery), categories[i].formulas);
  }

  /** An empty query changes nothing. */
  lemma EmptyQueryKeepsAll(categories: seq<FormulaCategory>)
    ensures FilterCategories(categories, "") == categories
  {
    var r := FilterCategories(categories, "");
    forall i | 0 <= i < |categories| ensures r[i] == categories[i] {
      Seqs.FilterAll((f: Formula) => FormulaMatches(f, ""), categories[i].formulas);
    }
  }

  /**
   * A search keeps a formula exactly when the query is empty, or its lower
   * case occurs in the lower-cased name, formula or explanation.
   */
  lemma FormulaMatchesIff(f: Formula, searchQuery: string)
    ensures var q := Text.ToLower(searchQuery);
      FormulaMatches(f, searchQuery) <==>
        searchQuery == ""
        || Text.Found(Text.ToLower(f.name), q)
        || Text.Found(Text.ToLower(f.formula), q)
        || Text.Found(Text.ToLower(f.explanation), q)
  {
    var q := Text.ToLower(searchQuery);
    Text.IncludesIff(Text.ToLower(f.name), q);
    Text.IncludesIff(Text.ToLower(f.formula), q);
    Text.IncludesIff(Text.ToLower(f.explanation), q);
  }

  /** Only name, formula and explanation are searched: the example text never decides. */
  lemma ExampleNotSearched(f: Formula, example: string, searchQuery: string)
    ensures FormulaMatches(f, searchQuery) == FormulaMatches(f.(example := example), searchQuery)
  {
  }

  /**
   * The tab a category is shown under: the first word of its lower-cased
   * name, so no space and no capital; a one-word name is the whole name in
   * lower case.
   */
  function TabKey(category: string): (r: string)
    ensures |r| <= |category|
    ensures forall i :: 0 <= i < |r| ==> r[i] != ' ' && !Text.IsUpper(r[i])
    ensures ' ' !in category ==> r == Text.ToLower(category)
  {
    Text.FirstWord(Text.ToLower(category))
  }

  /** The three categories land on the three tab triggers "basic", "reciprocal" and "pythagorean". */
  lemma TabKeysMatchTriggers()
    ensures |TrigFormulas| == 3
      && TabKey(TrigFormulas[0].category) == "basic"
      && TabKey(TrigFormulas[1].category) == "reciprocal"
      && TabKey(TrigFormulas[2].category) == "pythagorean"
  {
    BasicTab();
    ReciprocalTab();
    PythagoreanTab();
  }

  lemma BasicTab()
    ensures |TrigFormulas| == 3 && TabKey(TrigFormulas[0].category) == "basic"
  {
    LibraryCategories();
    WordKey("Basic Ratios", "basic", 'B', "asic", "Ratios");
  }

  lemma ReciprocalTab()
    ensures |TrigFormulas| == 3 && TabKey(TrigFormulas[1].category) == "reciprocal"
  {
    LibraryCategories();
    WordKey("Reciprocal Functions", "reciprocal", 'R', "eciprocal", "Functions");
  }

  lemma PythagoreanTab()
    ensures |TrigFormulas| == 3 && TabKey(TrigFormulas[2].category) == "pythagorean"
  {
    LibraryCategories();
    WordKey("Pythagorean Identities", "pythagorean", 'P', "ythagorean", "Identities");
  }

  lemma LibraryCategories()
    ensures |TrigFormulas| == 3
    ensures TrigFormulas[0].category == "Basic Ratios"
    ensures TrigFormulas[1].category == "Reciprocal Functions"
    ensures TrigFormulas[2].category == "Pythagorean Identities"
  {
  }

  predicate LowerWord(w: string)
  {
    forall i :: 0 <= i < |w| ==> 'a' <= w[i] <= 'z'
  }

  /** A capitalised ASCII word followed by a space gives that word in lower case as its key. */
  lemma WordKey(s: string, key: string, head: char, tail: string, rest: string)
    requires Text.IsUpper(head) && LowerWord(tail)
    requires s == [head] + tail + " " + rest
    requires key == [Text.LowerChar(head)] + tail
    ensures TabKey(s) == key
  {
    var n := 1 + |tail|;
    var l := Text.ToLower(s);
    var w := Text.FirstWord(l);
    assert l[..n] == key;
    assert l[n] == ' ';
    assert ' ' !in l[..n];
    assert w == l[..n];
  }

  class FormulasPage {
    var searchQuery: string
    var bookmarkedFormulas: seq<string>

    ghost predicate Valid()
      reads this
    {
      Bookmarks.NoDuplicates(bookmarkedFormulas)
    }

    constructor ()
      ensures Valid()
      ensures searchQuery == "" && bookmarkedFormulas == []
    {
      searchQuery, bookmarkedFormulas := "", [];
    }

    /** What the page shows. */
    function FilteredCategories(): seq<FormulaCategory>
      reads this
    {
      FilterCategories(TrigFormulas, searchQuery)
    }

    /** `handleBookmark`: the name's bookmark flips and the list stays free of duplicates. */
    method HandleBookmark(formulaName: string)
      requires Valid()
      modifies this`bookmarkedFormulas
      ensures Valid()
      ensures bookmarkedFormulas == Bookmarks.Toggle(old(bookmarkedFormulas), formulaName)
      ensures formulaName in bookmarkedFormulas <==> formulaName !in old(bookmarkedFormulas)
    {
      Bookmarks.ToggleNoDuplicates(bookmarkedFormulas, formulaName);
      Bookmarks.ToggleMembership(bookmarkedFormulas, formulaName);
      bookmarkedFormulas := Bookmarks.Toggle(bookmarkedFormulas, formulaName);
    }

    method SetSearchQuery(q: string)
      modifies this`searchQuery
      ensures searchQuery == q
    {
      searchQuery := q;
    }
  }
}
