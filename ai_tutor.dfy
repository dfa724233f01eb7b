/**
 * The AI tutor page: exact-match lookup of a question in the flattened
 * topic catalogue, the question history (newest first) with its starred
 * flags, and the favourites view.
 */
module AITutor {
  import opened Wrappers
  import Seqs

  datatype TutorResponse = TutorResponse(explanation: string, examples: seq<string>, practice: string)

  datatype QA = QA(question: string, response: TutorResponse)

  datatype Topic = Topic(title: string, description: string, questions: seq<QA>)

  /** A history entry; the timestamp the source also stores is not modelled. */
  datatype HistoryItem = HistoryItem(question: string, response: TutorResponse, starred: bool)

  /** The catalogue of `popularTopics`, without its icons. */
  const PopularTopics: seq<Topic> := [
    Topic("Algebra Basics", "Learn fundamental algebraic concepts", [
      QA("How to solve quadratic equations?", TutorResponse(
        "To solve quadratic equations, use the quadratic formula: x = [-b ± √(b² - 4ac)] / 2a",
        ["Example 1: x² + 5x + 6 = 0 → x = -2, x = -3",
         "Example 2: 2x² + 4x - 6 = 0 → x = 1, x = -3"],
        "Try solving: x² - 5x + 6 = 0")),
      QA("What is factoring?", TutorResponse(
        "Factoring is the process of breaking down an expression into simpler terms that can be multiplied together to get the original expression.",
        ["Example 1: x² + 5x + 6 = (x + 2)(x + 3)",
         "Example 2: x² - 9 = (x + 3)(x - 3)"],
        "Try factoring: x² - 4x + 4")),
      QA("How to solve linear equations?", TutorResponse(
        "To solve linear equations, isolate the variable on one side of the equation.",
        ["Example 1: x + 5 = 10 → x = 5",
         "Example 2: 2x + 3 = 15 → 2x = 12 → x = 6"],
        "Try solving: 3x + 7 = 22"))]),
    Topic("Geometry Formulas", "Master geometric calculations", [
      QA("How to find circle area?", TutorResponse(
        "The area of a circle is calculated using the formula: A = πr², where r is the radius.",
        ["Example 1: r = 5 → A = π(5)² = 25π",
         "Example 2: r = 10 → A = π(10)² = 100π"],
        "Try finding the area of a circle with radius 7")),
      QA("What is the Pythagorean theorem?", TutorResponse(
        "The Pythagorean theorem states that in a right-angled triangle, the square of the hypotenuse is equal to the sum of the squares of the other two sides: a² + b² = c².",
        ["Example 1: a = 3, b = 4 → c = √(3² + 4²) = 5",
         "Example 2: a = 5, b = 12 → c = √(5² + 12²) = 13"],
        "Try finding the hypotenuse of a triangle with sides 6 and 8")),
      QA("How to calculate triangle area?", TutorResponse(
        "The area of a triangle is calculated using the formula: A = ½bh, where b is the base and h is the height.",
        ["Example 1: b = 5, h = 10 → A = ½(5)(10) = 25",
         "Example 2: b = 8, h = 6 → A = ½(8)(6) = 24"],
        "Try finding the area of a triangle with base 7 and height 9"))]),
    Topic("Calculus Help", "Understanding derivatives and integrals", [
      QA("What is a derivative?", TutorResponse(
        "A derivative represents the rate of change of a function with respect to a variable. It is the slope of the tangent line to the function at a given point.",
        ["Example 1: f(x) = x² → f'(x) = 2x",
         "Example 2: f(x) = 3x³ → f'(x) = 9x²"],
        "Try finding the derivative of f(x) = 4x² + 3x + 2")),
      QA("How to find limits?", TutorResponse(
        "A limit describes the value that a function approaches as the input approaches some value. Limits are fundamental to calculus.",
        ["Example 1: lim(x→2) x² = 4",
         "Example 2: lim(x→0) (sin(x)/x) = 1"],
        "Try finding the limit as x approaches 3 of f(x) = x² - 9")),
      QA("What are integrals used for?", TutorResponse(
        "Integrals are used to calculate areas under curves, volumes, and other quantities that can be accumulated.",
        ["Example 1: ∫x² dx = (1/3)x³ + C",
         "Example 2: ∫2x dx = x² + C"],
        "Try finding the integral of f(x) = 3x² + 2x + 1"))])
  ]

  /** `flatMap(topic => topic.questions)`: the topics' questions in order. */
  function Flatten(topics: seq<Topic>): (r: seq<QA>)
    ensures forall i, q :: 0 <= i < |topics| && q in topics[i].questions ==> q in r
    ensures forall q :: q in r ==> exists i :: 0 <= i < |topics| && q in topics[i].questions
  {
    if topics == [] then [] else topics[0].questions + Flatten(topics[1..])
  }

  /** The position of the first entry whose question is exactly `text`. */
  function FindIndex(qs: seq<QA>, text: string): (r: Option<nat>)
    ensures r.Some? ==> (r.value < |qs| && qs[r.value].question == text
                         && forall j :: 0 <= j < r.value ==> qs[j].question != text)
    ensures r.None? <==> forall j :: 0 <= j < |qs| ==> qs[j].question != text
  {
    if qs == [] then None
    else if qs[0].question == text then Some(0)
    else
      match FindIndex(qs[1..], text)
      case None => None
      case Some(i) => Some(i + 1)
  }

  /** The lookup in `handleSubmit`: `find` over the flattened catalogue. */
  function Lookup(topics: seq<Topic>, text: string): (r: Option<QA>)
    ensures r.Some? ==> r.value.question == text
  {
    var qs := Flatten(topics);
    match FindIndex(qs, text)
    case None => None
    case Some(i) => Some(qs[i])
  }

  /** The lookup finds the first matching question of the flattened catalogue, and misses only when none matches. */
  lemma LookupFirstMatch(topics: seq<Topic>, text: string)
    ensures var qs := Flatten(topics);
      match Lookup(topics, text)
      case None => forall j :: 0 <= j < |qs| ==> qs[j].question != text
      case Some(q) => (exists i :: 0 <= i < |qs| && qs[i] == q && q.question == text
                        && forall j :: 0 <= j < i ==> qs[j].question != text)
  {
    var qs := Flatten(topics);
    var idx := FindIndex(qs, text);
    if idx.Some? {
      assert 0 <= idx.value < |qs| && qs[idx.value] == Lookup(topics, text).value
        && forall j :: 0 <= j < idx.value ==> qs[j].question != text;
    }
  }

  /** Every question of the catalogue is found; only a text that is no catalogue question misses. */
  lemma LookupHitIff(topics: seq<Topic>, text: string)
    ensures Lookup(topics, text).Some? <==> exists q :: q in Flatten(topics) && q.question == text
  {
    var qs := Flatten(topics);
    if exists q :: q in qs && q.question == text {
      var q :| q in qs && q.question == text;
      var i :| 0 <= i < |qs| && qs[i] == q;
    }
  }

  /** The `toggleStarred` map: flip `starred` at `index` only. */
  function ToggleStarAt(history: seq<HistoryItem>, index: int): (r: seq<HistoryItem>)
    ensures |r| == |history|
    ensures forall i :: 0 <= i < |history| && i != index ==> r[i] == history[i]
    ensures 0 <= index < |history| ==> r[index] == history[index].(starred := !history[index].starred)
  {
    if history == [] then []
    else
      var h := history[0];
      [if index == 0 then h.(starred := !h.starred) else h] + ToggleStarAt(history[1..], index - 1)
  }

  lemma ToggleStarTwice(history: seq<HistoryItem>, index: int)
    ensures ToggleStarAt(ToggleStarAt(history, index), index) == history
  {
    var r := ToggleStarAt(ToggleStarAt(history, index), index);
    assert forall i :: 0 <= i < |history| ==> r[i] == history[i];
  }

  /**
   * The favourites tab: the starred entries. The history is newest first, so
   * a starred newest entry heads the tab, and an unstarred one is not in it.
   */
  function Favourites(history: seq<HistoryItem>): (r: seq<HistoryItem>)
    ensures |r| <= |history|
    ensures history != [] && history[0].starred ==> r != [] && r[0] == history[0]
    ensures history != [] && !history[0].starred ==> |r| < |history|
  {
    Seqs.Filter((h: HistoryItem) => h.starred, history)
  }

  /** The first entry is a favourite exactly when it is starred. */
  lemma FavouritesCons(history: seq<HistoryItem>)
    requires history != []
    ensures Favourites(history) == (if history[0].starred then [history[0]] else []) + Favourites(history[1..])
  {
  }

  /**
   * The favourites view is the starred part of the history, in order, with
   * each starred entry as many times as the history holds it.
   */
  lemma FavouritesSpec(history: seq<HistoryItem>)
    ensures Seqs.Subsequence(Favourites(history), history)
    ensures forall h :: h in Favourites(history) <==> h in history && h.starred
    ensures forall h :: multiset(Favourites(history))[h] == if h.starred then multiset(history)[h] else 0
  {
    Seqs.FilterIsSubsequence((h: HistoryItem) => h.starred, history);
    Seqs.FilterMembers((h: HistoryItem) => h.starred, history);
    Seqs.FilterCount((h: HistoryItem) => h.starred, history);
  }

  /**
   * The favourites tab as written passes the favourite's list position
   * straight to `toggleStarred`, that is `ToggleStarAt(history, k)`. With an
   * unstarred entry ahead of a starred one, pressing the star of the only
   * favourite stars the other entry and keeps the favourite.
   */
  lemma FavouriteToggleAsWrittenMisses(a: HistoryItem, b: HistoryItem)
    requires !a.starred && b.starred
    ensures Favourites([a, b]) == [b]
    ensures Favourites(ToggleStarAt([a, b], 0)) == [a.(starred := true), b]
  {
    var r := ToggleStarAt([a, b], 0);
    assert r == [a.(starred := true), b];
    assert [a, b][1..] == [b] && r[1..] == [b];
    FavouritesCons([b]);
    FavouritesCons([a, b]);
    FavouritesCons(r);
  }

  /** The history position of the `k`-th favourite. */
  function FavouriteIndex(history: seq<HistoryItem>, k: nat): (r: nat)
    requires k < |Favourites(history)|
    ensures r < |history| && history[r].starred
    ensures history[r] == Favourites(history)[k]
    ensures |Favourites(history[..r])| == k
  {
    FavouritesCons(history);
    if history[0].starred && k == 0 then
      assert Favourites(history[..0]) == [];
      0
    else
      var k' := if history[0].starred then k - 1 else k;
      var r := 1 + FavouriteIndex(history[1..], k');
      FavouriteIndexPrefix(history, r);
      r
  }

  /** The favourites before position `r` (r > 0) are the first entry's share and those of the rest before `r - 1`. */
  lemma FavouriteIndexPrefix(history: seq<HistoryItem>, r: nat)
    requires 0 < r <= |history|
    ensures Favourites(history[..r]) == (if history[0].starred then [history[0]] else []) + Favourites(history[1..][..r - 1])
  {
    var p := history[..r];
    FavouritesCons(p);
    assert p[0] == history[0];
    assert p[1..] == history[1..][..r - 1];
  }

  /** Toggling the rest of the list moves the position down by one. */
  lemma ToggleStarCons(history: seq<HistoryItem>, index: int)
    requires history != []
    ensures ToggleStarAt(history, index)[0] == (if index == 0 then history[0].(starred := !history[0].starred) else history[0])
    ensures ToggleStarAt(history, index)[1..] == ToggleStarAt(history[1..], index - 1)
  {
    var h := history[0];
    var r := ToggleStarAt(history, index);
    assert r == [if index == 0 then h.(starred := !h.starred) else h] + ToggleStarAt(history[1..], index - 1);
  }

  /** Toggling a position before the list, such as -1, changes nothing. */
  lemma ToggleStarOutside(history: seq<HistoryItem>, index: int)
    requires index < 0
    ensures ToggleStarAt(history, index) == history
  {
    assert forall j :: 0 <= j < |history| ==> ToggleStarAt(history, index)[j] == history[j];
  }

  /** Unstarring a starred newest entry removes the first favourite. */
  lemma UnstarHead(history: seq<HistoryItem>)
    requires history != [] && history[0].starred
    ensures Favourites(ToggleStarAt(history, 0)) == Favourites(history)[1..]
  {
    var r := ToggleStarAt(history, 0);
    FavouritesCons(history);
    FavouritesCons(r);
    ToggleStarCons(history, 0);
    ToggleStarOutside(history[1..], -1);
  }

  /** Unstarring a starred entry with `k` favourites before it removes the `k`-th favourite. */
  lemma {:induction false} UnstarRemoves(history: seq<HistoryItem>, i: nat, k: nat)
    requires i < |history| && history[i].starred
    requires k < |Favourites(history)| && |Favourites(history[..i])| == k
    ensures var favs := Favourites(history);
      Favourites(ToggleStarAt(history, i)) == favs[..k] + favs[k + 1..]
  {
    if i == 0 {
      assert history[..0] == [];
      UnstarHead(history);
    } else {
      var r := ToggleStarAt(history, i);
      var rest := history[1..];
      var head := if history[0].starred then [history[0]] else [];
      var favs := Favourites(history);
      var rf := Favourites(rest);
      FavouritesCons(history);
      assert favs == head + rf;
      ToggleStarCons(history, i);
      FavouritesCons(r);
      assert Favourites(r) == head + Favourites(ToggleStarAt(rest, i - 1));
      FavouriteIndexPrefix(history, i);
      var k' := k - |head|;
      assert |Favourites(rest[..i - 1])| == k';
      UnstarRemoves(rest, i - 1, k');
      assert favs[..k] == head + rf[..k'];
      assert favs[k + 1..] == rf[k' + 1..];
    }
  }

  /** Pressing the star of the `k`-th favourite, once the position is translated, removes exactly that favourite. */
  lemma FavouriteToggleRemoves(history: seq<HistoryItem>, k: nat)
    requires k < |Favourites(history)|
    ensures var favs := Favourites(history);
      Favourites(ToggleStarAt(history, FavouriteIndex(history, k))) == favs[..k] + favs[k + 1..]
  {
    UnstarRemoves(history, FavouriteIndex(history, k), k);
  }

  class TutorState {
    var question: string
    var isLoading: bool
    var response: Option<TutorResponse>
    var history: seq<HistoryItem>
    var activeTab: string

    constructor ()
      ensures question == "" && !isLoading && response == None && history == [] && activeTab == "ask"
    {
      question, isLoading, response := "", false, None;
      history, activeTab := [], "ask";
    }

    method SetQuestion(text: string)
      modifies this`question
      ensures question == text
    {
      question := text;
    }

    /** Clicking a catalogue question: it becomes the input and the "ask" tab opens. */
    method PickQuestion(q: QA)
      modifies this`question, this`activeTab
      ensures question == q.question && activeTab == "ask"
    {
      question, activeTab := q.question, "ask";
    }

    method SetActiveTab(tab: string)
      modifies this`activeTab
      ensures activeTab == tab
    {
      activeTab := tab;
    }

    /**
     * `handleSubmit`, with the delayed answer delivered in the same step. A
     * hit shows the response and puts an unstarred entry for it at the
     * front of the history; a miss leaves both alone. Loading ends either way.
     */
    method HandleSubmit()
      modifies this`isLoading, this`response, this`history
      ensures !isLoading
      ensures match Lookup(PopularTopics, question)
        case Some(q) =>
          response == Some(q.response)
          && history == [HistoryItem(question, q.response, false)] + old(history)
        case None => response == old(response) && history == old(history)
    {
      isLoading := true;
      var found := Lookup(PopularTopics, question);
      if found.Some? {
        response := Some(found.value.response);
        history := [HistoryItem(question, found.value.response, false)] + history;
      }
      isLoading := false;
    }

    /** `toggleStarred` from the history tab. */
    method ToggleStarred(index: int)
      modifies this`history
      ensures history == ToggleStarAt(old(history), index)
    {
      history := ToggleStarAt(history, index);
    }

    /** The favourites tab's star button, with the list position translated to the history position. */
    method ToggleFavourite(k: nat)
      requires k < |Favourites(history)|
      modifies this`history
      ensures history == ToggleStarAt(old(history), FavouriteIndex(old(history), k))
      ensures Favourites(history) == Favourites(old(history))[..k] + Favourites(old(history))[k + 1..]
    {
      FavouriteToggleRemoves(history, k);
      history := ToggleStarAt(history, FavouriteIndex(history, k));
    }
  }
}
