/** The question list of the dashboard: search, pagination, the page-number window,
    completion marks and the difficulty badge style. */
module QuestionTable {
  import opened Results
  import opened Text

  /** A row of the table. `kind` is the question's `type`; absent fields are `None`. */
  datatype Question = Question(id: string, title: Option<string>, kind: Option<string>, difficulty: Option<string>)

  const ItemsPerPage: nat := 10

  /** `field?.toLowerCase().includes(term.toLowerCase())` */
  predicate FieldMatches(field: Option<string>, term: string) {
    field.Some? && Contains(Lower(field.value), Lower(term))
  }

  /** The search predicate: title, type or difficulty contains the term, ignoring case. */
  predicate Matches(q: Question, term: string) {
    FieldMatches(q.title, term) || FieldMatches(q.kind, term) || FieldMatches(q.difficulty, term)
  }

  /** `data.filter(item => ...)`: the matching questions, in their order. */
  function Filter(items: seq<Question>, term: string): (r: seq<Question>)
    ensures |r| <= |items|
    ensures forall q :: q in r <==> q in items && Matches(q, term)
  {
    if items == [] then []
    else if Matches(items[0], term) then [items[0]] + Filter(items[1..], term)
    else Filter(items[1..], term)
  }

  /** Filtering keeps the list's order: the matches of a concatenation are the matches of
      the first part followed by those of the second. */
  lemma {:induction false} FilterConcat(a: seq<Question>, b: seq<Question>, term: string)
    ensures Filter(a + b, term) == Filter(a, term) + Filter(b, term)
  {
    if a == [] {
      assert a + b == b;
    } else {
      assert (a + b)[1..] == a[1..] + b;
      FilterConcat(a[1..], b, term);
    }
  }

  /** Filtering twice with the same term changes nothing. */
  lemma {:induction false} FilterIdempotent(items: seq<Question>, term: string)
    ensures Filter(Filter(items, term), term) == Filter(items, term)
  {
    if items != [] {
      FilterIdempotent(items[1..], term);
    }
  }

  /** A question with no title, type or difficulty is never listed, whatever the term. */
  lemma UnlabelledNeverListed(items: seq<Question>, term: string, q: Question)
    requires q.title.None? && q.kind.None? && q.difficulty.None?
    ensures q !in Filter(items, term)
  {
  }

  /** With an empty search term exactly the questions with at least one of the three
      fields are listed. */
  lemma EmptyTermListsLabelled(items: seq<Question>, q: Question)
    ensures q in Filter(items, "") <==>
      q in items && (q.title.Some? || q.kind.Some? || q.difficulty.Some?)
  {
    assert Lower("") == "";
    if q.title.Some? { assert StartsWith(Lower(q.title.value), ""); }
    if q.kind.Some? { assert StartsWith(Lower(q.kind.value), ""); }
    if q.difficulty.Some? { assert StartsWith(Lower(q.difficulty.value), ""); }
  }

  /** Refining the search (a term whose lower-case form contains the old one's) can only
      shorten the list. */
  lemma RefinedSearchNarrows(items: seq<Question>, term: string, longer: string, q: Question)
    requires Contains(Lower(longer), Lower(term))
    ensures q in Filter(items, longer) ==> q in Filter(items, term)
  {
    if q in Filter(items, longer) {
      FieldNarrows(q.title, term, longer);
      FieldNarrows(q.kind, term, longer);
      FieldNarrows(q.difficulty, term, longer);
    }
  }

  lemma FieldNarrows(field: Option<string>, term: string, longer: string)
    requires Contains(Lower(longer), Lower(term))
    ensures FieldMatches(field, longer) ==> FieldMatches(field, term)
  {
    if FieldMatches(field, longer) {
      var f := Lower(field.value);
      ContainsAt(f, Lower(longer));
      var i: nat :| OccursAt(f, Lower(longer), i);
      ContainsThroughPiece(f, Lower(longer), i, Lower(term));
    }
  }

  /** `(currentPage - 1) * itemsPerPage` */
  function StartIndex(page: int): int {
    (page - 1) * ItemsPerPage as int
  }

  /** `filteredData.slice(startIndex, endIndex)` for a page number of at least 1. */
  function PageItems(items: seq<Question>, page: int): (r: seq<Question>)
    requires page >= 1
    ensures StartIndex(page) >= |items| ==> r == []
    ensures StartIndex(page) < |items| ==>
      |r| == (if |items| - StartIndex(page) < ItemsPerPage then |items| - StartIndex(page) else ItemsPerPage)
    ensures forall k :: 0 <= k < |r| ==> r[k] == items[StartIndex(page) + k]
  {
    var s := StartIndex(page);
    var r := Slice(items, s, s + ItemsPerPage);
    if s < |items| then
      var e := if s + ItemsPerPage <= |items| then s + ItemsPerPage else |items|;
      assert r == items[s..e];
      r
    else r
  }

  /** `Math.ceil(filteredData.length / itemsPerPage)` */
  function TotalPages(n: nat): (r: nat)
    ensures (r - 1) * ItemsPerPage < n <= r * ItemsPerPage || (n == 0 && r == 0)
  {
    (n + ItemsPerPage - 1) / ItemsPerPage
  }

  /** Every page up to `TotalPages` shows at least one question, and no later page shows
      any. */
  lemma PagesCoverList(items: seq<Question>, page: int)
    requires page >= 1
    ensures page <= TotalPages(|items|) <==> PageItems(items, page) != []
  {
  }

  /** The "Showing a to b" header: the first and last position on the page, counted
      from 1. */
  function ShowingRange(n: nat, page: int): (r: (int, int))
    ensures r.0 == StartIndex(page) + 1
    ensures r.1 == (if StartIndex(page) + ItemsPerPage < n then StartIndex(page) + ItemsPerPage else n)
  {
    var s := StartIndex(page);
    var e := s + ItemsPerPage;
    (s + 1, if e < n then e else n)
  }

  /** The header counts exactly the questions on a non-empty page. */
  lemma ShowingMatchesPage(items: seq<Question>, page: int)
    requires page >= 1 && PageItems(items, page) != []
    ensures ShowingRange(|items|, page).1 - ShowingRange(|items|, page).0 + 1 == |PageItems(items, page)|
  {
  }

  /** Previous: `Math.max(1, prev - 1)` */
  function PreviousPage(page: int): (r: int)
    ensures r >= 1
    ensures page > 1 ==> r == page - 1
  {
    if page - 1 < 1 then 1 else page - 1
  }

  /** Next: `Math.min(totalPages, prev + 1)` */
  function NextPage(page: int, total: nat): (r: int)
    ensures r <= total
    ensures page < total ==> r == page + 1
  {
    if total < page + 1 then total else page + 1
  }

  /** The page number shown on button `i` of the window. */
  function WindowPage(page: int, total: nat, i: nat): (r: int)
    ensures i < 5 && i < total ==> 1 <= r <= total
  {
    if total <= 5 then i + 1
    else if page <= 3 then i + 1
    else if page >= total - 2 then total - 4 + i
    else page - 2 + i
  }

  /** `Array.from({ length: Math.min(5, totalPages) }, ...)` */
  function PageWindow(page: int, total: nat): (r: seq<int>)
    ensures |r| == (if total < 5 then total else 5)
    ensures forall i :: 0 <= i < |r| ==> r[i] == WindowPage(page, total, i)
  {
    seq(if total < 5 then total else 5, i requires 0 <= i => WindowPage(page, total, i))
  }

  /** The window is a run of consecutive page numbers inside `1..total`, and it shows the
      current page whenever that page exists. */
  lemma WindowShape(page: int, total: nat)
    ensures var w := PageWindow(page, total);
      && (forall i :: 0 <= i < |w| ==> w[i] == w[0] + i)
      && (forall i :: 0 <= i < |w| ==> 1 <= w[i] <= total)
      && (1 <= page <= total ==> page in w)
  {
    var w := PageWindow(page, total);
    if 1 <= page <= total {
      var i := page - w[0];
      assert 0 <= i < |w| && w[i] == page;
    }
  }

  /** `prev.includes(id) ? prev.filter(q => q !== id) : [...prev, id]` */
  function Toggled(ids: seq<string>, id: string): (r: seq<string>)
    ensures id in ids ==> id !in r
    ensures id !in ids ==> r == ids + [id]
    ensures forall x :: x != id ==> (x in r <==> x in ids)
  {
    if id in ids then RemoveAll(ids, id) else ids + [id]
  }

  /** `ids.filter(x => x !== id)` */
  function RemoveAll(ids: seq<string>, id: string): (r: seq<string>)
    ensures |r| <= |ids|
    ensures forall x :: x in r <==> x in ids && x != id
    ensures id !in ids ==> r == ids
  {
    if ids == [] then []
    else if ids[0] == id then RemoveAll(ids[1..], id)
    else [ids[0]] + RemoveAll(ids[1..], id)
  }

  /** Toggling twice restores membership for every id, and restores the very list when
      the id was not there. */
  lemma ToggleTwice(ids: seq<string>, id: string)
    ensures forall x :: x in Toggled(Toggled(ids, id), id) <==> x in ids
    ensures id !in ids ==> Toggled(Toggled(ids, id), id) == ids
  {
    if id !in ids {
      RemoveAppended(ids, id);
    }
  }

  lemma {:induction false} RemoveAppended(ids: seq<string>, id: string)
    requires id !in ids
    ensures RemoveAll(ids + [id], id) == ids
  {
    if ids == [] {
      assert [id][1..] == [];
    } else {
      assert (ids + [id])[1..] == ids[1..] + [id];
      RemoveAppended(ids[1..], id);
    }
  }

  const EasyStyle: string := "text-green-700 bg-green-50 border-green-200"
  const MediumStyle: string := "text-orange-700 bg-orange-50 border-orange-200"
  const HardStyle: string := "text-red-700 bg-red-50 border-red-200"
  const OtherStyle: string := "text-gray-700 bg-gray-50 border-gray-200"

  /** `getDifficultyColor(difficulty)` */
  function DifficultyStyle(difficulty: Option<string>): (r: string)
    ensures r in {EasyStyle, MediumStyle, HardStyle, OtherStyle}
    ensures difficulty.None? ==> r == OtherStyle
    ensures difficulty.Some? && Upper(difficulty.value) == "EASY" ==> r == EasyStyle
    ensures difficulty.Some? && Upper(difficulty.value) == "MEDIUM" ==> r == MediumStyle
    ensures difficulty.Some? && Upper(difficulty.value) == "HARD" ==> r == HardStyle
    ensures difficulty.Some? && Upper(difficulty.value) !in {"EASY", "MEDIUM", "HARD"} ==>
      r == OtherStyle
  {
    if difficulty.None? then OtherStyle
    else
      var d := Upper(difficulty.value);
      if d == "EASY" then EasyStyle
      else if d == "MEDIUM" then MediumStyle
      else if d == "HARD" then HardStyle
      else OtherStyle
  }

  lemma {:induction false} UpperIdempotent(s: string)
    ensures Upper(Upper(s)) == Upper(s)
  {
    var u := Upper(s);
    assert forall i :: 0 <= i < |s| ==> UpperChar(u[i]) == u[i];
  }

  /** The badge ignores case: a value and its upper-case form get the same style. */
  lemma StyleIgnoresCase(s: string)
    ensures DifficultyStyle(Some(s)) == DifficultyStyle(Some(Upper(s)))
  {
    UpperIdempotent(s);
  }

  /** Spelled in any case, the three levels get green, orange and red. */
  lemma KnownLevels()
    ensures DifficultyStyle(Some("easy")) == EasyStyle
    ensures DifficultyStyle(Some("Medium")) == MediumStyle
    ensures DifficultyStyle(Some("HARD")) == HardStyle
  {
    UpperEasy();
    UpperMedium();
    assert Upper("HARD") == "HARD";
  }

  lemma UpperEasy()
    ensures Upper("easy") == "EASY"
  {
    assert Upper("easy")[0] == 'E';
  }

  lemma UpperMedium()
    ensures Upper("Medium") == "MEDIUM"
  {
    assert Upper("Medium")[1] == 'E';
  }

  /** The badge tells the levels apart: each style is given exactly to the values whose
      upper-case form names its level, and the neutral one to everything else. */
  lemma StyleIdentifiesLevel(difficulty: Option<string>)
    ensures DifficultyStyle(difficulty) == EasyStyle <==>
      difficulty.Some? && Upper(difficulty.value) == "EASY"
    ensures DifficultyStyle(difficulty) == MediumStyle <==>
      difficulty.Some? && Upper(difficulty.value) == "MEDIUM"
    ensures DifficultyStyle(difficulty) == HardStyle <==>
      difficulty.Some? && Upper(difficulty.value) == "HARD"
    ensures DifficultyStyle(difficulty) == OtherStyle <==>
      difficulty.None? || Upper(difficulty.value) !in {"EASY", "MEDIUM", "HARD"}
  {
  }

  /** Any other level gets the neutral style. */
  lemma UnknownLevel()
    ensures DifficultyStyle(Some("Expert")) == OtherStyle
  {
    assert Upper("Expert")[0] == 'E' && Upper("Expert")[1] == 'X';
  }

  /** The table's state cells. */
  class Table {
    var data: seq<Question>
    var filtered: seq<Question>
    var completed: seq<string>
    var searchTerm: string
    var currentPage: int

    /** The filtered list follows the data and the term, and a page is at least 1. */
    predicate Valid()
      reads this
    {
      filtered == Filter(data, searchTerm) && currentPage >= 1
    }

    constructor ()
      ensures Valid()
      ensures data == [] && filtered == [] && completed == [] && searchTerm == "" && currentPage == 1
    {
      data := [];
      filtered := [];
      completed := [];
      searchTerm := "";
      currentPage := 1;
    }

    function Pages(): nat
      reads this
    {
      TotalPages(|filtered|)
    }

    /** The rows on the current page. */
    function Visible(): seq<Question>
      reads this
      requires Valid()
    {
      PageItems(filtered, currentPage)
    }

    /** Loading the questions, then the filter effect that follows. */
    method SetData(questions: seq<Question>)
      modifies this
      ensures Valid()
      ensures data == questions && filtered == Filter(questions, searchTerm) && currentPage == 1
      ensures Visible() == PageItems(Filter(questions, searchTerm), 1)
      ensures completed == old(completed) && searchTerm == old(searchTerm)
    {
      data := questions;
      filtered := Filter(questions, searchTerm);
      currentPage := 1;
    }

    /** Typing in the search box: the list is filtered again and the page resets to 1. */
    method SetSearchTerm(term: string)
      modifies this
      ensures Valid()
      ensures searchTerm == term && filtered == Filter(data, term) && currentPage == 1
      ensures Visible() == PageItems(Filter(data, term), 1)
      ensures data == old(data) && completed == old(completed)
    {
      searchTerm := term;
      filtered := Filter(data, term);
      currentPage := 1;
    }

    method ToggleCompletion(id: string)
      modifies this
      ensures completed == Toggled(old(completed), id)
      ensures data == old(data) && filtered == old(filtered) && searchTerm == old(searchTerm)
      ensures currentPage == old(currentPage)
    {
      completed := Toggled(completed, id);
    }

    method Previous()
      requires Valid()
      modifies this
      ensures Valid()
      ensures currentPage == PreviousPage(old(currentPage))
      ensures Visible() == PageItems(filtered, PreviousPage(old(currentPage)))
      ensures data == old(data) && filtered == old(filtered) && completed == old(completed)
      ensures searchTerm == old(searchTerm)
    {
      currentPage := PreviousPage(currentPage);
    }

    /** Next is on screen only when there is more than one page. */
    method Next()
      requires Valid() && Pages() > 1
      modifies this
      ensures Valid()
      ensures currentPage == NextPage(old(currentPage), Pages())
      ensures Visible() == PageItems(filtered, NextPage(old(currentPage), Pages()))
      ensures data == old(data) && filtered == old(filtered) && completed == old(completed)
      ensures searchTerm == old(searchTerm)
    {
      currentPage := NextPage(currentPage, Pages());
    }

    /** A click on a button of the page window. */
    method GoToPage(i: nat)
      requires Valid() && i < |PageWindow(currentPage, Pages())|
      modifies this
      ensures Valid()
      ensures currentPage == PageWindow(old(currentPage), old(Pages()))[i]
      ensures 1 <= currentPage <= old(Pages())
      ensures Visible() == PageItems(filtered, PageWindow(old(currentPage), old(Pages()))[i])
      ensures data == old(data) && filtered == old(filtered) && completed == old(completed)
      ensures searchTerm == old(searchTerm)
    {
      WindowShape(currentPage, Pages());
      currentPage := PageWindow(currentPage, Pages())[i];
    }
  }
}
