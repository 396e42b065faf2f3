/** The custom test cases of the result drawer: a draft of two text fields, a guarded
    add that stamps the case with the clock, and removal by id. */
module ResultDrawer {
  import opened Text

  /** The draft `newTestCase`. */
  datatype Draft = Draft(input: string, expected: string)

  /** `{ ...newTestCase, id: Date.now(), isCustom: true }` */
  datatype CustomCase = CustomCase(input: string, expected: string, id: int, isCustom: bool)

  const EmptyDraft: Draft := Draft("", "")

  /** The Add button is enabled: the negation of
      `!newTestCase.input.trim() || !newTestCase.expected.trim()`. */
  predicate AddEnabled(d: Draft) {
    Trim(d.input) != [] && Trim(d.expected) != []
  }

  /** A draft whose fields are white space only cannot be added. */
  lemma BlankDraftDisabled(d: Draft)
    requires forall i :: 0 <= i < |d.input| ==> IsSpace(d.input[i])
    ensures !AddEnabled(d)
  {
  }

  /** The case made from the draft at clock reading `now`. */
  function CaseOf(d: Draft, now: int): (c: CustomCase)
    ensures c.input == d.input && c.expected == d.expected && c.id == now && c.isCustom
  {
    CustomCase(d.input, d.expected, now, true)
  }

  /** `customTestCases.filter(tc => tc.id !== id)` */
  function WithoutId(cases: seq<CustomCase>, id: int): (r: seq<CustomCase>)
    ensures |r| <= |cases|
    ensures forall c :: c in r <==> c in cases && c.id != id
  {
    if cases == [] then []
    else if cases[0].id != id then [cases[0]] + WithoutId(cases[1..], id)
    else WithoutId(cases[1..], id)
  }

  /** Removal works piece by piece, so the kept entries stay in their order. */
  lemma {:induction false} WithoutIdConcat(a: seq<CustomCase>, b: seq<CustomCase>, id: int)
    ensures WithoutId(a + b, id) == WithoutId(a, id) + WithoutId(b, id)
  {
    if a != [] {
      assert (a + b)[0] == a[0] && (a + b)[1..] == a[1..] + b;
      WithoutIdConcat(a[1..], b, id);
    } else {
      assert a + b == b;
    }
  }

  /** Removing an id nobody has changes nothing. */
  lemma {:induction false} WithoutAbsentId(cases: seq<CustomCase>, id: int)
    requires forall j :: 0 <= j < |cases| ==> cases[j].id != id
    ensures WithoutId(cases, id) == cases
  {
    if cases != [] {
      WithoutAbsentId(cases[1..], id);
    }
  }

  /** Removing the case just added, when its id is new, restores the list. */
  lemma RemoveUndoesAdd(cases: seq<CustomCase>, d: Draft, now: int)
    requires forall j :: 0 <= j < |cases| ==> cases[j].id != now
    ensures WithoutId(cases + [CaseOf(d, now)], now) == cases
  {
    WithoutIdConcat(cases, [CaseOf(d, now)], now);
    WithoutAbsentId(cases, now);
  }

  /** Two cases added within the same clock tick share an id, and removing one of them
      removes both. */
  lemma SameTickRemovesBoth(d1: Draft, d2: Draft, now: int)
    ensures WithoutId([CaseOf(d1, now), CaseOf(d2, now)], now) == []
  {
  }

  /** The drawer's two state cells. */
  class Drawer {
    var customTestCases: seq<CustomCase>
    var newTestCase: Draft

    /** Every listed case came from the Add button. */
    predicate Valid()
      reads this
    {
      forall j :: 0 <= j < |customTestCases| ==> customTestCases[j].isCustom
    }

    constructor ()
      ensures Valid() && customTestCases == [] && newTestCase == EmptyDraft
    {
      customTestCases := [];
      newTestCase := EmptyDraft;
    }

    /** The input text area's change handler, `{ ...newTestCase, input: value }`. */
    method EditInput(value: string)
      modifies this
      ensures newTestCase == old(newTestCase).(input := value)
      ensures customTestCases == old(customTestCases)
    {
      newTestCase := newTestCase.(input := value);
    }

    /** The expected-output text area's change handler. */
    method EditExpected(value: string)
      modifies this
      ensures newTestCase == old(newTestCase).(expected := value)
      ensures customTestCases == old(customTestCases)
    {
      newTestCase := newTestCase.(expected := value);
    }

    /** `addCustomTestCase`, with `now` the clock reading. */
    method AddCustomTestCase(now: int)
      requires Valid()
      modifies this
      ensures Valid()
      ensures !AddEnabled(old(newTestCase)) ==>
        customTestCases == old(customTestCases) && newTestCase == old(newTestCase)
      ensures AddEnabled(old(newTestCase)) ==>
        customTestCases == old(customTestCases) + [CaseOf(old(newTestCase), now)]
        && newTestCase == EmptyDraft
    {
      var draft := newTestCase;
      if AddEnabled(draft) {
        Append(CaseOf(draft, now));
      }
    }

    /** The list grown by one case made by the Add button, and the draft cleared. */
    method Append(c: CustomCase)
      requires Valid() && c.isCustom
      modifies this
      ensures Valid() && customTestCases == old(customTestCases) + [c] && newTestCase == EmptyDraft
    {
      customTestCases, newTestCase := customTestCases + [c], EmptyDraft;
    }

    /** `removeCustomTestCase(id)` */
    method RemoveCustomTestCase(id: int)
      requires Valid()
      modifies this
      ensures Valid()
      ensures customTestCases == WithoutId(old(customTestCases), id)
      ensures newTestCase == old(newTestCase)
    {
      customTestCases := WithoutId(customTestCases, id);
    }
  }
}
