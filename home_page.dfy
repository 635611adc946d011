/**
 * The shopping-list overview (frontend/src/pages/HomePage.tsx): the search
 * and status filter over the lists, and the local list updates after a list
 * is created or deleted.
 */
module HomePage {
  import opened Wrappers
  import opened JsText
  import opened Types
  import Seqs

  /** The search test: the name, or a non-empty description, contains the term. */
  predicate MatchesSearch(l: ShoppingList, searchTerm: string)
  {
    ContainsIgnoringCase(l.name, searchTerm) ||
    (l.description.Some? && l.description.value != "" && ContainsIgnoringCase(l.description.value, searchTerm))
  }

  /** The status filter: `'active'`, `'completed'`, anything else keeps every list. */
  predicate MatchesStatus(l: ShoppingList, filterCompleted: string)
  {
    if filterCompleted == "active" then !l.isCompleted
    else if filterCompleted == "completed" then l.isCompleted
    else true
  }

  /** A list is shown when it passes both filters; an empty search passes everything. */
  predicate Shown(l: ShoppingList, searchTerm: string, filterCompleted: string)
  {
    (searchTerm == "" || MatchesSearch(l, searchTerm)) && MatchesStatus(l, filterCompleted)
  }

  function BySearch(lists: seq<ShoppingList>, searchTerm: string): seq<ShoppingList>
  {
    if searchTerm != "" then Seqs.Filter(lists, (l: ShoppingList) => MatchesSearch(l, searchTerm)) else lists
  }

  /** `filterLists`: the search filter, then the status filter. */
  function FilterLists(lists: seq<ShoppingList>, searchTerm: string, filterCompleted: string): seq<ShoppingList>
  {
    var filtered := BySearch(lists, searchTerm);
    if filterCompleted == "active" then Seqs.Filter(filtered, (l: ShoppingList) => !l.isCompleted)
    else if filterCompleted == "completed" then Seqs.Filter(filtered, (l: ShoppingList) => l.isCompleted)
    else filtered
  }

  /** The two filters in a row are one filter by `Shown`. */
  lemma {:induction false} FilterListsIsOneFilter(lists: seq<ShoppingList>, searchTerm: string, filterCompleted: string)
    ensures FilterLists(lists, searchTerm, filterCompleted)
         == Seqs.Filter(lists, (l: ShoppingList) => Shown(l, searchTerm, filterCompleted))
  {
    var shown := (l: ShoppingList) => Shown(l, searchTerm, filterCompleted);
    var status := (l: ShoppingList) => MatchesStatus(l, filterCompleted);
    var search := (l: ShoppingList) => MatchesSearch(l, searchTerm);
    var filtered := BySearch(lists, searchTerm);
    if filterCompleted == "active" || filterCompleted == "completed" {
      var second := if filterCompleted == "active" then (l: ShoppingList) => !l.isCompleted else (l: ShoppingList) => l.isCompleted;
      assert FilterLists(lists, searchTerm, filterCompleted) == Seqs.Filter(filtered, second);
      if searchTerm != "" {
        Seqs.FilterFilter(lists, search, second, shown);
      } else {
        Seqs.FilterSameTest(lists, second, shown);
      }
    } else {
      if searchTerm != "" {
        Seqs.FilterSameTest(lists, search, shown);
      } else {
        Seqs.FilterKeepsAll(lists, shown);
      }
    }
  }

  /** The shown lists are exactly the lists passing both filters, in their original order. */
  lemma FilterListsMeaning(lists: seq<ShoppingList>, searchTerm: string, filterCompleted: string)
    ensures Seqs.IsSubsequence(FilterLists(lists, searchTerm, filterCompleted), lists)
    ensures forall l :: l in FilterLists(lists, searchTerm, filterCompleted) ==> Shown(l, searchTerm, filterCompleted)
    ensures forall i :: 0 <= i < |lists| && Shown(lists[i], searchTerm, filterCompleted) ==>
      lists[i] in FilterLists(lists, searchTerm, filterCompleted)
  {
    FilterListsIsOneFilter(lists, searchTerm, filterCompleted);
    Seqs.FilterIsSubsequence(lists, (l: ShoppingList) => Shown(l, searchTerm, filterCompleted));
  }

  /** `'active'` shows only open lists and `'completed'` only completed ones. */
  lemma StatusFilterMeaning(lists: seq<ShoppingList>, searchTerm: string)
    ensures forall l :: l in FilterLists(lists, searchTerm, "active") ==> !l.isCompleted
    ensures forall l :: l in FilterLists(lists, searchTerm, "completed") ==> l.isCompleted
  {
    FilterListsMeaning(lists, searchTerm, "active");
    FilterListsMeaning(lists, searchTerm, "completed");
  }

  /** No search and `'all'` show every list as it is. */
  lemma NoFilterShowsAll(lists: seq<ShoppingList>)
    ensures FilterLists(lists, "", "all") == lists
  {
  }

  // ---------------------------------------------------------------------------
  // Create and delete

  datatype ListForm = ListForm(name: string, description: string, totalBudget: Option<int>)

  const EmptyListForm: ListForm := ListForm("", "", None)

  datatype HomeState = HomeState(lists: seq<ShoppingList>, form: ListForm, showNewListModal: bool)

  /**
   * `handleCreateList`: a blank name is refused and nothing changes;
   * otherwise `created` (the service's answer) goes first, the modal closes
   * and the form is cleared.
   */
  function HandleCreateList(s: HomeState, created: ShoppingList): (r: HomeState)
    ensures Trim(s.form.name) == "" ==> r == s
    ensures Trim(s.form.name) != "" ==>
      |r.lists| == |s.lists| + 1 && r.lists[0] == created && r.lists[1..] == s.lists &&
      r.form == EmptyListForm && !r.showNewListModal
  {
    if Trim(s.form.name) == "" then s
    else HomeState([created] + s.lists, EmptyListForm, false)
  }

  /** `handleDeleteList`: every list with another id stays, in order. */
  function HandleDeleteList(lists: seq<ShoppingList>, id: int): (r: seq<ShoppingList>)
    ensures Seqs.IsSubsequence(r, lists)
    ensures forall i :: 0 <= i < |r| ==> r[i].id != id
    ensures forall i :: 0 <= i < |lists| && lists[i].id != id ==> lists[i] in r
  {
    Seqs.FilterIsSubsequence(lists, (l: ShoppingList) => l.id != id);
    Seqs.Filter(lists, (l: ShoppingList) => l.id != id)
  }

  /** Deleting a list just created, whose id was new, gives back the lists from before. */
  lemma {:induction false} DeleteUndoesCreate(s: HomeState, created: ShoppingList)
    requires Trim(s.form.name) != ""
    requires forall i :: 0 <= i < |s.lists| ==> s.lists[i].id != created.id
    ensures HandleDeleteList(HandleCreateList(s, created).lists, created.id) == s.lists
  {
    Seqs.FilterKeepsAll(s.lists, (l: ShoppingList) => l.id != created.id);
    assert ([created] + s.lists)[1..] == s.lists;
  }
}
