/** The calculations behind the users list: the page count, the sliding window of page
    buttons, the list of records in display order, the search filter, the previous/next
    buttons and the row that shows as busy while an action is under way. */
module UsersPage {
  import opened JsValues
  import opened UsersSlice

  const MaxPageButtons: int := 5

  /** `Math.ceil(total / perPage)` for a non-zero divisor, over the rationals. */
  function CeilDiv(total: int, perPage: int): (r: int)
    requires perPage != 0
    ensures perPage > 0 ==> (r - 1) * perPage < total <= r * perPage
    ensures perPage < 0 ==> r * perPage <= total < (r - 1) * perPage
  {
    if perPage > 0 then
      var q := (-total) / perPage;
      CeilDivBounds(total, perPage, q);
      -q
    else
      var q := total / (-perPage);
      CeilDivBounds(-total, -perPage, q);
      -q
  }

  lemma CeilDivBounds(t: int, p: int, q: int)
    requires p > 0 && q == (-t) / p
    ensures (-q - 1) * p < t <= -q * p
  {
    assert q * p <= -t < q * p + p;
  }

  /** `if (!per_page) return 1; return Math.ceil(total / per_page);`: a missing, null, NaN
      or zero `per_page` gives one page. */
  function TotalPages(total: int, perPage: JsNumber): (r: int)
    ensures !TruthyNumber(perPage) ==> r == 1
    ensures TruthyNumber(perPage) && perPage.value > 0 ==>
      (r - 1) * perPage.value < total <= r * perPage.value
    ensures TruthyNumber(perPage) && perPage.value > 0 && total >= 0 ==> r >= 0
  {
    if !TruthyNumber(perPage) then 1 else CeilDiv(total, perPage.value)
  }

  /** The consecutive integers from `lo` to `hi`, empty when `lo > hi`. */
  function Range(lo: int, hi: int): (r: seq<int>)
    ensures |r| == if lo <= hi then hi - lo + 1 else 0
    ensures forall i :: 0 <= i < |r| ==> r[i] == lo + i
  {
    if lo > hi then [] else seq(hi - lo + 1, i requires 0 <= i <= hi - lo => lo + i)
  }

  function Max(a: int, b: int): int { if a >= b then a else b }
  function Min(a: int, b: int): int { if a <= b then a else b }

  /** The first page button: two before the current page, but never below 1. */
  function WindowStart(page: int): int {
    Max(1, page - MaxPageButtons / 2)
  }

  /** The page buttons: a consecutive run from `WindowStart(page)`, at most five long and never
      past the last page. */
  function PageWindow(page: int, totalPages: int): (r: seq<int>)
    ensures |r| <= MaxPageButtons
    ensures forall i :: 0 <= i < |r| ==> r[i] == WindowStart(page) + i && 1 <= r[i] <= totalPages
    ensures totalPages <= 0 ==> r == []
    ensures 1 <= page <= totalPages ==> page in r
    ensures WindowStart(page) <= totalPages ==>
      |r| > 0 && r[|r| - 1] == Min(totalPages, WindowStart(page) + MaxPageButtons - 1)
  {
    var start := WindowStart(page);
    var r := Range(start, Min(totalPages, start + MaxPageButtons - 1));
    assert 1 <= page <= totalPages ==> r[page - start] == page;
    r
  }

  /** The loop that fills the `pages` array. */
  method PageNumbers(page: int, totalPages: int) returns (pages: seq<int>)
    ensures pages == PageWindow(page, totalPages)
  {
    pages := [];
    var startPage := Max(1, page - MaxPageButtons / 2);
    var endPage := Min(totalPages, startPage + MaxPageButtons - 1);
    var i := startPage;
    while i <= endPage
      invariant startPage <= i <= Max(startPage, endPage + 1)
      invariant pages == Range(startPage, i - 1)
    {
      pages := pages + [i];
      i := i + 1;
    }
  }

  /** `ids.map((id) => entities[id]).filter(Boolean)`: the records in list order, skipping
      ids that have no record. */
  function UserList(ids: seq<string>, entities: map<string, User>): (r: seq<User>)
    ensures |r| <= |ids|
    ensures forall u :: u in r ==> u in entities.Values
    ensures (forall id :: id in ids ==> id in entities) ==>
      |r| == |ids| && forall i :: 0 <= i < |ids| ==> r[i] == entities[ids[i]]
    decreases |ids|
  {
    if ids == [] then []
    else if ids[0] in entities then [entities[ids[0]]] + UserList(ids[1..], entities)
    else UserList(ids[1..], entities)
  }

  /** In a store whose keys are exactly its ids, no id is skipped. */
  lemma DisplayedListIsComplete(store: UsersStore)
    requires store.Valid()
    ensures |UserList(store.ids, store.entities)| == |store.ids|
  {
    assert forall id :: id in store.ids ==> id in Elems(store.ids);
  }

  /** `toLowerCase` on the ASCII letters. */
  function Lower(s: string): (r: string)
    ensures |r| == |s|
    ensures forall i :: 0 <= i < |s| ==> !('A' <= r[i] <= 'Z')
    ensures forall i :: 0 <= i < |s| && 'A' <= s[i] <= 'Z' ==> r[i] as int == s[i] as int + 32
    ensures forall i :: 0 <= i < |s| && !('A' <= s[i] <= 'Z') ==> r[i] == s[i]
  {
    seq(|s|, i requires 0 <= i < |s| => if 'A' <= s[i] <= 'Z' then (s[i] as int + 32) as char else s[i])
  }

  /** `sub` occurs in `s` starting at index `i`. */
  predicate OccursAt(s: string, sub: string, i: int) {
    0 <= i <= |s| - |sub| && s[i..i + |sub|] == sub
  }

  /** `s.includes(sub)` */
  predicate Contains(s: string, sub: string) {
    exists i :: 0 <= i <= |s| - |sub| && OccursAt(s, sub, i)
  }

  /** `user[field]?.toLowerCase().includes(query)`: a missing field never matches. */
  predicate FieldMatches(u: User, field: string, query: string) {
    field in u && Contains(Lower(u[field]), query)
  }

  /** The search test for an already lowercased query. */
  predicate Matches(u: User, query: string) {
    query == "" || FieldMatches(u, "email", query) || FieldMatches(u, "first_name", query)
    || FieldMatches(u, "last_name", query)
  }

  /** `userList.filter(...)` with the query already lowercased. */
  function FilterBy(users: seq<User>, query: string): (r: seq<User>)
    ensures |r| <= |users|
    ensures forall u :: u in r <==> u in users && Matches(u, query)
    ensures query == "" ==> r == users
    decreases |users|
  {
    if users == [] then []
    else if Matches(users[0], query) then [users[0]] + FilterBy(users[1..], query)
    else FilterBy(users[1..], query)
  }

  /** Filtering distributes over concatenation, so the kept records stay in list order. */
  lemma {:induction false} FilterByAppend(a: seq<User>, b: seq<User>, query: string)
    ensures FilterBy(a + b, query) == FilterBy(a, query) + FilterBy(b, query)
    decreases |a|
  {
    if a != [] {
      FilterByAppend(a[1..], b, query);
      assert (a + b)[1..] == a[1..] + b;
    } else {
      assert a + b == b;
    }
  }

  /** `filteredUsers`: an empty search keeps every record; otherwise exactly the records whose
      email, first name or last name contains the query, ignoring case. */
  function FilteredUsers(users: seq<User>, searchQuery: string): (r: seq<User>)
    ensures searchQuery == "" ==> r == users
    ensures forall u :: u in r <==> u in users && Matches(u, Lower(searchQuery))
  {
    FilterBy(users, Lower(searchQuery))
  }

  /** Lowercasing twice is lowercasing once. */
  lemma LowerIdempotent(s: string)
    ensures Lower(Lower(s)) == Lower(s)
  {
    assert forall i :: 0 <= i < |s| ==> Lower(Lower(s))[i] == Lower(s)[i];
  }

  /** The search ignores the case of the query. */
  lemma SearchIgnoresQueryCase(users: seq<User>, searchQuery: string)
    ensures FilteredUsers(users, Lower(searchQuery)) == FilteredUsers(users, searchQuery)
  {
    LowerIdempotent(searchQuery);
  }

  /** The page the "previous" button asks for; None while it is disabled (`page <= 1`). */
  function PrevTarget(page: int): (r: Option<int>)
    ensures r.Some? <==> page > 1
    ensures r.Some? ==> r.value == page - 1 && r.value >= 1
  {
    if page <= 1 then None else Some(page - 1)
  }

  /** The page the "next" button asks for; None while it is disabled (`page >= totalPages`). */
  function NextTarget(page: int, totalPages: int): (r: Option<int>)
    ensures r.Some? <==> page < totalPages
    ensures r.Some? ==> r.value == page + 1 && r.value <= totalPages
  {
    if page >= totalPages then None else Some(page + 1)
  }

  /** `isProcessingAction && processingItemId === user.id` */
  predicate RowLoading(isProcessingAction: bool, processingItemId: Option<string>, userId: string) {
    isProcessingAction && processingItemId == Some(userId)
  }

  /** At most one row shows busy, and none while no row is remembered or no action runs. */
  lemma BusyRowIsUnique(isProcessingAction: bool, processingItemId: Option<string>, a: string, b: string)
    ensures RowLoading(isProcessingAction, processingItemId, a) && RowLoading(isProcessingAction, processingItemId, b) ==> a == b
    ensures processingItemId.None? || !isProcessingAction ==> !RowLoading(isProcessingAction, processingItemId, a)
  {
  }

  /** The page's `processingItemId`: the id of the row whose action is under way. */
  class ActionTracker {
    var processingItemId: Option<string>

    constructor ()
      ensures processingItemId == None
    {
      processingItemId := None;
    }

    /** The first half of `handleAction(removeUser, userId)` after the user confirmed the
        deletion: remember the row and start the removal. Exactly that row shows busy. */
    method BeginRemove(store: UsersStore, userId: string)
      modifies this`processingItemId, store`isProcessingAction, store`error
      ensures processingItemId == Some(userId)
      ensures store.isProcessingAction && store.error == None
      ensures forall id :: RowLoading(store.isProcessingAction, processingItemId, id) <==> id == userId
    {
      processingItemId := Some(userId);
      store.RemoveUserPending();
    }

    /** The second half: the removal settles, then the row is forgotten, whatever the outcome.
        No row shows busy any more. */
    method SettleRemove(store: UsersStore, userId: string, succeeded: bool, message: Option<string>)
      requires store.Valid()
      modifies this`processingItemId, store`isProcessingAction, store`error, store`entities, store`ids
      ensures store.Valid()
      ensures processingItemId == None && !store.isProcessingAction
      ensures forall id :: !RowLoading(store.isProcessingAction, processingItemId, id)
      ensures succeeded ==>
        && store.entities == old(store.entities) - {userId}
        && store.ids == Without(old(store.ids), userId)
        && store.error == old(store.error)
      ensures !succeeded ==>
        && store.entities == old(store.entities) && store.ids == old(store.ids)
        && store.error == Some(Or(message, RemoveUserFallback))
    {
      if succeeded {
        store.RemoveUserFulfilled(userId);
      } else {
        store.RemoveUserRejected(message);
      }
      processingItemId := None;
    }

    /** `handleAction(removeUser, userId)`: both halves in turn. */
    method HandleRemove(store: UsersStore, userId: string, succeeded: bool, message: Option<string>)
      requires store.Valid()
      modifies this`processingItemId, store`isProcessingAction, store`error, store`entities, store`ids
      ensures store.Valid()
      ensures processingItemId == None && !store.isProcessingAction
      ensures succeeded ==>
        && store.entities == old(store.entities) - {userId}
        && store.ids == Without(old(store.ids), userId)
        && store.error == None
      ensures !succeeded ==>
        && store.entities == old(store.entities) && store.ids == old(store.ids)
        && store.error == Some(Or(message, RemoveUserFallback))
    {
      BeginRemove(store, userId);
      SettleRemove(store, userId, succeeded, message);
    }
  }
}
