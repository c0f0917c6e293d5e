/** The normalised user collection store: a map from id to user record plus the ordered list
    of ids on display, the page counters, two busy flags, the last error and the single
    "selected user" slot. Every asynchronous operation is three transitions of the store
    (pending, fulfilled, rejected), each a method below; the gateway's answer is the
    argument of the fulfilled or rejected transition. */
module UsersSlice {
  import opened JsValues

  /** A user record as the API sends it: a flat JSON object of named fields
      (`id`, `email`, `first_name`, `last_name`, `avatar`, ...). */
  type User = map<string, string>

  /** The property key a record is stored under, `String(user.id)`; a record without an `id`
      lands under "undefined", as a JavaScript object key would. */
  function IdOf(u: User): string {
    if "id" in u then u["id"] else "undefined"
  }

  /** The body of `GET /users?page=N`. */
  datatype PageResponse = PageResponse(data: seq<User>, page: int, total: int, perPage: int)

  /** How a request to the gateway settled: the response body, or a failure whose error may
      carry a message. */
  datatype Outcome = Succeeded(body: User) | Failed(message: Option<string>)

  const LoadUsersFallback: string := "Failed to load users."
  const LoadUserFallback: string := "Failed to load user."
  const AddUserFallback: string := "Failed to add user."
  const EditUserFallback: string := "Failed to edit user."
  const RemoveUserFallback: string := "Failed to remove user."

  function Elems(ids: seq<string>): set<string> {
    set id | id in ids
  }

  /** `data.map((user) => user.id)` */
  function Ids(data: seq<User>): seq<string> {
    seq(|data|, i requires 0 <= i < |data| => IdOf(data[i]))
  }

  /** `data.reduce((acc, user) => { acc[user.id] = user; return acc; }, {})` */
  function Normalize(data: seq<User>): map<string, User>
    decreases |data|
  {
    if data == [] then map[]
    else Normalize(data[..|data| - 1])[IdOf(data[|data| - 1]) := data[|data| - 1]]
  }

  /** The normalised map is keyed by exactly the ids of the page. */
  lemma {:induction false} NormalizeKeys(data: seq<User>)
    ensures Normalize(data).Keys == Elems(Ids(data))
    decreases |data|
  {
    if data != [] {
      var init := data[..|data| - 1];
      NormalizeKeys(init);
      assert Ids(data) == Ids(init) + [IdOf(data[|data| - 1])];
    }
  }

  /** Under each key sits the last record of the page that carries that id: a later
      duplicate overwrites an earlier one. */
  lemma {:induction false} NormalizeLastWins(data: seq<User>, i: nat)
    requires i < |data|
    requires forall j :: i < j < |data| ==> IdOf(data[j]) != IdOf(data[i])
    ensures IdOf(data[i]) in Normalize(data) && Normalize(data)[IdOf(data[i])] == data[i]
    decreases |data|
  {
    if i < |data| - 1 {
      var init := data[..|data| - 1];
      NormalizeLastWins(init, i);
    }
  }

  /** `ids.filter((x) => String(x) !== String(id))`: ids are strings here, so the string
      forms are the ids themselves. */
  function Without(ids: seq<string>, id: string): (r: seq<string>)
    ensures forall x :: x in r <==> x in ids && x != id
    ensures |r| <= |ids|
    ensures id !in ids ==> r == ids
    decreases |ids|
  {
    if ids == [] then []
    else if ids[0] == id then Without(ids[1..], id)
    else [ids[0]] + Without(ids[1..], id)
  }

  /** Filtering distributes over concatenation, so the ids that stay keep their order. */
  lemma {:induction false} WithoutAppend(a: seq<string>, b: seq<string>, id: string)
    ensures Without(a + b, id) == Without(a, id) + Without(b, id)
    decreases |a|
  {
    if a != [] {
      WithoutAppend(a[1..], b, id);
      assert (a + b)[1..] == a[1..] + b;
    } else {
      assert a + b == b;
    }
  }

  class UsersStore {
    var entities: map<string, User>
    var ids: seq<string>
    var page: int
    var total: int
    var perPage: int
    var isLoadingList: bool
    var isProcessingAction: bool
    var error: Option<string>
    var selectedUser: Option<User>

    /** The keys of `entities` are exactly the ids listed. */
    predicate Valid()
      reads this`entities, this`ids
    {
      entities.Keys == Elems(ids)
    }

    /** `initialState` */
    constructor ()
      ensures Valid()
      ensures entities == map[] && ids == []
      ensures page == 1 && total == 0 && perPage == 6
      ensures !isLoadingList && !isProcessingAction
      ensures error == None && selectedUser == None
    {
      entities := map[];
      ids := [];
      page := 1;
      total := 0;
      perPage := 6;
      isLoadingList := false;
      isProcessingAction := false;
      error := None;
      selectedUser := None;
    }

    /** `setPage`: moves the page cursor and nothing else. */
    method SetPage(p: int)
      modifies this`page
      ensures page == p
    {
      page := p;
    }

    method LoadUsersPending()
      modifies this`isLoadingList, this`error
      ensures isLoadingList && error == None
    {
      isLoadingList := true;
      error := None;
    }

    /** The page replaces the collection wholesale: nothing of the previous page is left. */
    method LoadUsersFulfilled(resp: PageResponse)
      modifies this`isLoadingList, this`entities, this`ids, this`page, this`total, this`perPage
      ensures Valid()
      ensures !isLoadingList
      ensures entities == Normalize(resp.data) && ids == Ids(resp.data)
      ensures page == resp.page && total == resp.total && perPage == resp.perPage
    {
      isLoadingList := false;
      var acc: map<string, User> := map[];
      var i := 0;
      while i < |resp.data|
        invariant 0 <= i <= |resp.data|
        invariant acc == Normalize(resp.data[..i])
      {
        assert resp.data[..i + 1][..i] == resp.data[..i];
        acc := acc[IdOf(resp.data[i]) := resp.data[i]];
        i := i + 1;
      }
      assert resp.data[..i] == resp.data;
      entities := acc;
      ids := Ids(resp.data);
      page := resp.page;
      total := resp.total;
      perPage := resp.perPage;
      NormalizeKeys(resp.data);
    }

    /** A failed page load keeps the collection and the counters. */
    method LoadUsersRejected(message: Option<string>)
      modifies this`isLoadingList, this`error
      ensures !isLoadingList
      ensures error == Some(if Truthy(message) then message.value else LoadUsersFallback)
    {
      isLoadingList := false;
      error := Some(Or(message, LoadUsersFallback));
    }

    method LoadUserPending()
      modifies this`selectedUser, this`isProcessingAction, this`error
      ensures selectedUser == None && isProcessingAction && error == None
    {
      selectedUser := None;
      isProcessingAction := true;
      error := None;
    }

    /** `data` is the `data` field of the body of `GET /users/{id}`. */
    method LoadUserFulfilled(data: User)
      modifies this`isProcessingAction, this`selectedUser
      ensures !isProcessingAction && selectedUser == Some(data)
    {
      isProcessingAction := false;
      selectedUser := Some(data);
    }

    method LoadUserRejected(message: Option<string>)
      modifies this`isProcessingAction, this`error
      ensures !isProcessingAction
      ensures error == Some(if Truthy(message) then message.value else LoadUserFallback)
    {
      isProcessingAction := false;
      error := Some(Or(message, LoadUserFallback));
    }

    method AddUserPending()
      modifies this`isProcessingAction, this`error
      ensures isProcessingAction && error == None
    {
      isProcessingAction := true;
      error := None;
    }

    /** The created record goes in front of the list; `total` is not touched. */
    method AddUserFulfilled(newUser: User)
      requires Valid()
      modifies this`isProcessingAction, this`entities, this`ids
      ensures Valid()
      ensures !isProcessingAction
      ensures ids == [IdOf(newUser)] + old(ids)
      ensures entities == old(entities)[IdOf(newUser) := newUser]
    {
      isProcessingAction := false;
      entities := entities[IdOf(newUser) := newUser];
      ids := [IdOf(newUser)] + ids;
    }

    method AddUserRejected(message: Option<string>)
      modifies this`isProcessingAction, this`error
      ensures !isProcessingAction
      ensures error == Some(if Truthy(message) then message.value else AddUserFallback)
    {
      isProcessingAction := false;
      error := Some(Or(message, AddUserFallback));
    }

    method EditUserPending()
      modifies this`isProcessingAction, this`error
      ensures isProcessingAction && error == None
    {
      isProcessingAction := true;
      error := None;
    }

    /** The response fields are merged over the stored record (`{ ...old, ...data }`);
        an id that is not held locally is ignored, and no entry is created. */
    method EditUserFulfilled(id: string, data: User)
      requires Valid()
      modifies this`isProcessingAction, this`entities
      ensures Valid()
      ensures !isProcessingAction
      ensures id in old(entities) ==> entities == old(entities)[id := old(entities)[id] + data]
      ensures id !in old(entities) ==> entities == old(entities)
    {
      isProcessingAction := false;
      if id in entities {
        entities := entities[id := entities[id] + data];
      }
    }

    method EditUserRejected(message: Option<string>)
      modifies this`isProcessingAction, this`error
      ensures !isProcessingAction
      ensures error == Some(if Truthy(message) then message.value else EditUserFallback)
    {
      isProcessingAction := false;
      error := Some(Or(message, EditUserFallback));
    }

    method RemoveUserPending()
      modifies this`isProcessingAction, this`error
      ensures isProcessingAction && error == None
    {
      isProcessingAction := true;
      error := None;
    }

    /** The key is deleted and every listed copy of the id is dropped. */
    method RemoveUserFulfilled(id: string)
      requires Valid()
      modifies this`isProcessingAction, this`entities, this`ids
      ensures Valid()
      ensures !isProcessingAction
      ensures entities == old(entities) - {id}
      ensures ids == Without(old(ids), id)
    {
      isProcessingAction := false;
      entities := entities - {id};
      ids := Without(ids, id);
    }

    method RemoveUserRejected(message: Option<string>)
      modifies this`isProcessingAction, this`error
      ensures !isProcessingAction
      ensures error == Some(if Truthy(message) then message.value else RemoveUserFallback)
    {
      isProcessingAction := false;
      error := Some(Or(message, RemoveUserFallback));
    }
  }

  /** A page with one user is loaded, then that user is removed: nothing is left. */
  method LoadThenRemoveScenario() {
    var store := new UsersStore();
    var alice: User := map["id" := "1", "email" := "alice@example.com"];
    store.LoadUsersPending();
    store.LoadUsersFulfilled(PageResponse([alice], 1, 6, 6));
    assert store.ids == ["1"] && store.total == 6;
    store.RemoveUserPending();
    store.RemoveUserFulfilled("1");
    assert store.ids == [] && store.entities == map[];
    assert store.total == 6;
  }
}
