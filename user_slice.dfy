/** The user store: the `registeredUsers` local-storage entry, the bodies of
    the four asynchronous operations over it (fetch, create, update, delete),
    and the reducer that settles their outcomes into `{users, loading, error}`.
    Each reducer case is one atomic transition; the store object applies it
    by assigning its fields in place. */
module UserSlice {
  import opened UserTypes

  // ---------------------------------------------------------------------------
  // Storage

  /** What the `registeredUsers` entry holds: nothing, text that is empty or
      does not parse, or an encoded list of records. */
  datatype Slot = Absent | Unreadable | Stored(users: seq<UserDetails>)

  /** Reading the entry never fails: a missing or unreadable entry is the empty list. */
  function LoadUsersFromStorage(slot: Slot): (users: seq<UserDetails>)
    ensures slot.Stored? ==> users == slot.users
    ensures !slot.Stored? ==> users == []
  {
    match slot
    case Stored(list) => list
    case _ => []
  }

  /** Writing replaces the entry wholesale. */
  function SaveUsersToStorage(users: seq<UserDetails>): (slot: Slot)
    ensures LoadUsersFromStorage(slot) == users
  {
    Stored(users)
  }

  // ---------------------------------------------------------------------------
  // Sequence operations used by the operation bodies and the reducer

  /** `users.map(user => user.id === u.id ? u : user)`: every record with
      `u`'s id becomes `u`; the others, and every id, stay as they were. */
  function ReplaceById(users: seq<UserDetails>, u: UserDetails): (r: seq<UserDetails>)
    ensures |r| == |users|
    ensures forall k :: 0 <= k < |users| ==> r[k].id == users[k].id
    ensures forall k :: 0 <= k < |users| && users[k].id == u.id ==> r[k] == u
    ensures forall k :: 0 <= k < |users| && users[k].id != u.id ==> r[k] == users[k]
  {
    if users == [] then []
    else [if users[0].id == u.id then u else users[0]] + ReplaceById(users[1..], u)
  }

  /** `users.filter(user => user.id !== id)`: the records without that id, in
      their original order. Records with no id are always kept. */
  function RemoveById(users: seq<UserDetails>, id: string): (r: seq<UserDetails>)
    ensures |r| <= |users|
    ensures forall k :: 0 <= k < |r| ==> r[k].id != Some(id)
    ensures !HasId(users, Some(id)) ==> r == users
    ensures HasId(users, Some(id)) ==> |r| < |users|
  {
    if users == [] then []
    else (if users[0].id == Some(id) then [] else [users[0]]) + RemoveById(users[1..], id)
  }

  /** `users.findIndex(user => user.id === id)`, with None for -1. */
  function FindIndex(users: seq<UserDetails>, id: Option<string>): (r: Option<nat>)
    ensures r.None? <==> !HasId(users, id)
    ensures r.Some? ==> r.value < |users| && users[r.value].id == id
    ensures r.Some? ==> forall j :: 0 <= j < r.value ==> users[j].id != id
  {
    if users == [] then None
    else if users[0].id == id then Some(0)
    else match FindIndex(users[1..], id)
      case None => None
      case Some(i) => Some(i + 1)
  }

  /** The reducer's update: only the first record with `u`'s id becomes `u`. */
  function ReplaceFirst(users: seq<UserDetails>, u: UserDetails): (r: seq<UserDetails>)
    ensures |r| == |users|
    ensures !HasId(users, u.id) ==> r == users
    ensures forall k :: 0 <= k < |users| && r[k] != users[k] ==>
              r[k] == u && users[k].id == u.id && forall j :: 0 <= j < k ==> users[j].id != u.id
    ensures HasId(users, u.id) ==> r[FindIndex(users, u.id).value] == u
  {
    match FindIndex(users, u.id)
    case None => users
    case Some(i) => users[i := u]
  }

  // ---------------------------------------------------------------------------
  // Operation bodies (the async thunks), each over the storage entry

  /** What an operation body leaves in storage and what it resolves with. */
  datatype Settled<T> = Settled(storage: Slot, payload: T)

  /** `createUser`: the record gets the id `newId` (supplied by the caller in
      place of the timestamp-and-random generator) and is appended. */
  function CreateUserBody(slot: Slot, userData: UserDetails, newId: string): (r: Settled<UserDetails>)
    ensures r.payload.id == Some(newId) && r.payload.(id := userData.id) == userData
    ensures var before, after := LoadUsersFromStorage(slot), LoadUsersFromStorage(r.storage);
            |after| == |before| + 1 && after[..|before|] == before && after[|before|] == r.payload
  {
    var newUser := userData.(id := Some(newId));
    Settled(SaveUsersToStorage(LoadUsersFromStorage(slot) + [newUser]), newUser)
  }

  /** `updateUser`: every stored record with the payload's id is replaced;
      the payload is returned as given. */
  function UpdateUserBody(slot: Slot, userData: UserDetails): (r: Settled<UserDetails>)
    ensures r.payload == userData
    ensures var before, after := LoadUsersFromStorage(slot), LoadUsersFromStorage(r.storage);
            |after| == |before| &&
            (forall k :: 0 <= k < |before| ==> after[k] == if before[k].id == userData.id then userData else before[k])
  {
    Settled(SaveUsersToStorage(ReplaceById(LoadUsersFromStorage(slot), userData)), userData)
  }

  /** `deleteUser`: every stored record with that id is dropped; resolves with the id. */
  function DeleteUserBody(slot: Slot, id: string): (r: Settled<string>)
    ensures r.payload == id
    ensures var before, after := LoadUsersFromStorage(slot), LoadUsersFromStorage(r.storage);
            (forall k :: 0 <= k < |after| ==> after[k].id != Some(id)) &&
            (!HasId(before, Some(id)) ==> after == before) &&
            (HasId(before, Some(id)) ==> |after| < |before|)
  {
    Settled(SaveUsersToStorage(RemoveById(LoadUsersFromStorage(slot), id)), id)
  }

  // ---------------------------------------------------------------------------
  // Reducer

  datatype StoreState = StoreState(users: seq<UserDetails>, loading: bool, error: Option<string>)

  const InitialState: StoreState := StoreState([], false, None)

  const FetchFailed: string := "Failed to fetch users"
  const CreateFailed: string := "Failed to create user"

  /** The actions the slice sees: `clearError`, and the pending, fulfilled and
      rejected outcomes of the four operations. A rejection carries the
      error's message, if it has one. */
  datatype Action =
    | ClearError
    | FetchPending | FetchFulfilled(users: seq<UserDetails>) | FetchRejected(message: Option<string>)
    | CreatePending | CreateFulfilled(user: UserDetails) | CreateRejected(message: Option<string>)
    | UpdatePending | UpdateFulfilled(user: UserDetails) | UpdateRejected(message: Option<string>)
    | DeletePending | DeleteFulfilled(id: string) | DeleteRejected(message: Option<string>)

  /** `message || fallback`: the message unless it is absent or empty. */
  function ErrorText(message: Option<string>, fallback: string): (r: string)
    ensures message.Some? && message.value != "" ==> r == message.value
    ensures !(message.Some? && message.value != "") ==> r == fallback
  {
    if message.Some? && message.value != "" then message.value else fallback
  }

  /** The slice reducer. Update and delete have no pending or rejected case,
      so those actions leave the state as it is. Only `clearError` and the
      rejections touch `error`, only fetch and create touch `loading`, and
      only fulfilled outcomes touch the list. */
  function Reduce(s: StoreState, a: Action): (r: StoreState)
    ensures r.error != s.error ==> a.ClearError? || a.FetchRejected? || a.CreateRejected?
    ensures r.loading != s.loading ==>
              a.FetchPending? || a.FetchFulfilled? || a.FetchRejected? ||
              a.CreatePending? || a.CreateFulfilled? || a.CreateRejected?
    ensures r.users != s.users ==>
              a.FetchFulfilled? || a.CreateFulfilled? || a.UpdateFulfilled? || a.DeleteFulfilled?
  {
    match a
    case ClearError => s.(error := None)
    case FetchPending => s.(loading := true)
    case FetchFulfilled(users) => s.(loading := false, users := users)
    case FetchRejected(message) => s.(loading := false, error := Some(ErrorText(message, FetchFailed)))
    case CreatePending => s.(loading := true)
    case CreateFulfilled(user) => s.(loading := false, users := s.users + [user])
    case CreateRejected(message) => s.(loading := false, error := Some(ErrorText(message, CreateFailed)))
    case UpdateFulfilled(user) => s.(users := ReplaceFirst(s.users, user))
    case DeleteFulfilled(id) => s.(users := RemoveById(s.users, id))
    case UpdatePending => s
    case UpdateRejected(_) => s
    case DeletePending => s
    case DeleteRejected(_) => s
  }

  /** The store: one object whose fields each reducer case assigns. */
  class UserStore {
    var users: seq<UserDetails>
    var loading: bool
    var error: Option<string>

    function State(): StoreState
      reads this
    {
      StoreState(users, loading, error)
    }

    constructor ()
      ensures State() == InitialState
    {
      users := [];
      loading := false;
      error := None;
    }

    method Dispatch(a: Action)
      modifies this
      ensures State() == Reduce(old(State()), a)
    {
      match a
      case ClearError =>
        error := None;
      case FetchPending =>
        loading := true;
      case FetchFulfilled(payload) =>
        loading := false;
        users := payload;
      case FetchRejected(message) =>
        loading := false;
        error := Some(ErrorText(message, FetchFailed));
      case CreatePending =>
        loading := true;
      case CreateFulfilled(payload) =>
        loading := false;
        users := users + [payload];
      case CreateRejected(message) =>
        loading := false;
        error := Some(ErrorText(message, CreateFailed));
      case UpdateFulfilled(payload) =>
        var index := FindIndex(users, payload.id);
        if index.Some? {
          users := users[index.value := payload];
        }
      case DeleteFulfilled(id) =>
        users := RemoveById(users, id);
      case UpdatePending =>
      case UpdateRejected(_) =>
      case DeletePending =>
      case DeleteRejected(_) =>
    }
  }
}
