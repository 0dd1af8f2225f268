/** Properties of the user store: what each reducer case changes and keeps,
    and that the in-memory list and the storage entry stay equal across any
    run of successful operations that starts with them equal and with
    distinct ids, when every created id is new. */
module StoreProperties {
  import opened UserTypes
  import opened UserSlice

  // ---------------------------------------------------------------------------
  // One reducer case at a time

  /** A pending fetch or create only raises `loading`; `clearError` only clears `error`. */
  lemma PendingAndClearErrorFrames(s: StoreState)
    ensures Reduce(s, FetchPending) == s.(loading := true)
    ensures Reduce(s, CreatePending) == s.(loading := true)
    ensures Reduce(s, ClearError) == s.(error := None)
  {
  }

  /** A fulfilled fetch replaces the list wholesale; a fulfilled create appends
      its record at the end. Both lower `loading` and keep `error`. */
  lemma FetchAndCreateFulfilled(s: StoreState, users: seq<UserDetails>, u: UserDetails)
    ensures Reduce(s, FetchFulfilled(users)) == StoreState(users, false, s.error)
    ensures var r := Reduce(s, CreateFulfilled(u));
            |r.users| == |s.users| + 1 && r.users[..|s.users|] == s.users && r.users[|s.users|] == u &&
            !r.loading && r.error == s.error
  {
    var r := Reduce(s, CreateFulfilled(u));
    assert r.users[..|s.users|] == s.users;
  }

  /** A fulfilled update keeps the length, `loading` and `error`; on a miss the
      list is unchanged, on a hit exactly the first matching record is replaced. */
  lemma UpdateFulfilledReplacesFirst(s: StoreState, u: UserDetails)
    ensures var r := Reduce(s, UpdateFulfilled(u));
            |r.users| == |s.users| && r.loading == s.loading && r.error == s.error
    ensures !HasId(s.users, u.id) ==> Reduce(s, UpdateFulfilled(u)) == s
    ensures HasId(s.users, u.id) ==>
              var r, i := Reduce(s, UpdateFulfilled(u)), FindIndex(s.users, u.id).value;
              r.users[i] == u && (forall k :: 0 <= k < |s.users| && k != i ==> r.users[k] == s.users[k])
  {
  }

  /** A fulfilled delete drops every record with the id, keeps every other
      record in its original order, and keeps `loading` and `error`; deleting
      an absent id changes nothing. */
  lemma DeleteFulfilledFilters(s: StoreState, id: string)
    ensures var r := Reduce(s, DeleteFulfilled(id));
            r.loading == s.loading && r.error == s.error &&
            (forall k :: 0 <= k < |r.users| ==> r.users[k].id != Some(id) && r.users[k] in s.users)
    ensures var r := Reduce(s, DeleteFulfilled(id));
            forall k :: 0 <= k < |s.users| && s.users[k].id != Some(id) ==> s.users[k] in r.users
    ensures var r := Reduce(s, DeleteFulfilled(id));
            forall i :: 0 <= i <= |s.users| ==>
              r.users == RemoveById(s.users[..i], id) + RemoveById(s.users[i..], id)
    ensures !HasId(s.users, Some(id)) ==> Reduce(s, DeleteFulfilled(id)) == s
  {
    RemoveByIdMembers(s.users, id);
    RemoveByIdSplit(s.users, id);
  }

  /** The stored list after a delete keeps every record without the id, adds
      none, and keeps their original order. */
  lemma DeleteUserBodyKeepsOthers(slot: Slot, id: string)
    ensures var before, after := LoadUsersFromStorage(slot), LoadUsersFromStorage(DeleteUserBody(slot, id).storage);
            (forall k :: 0 <= k < |after| ==> after[k] in before) &&
            (forall k :: 0 <= k < |before| && before[k].id != Some(id) ==> before[k] in after) &&
            (forall i :: 0 <= i <= |before| ==>
               after == RemoveById(before[..i], id) + RemoveById(before[i..], id))
  {
    var before := LoadUsersFromStorage(slot);
    RemoveByIdMembers(before, id);
    RemoveByIdSplit(before, id);
  }

  /** A rejected fetch or create lowers `loading`, keeps the list, and leaves a
      non-empty message in `error`: the rejection's own, else the fallback. */
  lemma RejectedSetsError(s: StoreState, message: Option<string>)
    ensures var r := Reduce(s, FetchRejected(message));
            !r.loading && r.users == s.users && r.error.Some? && r.error.value != ""
    ensures var r := Reduce(s, CreateRejected(message));
            !r.loading && r.users == s.users && r.error.Some? && r.error.value != ""
    ensures message.Some? && message.value != "" ==>
              Reduce(s, FetchRejected(message)).error == Some(message.value) &&
              Reduce(s, CreateRejected(message)).error == Some(message.value)
    ensures !(message.Some? && message.value != "") ==>
              Reduce(s, FetchRejected(message)).error == Some(FetchFailed) &&
              Reduce(s, CreateRejected(message)).error == Some(CreateFailed)
  {
  }

  /** Update and delete have no pending or rejected case. */
  lemma UnhandledOutcomesAreNoOps(s: StoreState, message: Option<string>)
    ensures Reduce(s, UpdatePending) == s && Reduce(s, UpdateRejected(message)) == s
    ensures Reduce(s, DeletePending) == s && Reduce(s, DeleteRejected(message)) == s
  {
  }

  // ---------------------------------------------------------------------------
  // The list operations

  /** One step of the filter: the head is kept exactly when its id differs. */
  lemma RemoveByIdCons(x: UserDetails, rest: seq<UserDetails>, id: string)
    ensures RemoveById([x] + rest, id) == (if x.id == Some(id) then [] else [x]) + RemoveById(rest, id)
  {
    var s := [x] + rest;
    assert s[0] == x && s[1..] == rest;
  }

  /** Filtering distributes over concatenation, so it keeps relative order. */
  lemma {:induction false} RemoveByIdAppend(a: seq<UserDetails>, b: seq<UserDetails>, id: string)
    ensures RemoveById(a + b, id) == RemoveById(a, id) + RemoveById(b, id)
    decreases |a|
  {
    if a == [] {
      assert a + b == b;
    } else {
      var head: seq<UserDetails> := if a[0].id == Some(id) then [] else [a[0]];
      var t := a[1..];
      assert RemoveById(a + b, id) == head + RemoveById(t + b, id) by {
        assert a + b == [a[0]] + (t + b);
        RemoveByIdCons(a[0], t + b, id);
      }
      assert RemoveById(a, id) == head + RemoveById(t, id) by {
        assert a == [a[0]] + t;
        RemoveByIdCons(a[0], t, id);
      }
      RemoveByIdAppend(t, b, id);
      ConcatAssoc(head, RemoveById(t, id), RemoveById(b, id));
    }
  }

  lemma ConcatAssoc<T>(x: seq<T>, y: seq<T>, z: seq<T>)
    ensures x + (y + z) == (x + y) + z
  {
  }

  /** Filtering any split of the list and joining the halves gives the
      filtered list: kept records stay in their original order. */
  lemma RemoveByIdSplit(users: seq<UserDetails>, id: string)
    ensures forall i :: 0 <= i <= |users| ==>
              RemoveById(users, id) == RemoveById(users[..i], id) + RemoveById(users[i..], id)
  {
    forall i | 0 <= i <= |users|
      ensures RemoveById(users, id) == RemoveById(users[..i], id) + RemoveById(users[i..], id)
    {
      assert users[..i] + users[i..] == users;
      RemoveByIdAppend(users[..i], users[i..], id);
    }
  }

  /** Filtering keeps every record without the id and adds none. */
  lemma {:induction false} RemoveByIdMembers(users: seq<UserDetails>, id: string)
    ensures forall k :: 0 <= k < |RemoveById(users, id)| ==> RemoveById(users, id)[k] in users
    ensures forall k :: 0 <= k < |users| && users[k].id != Some(id) ==> users[k] in RemoveById(users, id)
    decreases |users|
  {
    if users != [] {
      var rest := users[1..];
      RemoveByIdMembers(rest, id);
      var tail := RemoveById(rest, id);
      var r := RemoveById(users, id);
      var head := if users[0].id == Some(id) then [] else [users[0]];
      assert r == head + tail;
      forall k | 0 <= k < |r| ensures r[k] in users {
        if k < |head| {
          assert r[k] == users[0];
        } else {
          assert r[k] == tail[k - |head|];
          assert tail[k - |head|] in rest;
        }
      }
      forall k | 0 <= k < |users| && users[k].id != Some(id) ensures users[k] in r {
        if k == 0 {
          assert r[0] == users[0];
        } else {
          assert users[k] == rest[k - 1];
          assert users[k] in tail;
        }
      }
    }
  }

  /** A list headed by `x` has distinct ids exactly when its tail does and
      no record of the tail shares `x`'s id. */
  lemma UniqueIdsCons(x: UserDetails, rest: seq<UserDetails>)
    ensures UniqueIds([x] + rest) <==>
              UniqueIds(rest) && forall k :: 0 <= k < |rest| ==> rest[k].id != x.id
  {
    var l := [x] + rest;
    if UniqueIds(l) {
      forall i, j | 0 <= i < j < |rest| ensures rest[i].id != rest[j].id {
        assert rest[i] == l[i + 1] && rest[j] == l[j + 1];
      }
      forall k | 0 <= k < |rest| ensures rest[k].id != x.id {
        assert l[0] == x && rest[k] == l[k + 1];
      }
    }
    if UniqueIds(rest) && forall k :: 0 <= k < |rest| ==> rest[k].id != x.id {
      forall i, j | 0 <= i < j < |l| ensures l[i].id != l[j].id {
        if i == 0 {
          assert l[j] == rest[j - 1];
        } else {
          assert l[i] == rest[i - 1] && l[j] == rest[j - 1];
        }
      }
    }
  }

  /** Filtering keeps ids distinct. */
  lemma {:induction false} RemoveByIdKeepsUnique(users: seq<UserDetails>, id: string)
    requires UniqueIds(users)
    ensures UniqueIds(RemoveById(users, id))
    decreases |users|
  {
    if users != [] {
      var x, rest := users[0], users[1..];
      assert users == [x] + rest;
      UniqueIdsCons(x, rest);
      RemoveByIdKeepsUnique(rest, id);
      var tail := RemoveById(rest, id);
      if x.id != Some(id) {
        RemoveByIdMembers(rest, id);
        forall k | 0 <= k < |tail| ensures tail[k].id != x.id {
          assert tail[k] in rest;
          var m :| 0 <= m < |rest| && rest[m] == tail[k];
        }
        UniqueIdsCons(x, tail);
      }
    }
  }

  /** With distinct ids the reducer's first-match update and the stored
      list's update of every match agree. */
  lemma ReplaceFirstIsReplaceById(users: seq<UserDetails>, u: UserDetails)
    requires UniqueIds(users)
    ensures ReplaceFirst(users, u) == ReplaceById(users, u)
  {
    var a, b := ReplaceFirst(users, u), ReplaceById(users, u);
    forall k | 0 <= k < |users| ensures a[k] == b[k] {
      if users[k].id == u.id {
        var i := FindIndex(users, u.id).value;
        assert k == i;
      }
    }
  }

  /** Two records sharing the payload's id (two records without ids, say)
      make the two updates differ: the stored list replaces both, the
      in-memory list only the first. */
  lemma DuplicateIdsDiverge(x: UserDetails, y: UserDetails, u: UserDetails)
    requires x.id == u.id && y.id == u.id && y != u
    ensures ReplaceFirst([x, y], u) == [u, y]
    ensures ReplaceById([x, y], u) == [u, u]
  {
    assert FindIndex([x, y], u.id) == Some(0);
  }

  // ---------------------------------------------------------------------------
  // Storage and store in step

  /** One user-initiated operation, as the views issue it. */
  datatype Operation = Fetch | Create(userData: UserDetails, newId: string) | Update(user: UserDetails) | Delete(id: string)

  /** The store and the storage entry side by side. */
  datatype Snapshot = Snapshot(store: StoreState, storage: Slot)

  function PendingOf(op: Operation): Action
  {
    match op
    case Fetch => FetchPending
    case Create(_, _) => CreatePending
    case Update(_) => UpdatePending
    case Delete(_) => DeletePending
  }

  /** Dispatches the pending action, runs the operation body against storage,
      and dispatches the fulfilled action with what it resolved to. The error
      is never touched; fetch and create end with `loading` down, while
      update and delete, which have no pending case, leave it as it was. */
  function Succeed(snap: Snapshot, op: Operation): (r: Snapshot)
    ensures r.store.error == snap.store.error
    ensures op.Fetch? || op.Create? ==> !r.store.loading
    ensures op.Update? || op.Delete? ==> r.store.loading == snap.store.loading
    ensures op.Fetch? ==> r.storage == snap.storage && r.store.users == LoadUsersFromStorage(snap.storage)
    ensures op.Create? ==> |LoadUsersFromStorage(r.storage)| == |LoadUsersFromStorage(snap.storage)| + 1
  {
    var pending := Reduce(snap.store, PendingOf(op));
    match op
    case Fetch =>
      Snapshot(Reduce(pending, FetchFulfilled(LoadUsersFromStorage(snap.storage))), snap.storage)
    case Create(userData, newId) =>
      var o := CreateUserBody(snap.storage, userData, newId);
      Snapshot(Reduce(pending, CreateFulfilled(o.payload)), o.storage)
    case Update(user) =>
      var o := UpdateUserBody(snap.storage, user);
      Snapshot(Reduce(pending, UpdateFulfilled(o.payload)), o.storage)
    case Delete(id) =>
      var o := DeleteUserBody(snap.storage, id);
      Snapshot(Reduce(pending, DeleteFulfilled(o.payload)), o.storage)
  }

  ghost predicate InSync(snap: Snapshot)
  {
    snap.store.users == LoadUsersFromStorage(snap.storage) && UniqueIds(snap.store.users)
  }

  /** A create's id must not already be taken; the generator does not promise it. */
  ghost predicate IdIsNew(snap: Snapshot, op: Operation)
  {
    op.Create? ==> !HasId(LoadUsersFromStorage(snap.storage), Some(op.newId))
  }

  /** Appending a record whose id is not taken keeps ids distinct. */
  lemma AppendNewIdKeepsUnique(users: seq<UserDetails>, u: UserDetails)
    requires UniqueIds(users) && !HasId(users, u.id)
    ensures UniqueIds(users + [u])
  {
    var r := users + [u];
    forall i, j | 0 <= i < j < |r| ensures r[i].id != r[j].id {
      assert r[i] == users[i];
      if j < |users| {
        assert r[j] == users[j];
      }
    }
  }

  /** One successful operation keeps the store equal to storage, keeps ids
      distinct, and never touches `error`. */
  lemma SucceedKeepsInSync(snap: Snapshot, op: Operation)
    requires InSync(snap) && IdIsNew(snap, op)
    ensures InSync(Succeed(snap, op))
    ensures Succeed(snap, op).store.error == snap.store.error
  {
    var users := snap.store.users;
    match op
    case Fetch =>
    case Create(userData, newId) =>
      AppendNewIdKeepsUnique(users, userData.(id := Some(newId)));
    case Update(user) =>
      ReplaceFirstIsReplaceById(users, user);
    case Delete(id) =>
      RemoveByIdKeepsUnique(users, id);
  }

  /** A fetch brings the store in step with storage whenever the stored ids
      are distinct, whatever the store held before (it starts empty). */
  lemma FetchEstablishesInSync(snap: Snapshot)
    requires UniqueIds(LoadUsersFromStorage(snap.storage))
    ensures InSync(Succeed(snap, Fetch))
    ensures Succeed(snap, Fetch).storage == snap.storage
  {
  }

  function Replay(snap: Snapshot, ops: seq<Operation>): Snapshot
    decreases |ops|
  {
    if ops == [] then snap else Replay(Succeed(snap, ops[0]), ops[1..])
  }

  /** Every create in the run gets an id not taken when it runs. */
  ghost predicate IdsNewAlong(snap: Snapshot, ops: seq<Operation>)
    decreases |ops|
  {
    ops == [] || (IdIsNew(snap, ops[0]) && IdsNewAlong(Succeed(snap, ops[0]), ops[1..]))
  }

  /** Replaying successful operations in completion order leaves the store's
      list equal to the stored list, ids distinct, and `error` as it was. */
  lemma {:induction false} ReplayKeepsInSync(snap: Snapshot, ops: seq<Operation>)
    requires InSync(snap) && IdsNewAlong(snap, ops)
    ensures InSync(Replay(snap, ops))
    ensures Replay(snap, ops).store.error == snap.store.error
    decreases |ops|
  {
    if ops != [] {
      SucceedKeepsInSync(snap, ops[0]);
      ReplayKeepsInSync(Succeed(snap, ops[0]), ops[1..]);
    }
  }

  /** Fetching from an empty or missing entry ends with an empty list and
      `loading` down; `error` is whatever it was, since pending does not clear it. */
  lemma FetchFromEmptyStorage(s: StoreState, slot: Slot)
    requires !slot.Stored? || slot.users == []
    ensures Succeed(Snapshot(s, slot), Fetch).store == StoreState([], false, s.error)
  {
  }

  /** A created record comes back from the next fetch, last, equal to the
      submitted draft except for its new id. */
  lemma CreateThenFetch(snap: Snapshot, userData: UserDetails, newId: string)
    ensures var fetched := Replay(snap, [Create(userData, newId), Fetch]).store.users;
            |fetched| == |LoadUsersFromStorage(snap.storage)| + 1 &&
            fetched[|fetched| - 1].(id := userData.id) == userData &&
            fetched[|fetched| - 1].id == Some(newId)
  {
    var afterCreate := Succeed(snap, Create(userData, newId));
    assert Replay(snap, [Create(userData, newId), Fetch]) == Replay(afterCreate, [Fetch]);
  }
}
