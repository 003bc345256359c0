/**
 * The emulator data hooks (src/hooks/emulators/useEmulators.ts): the query keys, the
 * configuration of the two queries, the status toggle, and the functions the update, status
 * and delete mutations hand to `setQueriesData` to patch cached lists.
 */
module UseEmulators {
  import opened Wrappers
  import opened Seqs
  import opened Queries

  datatype EmulatorStatus = ONLINE | OFFLINE | ERROR | UNKNOWN

  datatype Emulator = Emulator(
    id: string,
    name: string,
    serverIp: string,
    emulatorId: string,
    status: EmulatorStatus,
    companyId: string,
    createdAt: string,
    updatedAt: string)

  // ---------------------------------------------------------------------------
  // Query keys: the list key's object is `{ companyId }`
  // ---------------------------------------------------------------------------

  type Key = seq<KeyPart<Option<string>>>

  function All(): Key { [Name("emulators")] }
  function Lists(): Key { All() + [Name("list")] }
  function List(companyId: Option<string>): Key { Lists() + [Object(companyId)] }
  function Details(): Key { All() + [Name("detail")] }
  function Detail(id: string): Key { Details() + [Name(id)] }

  /**
   * `all` selects every key; `lists()` selects each list key and no detail key; `details()`
   * selects each detail key and no list key. So invalidating `lists()` (after a create or a
   * delete) refreshes every company's list and leaves the cached details alone.
   */
  lemma KeyHierarchy(companyId: Option<string>, id: string)
    ensures Selects(All(), Lists()) && Selects(All(), Details())
    ensures Selects(Lists(), List(companyId)) && Selects(Details(), Detail(id))
    ensures !Selects(Lists(), Detail(id)) && !Selects(Lists(), Details())
    ensures !Selects(Details(), List(companyId)) && !Selects(Details(), Lists())
    ensures !Selects(List(companyId), Lists()) && !Selects(Detail(id), Details())
  {
    assert Lists()[1] != Details()[1];
  }

  /** Different companies and different ids get different keys. */
  lemma KeysSeparate(c1: Option<string>, c2: Option<string>, id1: string, id2: string)
    ensures List(c1) == List(c2) <==> c1 == c2
    ensures Detail(id1) == Detail(id2) <==> id1 == id2
  {
    if List(c1) == List(c2) {
      assert List(c1)[2] == List(c2)[2];
    }
    if Detail(id1) == Detail(id2) {
      assert Detail(id1)[2] == Detail(id2)[2];
    }
  }

  // ---------------------------------------------------------------------------
  // Query configuration
  // ---------------------------------------------------------------------------

  /** `useEmulatorsByCompany(companyId, options)`. */
  function ByCompanyQuery(companyId: string, enabled: Option<bool>, staleTime: Option<int>): (q: QueryConfig<Option<string>>)
    ensures q.enabled <==> enabled != Some(false) && companyId != ""
    ensures Selects(Lists(), q.key)
  {
    QueryConfig(List(Some(companyId)), EnabledFor(enabled, companyId), staleTime.GetOr(DefaultStaleTime))
  }

  /** `useEmulator(id, options)`: the key uses `id ?? ""` while no id is known. */
  function ByIdQuery(id: Option<string>, enabled: Option<bool>, staleTime: Option<int>): (q: QueryConfig<Option<string>>)
    ensures q.enabled <==> enabled != Some(false) && id.Some? && id.value != ""
    ensures Selects(Details(), q.key)
  {
    QueryConfig(Detail(id.GetOr("")), EnabledFor(enabled, id.GetOr("")), staleTime.GetOr(DefaultStaleTime))
  }

  /** A missing id and an empty one share the key `detail("")`, and neither query runs. */
  lemma MissingIdIsDisabled(enabled: Option<bool>, staleTime: Option<int>)
    ensures ByIdQuery(None, enabled, staleTime) == ByIdQuery(Some(""), enabled, staleTime)
    ensures !ByIdQuery(None, enabled, staleTime).enabled
  {
  }

  /** Leaving out the stale time is asking for five minutes; an explicit `0` is kept. */
  lemma StaleTimeDefault(companyId: string, enabled: Option<bool>)
    ensures ByCompanyQuery(companyId, enabled, None).staleTime == 300000
    ensures ByCompanyQuery(companyId, enabled, Some(0)).staleTime == 0
  {
  }

  // ---------------------------------------------------------------------------
  // The status toggle
  // ---------------------------------------------------------------------------

  /** `toggle`'s new status: ONLINE goes OFFLINE, anything else goes ONLINE. */
  function Toggle(status: EmulatorStatus): (next: EmulatorStatus)
    ensures next in {ONLINE, OFFLINE}
    ensures next == OFFLINE <==> status == ONLINE
  {
    if status == ONLINE then OFFLINE else ONLINE
  }

  /** Toggling twice restores ONLINE and OFFLINE; ERROR and UNKNOWN end up OFFLINE. */
  lemma ToggleTwice(status: EmulatorStatus)
    ensures Toggle(Toggle(status)) == status <==> status == ONLINE || status == OFFLINE
    ensures status !in {ONLINE, OFFLINE} ==> Toggle(Toggle(status)) == OFFLINE
  {
  }

  /** The request `toggle` sends: `{ id: emulator.id, status: newStatus }`. */
  datatype StatusUpdate = StatusUpdate(id: string, status: EmulatorStatus)

  function ToggleRequest(emulator: Emulator): (request: StatusUpdate)
    ensures request.id == emulator.id
    ensures request.status != emulator.status
  {
    StatusUpdate(emulator.id, Toggle(emulator.status))
  }

  // ---------------------------------------------------------------------------
  // Cached-list updaters: `oldData` is `None` when no list is cached
  // ---------------------------------------------------------------------------

  /** `emulator => emulator.id === id ? updated : emulator`. */
  function ReplaceIfId(id: string, updated: Emulator): Emulator -> Emulator {
    (e: Emulator) => if e.id == id then updated else e
  }

  /**
   * The update and status mutations' updater: no cached list stays none; otherwise every entry
   * with the id becomes the server's answer and the others stay put.
   */
  function UpdateList(oldData: Option<seq<Emulator>>, id: string, updated: Emulator): (newData: Option<seq<Emulator>>)
    ensures newData.Some? <==> oldData.Some?
    ensures newData.Some? ==> |newData.value| == |oldData.value|
    ensures newData.Some? ==> forall i :: 0 <= i < |oldData.value| ==>
      newData.value[i] == (if oldData.value[i].id == id then updated else oldData.value[i])
  {
    match oldData
    case None => None
    case Some(list) => Some(Map(list, ReplaceIfId(id, updated)))
  }

  /** `emulator => emulator.id !== id`. */
  function OtherId(id: string): Emulator -> bool {
    (e: Emulator) => e.id != id
  }

  /** The delete mutation's updater: every entry with the id goes, the rest keep their order. */
  function DeleteList(oldData: Option<seq<Emulator>>, id: string): (newData: Option<seq<Emulator>>)
    ensures newData.Some? <==> oldData.Some?
    ensures newData.Some? ==> IsSubsequence(newData.value, oldData.value)
    ensures newData.Some? ==> forall e :: e in newData.value <==> e in oldData.value && e.id != id
  {
    match oldData
    case None => None
    case Some(list) => Some(Filter(list, OtherId(id)))
  }

  /** Applying the same update twice is applying it once. */
  lemma UpdateIdempotent(oldData: Option<seq<Emulator>>, id: string, updated: Emulator)
    ensures UpdateList(UpdateList(oldData, id, updated), id, updated) == UpdateList(oldData, id, updated)
  {
    if oldData.Some? {
      var once := UpdateList(oldData, id, updated).value;
      var twice := UpdateList(Some(once), id, updated).value;
      var list := oldData.value;
      forall i | 0 <= i < |once| ensures twice[i] == once[i] {
        assert once[i] == (if list[i].id == id then updated else list[i]);
        assert twice[i] == (if once[i].id == id then updated else once[i]);
      }
      assert twice == once;
    }
  }

  /** Deleting twice is deleting once. */
  lemma DeleteIdempotent(oldData: Option<seq<Emulator>>, id: string)
    ensures DeleteList(DeleteList(oldData, id), id) == DeleteList(oldData, id)
  {
    if oldData.Some? {
      var once := DeleteList(oldData, id).value;
      FilterKeepsAll(once, OtherId(id));
    }
  }

  /** After an update that keeps the id, a delete of that id leaves what a delete alone would. */
  lemma DeleteAfterUpdate(oldData: Option<seq<Emulator>>, id: string, updated: Emulator)
    requires updated.id == id
    ensures DeleteList(UpdateList(oldData, id, updated), id) == DeleteList(oldData, id)
  {
    if oldData.Some? {
      DeleteUpdatedEntries(oldData.value, id, updated);
    }
  }

  lemma {:induction false} DeleteUpdatedEntries(list: seq<Emulator>, id: string, updated: Emulator)
    requires updated.id == id
    ensures Filter(Map(list, ReplaceIfId(id, updated)), OtherId(id)) == Filter(list, OtherId(id))
  {
    if list != [] {
      var mapped := Map(list, ReplaceIfId(id, updated));
      assert mapped[1..] == Map(list[1..], ReplaceIfId(id, updated));
      assert mapped[0] == ReplaceIfId(id, updated)(list[0]);
      DeleteUpdatedEntries(list[1..], id, updated);
    }
  }
}
