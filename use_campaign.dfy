/**
 * The campaign data hooks (src/hooks/campaign/useCampaign.tsx): the query keys, the paging
 * parameters sent with the list request, the values `useCampaigns` returns, and the
 * configuration of the single-campaign and scoped queries.
 */
module UseCampaign {
  import opened Wrappers
  import opened Queries

  datatype CampaignStatus = Active | Inactive | Completed

  /** The status strings `"active"`, `"inactive"` and `"completed"`. */
  function StatusName(s: CampaignStatus): string {
    match s
    case Active => "active"
    case Inactive => "inactive"
    case Completed => "completed"
  }

  /** `CampaignsFilters`, each field `None` when absent. */
  datatype CampaignsFilters = CampaignsFilters(
    companyId: Option<string>,
    emulatorId: Option<string>,
    tagId: Option<string>,
    status: Option<CampaignStatus>,
    search: Option<string>,
    page: Option<int>,
    limit: Option<int>)

  /** `{}`. */
  const NoFilters := CampaignsFilters(None, None, None, None, None, None, None)

  datatype Campaign = Campaign(
    id: string,
    name: string,
    description: string,
    companyId: string,
    isActive: bool,
    createdAt: string,
    updatedAt: string)

  // ---------------------------------------------------------------------------
  // Query keys: the list key's object is the filters
  // ---------------------------------------------------------------------------

  type Key = seq<KeyPart<CampaignsFilters>>

  function All(): Key { [Name("campaigns")] }
  function Lists(): Key { All() + [Name("list")] }
  function List(filters: CampaignsFilters): Key { Lists() + [Object(filters)] }
  function Company(companyId: string): Key { All() + [Name("company"), Name(companyId)] }
  function EmulatorKey(emulatorId: string): Key { All() + [Name("emulator"), Name(emulatorId)] }
  function Tag(tagId: string): Key { All() + [Name("tag"), Name(tagId)] }
  function Status(status: string): Key { All() + [Name("status"), Name(status)] }
  function Detail(id: string): Key { All() + [Name("detail"), Name(id)] }

  /** The keys scoped by one id, which sit beside the list keys. */
  datatype Scope = CompanyScope | EmulatorScope | TagScope | StatusScope | DetailScope

  function ScopeName(scope: Scope): string {
    match scope
    case CompanyScope => "company"
    case EmulatorScope => "emulator"
    case TagScope => "tag"
    case StatusScope => "status"
    case DetailScope => "detail"
  }

  function Scoped(scope: Scope, id: string): (key: Key)
    ensures key == match scope
      case CompanyScope => Company(id)
      case EmulatorScope => EmulatorKey(id)
      case TagScope => Tag(id)
      case StatusScope => Status(id)
      case DetailScope => Detail(id)
  {
    All() + [Name(ScopeName(scope)), Name(id)]
  }

  /** `list(f)` extends `lists()`, which extends `all`, and list keys with different filters differ. */
  lemma ListKeys(f: CampaignsFilters, g: CampaignsFilters)
    ensures Selects(All(), Lists()) && Selects(Lists(), List(f))
    ensures List(f) == List(g) <==> f == g
  {
    if List(f) == List(g) {
      assert List(f)[2] == List(g)[2];
    }
  }

  /**
   * A scoped key starts with `all` but never with `lists()`: refreshing the lists leaves the
   * company, emulator, tag, status and detail queries alone, and a scoped key selects only keys
   * of its own scope and id.
   */
  lemma ScopedKeysOutsideLists(scope: Scope, id: string, other: Scope, otherId: string)
    ensures Selects(All(), Scoped(scope, id))
    ensures !Selects(Lists(), Scoped(scope, id))
    ensures Selects(Scoped(scope, id), Scoped(other, otherId)) <==> scope == other && id == otherId
  {
    assert Scoped(scope, id)[1] != Lists()[1];
    if Selects(Scoped(scope, id), Scoped(other, otherId)) {
      assert Scoped(scope, id)[1] == Scoped(other, otherId)[1];
      assert Scoped(scope, id)[2] == Scoped(other, otherId)[2];
    }
  }

  // ---------------------------------------------------------------------------
  // The list request and what `useCampaigns` returns
  // ---------------------------------------------------------------------------

  /** `filters || {}`: calling without filters shares the cache entry of the empty filter object. */
  function ListQuery(filters: Option<CampaignsFilters>): (q: QueryConfig<CampaignsFilters>)
    ensures q.enabled && q.staleTime == DefaultStaleTime
    ensures Selects(Lists(), q.key)
  {
    QueryConfig(List(filters.GetOr(NoFilters)), true, DefaultStaleTime)
  }

  lemma NoFiltersIsEmptyFilters()
    ensures ListQuery(None) == ListQuery(Some(NoFilters))
  {
  }

  /** `x || fallback` on an optional number: the fallback for a missing value and for 0. */
  function OrNumber(x: Option<int>, fallback: int): int {
    if x.None? || x.value == 0 then fallback else x.value
  }

  /** The query parameters of `GET /campaigns`. */
  datatype FetchParams = FetchParams(page: int, limit: int, search: Option<string>)

  /** `fetchCampaigns(filters)`'s parameters: page 1 and limit 10 unless a non-zero value is given. */
  function FetchCampaignsParams(filters: Option<CampaignsFilters>): (params: FetchParams)
    ensures params.page != 0 && params.limit != 0
  {
    var f := filters.GetOr(NoFilters);
    FetchParams(OrNumber(f.page, 1), OrNumber(f.limit, 10), f.search)
  }

  /** The page and limit sent: the defaults exactly when the value is missing or zero, the value itself otherwise. */
  lemma PagingDefaults(filters: CampaignsFilters)
    ensures FetchCampaignsParams(None) == FetchParams(1, 10, None)
    ensures FetchCampaignsParams(Some(filters)).page ==
      (if filters.page == None || filters.page == Some(0) then 1 else filters.page.value)
    ensures FetchCampaignsParams(Some(filters)).limit ==
      (if filters.limit == None || filters.limit == Some(0) then 10 else filters.limit.value)
    ensures FetchCampaignsParams(Some(filters)).search == filters.search
  {
  }

  datatype CampaignsResponse = CampaignsResponse(campaigns: seq<Campaign>, total: int, page: int, limit: int)

  /** The data part of `useCampaigns`' result. */
  datatype Summary = Summary(campaigns: seq<Campaign>, total: int, page: int, limit: int)

  /** `campaignsData?.campaigns || []` and the like; an array is always truthy, so only missing data gives `[]`. */
  function Returned(data: Option<CampaignsResponse>): (s: Summary)
    ensures data.None? ==> s == Summary([], 0, 1, 10)
    ensures data.Some? ==> s.campaigns == data.value.campaigns && s.total == data.value.total
    ensures s.page != 0 && s.limit != 0
  {
    match data
    case None => Summary([], 0, 1, 10)
    case Some(d) => Summary(d.campaigns, d.total, OrNumber(Some(d.page), 1), OrNumber(Some(d.limit), 10))
  }

  /** A response's page and limit are passed on unless they are zero. */
  lemma ReturnedPaging(d: CampaignsResponse)
    ensures Returned(Some(d)).page == (if d.page == 0 then 1 else d.page)
    ensures Returned(Some(d)).limit == (if d.limit == 0 then 10 else d.limit)
  {
  }

  // ---------------------------------------------------------------------------
  // The single-campaign and scoped queries
  // ---------------------------------------------------------------------------

  /** `useCampaign(id, options)`: the key uses `id || ""` while no id is known. */
  function CampaignQuery(id: Option<string>, enabled: Option<bool>, staleTime: Option<int>): (q: QueryConfig<CampaignsFilters>)
    ensures q.enabled <==> enabled != Some(false) && id.Some? && id.value != ""
    ensures q.key == Detail(id.GetOr(""))
  {
    QueryConfig(Detail(id.GetOr("")), EnabledFor(enabled, id.GetOr("")), staleTime.GetOr(DefaultStaleTime))
  }

  /**
   * `useCampaignsByCompany`, `useCampaignsByEmulator`, `useCampaignsByTag` and
   * `useCampaignsByStatus`; the status query is the one that does not require a non-empty id.
   */
  function ScopedQuery(scope: Scope, id: string, enabled: Option<bool>, staleTime: Option<int>): (q: QueryConfig<CampaignsFilters>)
    requires scope != DetailScope
    ensures scope != StatusScope ==> (q.enabled <==> enabled != Some(false) && id != "")
    ensures scope == StatusScope ==> (q.enabled <==> enabled != Some(false))
    ensures q.key == Scoped(scope, id)
  {
    var on := if scope == StatusScope then enabled.GetOr(true) else EnabledFor(enabled, id);
    QueryConfig(Scoped(scope, id), on, staleTime.GetOr(DefaultStaleTime))
  }

  /** Only the status strings of the type reach the status query, and each is non-empty, so the difference never shows. */
  lemma StatusQueryNeedsNoIdCheck(status: CampaignStatus, enabled: Option<bool>, staleTime: Option<int>)
    ensures ScopedQuery(StatusScope, StatusName(status), enabled, staleTime).enabled ==
      EnabledFor(enabled, StatusName(status))
  {
  }
}
