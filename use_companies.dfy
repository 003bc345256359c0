/**
 * The company hooks (src/hooks/companies/useCompanies.tsx). The signed-in user's data
 * (`GET /auth/me`) is retried on failure except after a 401, and the user's single company is
 * derived from its `companyId`. `user` is `None` while the query has no data.
 */
module UseCompanies {
  import opened Wrappers
  import opened Seqs

  /** The failure react-query hands to `retry`: the HTTP status, when there was a response. */
  datatype RequestError = RequestError(status: Option<int>)

  /** `retry(failureCount, error)` of `useUserData`. */
  function Retry(failureCount: int, error: RequestError): (again: bool)
    ensures again ==> error.status != Some(401) && failureCount < 3
    ensures error.status != Some(401) && failureCount < 3 ==> again
  {
    if error.status == Some(401) then false else failureCount < 3
  }

  /** A 401 is never retried; any other failure is retried for the first three failures only. */
  lemma RetryRule(failureCount: int, error: RequestError)
    ensures error.status == Some(401) ==> !Retry(failureCount, error)
    ensures Retry(failureCount, error) <==> error.status != Some(401) && failureCount < 3
  {
  }

  /** Once `retry` refuses, it refuses for every later count with the same error. */
  lemma RetryGivesUpForGood(failureCount: int, later: int, error: RequestError)
    requires failureCount <= later && !Retry(failureCount, error)
    ensures !Retry(later, error)
  {
  }

  /** The part of the `/auth/me` user these hooks read. */
  datatype MeUser = MeUser(id: string, companyId: Option<string>)

  /** `!!user?.companyId`. */
  predicate HasCompany(user: Option<MeUser>) {
    user.Some? && user.value.companyId.Some? && user.value.companyId.value != ""
  }

  /** `user?.companyId || null`. */
  function CompanyIdOf(user: Option<MeUser>): (companyId: Option<string>)
    ensures companyId.Some? <==> HasCompany(user)
    ensures companyId.Some? ==> companyId == user.value.companyId && companyId.value != ""
  {
    if HasCompany(user) then user.value.companyId else None
  }

  datatype Company = Company(id: string, name: string, cnpj: string, phone: string, email: string, createdAt: string, updatedAt: string)

  /** The stand-in company record built from an id: named "Minha Empresa", every other field empty. */
  function PlaceholderCompany(id: string): Company {
    Company(id, "Minha Empresa", "", "", "", "", "")
  }

  /** An entry of `companiesOptions`: `{ value, label, company }`. */
  datatype CompanyOption = CompanyOption(value: string, text: string, company: Company)

  /** `companiesOptions`: none without a company, otherwise one entry for it. */
  function CompaniesOptions(user: Option<MeUser>): (options: seq<CompanyOption>)
    ensures |options| == if HasCompany(user) then 1 else 0
    ensures forall o :: o in options ==> Some(o.value) == CompanyIdOf(user) && o.company.id == o.value
  {
    if !HasCompany(user) then []
    else
      var id := user.value.companyId.value;
      [CompanyOption(id, "Minha Empresa", PlaceholderCompany(id))]
  }

  /** `companies`: none without a company, otherwise the one stand-in record. */
  function Companies(user: Option<MeUser>): (companies: seq<Company>)
    ensures |companies| == if HasCompany(user) then 1 else 0
    ensures forall c :: c in companies ==> Some(c.id) == CompanyIdOf(user)
  {
    if !HasCompany(user) then [] else [PlaceholderCompany(user.value.companyId.value)]
  }

  /** `useUserCompany().company`: null exactly when there is no company id. */
  function UserCompany(user: Option<MeUser>): (company: Option<Company>)
    ensures company.None? <==> CompanyIdOf(user).None?
    ensures company.Some? ==> company.value.id == CompanyIdOf(user).value
  {
    if !HasCompany(user) then None else Some(PlaceholderCompany(user.value.companyId.value))
  }

  function OptionCompany(o: CompanyOption): Company { o.company }

  /** The three derivations describe one company: the options carry the companies, and both list the user's company. */
  lemma DerivationsAgree(user: Option<MeUser>)
    ensures Map(CompaniesOptions(user), OptionCompany) == Companies(user)
    ensures Companies(user) == match UserCompany(user) case None => [] case Some(c) => [c]
  {
  }
}
