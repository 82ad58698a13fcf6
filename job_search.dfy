/** The search form's state: the term, the five filter values and the advanced-panel flag, with
    the handlers that change them and the search dispatch. */
module JobSearch {
  import opened Wrappers
  import opened Text
  import opened Store
  import opened JobContext

  /** The form's filter values; "all" means no constraint. */
  datatype SearchFilters = SearchFilters(
    location: string,
    jobType: string,
    experienceLevel: string,
    industry: string,
    salaryRange: string)

  /** The keys `handleFilterChange` is called with. */
  datatype FilterName = LocationKey | JobTypeKey | ExperienceLevelKey | IndustryKey | SalaryRangeKey

  /** Every filter at "all". */
  const Cleared := SearchFilters(All, All, All, All, All)

  function FilterOf(f: SearchFilters, n: FilterName): string
  {
    match n
    case LocationKey => f.location
    case JobTypeKey => f.jobType
    case ExperienceLevelKey => f.experienceLevel
    case IndustryKey => f.industry
    case SalaryRangeKey => f.salaryRange
  }

  /** `{ ...prev, [name]: value }`. */
  function WithFilter(f: SearchFilters, n: FilterName, value: string): (r: SearchFilters)
    ensures FilterOf(r, n) == value
    ensures forall m :: m != n ==> FilterOf(r, m) == FilterOf(f, m)
  {
    match n
    case LocationKey => f.(location := value)
    case JobTypeKey => f.(jobType := value)
    case ExperienceLevelKey => f.(experienceLevel := value)
    case IndustryKey => f.(industry := value)
    case SalaryRangeKey => f.(salaryRange := value)
  }

  /** The filter object the provider receives from the form. */
  function AsFilters(f: SearchFilters): Filters
  {
    Filters(Some(f.location), Some(f.jobType), Some(f.experienceLevel), Some(f.industry), Some(f.salaryRange))
  }

  /** Cleared filters constrain nothing: the listing query and its client-side filtering are
      those of an empty filter object. */
  lemma ClearedFiltersConstrainNothing(page: seq<Job>, loadMore: bool, lastDoc: Option<Job>)
    ensures FetchQuery(AsFilters(Cleared), loadMore, lastDoc) == FetchQuery(NoFilters, loadMore, lastDoc)
    ensures FetchPostFilter(page, AsFilters(Cleared)) == page
  {
    assert PushedDim(AsFilters(Cleared)).None? && PushedDim(NoFilters).None?;
    assert PushedConstraint(AsFilters(Cleared)) == PushedConstraint(NoFilters);
  }

  /** The provider call a search makes. */
  datatype Dispatch = SearchCall(term: string, filters: Filters) | FetchCall(filters: Filters)

  /** `handleSearch`'s choice: a search with the untrimmed term when the trimmed term is not
      empty, the listing otherwise. */
  function DispatchFor(term: string, f: SearchFilters): (d: Dispatch)
    ensures d.SearchCall? <==> Trim(term) != ""
    ensures d.SearchCall? ==> d.term == term
    ensures d.filters == AsFilters(f)
  {
    if Trim(term) != "" then SearchCall(term, AsFilters(f)) else FetchCall(AsFilters(f))
  }

  /** `handleSearch` as the file has it: the line that would take `searchJobs` and `fetchJobs`
      from the provider is commented out, so the chosen call fails with a ReferenceError, which
      the handler catches. */
  function DispatchAsWritten(term: string, f: SearchFilters): (r: Outcome<Dispatch>)
    ensures r.Threw?
    ensures r.message == (if DispatchFor(term, f).SearchCall? then "searchJobs is not defined" else "fetchJobs is not defined")
  {
    if Trim(term) != "" then Threw("searchJobs is not defined") else Threw("fetchJobs is not defined")
  }

  /** Submitting the term "react" with every filter at "all": the intended handler runs the
      search, the handler as written throws before reaching it. */
  lemma ReactSearchAsWritten()
    ensures DispatchFor("react", Cleared) == SearchCall("react", AsFilters(Cleared))
    ensures DispatchAsWritten("react", Cleared) == Threw("searchJobs is not defined")
  {
    TrimmedIsFixed("react");
  }

  /** The form's state. */
  class JobSearchForm {
    var searchTerm: string
    var filters: SearchFilters
    var showAdvanced: bool

    constructor ()
      ensures searchTerm == "" && filters == Cleared && !showAdvanced
    {
      searchTerm := "";
      filters := Cleared;
      showAdvanced := false;
    }

    /** `setSearchTerm`: the term input changed. */
    method SetSearchTerm(term: string)
      modifies this
      ensures searchTerm == term && filters == old(filters) && showAdvanced == old(showAdvanced)
    {
      searchTerm := term;
    }

    /** `handleFilterChange(name, value)`: only the named filter changes. */
    method HandleFilterChange(n: FilterName, value: string)
      modifies this
      ensures filters == WithFilter(old(filters), n, value)
      ensures searchTerm == old(searchTerm) && showAdvanced == old(showAdvanced)
    {
      filters := WithFilter(filters, n, value);
    }

    /** `clearFilters()`: back to the empty term and every filter at "all", whatever the state
        was, so clearing twice is clearing once. */
    method ClearFilters()
      modifies this
      ensures searchTerm == "" && filters == Cleared && showAdvanced == old(showAdvanced)
    {
      searchTerm := "";
      filters := Cleared;
    }

    /** `handleSearch` with the provider's calls bound: runs the chosen call. */
    method HandleSearch(provider: JobProvider, db: Database) returns (d: Dispatch)
      modifies provider
      ensures d == DispatchFor(searchTerm, filters)
      ensures d.SearchCall? ==>
        && provider.jobs == SearchResult(db.jobs, searchTerm, AsFilters(filters))
        && provider.lastDoc == old(provider.lastDoc) && provider.hasMore == old(provider.hasMore)
      ensures d.FetchCall? ==>
        && provider.lastQuery == FetchQuery(AsFilters(filters), false, old(provider.lastDoc))
        && provider.jobs == FetchPostFilter(RunQuery(db.jobs, provider.lastQuery), AsFilters(filters))
        && var page := RunQuery(db.jobs, provider.lastQuery);
           && provider.lastDoc == (if page == [] then None else Some(page[|page| - 1]))
           && provider.hasMore == (|page| == PageSize)
      ensures !provider.loading
    {
      d := DispatchFor(searchTerm, filters);
      if d.SearchCall? {
        var _ := provider.SearchJobs(db, searchTerm, AsFilters(filters));
      } else {
        var _ := provider.FetchJobs(db, AsFilters(filters), false);
      }
    }
  }
}
