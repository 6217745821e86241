/**
 * The applications list page: the free-text search over candidate name and
 * offer title, and the filter handler that chains the status, location,
 * skills and date filters. Both start from the store's full list.
 *
 * `new Date(text)` is a parameter: `parse` gives the instant a date text
 * denotes, or `None` for an invalid date (whose comparisons are all false).
 */
module ApplicationsPage {
  import opened Wrappers
  import opened Seqs
  import opened Text
  import opened Entities

  /** `new Date(text).getTime()`, or `None` where JavaScript gets `NaN`. */
  type DateParser = string -> Option<int>

  // ---------------------------------------------------------------------
  // Search
  // ---------------------------------------------------------------------

  /** The attached candidate's "first last", lower-cased; `''` without a candidate. */
  function CandidateName(a: Application): string
  {
    if a.candidate.Some? then Lower(a.candidate.value.firstName + " " + a.candidate.value.lastName) else ""
  }

  /** The attached offer's title, lower-cased; `''` without an offer. */
  function OfferTitle(a: Application): string
  {
    if a.offer.Some? then Lower(a.offer.value.title) else ""
  }

  /** The search predicate for one application. */
  predicate MatchesQuery(a: Application, query: string)
  {
    Contains(CandidateName(a), Lower(query)) || Contains(OfferTitle(a), Lower(query))
  }

  function QueryMatcher(query: string): Application -> bool
  {
    (a: Application) => MatchesQuery(a, query)
  }

  /**
   * The search effect's result: everything for an empty query, otherwise the
   * applications the query matches, in the store's order.
   */
  function Search(apps: seq<Application>, query: string): (r: seq<Application>)
    ensures query == "" ==> r == apps
    ensures query != "" ==> forall a :: a in r <==> a in apps && MatchesQuery(a, query)
    ensures query != "" ==> forall a ::
      multiset(r)[a] == if MatchesQuery(a, query) then multiset(apps)[a] else 0
    ensures IsSubsequence(r, apps)
  {
    if query == "" then
      SubsequenceRefl(apps);
      apps
    else
      FilterMembers(apps, QueryMatcher(query));
      FilterMultiset(apps, QueryMatcher(query));
      FilterIsSubsequence(apps, QueryMatcher(query));
      Filter(apps, QueryMatcher(query))
  }

  /** An application with neither a candidate nor an offer attached is never found. */
  lemma BareApplicationNotFound(a: Application, query: string)
    requires a.candidate.None? && a.offer.None?
    requires query != ""
    ensures !MatchesQuery(a, query)
  {
    ContainsAt("", Lower(query));
  }

  /** The search ignores the case of the query. */
  lemma SearchIgnoresQueryCase(apps: seq<Application>, query: string)
    ensures Search(apps, Lower(query)) == Search(apps, query)
  {
    LowerIdempotent(query);
    if query != "" {
      FilterAgree(apps, QueryMatcher(Lower(query)), QueryMatcher(query));
    }
  }

  // ---------------------------------------------------------------------
  // Filters
  // ---------------------------------------------------------------------

  /** `filters.status && filters.status.length > 0`. */
  predicate StatusActive(f: SearchFilters) { NonEmptyList(f.status) }

  function StatusTest(f: SearchFilters): Application -> bool
  {
    (a: Application) => f.status.Some? && a.status in f.status.value
  }

  /** `filters.location`, truthy. */
  predicate LocationActive(f: SearchFilters) { Truthy(f.location) }

  /** `application.offer?.location` contains the location, ignoring case; no offer fails. */
  function LocationTest(f: SearchFilters): Application -> bool
  {
    (a: Application) => f.location.Some? && a.offer.Some? &&
      ContainsIgnoringCase(a.offer.value.location, f.location.value)
  }

  /** `filters.skills && filters.skills.length > 0`. */
  predicate SkillsActive(f: SearchFilters) { NonEmptyList(f.skills) }

  /** Some skill of the candidate contains some wanted skill, ignoring case. */
  predicate HasWantedSkill(skills: seq<string>, wanted: seq<string>)
  {
    exists skill, w :: skill in skills && w in wanted && ContainsIgnoringCase(skill, w)
  }

  /** `application.candidate?.skills.some(...)`; no candidate fails. */
  function SkillsTest(f: SearchFilters): Application -> bool
  {
    (a: Application) => f.skills.Some? && a.candidate.Some? &&
      HasWantedSkill(a.candidate.value.skills, f.skills.value)
  }

  /**
   * The skills filter ignores case: `["react"]` keeps an application whose
   * candidate is skilled in `["React", "Node"]`.
   */
  lemma SkillsFilterIgnoresCase(a: Application)
    requires a.candidate.Some? && a.candidate.value.skills == ["React", "Node"]
    ensures SkillsTest(NoFilters.(skills := Some(["react"])))(a)
  {
    ContainsSelf("React");
    CaseVariantFound("React", "React", "react");
    assert "React" in a.candidate.value.skills && "react" in ["react"];
  }

  /** `filters.date?.from`, truthy. */
  predicate FromActive(f: SearchFilters) { f.date.Some? && Truthy(f.date.value.from) }

  /** `filters.date?.to`, truthy. */
  predicate ToActive(f: SearchFilters) { f.date.Some? && Truthy(f.date.value.to) }

  /** `new Date(application.createdAt) >= new Date(from)`: false when either date is invalid. */
  function FromTest(f: SearchFilters, parse: DateParser): Application -> bool
  {
    (a: Application) => f.date.Some? && f.date.value.from.Some? &&
      var created := parse(a.createdAt);
      var bound := parse(f.date.value.from.value);
      created.Some? && bound.Some? && created.value >= bound.value
  }

  /** `new Date(application.createdAt) <= new Date(to)`: false when either date is invalid. */
  function ToTest(f: SearchFilters, parse: DateParser): Application -> bool
  {
    (a: Application) => f.date.Some? && f.date.value.to.Some? &&
      var created := parse(a.createdAt);
      var bound := parse(f.date.value.to.value);
      created.Some? && bound.Some? && created.value <= bound.value
  }

  /** The handler's five filters, in the order it applies them. */
  function Stages(f: SearchFilters, parse: DateParser): seq<Stage<Application>>
  {
    [ Stage(StatusActive(f), StatusTest(f)),
      Stage(LocationActive(f), LocationTest(f)),
      Stage(SkillsActive(f), SkillsTest(f)),
      Stage(FromActive(f), FromTest(f, parse)),
      Stage(ToActive(f), ToTest(f, parse)) ]
  }

  /**
   * What an application must satisfy to survive the filters, clause by
   * clause: each filter that is set constrains, each that is not imposes nothing.
   */
  predicate MatchesFilters(a: Application, f: SearchFilters, parse: DateParser)
  {
    && (StatusActive(f) ==> a.status in f.status.value)
    && (LocationActive(f) ==> a.offer.Some? && ContainsIgnoringCase(a.offer.value.location, f.location.value))
    && (SkillsActive(f) ==> a.candidate.Some? && HasWantedSkill(a.candidate.value.skills, f.skills.value))
    && (FromActive(f) ==>
          parse(a.createdAt).Some? && parse(f.date.value.from.value).Some? &&
          parse(a.createdAt).value >= parse(f.date.value.from.value).value)
    && (ToActive(f) ==>
          parse(a.createdAt).Some? && parse(f.date.value.to.value).Some? &&
          parse(a.createdAt).value <= parse(f.date.value.to.value).value)
  }

  /** Surviving the chain of stages is matching the filters. */
  lemma StagesMeanMatch(a: Application, f: SearchFilters, parse: DateParser)
    ensures PassesAll(Stages(f, parse), a) <==> MatchesFilters(a, f, parse)
  {
    var st := Stages(f, parse);
    assert st[0] == Stage(StatusActive(f), StatusTest(f));
    assert st[1] == Stage(LocationActive(f), LocationTest(f));
    assert st[2] == Stage(SkillsActive(f), SkillsTest(f));
    assert st[3] == Stage(FromActive(f), FromTest(f, parse));
    assert st[4] == Stage(ToActive(f), ToTest(f, parse));
  }

  /**
   * `handleApplyFilters`: start from the full list and narrow it by each
   * filter that is set, in turn. The result is the list filtered by the
   * whole chain.
   */
  method ApplyFilters(apps: seq<Application>, f: SearchFilters, parse: DateParser)
    returns (filtered: seq<Application>)
    ensures filtered == Filter(apps, Survivor(Stages(f, parse)))
  {
    filtered := apps;
    ChainStart(apps);
    ghost var done: seq<Stage<Application>> := [];
    filtered := Narrow(apps, done, filtered, Stage(StatusActive(f), StatusTest(f)));
    done := done + [Stage(StatusActive(f), StatusTest(f))];
    filtered := Narrow(apps, done, filtered, Stage(LocationActive(f), LocationTest(f)));
    done := done + [Stage(LocationActive(f), LocationTest(f))];
    filtered := Narrow(apps, done, filtered, Stage(SkillsActive(f), SkillsTest(f)));
    done := done + [Stage(SkillsActive(f), SkillsTest(f))];
    filtered := Narrow(apps, done, filtered, Stage(FromActive(f), FromTest(f, parse)));
    done := done + [Stage(FromActive(f), FromTest(f, parse))];
    filtered := Narrow(apps, done, filtered, Stage(ToActive(f), ToTest(f, parse)));
    done := done + [Stage(ToActive(f), ToTest(f, parse))];
    assert done == Stages(f, parse);
  }

  /**
   * The filters compose as a conjunction: an application is in the result
   * exactly when it is in the list and matches every filter that is set;
   * the result keeps the list's order; with no filter set it is the whole list.
   */
  lemma FilterResultSpec(apps: seq<Application>, f: SearchFilters, parse: DateParser)
    ensures forall a :: a in Filter(apps, Survivor(Stages(f, parse))) <==> a in apps && MatchesFilters(a, f, parse)
    ensures IsSubsequence(Filter(apps, Survivor(Stages(f, parse))), apps)
    ensures f == NoFilters ==> Filter(apps, Survivor(Stages(f, parse))) == apps
  {
    forall a | a in apps
      ensures Survivor(Stages(f, parse))(a) <==> MatchesFilters(a, f, parse)
    {
      StagesMeanMatch(a, f, parse);
    }
    FilterMembers(apps, Survivor(Stages(f, parse)));
    FilterIsSubsequence(apps, Survivor(Stages(f, parse)));
    if f == NoFilters {
      ChainInactive(apps, Stages(f, parse));
    }
  }

  /** Filtering keeps every copy of each row that matches and none of the others. */
  lemma FilterResultCounts(apps: seq<Application>, f: SearchFilters, parse: DateParser)
    ensures forall a :: multiset(Filter(apps, Survivor(Stages(f, parse))))[a] == if MatchesFilters(a, f, parse) then multiset(apps)[a] else 0
  {
    forall a | a in apps
      ensures Survivor(Stages(f, parse))(a) <==> MatchesFilters(a, f, parse)
    {
      StagesMeanMatch(a, f, parse);
    }
    FilterAgreesWith(apps, Survivor(Stages(f, parse)), a => MatchesFilters(a, f, parse));
  }

  /**
   * Date bounds are inclusive: an application created exactly at the lower
   * and upper bound passes both date filters, and one whose creation date
   * does not parse fails whichever is set.
   */
  lemma DateBoundsInclusive(a: Application, f: SearchFilters, parse: DateParser)
    requires FromActive(f) && ToActive(f)
    ensures parse(a.createdAt).Some? && parse(a.createdAt) == parse(f.date.value.from.value)
      && parse(a.createdAt) == parse(f.date.value.to.value)
      ==> FromTest(f, parse)(a) && ToTest(f, parse)(a)
    ensures parse(a.createdAt).None? ==> !FromTest(f, parse)(a) && !ToTest(f, parse)(a)
  {
  }

  // ---------------------------------------------------------------------
  // The page's state
  // ---------------------------------------------------------------------

  class Page {
    /** The store's list, as the page last received it. */
    var applications: seq<Application>
    var filteredApplications: seq<Application>
    var searchQuery: string

    /** `useState(applications)` and `useState('')`. */
    constructor (apps: seq<Application>)
      ensures applications == apps && filteredApplications == apps && searchQuery == ""
    {
      applications := apps;
      filteredApplications := apps;
      searchQuery := "";
    }

    /** The search effect, run whenever the list or the query changes. */
    method SearchEffect()
      modifies this
      ensures filteredApplications == Search(applications, searchQuery)
      ensures applications == old(applications) && searchQuery == old(searchQuery)
    {
      if searchQuery != "" {
        filteredApplications := Filter(applications, QueryMatcher(searchQuery));
      } else {
        filteredApplications := applications;
      }
    }

    /**
     * `handleSearch`: store the query. Setting a state to the value it
     * already holds is skipped, so the effect recomputes the result only
     * when the query changes; otherwise the result shown (a filter result,
     * say) stays.
     */
    method HandleSearch(query: string)
      modifies this
      ensures searchQuery == query && applications == old(applications)
      ensures query == old(searchQuery) ==> filteredApplications == old(filteredApplications)
      ensures query != old(searchQuery) ==> filteredApplications == Search(applications, query)
    {
      if query != searchQuery {
        searchQuery := query;
        SearchEffect();
      }
    }

    /** The store delivers a new list; the effect then recomputes the result. */
    method ReceiveApplications(apps: seq<Application>)
      modifies this
      ensures applications == apps && searchQuery == old(searchQuery)
      ensures filteredApplications == Search(apps, searchQuery)
    {
      applications := apps;
      SearchEffect();
    }

    /**
     * `handleApplyFilters`: the result is computed from the full list, not
     * from the current search result, and the query is kept.
     */
    method HandleApplyFilters(f: SearchFilters, parse: DateParser)
      modifies this
      ensures filteredApplications == Filter(applications, Survivor(Stages(f, parse)))
      ensures applications == old(applications) && searchQuery == old(searchQuery)
    {
      filteredApplications := ApplyFilters(applications, f, parse);
    }
  }
}
