/**
 * The job offers list page: the free-text search over title, company,
 * location, requirements and description, and the filter handler that
 * chains the location, skills, experience and status filters. A status
 * filter holds application status codes, which are translated to offer
 * status codes before matching.
 */
module JobOffersPage {
  import opened Wrappers
  import opened Seqs
  import opened Text
  import opened Entities

  // ---------------------------------------------------------------------
  // Search
  // ---------------------------------------------------------------------

  /** `` `${offer.title} ${offer.company}`.toLowerCase() ``. */
  function TitleAndCompany(o: JobOffer): string
  {
    Lower(o.title + " " + o.company)
  }

  /** `offer.requirements.join(' ').toLowerCase()`. */
  function RequirementsText(o: JobOffer): string
  {
    Lower(Join(o.requirements, " "))
  }

  /** The search predicate for one offer: any of the four texts holds the query. */
  predicate MatchesQuery(o: JobOffer, query: string)
  {
    var q := Lower(query);
    Contains(TitleAndCompany(o), q) || Contains(Lower(o.location), q) ||
    Contains(RequirementsText(o), q) || Contains(Lower(o.description), q)
  }

  function QueryMatcher(query: string): JobOffer -> bool
  {
    (o: JobOffer) => MatchesQuery(o, query)
  }

  /**
   * The search effect's result: every offer for an empty query, otherwise
   * the offers the query matches, in the store's order.
   */
  function Search(offers: seq<JobOffer>, query: string): (r: seq<JobOffer>)
    ensures query == "" ==> r == offers
    ensures query != "" ==> forall o :: o in r <==> o in offers && MatchesQuery(o, query)
    ensures query != "" ==> forall o ::
      multiset(r)[o] == if MatchesQuery(o, query) then multiset(offers)[o] else 0
    ensures IsSubsequence(r, offers)
  {
    if query == "" then
      SubsequenceRefl(offers);
      offers
    else
      FilterMembers(offers, QueryMatcher(query));
      FilterMultiset(offers, QueryMatcher(query));
      FilterIsSubsequence(offers, QueryMatcher(query));
      Filter(offers, QueryMatcher(query))
  }

  /** An offer whose title holds the query is found, whatever the query's case. */
  lemma TitleHitFound(o: JobOffer, query: string)
    requires Contains(Lower(o.title), Lower(query))
    ensures MatchesQuery(o, query)
  {
    var q := Lower(query);
    LowerAppend(o.title, " " + o.company);
    assert o.title + " " + o.company == o.title + (" " + o.company);
    ContainsAt(Lower(o.title), q);
    var i :| OccursAt(Lower(o.title), q, i);
    assert OccursAt(TitleAndCompany(o), q, i);
    ContainsAt(TitleAndCompany(o), q);
  }

  // ---------------------------------------------------------------------
  // The status map
  // ---------------------------------------------------------------------

  /**
   * `statusMap[status] || status`: an application status code translated to
   * the offer status it is taken to mean; any other code passes through.
   */
  function MapStatus(status: string): (r: string)
    ensures status == Pending ==> r == Draft
    ensures status == InProgress || status == Accepted ==> r == Open
    ensures status == Rejected ==> r == Closed
    ensures status !in {Pending, InProgress, Accepted, Rejected} ==> r == status
  {
    if status == Pending then Draft
    else if status == InProgress then Open
    else if status == Accepted then Open
    else if status == Rejected then Closed
    else status
  }

  /**
   * Translating twice is translating once: the translated codes are offer
   * codes, which the map passes through. In particular the offer codes
   * themselves can be used in a status filter.
   */
  lemma MapStatusIdempotent(status: string)
    ensures MapStatus(MapStatus(status)) == MapStatus(status)
    ensures status in {Open, Closed, Draft} ==> MapStatus(status) == status
  {
  }

  /** `filters.status.map(status => statusMap[status] || status)`. */
  function MapStatuses(statuses: seq<string>): (r: seq<string>)
    ensures |r| == |statuses|
    ensures forall i :: 0 <= i < |statuses| ==> r[i] == MapStatus(statuses[i])
  {
    seq(|statuses|, i requires 0 <= i < |statuses| => MapStatus(statuses[i]))
  }

  /** An offer status is in the translated list exactly when some listed code translates to it. */
  lemma MapStatusesMembers(statuses: seq<string>, offerStatus: string)
    ensures offerStatus in MapStatuses(statuses) <==> exists s :: s in statuses && MapStatus(s) == offerStatus
  {
    var r := MapStatuses(statuses);
    if offerStatus in r {
      var i :| 0 <= i < |r| && r[i] == offerStatus;
      assert statuses[i] in statuses;
    }
    if exists s :: s in statuses && MapStatus(s) == offerStatus {
      var s :| s in statuses && MapStatus(s) == offerStatus;
      var i :| 0 <= i < |statuses| && statuses[i] == s;
      assert r[i] == offerStatus;
    }
  }

  // ---------------------------------------------------------------------
  // Filters
  // ---------------------------------------------------------------------

  predicate LocationActive(f: SearchFilters) { Truthy(f.location) }

  function LocationTest(f: SearchFilters): JobOffer -> bool
  {
    (o: JobOffer) => f.location.Some? && ContainsIgnoringCase(o.location, f.location.value)
  }

  predicate SkillsActive(f: SearchFilters) { NonEmptyList(f.skills) }

  /** Some wanted skill occurs in some requirement, ignoring case. */
  predicate RequiresWantedSkill(requirements: seq<string>, wanted: seq<string>)
  {
    exists w, req :: w in wanted && req in requirements && ContainsIgnoringCase(req, w)
  }

  function SkillsTest(f: SearchFilters): JobOffer -> bool
  {
    (o: JobOffer) => f.skills.Some? && RequiresWantedSkill(o.requirements, f.skills.value)
  }

  predicate ExperienceActive(f: SearchFilters) { Truthy(f.experience) }

  function ExperienceTest(f: SearchFilters): JobOffer -> bool
  {
    (o: JobOffer) => f.experience.Some? && ContainsIgnoringCase(o.experienceRequired, f.experience.value)
  }

  predicate StatusActive(f: SearchFilters) { NonEmptyList(f.status) }

  function StatusTest(f: SearchFilters): JobOffer -> bool
  {
    (o: JobOffer) => f.status.Some? && o.status in MapStatuses(f.status.value)
  }

  /** The handler's four filters, in the order it applies them. */
  function Stages(f: SearchFilters): seq<Stage<JobOffer>>
  {
    [ Stage(LocationActive(f), LocationTest(f)),
      Stage(SkillsActive(f), SkillsTest(f)),
      Stage(ExperienceActive(f), ExperienceTest(f)),
      Stage(StatusActive(f), StatusTest(f)) ]
  }

  /** What an offer must satisfy to survive the filters, clause by clause. */
  predicate MatchesFilters(o: JobOffer, f: SearchFilters)
  {
    && (LocationActive(f) ==> ContainsIgnoringCase(o.location, f.location.value))
    && (SkillsActive(f) ==> RequiresWantedSkill(o.requirements, f.skills.value))
    && (ExperienceActive(f) ==> ContainsIgnoringCase(o.experienceRequired, f.experience.value))
    && (StatusActive(f) ==> exists s :: s in f.status.value && MapStatus(s) == o.status)
  }

  lemma StagesMeanMatch(o: JobOffer, f: SearchFilters)
    ensures PassesAll(Stages(f), o) <==> MatchesFilters(o, f)
  {
    var st := Stages(f);
    assert st[0] == Stage(LocationActive(f), LocationTest(f));
    assert st[1] == Stage(SkillsActive(f), SkillsTest(f));
    assert st[2] == Stage(ExperienceActive(f), ExperienceTest(f));
    assert st[3] == Stage(StatusActive(f), StatusTest(f));
    if f.status.Some? {
      MapStatusesMembers(f.status.value, o.status);
    }
  }

  /**
   * `handleApplyFilters`: start from the full list and narrow it by each
   * filter that is set, in turn.
   */
  method ApplyFilters(offers: seq<JobOffer>, f: SearchFilters) returns (filtered: seq<JobOffer>)
    ensures filtered == Filter(offers, Survivor(Stages(f)))
  {
    filtered := offers;
    ChainStart(offers);
    ghost var done: seq<Stage<JobOffer>> := [];
    filtered := Narrow(offers, done, filtered, Stage(LocationActive(f), LocationTest(f)));
    done := done + [Stage(LocationActive(f), LocationTest(f))];
    filtered := Narrow(offers, done, filtered, Stage(SkillsActive(f), SkillsTest(f)));
    done := done + [Stage(SkillsActive(f), SkillsTest(f))];
    filtered := Narrow(offers, done, filtered, Stage(ExperienceActive(f), ExperienceTest(f)));
    done := done + [Stage(ExperienceActive(f), ExperienceTest(f))];
    filtered := Narrow(offers, done, filtered, Stage(StatusActive(f), StatusTest(f)));
    done := done + [Stage(StatusActive(f), StatusTest(f))];
    assert done == Stages(f);
  }

  /**
   * The filters compose as a conjunction: an offer is in the result exactly
   * when it is in the list and matches every filter that is set; the result
   * keeps the list's order; with no filter set it is the whole list.
   */
  lemma FilterResultSpec(offers: seq<JobOffer>, f: SearchFilters)
    ensures forall o :: o in Filter(offers, Survivor(Stages(f))) <==> o in offers && MatchesFilters(o, f)
    ensures IsSubsequence(Filter(offers, Survivor(Stages(f))), offers)
    ensures f == NoFilters ==> Filter(offers, Survivor(Stages(f))) == offers
  {
    forall o | o in offers
      ensures Survivor(Stages(f))(o) <==> MatchesFilters(o, f)
    {
      StagesMeanMatch(o, f);
    }
    FilterMembers(offers, Survivor(Stages(f)));
    FilterIsSubsequence(offers, Survivor(Stages(f)));
    if f == NoFilters {
      ChainInactive(offers, Stages(f));
    }
  }

  /** Filtering keeps every copy of each row that matches and none of the others. */
  lemma FilterResultCounts(offers: seq<JobOffer>, f: SearchFilters)
    ensures forall o :: multiset(Filter(offers, Survivor(Stages(f))))[o] == if MatchesFilters(o, f) then multiset(offers)[o] else 0
  {
    forall o | o in offers
      ensures Survivor(Stages(f))(o) <==> MatchesFilters(o, f)
    {
      StagesMeanMatch(o, f);
    }
    FilterAgreesWith(offers, Survivor(Stages(f)), o => MatchesFilters(o, f));
  }

  /**
   * Selecting "accepted" or "in progress" in the panel selects the same
   * offers: both are read as open offers.
   */
  lemma AcceptedMeansOpen(offers: seq<JobOffer>, f: SearchFilters)
    ensures Filter(offers, Survivor(Stages(f.(status := Some([Accepted])))))
         == Filter(offers, Survivor(Stages(f.(status := Some([InProgress])))))
  {
    var fa := f.(status := Some([Accepted]));
    var fi := f.(status := Some([InProgress]));
    forall o | o in offers
      ensures Survivor(Stages(fa))(o) == Survivor(Stages(fi))(o)
    {
      StagesMeanMatch(o, fa);
      StagesMeanMatch(o, fi);
      assert MatchesFilters(o, fa) == MatchesFilters(o, fi) by {
        assert (exists s :: s in [Accepted] && MapStatus(s) == o.status) <==> o.status == Open by {
          assert Accepted in [Accepted];
        }
        assert (exists s :: s in [InProgress] && MapStatus(s) == o.status) <==> o.status == Open by {
          assert InProgress in [InProgress];
        }
      }
    }
    FilterAgree(offers, Survivor(Stages(fa)), Survivor(Stages(fi)));
  }

  // ---------------------------------------------------------------------
  // The page's state
  // ---------------------------------------------------------------------

  class Page {
    var jobOffers: seq<JobOffer>
    var filteredOffers: seq<JobOffer>
    var searchQuery: string

    constructor (offers: seq<JobOffer>)
      ensures jobOffers == offers && filteredOffers == offers && searchQuery == ""
    {
      jobOffers := offers;
      filteredOffers := offers;
      searchQuery := "";
    }

    /** The search effect, run whenever the list or the query changes. */
    method SearchEffect()
      modifies this
      ensures filteredOffers == Search(jobOffers, searchQuery)
      ensures jobOffers == old(jobOffers) && searchQuery == old(searchQuery)
    {
      if searchQuery != "" {
        filteredOffers := Filter(jobOffers, QueryMatcher(searchQuery));
      } else {
        filteredOffers := jobOffers;
      }
    }

    /**
     * `handleSearch`: store the query. Setting a state to the value it
     * already holds is skipped, so the effect recomputes the result only
     * when the query changes; otherwise the result shown (a filter result,
     * say) stays.
     */
    method HandleSearch(query: string)
      modifies this
      ensures searchQuery == query && jobOffers == old(jobOffers)
      ensures query == old(searchQuery) ==> filteredOffers == old(filteredOffers)
      ensures query != old(searchQuery) ==> filteredOffers == Search(jobOffers, query)
    {
      if query != searchQuery {
        searchQuery := query;
        SearchEffect();
      }
    }

    /** The store delivers a new list; the effect then recomputes the result. */
    method ReceiveOffers(offers: seq<JobOffer>)
      modifies this
      ensures jobOffers == offers && searchQuery == old(searchQuery)
      ensures filteredOffers == Search(offers, searchQuery)
    {
      jobOffers := offers;
      SearchEffect();
    }

    /** `handleApplyFilters`: computed from the full list; the query is kept. */
    method HandleApplyFilters(f: SearchFilters)
      modifies this
      ensures filteredOffers == Filter(jobOffers, Survivor(Stages(f)))
      ensures jobOffers == old(jobOffers) && searchQuery == old(searchQuery)
    {
      filteredOffers := ApplyFilters(jobOffers, f);
    }
  }
}
