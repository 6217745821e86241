/**
 * The candidates list page: the free-text search over name, email and
 * skills, and the filter handler that chains the skills and experience
 * filters. A location filter is accepted and has no effect.
 */
module CandidatesPage {
  import opened Wrappers
  import opened Seqs
  import opened Text
  import opened Entities

  // ---------------------------------------------------------------------
  // Search
  // ---------------------------------------------------------------------

  /** `` `${candidate.firstName} ${candidate.lastName}`.toLowerCase() ``. */
  function FullName(c: Candidate): string
  {
    Lower(c.firstName + " " + c.lastName)
  }

  /** `candidate.skills.join(' ').toLowerCase()`. */
  function SkillsText(c: Candidate): string
  {
    Lower(Join(c.skills, " "))
  }

  /** The search predicate for one candidate: name, email or skills holds the query. */
  predicate MatchesQuery(c: Candidate, query: string)
  {
    var q := Lower(query);
    Contains(FullName(c), q) || Contains(Lower(c.email), q) || Contains(SkillsText(c), q)
  }

  function QueryMatcher(query: string): Candidate -> bool
  {
    (c: Candidate) => MatchesQuery(c, query)
  }

  /**
   * The search effect's result: every candidate for an empty query,
   * otherwise the candidates the query matches, in the store's order.
   */
  function Search(candidates: seq<Candidate>, query: string): (r: seq<Candidate>)
    ensures query == "" ==> r == candidates
    ensures query != "" ==> forall c :: c in r <==> c in candidates && MatchesQuery(c, query)
    ensures query != "" ==> forall c ::
      multiset(r)[c] == if MatchesQuery(c, query) then multiset(candidates)[c] else 0
    ensures IsSubsequence(r, candidates)
  {
    if query == "" then
      SubsequenceRefl(candidates);
      candidates
    else
      FilterMembers(candidates, QueryMatcher(query));
      FilterMultiset(candidates, QueryMatcher(query));
      FilterIsSubsequence(candidates, QueryMatcher(query));
      Filter(candidates, QueryMatcher(query))
  }

  /** A candidate whose email holds the query is found, whatever the case of either. */
  lemma EmailHitFound(c: Candidate, query: string)
    requires ContainsIgnoringCase(c.email, query)
    ensures MatchesQuery(c, query)
  {
  }

  // ---------------------------------------------------------------------
  // Filters
  // ---------------------------------------------------------------------

  predicate SkillsActive(f: SearchFilters) { NonEmptyList(f.skills) }

  /** Some wanted skill occurs in some skill of the candidate, ignoring case. */
  predicate HasWantedSkill(skills: seq<string>, wanted: seq<string>)
  {
    exists w, skill :: w in wanted && skill in skills && ContainsIgnoringCase(skill, w)
  }

  function SkillsTest(f: SearchFilters): Candidate -> bool
  {
    (c: Candidate) => f.skills.Some? && HasWantedSkill(c.skills, f.skills.value)
  }

  /** The skills filter ignores case: `["react"]` keeps a candidate skilled in `["React", "Node"]`. */
  lemma SkillsFilterIgnoresCase(c: Candidate)
    requires c.skills == ["React", "Node"]
    ensures SkillsTest(NoFilters.(skills := Some(["react"])))(c)
  {
    ContainsSelf("React");
    CaseVariantFound("React", "React", "react");
    assert "React" in c.skills && "react" in ["react"];
  }

  predicate ExperienceActive(f: SearchFilters) { Truthy(f.experience) }

  function ExperienceTest(f: SearchFilters): Candidate -> bool
  {
    (c: Candidate) => f.experience.Some? && ContainsIgnoringCase(c.experience, f.experience.value)
  }

  /** The handler's filters, in the order it applies them; location has none. */
  function Stages(f: SearchFilters): seq<Stage<Candidate>>
  {
    [ Stage(SkillsActive(f), SkillsTest(f)),
      Stage(ExperienceActive(f), ExperienceTest(f)) ]
  }

  /** What a candidate must satisfy to survive the filters, clause by clause. */
  predicate MatchesFilters(c: Candidate, f: SearchFilters)
  {
    && (SkillsActive(f) ==> HasWantedSkill(c.skills, f.skills.value))
    && (ExperienceActive(f) ==> ContainsIgnoringCase(c.experience, f.experience.value))
  }

  lemma StagesMeanMatch(c: Candidate, f: SearchFilters)
    ensures PassesAll(Stages(f), c) <==> MatchesFilters(c, f)
  {
    var st := Stages(f);
    assert st[0] == Stage(SkillsActive(f), SkillsTest(f));
    assert st[1] == Stage(ExperienceActive(f), ExperienceTest(f));
  }

  /**
   * `handleApplyFilters`: start from the full list and narrow it by each
   * filter that is set, in turn; the location branch does nothing.
   */
  method ApplyFilters(candidates: seq<Candidate>, f: SearchFilters) returns (filtered: seq<Candidate>)
    ensures filtered == Filter(candidates, Survivor(Stages(f)))
  {
    filtered := candidates;
    ChainStart(candidates);
    ghost var done: seq<Stage<Candidate>> := [];
    filtered := Narrow(candidates, done, filtered, Stage(SkillsActive(f), SkillsTest(f)));
    done := done + [Stage(SkillsActive(f), SkillsTest(f))];
    filtered := Narrow(candidates, done, filtered, Stage(ExperienceActive(f), ExperienceTest(f)));
    done := done + [Stage(ExperienceActive(f), ExperienceTest(f))];
    assert done == Stages(f);
  }

  /**
   * The filters compose as a conjunction, keep the list's order, and with
   * no filter set give the whole list.
   */
  lemma FilterResultSpec(candidates: seq<Candidate>, f: SearchFilters)
    ensures forall c :: c in Filter(candidates, Survivor(Stages(f))) <==> c in candidates && MatchesFilters(c, f)
    ensures IsSubsequence(Filter(candidates, Survivor(Stages(f))), candidates)
    ensures f == NoFilters ==> Filter(candidates, Survivor(Stages(f))) == candidates
  {
    forall c | c in candidates
      ensures Survivor(Stages(f))(c) <==> MatchesFilters(c, f)
    {
      StagesMeanMatch(c, f);
    }
    FilterMembers(candidates, Survivor(Stages(f)));
    FilterIsSubsequence(candidates, Survivor(Stages(f)));
    if f == NoFilters {
      ChainInactive(candidates, Stages(f));
    }
  }

  /** Filtering keeps every copy of each row that matches and none of the others. */
  lemma FilterResultCounts(candidates: seq<Candidate>, f: SearchFilters)
    ensures forall c :: multiset(Filter(candidates, Survivor(Stages(f))))[c] == if MatchesFilters(c, f) then multiset(candidates)[c] else 0
  {
    forall c | c in candidates
      ensures Survivor(Stages(f))(c) <==> MatchesFilters(c, f)
    {
      StagesMeanMatch(c, f);
    }
    FilterAgreesWith(candidates, Survivor(Stages(f)), c => MatchesFilters(c, f));
  }

  /** Whatever location is chosen, the result is the same. */
  lemma LocationIgnored(candidates: seq<Candidate>, f: SearchFilters, location: Option<string>)
    ensures Filter(candidates, Survivor(Stages(f.(location := location))))
         == Filter(candidates, Survivor(Stages(f)))
  {
    assert Stages(f.(location := location)) == Stages(f);
  }

  /**
   * A skills box emptied after typing sends `[""]`, which is a non-empty
   * list: the filter then keeps exactly the candidates with at least one
   * skill, since every string contains the empty string.
   */
  lemma BlankSkillKeepsSkilled(c: Candidate)
    ensures HasWantedSkill(c.skills, [""]) <==> |c.skills| > 0
  {
    if |c.skills| > 0 {
      assert "" in [""];
      assert c.skills[0] in c.skills;
      ContainsEmpty(Lower(c.skills[0]));
      assert Lower("") == "";
      assert ContainsIgnoringCase(c.skills[0], "");
    }
  }

  // ---------------------------------------------------------------------
  // The page's state
  // ---------------------------------------------------------------------

  class Page {
    var candidates: seq<Candidate>
    var filteredCandidates: seq<Candidate>
    var searchQuery: string

    constructor (list: seq<Candidate>)
      ensures candidates == list && filteredCandidates == list && searchQuery == ""
    {
      candidates := list;
      filteredCandidates := list;
      searchQuery := "";
    }

    /** The search effect, run whenever the list or the query changes. */
    method SearchEffect()
      modifies this
      ensures filteredCandidates == Search(candidates, searchQuery)
      ensures candidates == old(candidates) && searchQuery == old(searchQuery)
    {
      if searchQuery != "" {
        filteredCandidates := Filter(candidates, QueryMatcher(searchQuery));
      } else {
        filteredCandidates := candidates;
      }
    }

    /**
     * `handleSearch`: store the query. Setting a state to the value it
     * already holds is skipped, so the effect recomputes the result only
     * when the query changes; otherwise the result shown (a filter result,
     * say) stays.
     */
    method HandleSearch(query: string)
      modifies this
      ensures searchQuery == query && candidates == old(candidates)
      ensures query == old(searchQuery) ==> filteredCandidates == old(filteredCandidates)
      ensures query != old(searchQuery) ==> filteredCandidates == Search(candidates, query)
    {
      if query != searchQuery {
        searchQuery := query;
        SearchEffect();
      }
    }

    /** The store delivers a new list; the effect then recomputes the result. */
    method ReceiveCandidates(list: seq<Candidate>)
      modifies this
      ensures candidates == list && searchQuery == old(searchQuery)
      ensures filteredCandidates == Search(list, searchQuery)
    {
      candidates := list;
      SearchEffect();
    }

    /** `handleApplyFilters`: computed from the full list; the query is kept. */
    method HandleApplyFilters(f: SearchFilters)
      modifies this
      ensures filteredCandidates == Filter(candidates, Survivor(Stages(f)))
      ensures candidates == old(candidates) && searchQuery == old(searchQuery)
    {
      filteredCandidates := ApplyFilters(candidates, f);
    }
  }
}
