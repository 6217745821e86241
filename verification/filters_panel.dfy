/**
 * The filter panel shared by the list pages: it owns a `SearchFilters` value,
 * edits one field at a time, toggles statuses in and out of the status list,
 * turns the skills text box into a list, and hands the object to the page.
 */
module FiltersPanel {
  import opened Wrappers
  import opened Seqs
  import opened Text
  import opened Entities

  // ---------------------------------------------------------------------
  // Editing one field
  // ---------------------------------------------------------------------

  /** The keys of `SearchFilters`. */
  datatype FilterKey = QueryKey | StatusKey | LocationKey | SkillsKey | ExperienceKey | DateKey

  /** `handleFilterChange(key, value)`: a key with the value it is given. */
  datatype FilterChange =
    | SetQuery(query: string)
    | SetStatus(status: seq<string>)
    | SetLocation(location: string)
    | SetSkills(skills: seq<string>)
    | SetExperience(experience: string)
    | SetDate(date: DateRange)
  {
    function Key(): FilterKey
    {
      match this
      case SetQuery(_) => QueryKey
      case SetStatus(_) => StatusKey
      case SetLocation(_) => LocationKey
      case SetSkills(_) => SkillsKey
      case SetExperience(_) => ExperienceKey
      case SetDate(_) => DateKey
    }
  }

  /** `f` and `g` agree on every field except possibly `key`. */
  predicate AgreeExcept(f: SearchFilters, g: SearchFilters, key: FilterKey)
  {
    && (key != QueryKey ==> f.query == g.query)
    && (key != StatusKey ==> f.status == g.status)
    && (key != LocationKey ==> f.location == g.location)
    && (key != SkillsKey ==> f.skills == g.skills)
    && (key != ExperienceKey ==> f.experience == g.experience)
    && (key != DateKey ==> f.date == g.date)
  }

  /** The field the change names now holds the change's value. */
  predicate Holds(f: SearchFilters, c: FilterChange)
  {
    match c
    case SetQuery(q) => f.query == Some(q)
    case SetStatus(s) => f.status == Some(s)
    case SetLocation(l) => f.location == Some(l)
    case SetSkills(s) => f.skills == Some(s)
    case SetExperience(e) => f.experience == Some(e)
    case SetDate(d) => f.date == Some(d)
  }

  /** `{ ...prev, [key]: value }`: the named key is replaced, nothing else changes. */
  function Changed(f: SearchFilters, c: FilterChange): (r: SearchFilters)
    ensures Holds(r, c)
    ensures AgreeExcept(f, r, c.Key())
  {
    match c
    case SetQuery(q) => f.(query := Some(q))
    case SetStatus(s) => f.(status := Some(s))
    case SetLocation(l) => f.(location := Some(l))
    case SetSkills(s) => f.(skills := Some(s))
    case SetExperience(e) => f.(experience := Some(e))
    case SetDate(d) => f.(date := Some(d))
  }

  // ---------------------------------------------------------------------
  // The status toggle
  // ---------------------------------------------------------------------

  /** `filters.status || []`. */
  function CurrentStatuses(f: SearchFilters): seq<string>
  {
    if f.status.Some? then f.status.value else []
  }

  /** The predicate `s => s !== status`. */
  function IsNot(status: string): string -> bool
  {
    (s: string) => s != status
  }

  /**
   * The new status list of `handleStatusChange`: without every occurrence of
   * `status` when it is present, with `status` appended when it is absent.
   */
  function ToggleStatus(current: seq<string>, status: string): seq<string>
  {
    if status in current then Filter(current, IsNot(status)) else current + [status]
  }

  /**
   * Toggling an absent status appends it at the end; toggling a present
   * status removes all its occurrences and keeps the others in order.
   */
  lemma ToggleStatusSpec(current: seq<string>, status: string)
    ensures status !in current ==> ToggleStatus(current, status) == current + [status]
    ensures status in current ==>
      && status !in ToggleStatus(current, status)
      && (forall s :: s in ToggleStatus(current, status) <==> s in current && s != status)
      && IsSubsequence(ToggleStatus(current, status), current)
  {
    if status in current {
      FilterMembers(current, IsNot(status));
      FilterIsSubsequence(current, IsNot(status));
    }
  }

  /** Toggling an absent status twice restores the list exactly. */
  lemma ToggleTwiceAbsent(current: seq<string>, status: string)
    requires status !in current
    ensures ToggleStatus(ToggleStatus(current, status), status) == current
  {
    FilterAppend(current, [status], IsNot(status));
    FilterKeepsAll(current, IsNot(status));
    assert Filter([status], IsNot(status)) == [];
  }

  /** Toggling keeps a status list free of repetitions. */
  lemma ToggleKeepsDistinct(current: seq<string>, status: string)
    requires Distinct(current)
    ensures Distinct(ToggleStatus(current, status))
  {
    if status in current {
      FilterDistinct(current, IsNot(status));
    } else {
      var r := current + [status];
      forall i, j | 0 <= i < j < |r|
        ensures r[i] != r[j]
      {
        assert r[i] == current[i];
        if j == |current| {
          assert current[i] in current;
        } else {
          assert r[j] == current[j];
        }
      }
    }
  }

  /**
   * On a list without repetitions, toggling any status twice gives back the
   * same statuses, still without repetitions.
   */
  lemma ToggleTwiceSameStatuses(current: seq<string>, status: string)
    requires Distinct(current)
    ensures forall s :: s in ToggleStatus(ToggleStatus(current, status), status) <==> s in current
    ensures Distinct(ToggleStatus(ToggleStatus(current, status), status))
  {
    var once := ToggleStatus(current, status);
    ToggleStatusSpec(current, status);
    ToggleStatusSpec(once, status);
    ToggleKeepsDistinct(current, status);
    ToggleKeepsDistinct(once, status);
    if status in current {
      assert ToggleStatus(once, status) == once + [status];
    }
  }

  /**
   * Toggling a present status twice moves it to the end, so the list is not
   * restored when it was not last.
   */
  lemma ToggleTwiceMovesToEnd()
    ensures ToggleStatus(ToggleStatus([Pending, Accepted], Pending), Pending) == [Accepted, Pending]
  {
    var p := IsNot(Pending);
    assert [Pending, Accepted][1..] == [Accepted];
    assert Filter([Accepted], p) == [Accepted];
    assert Filter([Pending, Accepted], p) == [Accepted];
    assert Pending !in [Accepted];
  }

  // ---------------------------------------------------------------------
  // The skills text box
  // ---------------------------------------------------------------------

  /** `pieces.map(s => s.trim())`. */
  function TrimAll(pieces: seq<string>): (r: seq<string>)
    ensures |r| == |pieces|
    ensures forall i :: 0 <= i < |pieces| ==> r[i] == Trim(pieces[i])
  {
    seq(|pieces|, i requires 0 <= i < |pieces| => Trim(pieces[i]))
  }

  /** `value.split(',').map(s => s.trim())`: the skills list typed into the box. */
  function ParseSkills(text: string): seq<string>
  {
    TrimAll(Split(text, ','))
  }

  /** No leading or trailing white space. */
  predicate IsTrimmed(s: string)
  {
    s == [] || (!IsSpace(s[0]) && !IsSpace(s[|s| - 1]))
  }

  /** Trimming a comma-free piece gives a comma-free, trimmed entry. */
  lemma TrimmedPiece(piece: string)
    requires ',' !in piece
    ensures ',' !in Trim(piece) && IsTrimmed(Trim(piece))
  {
    TrimSpec(piece);
    var r := Trim(piece);
    var k := |piece| - |TrimStart(piece)|;
    assert r == piece[k..k + |r|];
    assert forall j :: 0 <= j < |r| ==> r[j] == piece[k + j];
  }

  /**
   * The parsed list has one entry per comma plus one (so an empty box gives
   * `[""]`), and no entry holds a comma or begins or ends with white space.
   */
  lemma ParseSkillsSpec(text: string)
    ensures |ParseSkills(text)| == |Split(text, ',')| >= 1
    ensures ParseSkills("") == [""]
    ensures forall i :: 0 <= i < |ParseSkills(text)| ==>
      ',' !in ParseSkills(text)[i] && IsTrimmed(ParseSkills(text)[i])
  {
    var pieces := Split(text, ',');
    var parsed := ParseSkills(text);
    forall i | 0 <= i < |parsed|
      ensures ',' !in parsed[i] && IsTrimmed(parsed[i])
    {
      assert parsed[i] == Trim(pieces[i]);
      TrimmedPiece(pieces[i]);
    }
    ParseEmpty();
  }

  /** An empty box parses to one empty entry. */
  lemma ParseEmpty()
    ensures ParseSkills("") == [""]
  {
    SplitNoSeparator("", ',');
    TrimOfTrimmed("");
    assert TrimAll([""])[0] == Trim("");
  }

  /** Splitting after a comma-free prefix and a comma peels off that prefix. */
  lemma {:induction false} SplitAfter(a: string, b: string, sep: char)
    requires sep !in a
    ensures Split(a + [sep] + b, sep) == [a] + Split(b, sep)
    decreases |a|
  {
    var s := a + [sep] + b;
    if a == [] {
      assert s[0] == sep && s[1..] == b;
    } else {
      SplitAfter(a[1..], b, sep);
      assert s[0] == a[0] && s[1..] == a[1..] + [sep] + b;
      assert [a[0]] + a[1..] == a;
    }
  }

  /** White space in front of a trimmed string is all that trimming removes. */
  lemma {:induction false} TrimLeadingSpaces(p: string, s: string)
    requires forall i :: 0 <= i < |p| ==> IsSpace(p[i])
    requires IsTrimmed(s)
    ensures Trim(p + s) == s
    decreases |p|
  {
    if p == [] {
      assert p + s == s;
      assert TrimStart(s) == s;
    } else {
      assert (p + s)[0] == p[0] && (p + s)[1..] == p[1..] + s;
      TrimLeadingSpaces(p[1..], s);
    }
  }

  lemma TrimAllCons(a: string, rest: seq<string>)
    ensures TrimAll([a] + rest) == [Trim(a)] + TrimAll(rest)
  {
    var l := TrimAll([a] + rest);
    var r := [Trim(a)] + TrimAll(rest);
    assert |l| == |r|;
    forall i | 0 <= i < |l|
      ensures l[i] == r[i]
    {
      if i > 0 {
        assert ([a] + rest)[i] == rest[i - 1];
      }
    }
  }

  lemma JoinUnfold(p: string, skills: seq<string>)
    requires |skills| >= 2
    ensures p + Join(skills, ", ") == (p + skills[0]) + [','] + (" " + Join(skills[1..], ", "))
  {
    var rest := Join(skills[1..], ", ");
    assert Join(skills, ", ") == skills[0] + ", " + rest;
    RegroupSeparator(p, skills[0], rest);
  }

  /** Regrouping `p + (a + ", " + rest)` around the comma. */
  lemma RegroupSeparator(p: string, a: string, rest: string)
    ensures p + (a + ", " + rest) == (p + a) + [','] + (" " + rest)
  {
    assert ", " + rest == [','] + (" " + rest);
  }

  /** Only white space. */
  predicate AllSpaces(p: string)
  {
    forall i :: 0 <= i < |p| ==> IsSpace(p[i])
  }

  /** A list the box can show and read back: comma-free, trimmed entries. */
  predicate CleanSkills(skills: seq<string>)
  {
    forall i :: 0 <= i < |skills| ==> ',' !in skills[i] && IsTrimmed(skills[i])
  }

  /** One skill, with white space in front, parses to itself. */
  lemma ParseOneSkill(p: string, skill: string)
    requires AllSpaces(p)
    requires ',' !in skill && IsTrimmed(skill)
    ensures ParseSkills(p + skill) == [skill]
  {
    TrimLeadingSpaces(p, skill);
    assert ',' !in p + skill;
    SplitNoSeparator(p + skill, ',');
    TrimAllCons(p + skill, []);
  }

  /** The first skill peels off the display text as its first parsed entry. */
  lemma ParseFirstSkill(p: string, skills: seq<string>)
    requires |skills| >= 2
    requires AllSpaces(p)
    requires ',' !in skills[0] && IsTrimmed(skills[0])
    ensures ParseSkills(p + Join(skills, ", ")) == [skills[0]] + ParseSkills(" " + Join(skills[1..], ", "))
  {
    var rest := " " + Join(skills[1..], ", ");
    var head := p + skills[0];
    TrimLeadingSpaces(p, skills[0]);
    JoinUnfold(p, skills);
    assert ',' !in head;
    SplitAfter(head, rest, ',');
    TrimAllCons(head, Split(rest, ','));
  }

  /** The skills list parses back from its display text, with white space `p` in front. */
  lemma {:induction false} ParseJoinedFrom(p: string, skills: seq<string>)
    requires |skills| >= 1
    requires AllSpaces(p)
    requires CleanSkills(skills)
    ensures ParseSkills(p + Join(skills, ", ")) == skills
    decreases |skills|
  {
    if |skills| == 1 {
      ParseOneSkill(p, skills[0]);
    } else {
      ParseFirstSkill(p, skills);
      assert CleanSkills(skills[1..]) by {
        forall i | 0 <= i < |skills[1..]|
          ensures ',' !in skills[1..][i] && IsTrimmed(skills[1..][i])
        {
          assert skills[1..][i] == skills[i + 1];
        }
      }
      assert AllSpaces(" ");
      ParseJoinedFrom(" ", skills[1..]);
      assert [skills[0]] + skills[1..] == skills;
    }
  }

  /**
   * The box shows `skills.join(', ')` and parses what it shows with
   * `split(',')` and `trim`: a list of trimmed, comma-free skills survives
   * the round trip.
   */
  lemma SkillsInputRoundTrip(skills: seq<string>)
    requires |skills| >= 1
    requires forall i :: 0 <= i < |skills| ==> ',' !in skills[i] && IsTrimmed(skills[i])
    ensures ParseSkills(Join(skills, ", ")) == skills
  {
    var shown := Join(skills, ", ");
    assert "" + shown == shown;
    ParseJoinedFrom("", skills);
  }

  // ---------------------------------------------------------------------
  // The panel
  // ---------------------------------------------------------------------

  class Panel {
    var filters: SearchFilters

    /** The panel starts with the empty filter object. */
    constructor ()
      ensures filters == NoFilters
    {
      filters := NoFilters;
    }

    /** `handleFilterChange(key, value)`. */
    method HandleFilterChange(change: FilterChange)
      modifies this
      ensures filters == Changed(old(filters), change)
    {
      filters := Changed(filters, change);
    }

    /** `handleStatusChange(statusValue)`. */
    method HandleStatusChange(status: string)
      modifies this
      ensures filters == Changed(old(filters), SetStatus(ToggleStatus(CurrentStatuses(old(filters)), status)))
    {
      var current := CurrentStatuses(filters);
      var next := ToggleStatus(current, status);
      HandleFilterChange(SetStatus(next));
    }

    /** The skills box's `onChange`: the typed text parsed into a list. */
    method HandleSkillsInput(text: string)
      modifies this
      ensures filters == Changed(old(filters), SetSkills(ParseSkills(text)))
    {
      HandleFilterChange(SetSkills(ParseSkills(text)));
    }

    /** `applyFilters`: the current object is handed over as it is. */
    method ApplyFilters() returns (applied: SearchFilters)
      ensures applied == filters
    {
      applied := filters;
    }

    /** `clearFilters`: back to `{}`, and `{}` is handed over. */
    method ClearFilters() returns (applied: SearchFilters)
      modifies this
      ensures filters == NoFilters && applied == NoFilters
    {
      filters := NoFilters;
      applied := NoFilters;
    }
  }
}
