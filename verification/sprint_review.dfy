/** The project-page form: it suggests the next sprint from the active one,
    lists the issues of a sprint that can still be split, and on
    confirmation pushes one split job per selected issue onto the queue. */
module SprintReview {
  import opened Json
  import opened Configs
  import opened Consumer

  /** A board sprint as the page keeps it. */
  datatype Sprint = Sprint(id: int, name: string, state: string)

  /** An issue of the search result. */
  datatype SearchHit = SearchHit(key: string, fields: Fields)

  /** A listed issue: its key and the fields the table shows. */
  datatype Row = Row(key: string, fields: Fields)

  datatype SprintOption = SprintOption(caption: string, value: int, defaultSelected: bool)

  datatype IssueOption = IssueOption(caption: string, value: string, defaultSelected: bool)

  /** The fields kept for display. */
  const DISPLAY_KEYS: seq<string> := ["issuetype", "summary", "status", "assignee", STORY_POINT_FIELD_NAME]

  /** `xs.filter(p)`. */
  function Filter<T(!new)>(xs: seq<T>, p: T -> bool): (r: seq<T>)
    ensures |r| <= |xs|
    ensures forall x :: x in r <==> x in xs && p(x)
    decreases |xs|
  {
    if xs == [] then [] else (if p(xs[0]) then [xs[0]] else []) + Filter(xs[1..], p)
  }

  /** Filtering keeps the order of the list: it distributes over concatenation. */
  lemma {:induction false} FilterAppend<T(!new)>(a: seq<T>, b: seq<T>, p: T -> bool)
    ensures Filter(a + b, p) == Filter(a, p) + Filter(b, p)
    decreases |a|
  {
    if a == [] {
      assert a + b == b;
    } else {
      assert (a + b)[0] == a[0];
      assert (a + b)[1..] == a[1..] + b;
      FilterAppend(a[1..], b, p);
    }
  }

  /** Filtering by a condition and by its negation splits the list. */
  lemma {:induction false} FilterPartition<T(!new)>(xs: seq<T>, p: T -> bool, q: T -> bool)
    requires forall x :: x in xs ==> (q(x) <==> !p(x))
    ensures |Filter(xs, p)| + |Filter(xs, q)| == |xs|
    decreases |xs|
  {
    if xs != [] {
      assert forall x :: x in xs[1..] ==> x in xs;
      FilterPartition(xs[1..], p, q);
    }
  }

  /** `xs.find(p)`, as the index of the element found. */
  function FindFirst<T>(xs: seq<T>, p: T -> bool): (r: Option<nat>)
    ensures r.Some? ==> r.value < |xs| && p(xs[r.value]) && forall j :: 0 <= j < r.value ==> !p(xs[j])
    ensures r.None? ==> forall j :: 0 <= j < |xs| ==> !p(xs[j])
    decreases |xs|
  {
    if xs == [] then None
    else if p(xs[0]) then Some(0)
    else match FindFirst(xs[1..], p)
      case None => None
      case Some(i) => Some(i + 1)
  }

  /** Half-open bounds of a run of characters. */
  datatype Span = Span(start: nat, end: nat)

  /** The end of the run of digits starting at `i`. */
  function RunEnd(s: string, i: nat): (j: nat)
    requires i <= |s|
    ensures i <= j <= |s|
    ensures forall k :: i <= k < j ==> IsDigit(s[k])
    ensures j == |s| || !IsDigit(s[j])
    decreases |s| - i
  {
    if i < |s| && IsDigit(s[i]) then RunEnd(s, i + 1) else i
  }

  /** The first maximal run of digits at or after `i` (`/\d+/`). */
  function DigitRun(s: string, i: nat): (r: Option<Span>)
    requires i <= |s|
    ensures r.None? ==> forall k :: i <= k < |s| ==> !IsDigit(s[k])
    ensures r.Some? ==> i <= r.value.start < r.value.end <= |s|
    ensures r.Some? ==> forall k :: i <= k < r.value.start ==> !IsDigit(s[k])
    ensures r.Some? ==> forall k :: r.value.start <= k < r.value.end ==> IsDigit(s[k])
    ensures r.Some? ==> r.value.end == |s| || !IsDigit(s[r.value.end])
    decreases |s| - i
  {
    if i == |s| then None
    else if IsDigit(s[i]) then Some(Span(i, RunEnd(s, i)))
    else DigitRun(s, i + 1)
  }

  /** `Number(name.match(/\d+/)?.[0])`: the number the first run of digits
      denotes, or NaN (None) when the name has no digit. */
  function SprintNumber(name: string): (n: Option<nat>)
    ensures n.None? <==> forall k :: 0 <= k < |name| ==> !IsDigit(name[k])
  {
    match DigitRun(name, 0)
    case None => None
    case Some(span) =>
      assert AllDigits(name[span.start..span.end]);
      Some(DigitsValue(name[span.start..span.end]))
  }

  /** A run of digits from `i` that stops at `end` ends at `end`. */
  lemma {:induction false} RunEndAt(s: string, i: nat, end: nat)
    requires i <= end <= |s|
    requires forall k :: i <= k < end ==> IsDigit(s[k])
    requires end == |s| || !IsDigit(s[end])
    ensures RunEnd(s, i) == end
    decreases end - i
  {
    if i < end {
      RunEndAt(s, i + 1, end);
    }
  }

  /** The first maximal run of digits from `i` is the one at `start..end`
      when no digit comes before it. */
  lemma {:induction false} DigitRunAt(s: string, i: nat, start: nat, end: nat)
    requires i <= start < end <= |s|
    requires forall k :: i <= k < start ==> !IsDigit(s[k])
    requires forall k :: start <= k < end ==> IsDigit(s[k])
    requires end == |s| || !IsDigit(s[end])
    ensures DigitRun(s, i) == Some(Span(start, end))
    decreases start - i
  {
    if i < start {
      DigitRunAt(s, i + 1, start, end);
    } else {
      RunEndAt(s, start, end);
    }
  }

  /** The first run of digits of `prefix + digits + suffix` is `digits`. */
  lemma DigitRunOfName(prefix: string, digits: string, suffix: string)
    requires forall k :: 0 <= k < |prefix| ==> !IsDigit(prefix[k])
    requires |digits| > 0 && AllDigits(digits)
    requires suffix == [] || !IsDigit(suffix[0])
    ensures DigitRun(prefix + digits + suffix, 0) == Some(Span(|prefix|, |prefix| + |digits|))
  {
    var head := prefix + digits;
    var name := head + suffix;
    var start, end := |prefix|, |head|;
    forall k | 0 <= k < start
      ensures !IsDigit(name[k])
    {
      assert name[k] == head[k] == prefix[k];
    }
    forall k | start <= k < end
      ensures IsDigit(name[k])
    {
      assert name[k] == head[k] == digits[k - start];
    }
    if end < |name| {
      assert name[end] == suffix[0];
    }
    DigitRunAt(name, 0, start, end);
  }

  /** A name whose first run of digits is `digits` has the number those
      digits denote. */
  lemma SprintNumberOfDigits(prefix: string, digits: string, suffix: string)
    requires forall k :: 0 <= k < |prefix| ==> !IsDigit(prefix[k])
    requires |digits| > 0 && AllDigits(digits)
    requires suffix == [] || !IsDigit(suffix[0])
    ensures SprintNumber(prefix + digits + suffix) == Some(DigitsValue(digits))
  {
    var name := prefix + digits + suffix;
    DigitRunOfName(prefix, digits, suffix);
    assert name[|prefix|..|prefix| + |digits|] == digits;
  }

  /** A name whose first digits spell `n` has sprint number `n`. */
  lemma SprintNumberOfName(prefix: string, n: nat, suffix: string)
    requires forall k :: 0 <= k < |prefix| ==> !IsDigit(prefix[k])
    requires suffix == [] || !IsDigit(suffix[0])
    ensures SprintNumber(prefix + Decimal(n) + suffix) == Some(n)
  {
    SprintNumberOfDigits(prefix, Decimal(n), suffix);
    DecimalRoundTrip(n);
  }

  /** A zero-padded number ("Sprint 07") reads as the number itself. */
  lemma SprintNumberLeadingZero(prefix: string, n: nat, suffix: string)
    requires forall k :: 0 <= k < |prefix| ==> !IsDigit(prefix[k])
    requires suffix == [] || !IsDigit(suffix[0])
    ensures SprintNumber(prefix + "0" + Decimal(n) + suffix) == Some(n)
  {
    var digits := "0" + Decimal(n);
    assert prefix + "0" + Decimal(n) + suffix == prefix + digits + suffix;
    assert AllDigits(digits);
    SprintNumberOfDigits(prefix, digits, suffix);
    LeadingZeroIgnored(Decimal(n));
    DecimalRoundTrip(n);
  }

  predicate IsActive(s: Sprint) {
    s.state == "active"
  }

  predicate IsNotActive(s: Sprint) {
    s.state != "active"
  }

  /** The number in the name of the first active sprint; None when there is
      no active sprint or its name has no digit. */
  function ActiveSprintNumber(sprints: seq<Sprint>): (n: Option<nat>)
    ensures n.Some? ==> exists i :: 0 <= i < |sprints| && IsActive(sprints[i]) && SprintNumber(sprints[i].name) == n
    ensures forall i :: 0 <= i < |sprints| && IsActive(sprints[i]) && (forall j :: 0 <= j < i ==> !IsActive(sprints[j])) ==>
              n == SprintNumber(sprints[i].name)
    ensures (forall i :: 0 <= i < |sprints| ==> !IsActive(sprints[i])) ==> n.None?
  {
    match FindFirst(sprints, IsActive)
    case None => None
    case Some(i) => SprintNumber(sprints[i].name)
  }

  /** A future sprint whose number follows `n`. */
  predicate IsSuccessor(n: nat, s: Sprint) {
    s.state == "future" && SprintNumber(s.name) == Some(n + 1)
  }

  /** `i` is the position of the first successor of `n`. */
  predicate FirstSuccessorAt(sprints: seq<Sprint>, n: nat, i: int) {
    0 <= i < |sprints| && IsSuccessor(n, sprints[i]) && forall j :: 0 <= j < i ==> !IsSuccessor(n, sprints[j])
  }

  /** The pre-suggested next sprint: the first future sprint numbered one
      past the active sprint. A missing number (NaN) and the number 0 are
      falsy, so they suggest nothing. */
  function SuggestNextSprintId(sprints: seq<Sprint>): (r: Option<int>)
    ensures r.Some? ==>
              && ActiveSprintNumber(sprints).Some? && ActiveSprintNumber(sprints).value > 0
              && exists i :: FirstSuccessorAt(sprints, ActiveSprintNumber(sprints).value, i) && sprints[i].id == r.value
    ensures (&& ActiveSprintNumber(sprints).Some? && ActiveSprintNumber(sprints).value > 0
             && exists i :: 0 <= i < |sprints| && IsSuccessor(ActiveSprintNumber(sprints).value, sprints[i]))
            ==> r.Some?
  {
    match ActiveSprintNumber(sprints)
    case None => None
    case Some(n) =>
      if n == 0 then None
      else match FindFirst(sprints, s => IsSuccessor(n, s))
        case None => None
        case Some(i) =>
          assert FirstSuccessorAt(sprints, n, i);
          Some(sprints[i].id)
  }

  /** The options of the "Target sprint" select: the active sprints. */
  function TargetSprintOptions(sprints: seq<Sprint>): seq<SprintOption> {
    var kept := Filter(sprints, IsActive);
    seq(|kept|, i requires 0 <= i < |kept| => SprintOption(kept[i].name, kept[i].id, IsActive(kept[i])))
  }

  /** Whether the next-sprint option with `id` starts selected. The
      suggestion `activeSprintNumber && ...` evaluates to the number itself
      when that is 0, so an active sprint numbered 0 preselects a sprint
      with id 0. */
  predicate Preselects(sprints: seq<Sprint>, id: int) {
    if ActiveSprintNumber(sprints) == Some(0) then id == 0
    else SuggestNextSprintId(sprints) == Some(id)
  }

  /** The options of the "Next sprint" select: the other sprints, with the
      suggested one selected. */
  function NextSprintOptions(sprints: seq<Sprint>): seq<SprintOption> {
    var kept := Filter(sprints, IsNotActive);
    seq(|kept|, i requires 0 <= i < |kept| => SprintOption(kept[i].name, kept[i].id, Preselects(sprints, kept[i].id)))
  }

  /** The target select offers exactly the active sprints and the next
      select exactly the others, each in list order; every target option is
      selected by default. Together they offer one option per sprint. */
  lemma SprintOptionsPartition(sprints: seq<Sprint>)
    ensures |TargetSprintOptions(sprints)| == |Filter(sprints, IsActive)|
    ensures |NextSprintOptions(sprints)| == |Filter(sprints, IsNotActive)|
    ensures |TargetSprintOptions(sprints)| + |NextSprintOptions(sprints)| == |sprints|
    ensures forall i :: 0 <= i < |TargetSprintOptions(sprints)| ==>
              TargetSprintOptions(sprints)[i] ==
                SprintOption(Filter(sprints, IsActive)[i].name, Filter(sprints, IsActive)[i].id, true)
    ensures forall i :: 0 <= i < |NextSprintOptions(sprints)| ==>
              && NextSprintOptions(sprints)[i].caption == Filter(sprints, IsNotActive)[i].name
              && NextSprintOptions(sprints)[i].value == Filter(sprints, IsNotActive)[i].id
  {
    FilterPartition(sprints, IsActive, IsNotActive);
    var active := Filter(sprints, IsActive);
    var target := TargetSprintOptions(sprints);
    forall i | 0 <= i < |target|
      ensures target[i] == SprintOption(active[i].name, active[i].id, true)
    {
      assert active[i] in active;
    }
  }

  /** `Filter` on one element: kept iff it satisfies the predicate. With
      `FilterAppend`, this fixes the filtered list element by element. */
  lemma FilterSingleton<T(!new)>(x: T, p: T -> bool)
    ensures Filter([x], p) == if p(x) then [x] else []
  {
    assert [x][1..] == [];
  }

  /** The suggested sprint is among the next-sprint options, pre-selected. */
  lemma SuggestionIsPreselected(sprints: seq<Sprint>)
    requires SuggestNextSprintId(sprints).Some?
    ensures exists i :: 0 <= i < |NextSprintOptions(sprints)| &&
              NextSprintOptions(sprints)[i].value == SuggestNextSprintId(sprints).value &&
              NextSprintOptions(sprints)[i].defaultSelected
  {
    var n := ActiveSprintNumber(sprints).value;
    var i :| FirstSuccessorAt(sprints, n, i) && sprints[i].id == SuggestNextSprintId(sprints).value;
    var rest := Filter(sprints, IsNotActive);
    assert sprints[i] in rest;
    var k :| 0 <= k < |rest| && rest[k] == sprints[i];
    assert NextSprintOptions(sprints)[k] == SprintOption(rest[k].name, rest[k].id, Preselects(sprints, rest[k].id));
  }

  /** Apart from the 0 case, a next-sprint option starts selected iff it is
      the suggested sprint: no other option is preselected. */
  lemma OnlySuggestionIsPreselected(sprints: seq<Sprint>)
    requires ActiveSprintNumber(sprints) != Some(0)
    ensures forall i :: 0 <= i < |NextSprintOptions(sprints)| ==>
              (NextSprintOptions(sprints)[i].defaultSelected <==>
                 SuggestNextSprintId(sprints) == Some(NextSprintOptions(sprints)[i].value))
  {
    var rest := Filter(sprints, IsNotActive);
    forall i | 0 <= i < |NextSprintOptions(sprints)|
      ensures NextSprintOptions(sprints)[i].defaultSelected <==>
                SuggestNextSprintId(sprints) == Some(NextSprintOptions(sprints)[i].value)
    {
      assert NextSprintOptions(sprints)[i] == SprintOption(rest[i].name, rest[i].id, Preselects(sprints, rest[i].id));
    }
  }

  /** An active sprint numbered 0 suggests nothing, yet `0 && ...` is 0, so
      exactly the next-sprint options with id 0 start selected. */
  lemma ZeroNumberPreselectsIdZero(sprints: seq<Sprint>)
    requires ActiveSprintNumber(sprints) == Some(0)
    ensures SuggestNextSprintId(sprints).None?
    ensures forall i :: 0 <= i < |NextSprintOptions(sprints)| ==>
              (NextSprintOptions(sprints)[i].defaultSelected <==> NextSprintOptions(sprints)[i].value == 0)
  {
    var rest := Filter(sprints, IsNotActive);
    forall i | 0 <= i < |NextSprintOptions(sprints)|
      ensures NextSprintOptions(sprints)[i].defaultSelected <==> NextSprintOptions(sprints)[i].value == 0
    {
      assert NextSprintOptions(sprints)[i] == SprintOption(rest[i].name, rest[i].id, Preselects(sprints, rest[i].id));
    }
  }

  /** `issue.fields[STORY_POINT_FIELD_NAME] > bound`: undefined compares
      false and null compares as 0. */
  predicate Exceeds(v: Option<Value>, bound: real) {
    match v
    case Some(Num(n)) => n > bound
    case Some(Null) => 0.0 > bound
    case _ => false
  }

  /** The filter of the search result: points strictly above the step of
      the issue's status. */
  predicate IsCandidate(hit: SearchHit) {
    if IsPullRequest(hit.fields)
    then Exceeds(Lookup(hit.fields, STORY_POINT_FIELD_NAME), PULL_REQUEST_POINT)
    else Exceeds(Lookup(hit.fields, STORY_POINT_FIELD_NAME), QA_POINT)
  }

  /** The projection of a kept issue to its key and displayed fields. */
  function Project(hit: SearchHit): Row {
    Row(hit.key, Pick(hit.fields, DISPLAY_KEYS))
  }

  /** The issues the page lists for a search result, in search order. */
  function ListedIssues(found: seq<SearchHit>): seq<Row> {
    var kept := Filter(found, IsCandidate);
    seq(|kept|, i requires 0 <= i < |kept| => Project(kept[i]))
  }

  /** The page's filter agrees with the worker's branch: an issue is listed
      iff the worker would find points remaining after the step. */
  lemma CandidateIffRemainderPositive(hit: SearchHit)
    ensures IsCandidate(hit) <==> Remainder(hit.fields) > 0.0
  {
  }

  /** The projection keeps what the worker's rule reads. */
  lemma ProjectionKeepsRemainder(f: Fields)
    ensures IsPullRequest(Pick(f, DISPLAY_KEYS)) == IsPullRequest(f)
    ensures Remainder(Pick(f, DISPLAY_KEYS)) == Remainder(f)
  {
    PickSpec(f, DISPLAY_KEYS);
    var p := Pick(f, DISPLAY_KEYS);
    assert "status" in DISPLAY_KEYS && STORY_POINT_FIELD_NAME in DISPLAY_KEYS;
    assert "status" in p <==> "status" in f;
    assert STORY_POINT_FIELD_NAME in p <==> STORY_POINT_FIELD_NAME in f;
  }

  /** A row is listed iff it is the projection of a kept search hit. */
  lemma ListedIssuesMembership(found: seq<SearchHit>, r: Row)
    ensures r in ListedIssues(found) <==> exists h :: h in found && IsCandidate(h) && r == Project(h)
  {
    var kept := Filter(found, IsCandidate);
    var rows := ListedIssues(found);
    if r in rows {
      var i :| 0 <= i < |rows| && rows[i] == r;
      assert kept[i] in kept;
    }
    if exists h :: h in found && IsCandidate(h) && r == Project(h) {
      var h :| h in found && IsCandidate(h) && r == Project(h);
      assert h in kept;
      var i :| 0 <= i < |kept| && kept[i] == h;
      assert rows[i] == r;
    }
  }

  /** Listing keeps the order of the search result. */
  lemma ListedIssuesKeepOrder(a: seq<SearchHit>, b: seq<SearchHit>)
    ensures ListedIssues(a + b) == ListedIssues(a) + ListedIssues(b)
  {
    FilterAppend(a, b, IsCandidate);
  }

  /** One row per kept search hit, at the hit's position among the kept
      hits: no hit is listed twice and none is dropped. */
  lemma ListedIssuesExact(found: seq<SearchHit>)
    ensures |ListedIssues(found)| == |Filter(found, IsCandidate)|
    ensures forall i :: 0 <= i < |ListedIssues(found)| ==>
              ListedIssues(found)[i] == Project(Filter(found, IsCandidate)[i])
  {
  }

  /** Listing hit by hit: the first hit contributes exactly one row when it
      passes the filter and none otherwise, then the rest is listed. */
  lemma ListedIssuesCons(h: SearchHit, rest: seq<SearchHit>)
    ensures ListedIssues([h] + rest)
            == (if IsCandidate(h) then [Project(h)] else []) + ListedIssues(rest)
  {
    ListedIssuesKeepOrder([h], rest);
    FilterSingleton(h, IsCandidate);
    var one := ListedIssues([h]);
    if IsCandidate(h) {
      assert |one| == 1 && one[0] == Project(h);
      assert one == [Project(h)];
    } else {
      assert one == [];
    }
  }

  /** Every listed issue is one the worker will clone: points remain after
      the step, both in the displayed fields and in the issue itself. */
  lemma ListedIssuesHaveRemainder(found: seq<SearchHit>)
    ensures forall r :: r in ListedIssues(found) ==> Remainder(r.fields) > 0.0
  {
    forall r | r in ListedIssues(found)
      ensures Remainder(r.fields) > 0.0
    {
      ListedIssuesMembership(found, r);
      var h :| h in found && IsCandidate(h) && r == Project(h);
      CandidateIffRemainderPositive(h);
      ProjectionKeepsRemainder(h.fields);
    }
  }

  /** End to end: when the store still holds the listed issue's fields and
      no backend call fails, the job for that issue creates a clone carrying
      the remainder and sets the original to the step. */
  lemma ListedIssueIsCloned(found: seq<SearchHit>, h: SearchHit, issues: map<string, Fields>, newId: string)
    requires h in found && IsCandidate(h)
    requires h.key in issues && issues[h.key] == h.fields
    requires StatusReadable(h.fields) && IssueTypeReadable(h.fields)
    requires newId !in issues
    ensures Project(h) in ListedIssues(found)
    ensures var r := Split(issues, h.key, NO_FAULTS, newId);
              && r.outcome == Done
              && newId in r.issues && r.issues[newId][STORY_POINT_FIELD_NAME] == Num(Remainder(h.fields))
              && Remainder(h.fields) > 0.0
              && r.issues[h.key][STORY_POINT_FIELD_NAME] == Num(Step(h.fields))
  {
    ListedIssuesMembership(found, Project(h));
    CandidateIffRemainderPositive(h);
    SplitClonesIffRemainderPositive(issues, h.key, NO_FAULTS, newId);
    SplitSuccessSetsStep(issues, h.key, NO_FAULTS, newId);
  }

  /** `issueIds.map(issueId => ({ issueIdOrKeys: issueId }))`. */
  function Payloads(issueIds: seq<string>): (ps: seq<JobPayload>)
    ensures |ps| == |issueIds|
    ensures forall i :: 0 <= i < |ps| ==> ps[i].issueIdOrKeys == issueIds[i]
  {
    seq(|issueIds|, i requires 0 <= i < |issueIds| => JobPayload(issueIds[i]))
  }

  /** The issue each payload names. */
  function PayloadKeys(ps: seq<JobPayload>): seq<string> {
    seq(|ps|, i requires 0 <= i < |ps| => ps[i].issueIdOrKeys)
  }

  /** Payloads carry exactly the confirmed keys, and nothing else. */
  lemma PayloadsRoundTrip(issueIds: seq<string>, ps: seq<JobPayload>)
    ensures PayloadKeys(Payloads(issueIds)) == issueIds
    ensures Payloads(PayloadKeys(ps)) == ps
  {
  }

  /** The confirmation modal's options: one per listed issue, all selected. */
  function ConfirmOptions(rows: seq<Row>): (opts: seq<IssueOption>)
    ensures |opts| == |rows|
    ensures forall i :: 0 <= i < |opts| ==> opts[i].value == rows[i].key && opts[i].defaultSelected
  {
    seq(|rows|, i requires 0 <= i < |rows| =>
          IssueOption(rows[i].key + " " + TemplateText(Lookup(rows[i].fields, "summary")), rows[i].key, true))
  }

  /** The values a multi-select submits when left as offered. */
  function DefaultSelection(opts: seq<IssueOption>): seq<string>
    decreases |opts|
  {
    if opts == [] then []
    else (if opts[0].defaultSelected then [opts[0].value] else []) + DefaultSelection(opts[1..])
  }

  function RowKeys(rows: seq<Row>): seq<string> {
    seq(|rows|, i requires 0 <= i < |rows| => rows[i].key)
  }

  /** Confirming the modal as offered submits the key of every listed issue,
      in list order. */
  lemma {:induction false} DefaultSelectionIsListed(rows: seq<Row>)
    ensures DefaultSelection(ConfirmOptions(rows)) == RowKeys(rows)
    decreases |rows|
  {
    if rows != [] {
      assert ConfirmOptions(rows)[1..] == ConfirmOptions(rows[1..]);
      DefaultSelectionIsListed(rows[1..]);
      assert RowKeys(rows) == [rows[0].key] + RowKeys(rows[1..]);
    }
  }

  /** The page state: the `useState` hooks and the queue it pushes to. */
  class SprintReviewPage {
    const sprints: seq<Sprint>
    var issues: Option<seq<Row>>
    var nextSprintId: Option<int>
    var isConfirm: bool
    var isCompleted: bool
    /** The batches pushed to the split queue, oldest first. */
    var pushed: seq<seq<JobPayload>>

    /** The confirm modal only opens with a next sprint chosen, and every
        listed issue can still be split. */
    ghost predicate Valid()
      reads this
    {
      && (isConfirm ==> nextSprintId.Some?)
      && (issues.Some? ==> forall r :: r in issues.value ==> Remainder(r.fields) > 0.0)
    }

    constructor(sprints: seq<Sprint>)
      ensures Valid()
      ensures this.sprints == sprints && issues.None? && nextSprintId.None?
      ensures !isConfirm && !isCompleted && pushed == []
    {
      this.sprints := sprints;
      issues := None;
      nextSprintId := None;
      isConfirm := false;
      isCompleted := false;
      pushed := [];
    }

    /** The "Split tasks" button is disabled while the next sprint id is
        falsy: not chosen yet, or 0. */
    function SplitDisabled(): bool
      reads this
    {
      nextSprintId.None? || nextSprintId.value == 0
    }

    /** `handleSubmit`: records the next sprint, then lists the search
        result. Reading the status of an issue without one throws, and the
        list is then left as it was. */
    method HandleSubmit(nextSprint: int, found: seq<SearchHit>)
      requires Valid()
      modifies this
      ensures Valid()
      ensures nextSprintId == Some(nextSprint)
      ensures issues == if forall h :: h in found ==> StatusReadable(h.fields) then Some(ListedIssues(found)) else old(issues)
      ensures isConfirm == old(isConfirm) && isCompleted == old(isCompleted) && pushed == old(pushed)
    {
      nextSprintId := Some(nextSprint);
      if forall h :: h in found ==> StatusReadable(h.fields) {
        ListedIssuesHaveRemainder(found);
        issues := Some(ListedIssues(found));
      }
    }

    /** `handleConfirmSplit`, reachable only through the enabled button. */
    method HandleConfirmSplit()
      requires Valid()
      modifies this
      ensures Valid()
      ensures isConfirm == (old(isConfirm) || !old(SplitDisabled()))
      ensures issues == old(issues) && nextSprintId == old(nextSprintId)
      ensures isCompleted == old(isCompleted) && pushed == old(pushed)
    {
      if !SplitDisabled() {
        isConfirm := true;
      }
    }

    /** `handleConfirmSplitTask`: closes the confirm modal, pushes one batch
        with a payload per selected key, and opens the completed modal. */
    method HandleConfirmSplitTask(issueIds: seq<string>)
      requires Valid()
      modifies this
      ensures Valid()
      ensures !isConfirm && isCompleted
      ensures pushed == old(pushed) + [Payloads(issueIds)]
      ensures issues == old(issues) && nextSprintId == old(nextSprintId)
    {
      isConfirm := false;
      pushed := pushed + [Payloads(issueIds)];
      isCompleted := true;
    }

    /** The confirm modal's close action. */
    method CloseConfirm()
      requires Valid()
      modifies this
      ensures Valid() && !isConfirm
      ensures issues == old(issues) && nextSprintId == old(nextSprintId)
      ensures isCompleted == old(isCompleted) && pushed == old(pushed)
    {
      isConfirm := false;
    }

    /** The completed modal's close action. */
    method CloseCompleted()
      requires Valid()
      modifies this
      ensures Valid() && !isCompleted
      ensures issues == old(issues) && nextSprintId == old(nextSprintId)
      ensures isConfirm == old(isConfirm) && pushed == old(pushed)
    {
      isCompleted := false;
    }
  }
}
