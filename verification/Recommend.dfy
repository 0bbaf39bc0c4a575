/**
  The recommendation pipeline around the greedy pass: rank windows, fetching, in-place
  filtering, quota spill from tier to tier, and the preview counts.
 */
module Recommend {
  import opened Options
  import opened Selection
  import opened Sequences

  const DEFAULT_PLAN_SIZE := 40
  const PLAN_SIZE_CAP := 500

  // ---- scoring: an opaque score and a stable descending sort ----

  function InsertStable(sorted: seq<Item>, x: Item): seq<Item> {
    if sorted == [] || sorted[|sorted| - 1].score >= x.score then sorted + [x]
    else InsertStable(sorted[..|sorted| - 1], x) + [sorted[|sorted| - 1]]
  }

  function StableSort(s: seq<Item>): seq<Item> {
    if s == [] then [] else InsertStable(StableSort(s[..|s| - 1]), s[|s| - 1])
  }

  /** The items of one score, in list order. */
  function OfScore(s: seq<Item>, score: int): seq<Item> {
    if s == [] then []
    else OfScore(s[..|s| - 1], score) + if s[|s| - 1].score == score then [s[|s| - 1]] else []
  }

  lemma OfScoreAppend(s: seq<Item>, x: Item, score: int)
    ensures OfScore(s + [x], score) == OfScore(s, score) + if x.score == score then [x] else []
  {
    assert (s + [x])[..|s|] == s;
  }

  lemma MultisetOfLast(s: seq<Item>)
    requires s != []
    ensures multiset(s) == multiset(s[..|s| - 1]) + multiset{s[|s| - 1]}
  {
    assert s == s[..|s| - 1] + [s[|s| - 1]];
  }

  lemma {:induction false} InsertPermutes(sorted: seq<Item>, x: Item)
    ensures multiset(InsertStable(sorted, x)) == multiset(sorted) + multiset{x}
  {
    if sorted != [] && sorted[|sorted| - 1].score < x.score {
      var init := sorted[..|sorted| - 1];
      InsertPermutes(init, x);
      MultisetOfLast(sorted);
    }
  }

  /** Nothing is inserted below a score that bounds everything. */
  lemma {:induction false} InsertAbove(sorted: seq<Item>, x: Item, low: int)
    requires (forall i :: 0 <= i < |sorted| ==> sorted[i].score >= low) && x.score >= low
    ensures forall i :: 0 <= i < |InsertStable(sorted, x)| ==> InsertStable(sorted, x)[i].score >= low
  {
    if sorted != [] && sorted[|sorted| - 1].score < x.score {
      InsertAbove(sorted[..|sorted| - 1], x, low);
    }
  }

  lemma {:induction false} InsertSorts(sorted: seq<Item>, x: Item)
    requires Descending(sorted)
    ensures Descending(InsertStable(sorted, x))
  {
    if sorted != [] && sorted[|sorted| - 1].score < x.score {
      var init, last := sorted[..|sorted| - 1], sorted[|sorted| - 1];
      InsertSorts(init, x);
      InsertAbove(init, x, last.score);
    }
  }

  lemma {:induction false} InsertIsStable(sorted: seq<Item>, x: Item, score: int)
    ensures OfScore(InsertStable(sorted, x), score) == OfScore(sorted + [x], score)
  {
    OfScoreAppend(sorted, x, score);
    if sorted != [] && sorted[|sorted| - 1].score < x.score {
      var init, last := sorted[..|sorted| - 1], sorted[|sorted| - 1];
      InsertIsStable(init, x, score);
      InsertPasses(init, last, x, score);
      assert sorted == init + [last];
    }
  }

  /** An item of another score may move past x without changing any one-score list. */
  lemma InsertPasses(init: seq<Item>, last: Item, x: Item, score: int)
    requires last.score < x.score
    requires OfScore(InsertStable(init, x), score) == OfScore(init + [x], score)
    ensures OfScore(InsertStable(init, x) + [last], score) == OfScore(init + [last] + [x], score)
  {
    OfScoreAppend(init, x, score);
    OfScoreAppend(InsertStable(init, x), last, score);
    OfScoreAppend(init, last, score);
    OfScoreAppend(init + [last], x, score);
  }

  lemma {:induction false} SortPermutes(s: seq<Item>)
    ensures multiset(StableSort(s)) == multiset(s)
  {
    if s == [] {
    } else {
      var init, last := s[..|s| - 1], s[|s| - 1];
      SortPermutes(init);
      InsertPermutes(StableSort(init), last);
      MultisetOfLast(s);
    }
  }

  lemma {:induction false} SortKeepsTies(s: seq<Item>, score: int)
    ensures OfScore(StableSort(s), score) == OfScore(s, score)
  {
    if s == [] {
    } else {
      var init, last := s[..|s| - 1], s[|s| - 1];
      SortKeepsTies(init, score);
      InsertIsStable(StableSort(init), last, score);
      OfScoreAppend(StableSort(init), last, score);
    }
  }

  lemma {:induction false} SortDescends(s: seq<Item>)
    ensures Descending(StableSort(s))
  {
    if s == [] {
    } else {
      SortDescends(s[..|s| - 1]);
      InsertSorts(StableSort(s[..|s| - 1]), s[|s| - 1]);
    }
  }

  /** What sort.SliceStable promises: descending, a permutation, ties in their old order. */
  lemma StableSortContract(s: seq<Item>, score: int)
    ensures Descending(StableSort(s)) && multiset(StableSort(s)) == multiset(s)
    ensures OfScore(StableSort(s), score) == OfScore(s, score)
  {
    SortDescends(s);
    SortPermutes(s);
    SortKeepsTies(s, score);
  }

  function MakeItems(cs: seq<Candidate>, tier: Tier, score: Candidate -> int): seq<Item> {
    seq(|cs|, i requires 0 <= i < |cs| => Item(cs[i], tier, score(cs[i]), 0))
  }

  function ScoreCandidates(cs: seq<Candidate>, tier: Tier, score: Candidate -> int): seq<Item> {
    StableSort(MakeItems(cs, tier, score))
  }

  /** Scoring neither invents nor loses a candidate. */
  lemma ScoredMembers(cs: seq<Candidate>, tier: Tier, score: Candidate -> int)
    ensures var scored := ScoreCandidates(cs, tier, score);
            && Descending(scored) && |scored| == |cs|
            && (forall it :: it in scored ==> it.candidate in cs && it == Item(it.candidate, tier, score(it.candidate), 0))
            && (forall c :: c in cs ==> Item(c, tier, score(c), 0) in scored)
  {
    var items := MakeItems(cs, tier, score);
    var scored := StableSort(items);
    StableSortContract(items, 0);
    assert |scored| == |multiset(scored)| == |items|;
    forall it | it in scored ensures it.candidate in cs && it == Item(it.candidate, tier, score(it.candidate), 0) {
      assert it in multiset(items);
    }
    forall c | c in cs ensures Item(c, tier, score(c), 0) in scored {
      var i :| 0 <= i < |cs| && cs[i] == c;
      assert items[i] in multiset(items);
      assert items[i] in multiset(scored);
    }
  }

  // ---- windows ----

  datatype Ratio = R50 | R85 | R115 | R200

  datatype Windows = Windows(rush: Window, middle: Window, safe: Window)

  function ClampBucketWindow(minRank: int, maxRank: int): Window {
    var lo := if minRank < 1 then 1 else minRank;
    Window(lo, if maxRank < lo then lo else maxRank)
  }

  function ComputeBucketWindows(rank: int, scale: (int, Ratio) -> int): Windows {
    Windows(ClampBucketWindow(scale(rank, R50), scale(rank, R85)),
            ClampBucketWindow(scale(rank, R85), scale(rank, R115)),
            ClampBucketWindow(scale(rank, R115), scale(rank, R200)))
  }

  ghost predicate MonotoneScale(scale: (int, Ratio) -> int, rank: int) {
    scale(rank, R50) <= scale(rank, R85) <= scale(rank, R115) <= scale(rank, R200)
  }

  ghost predicate WindowsMeet(w: Windows) {
    && 1 <= w.rush.min <= w.rush.max == w.middle.min
    && w.middle.min <= w.middle.max == w.safe.min
    && w.safe.min <= w.safe.max
  }

  predicate InSomeWindow(c: Candidate, w: Windows) {
    InWindow(c, w.rush) || InWindow(c, w.middle) || InWindow(c, w.safe)
  }

  function AtLeastOne(rank: int): int { if rank < 1 then 1 else rank }

  /**
    Clamping never opens a gap: the three windows are one interval cut at two shared bounds, and each of the
    four bounds is the scaled rank, or 1.
   */
  lemma WindowsAlwaysMeet(rank: int, scale: (int, Ratio) -> int, c: Candidate)
    requires MonotoneScale(scale, rank)
    ensures var w := ComputeBucketWindows(rank, scale);
            && WindowsMeet(w)
            && w.rush.min == AtLeastOne(scale(rank, R50)) && w.rush.max == AtLeastOne(scale(rank, R85))
            && w.middle.max == AtLeastOne(scale(rank, R115)) && w.safe.max == AtLeastOne(scale(rank, R200))
            && (InSomeWindow(c, w) <==> InWindow(c, Window(w.rush.min, w.safe.max)))
  {}

  // ---- fetching ----

  const RUSH_LIMIT := 2000
  const MATCH_LIMIT := 2000
  const SAFE_LIMIT := 1000

  /** One query of the candidate table; None is a database error. */
  type Fetch = (Window, nat) -> Option<seq<Candidate>>

  ghost predicate FetchContract(fetch: Fetch) {
    forall w, limit :: fetch(w, limit).Some? ==>
      |fetch(w, limit).value| <= limit && forall c :: c in fetch(w, limit).value ==> InWindow(c, w)
  }

  function Ids(cs: seq<Candidate>): set<int> { set c | c in cs :: c.id }

  /** Rows whose id did not occur before, in order. */
  function FirstById(rows: seq<Candidate>): seq<Candidate> {
    if rows == [] then []
    else
      var init, last := FirstById(rows[..|rows| - 1]), rows[|rows| - 1];
      if last.id in Ids(init) then init else init + [last]
  }

  lemma {:induction false} FirstByIdIsDistinct(rows: seq<Candidate>)
    ensures var r := FirstById(rows);
            && Ids(r) == Ids(rows)
            && (forall c :: c in r ==> c in rows)
            && (forall i, j :: 0 <= i < j < |r| ==> r[i].id != r[j].id)
  {
    if rows == [] {
    } else {
      var init, last := rows[..|rows| - 1], rows[|rows| - 1];
      FirstByIdIsDistinct(init);
      assert rows == init + [last];
      assert Ids(rows) == Ids(init) + {last.id};
      var r := FirstById(init);
      assert Ids(r + [last]) == Ids(r) + {last.id};
    }
  }

  /** The rows of the first n queries, or None when one of them failed. */
  function Fetched(fetch: Fetch, w: Windows, n: nat): Option<seq<Candidate>>
    requires n <= 3
  {
    if n == 0 then Some([])
    else
      var before := Fetched(fetch, w, n - 1);
      var rows := if n == 1 then fetch(w.rush, RUSH_LIMIT)
                  else if n == 2 then fetch(w.middle, MATCH_LIMIT) else fetch(w.safe, SAFE_LIMIT);
      if before.None? || rows.None? then None else Some(before.value + rows.value)
  }

  lemma {:induction false} FetchFails(fetch: Fetch, w: Windows, m: nat, n: nat)
    requires m <= n <= 3 && Fetched(fetch, w, m).None?
    ensures Fetched(fetch, w, n).None?
  {
    if m < n { FetchFails(fetch, w, m, n - 1); }
  }

  lemma {:induction false} FetchedInWindows(fetch: Fetch, w: Windows, n: nat)
    requires n <= 3 && FetchContract(fetch) && Fetched(fetch, w, n).Some?
    ensures forall c :: c in Fetched(fetch, w, n).value ==> InSomeWindow(c, w)
    ensures |Fetched(fetch, w, n).value|
         <= (if n >= 1 then RUSH_LIMIT else 0) + (if n >= 2 then MATCH_LIMIT else 0) + (if n >= 3 then SAFE_LIMIT else 0)
  {
    if n == 0 {
    } else {
      FetchedInWindows(fetch, w, n - 1);
    }
  }

  function FetchAll(fetch: Fetch, w: Windows): Option<seq<Candidate>> {
    var rows := Fetched(fetch, w, 3);
    if rows.None? then None else Some(FirstById(rows.value))
  }

  /** One query's rows, skipping ids already merged. */
  method MergeRows(out: seq<Candidate>, seen: set<int>, rows: seq<Candidate>, ghost scanned: seq<Candidate>)
    returns (out': seq<Candidate>, seen': set<int>)
    requires out == FirstById(scanned) && seen == Ids(out)
    ensures out' == FirstById(scanned + rows) && seen' == Ids(out')
  {
    out', seen' := out, seen;
    ghost var merged := scanned;
    assert scanned + rows[..0] == scanned;
    for i := 0 to |rows|
      invariant merged == scanned + rows[..i]
      invariant Merging(out', seen', merged)
    {
      var row := rows[i];
      MergeStep(out', seen', merged, row);
      merged := merged + [row];
      assert merged == scanned + rows[..i + 1];
      if row.id !in seen' {
        seen' := seen' + {row.id};
        out' := out' + [row];
      }
    }
    assert rows[..|rows|] == rows;
  }

  ghost predicate Merging(out: seq<Candidate>, seen: set<int>, merged: seq<Candidate>) {
    out == FirstById(merged) && seen == Ids(out)
  }

  lemma MergeStep(out: seq<Candidate>, seen: set<int>, merged: seq<Candidate>, row: Candidate)
    requires Merging(out, seen, merged)
    ensures if row.id in seen then Merging(out, seen, merged + [row])
            else Merging(out + [row], seen + {row.id}, merged + [row])
  {
    FirstByIdAppend(merged, row);
    IdsAppend(out, row);
  }

  lemma FirstByIdAppend(rows: seq<Candidate>, row: Candidate)
    ensures FirstById(rows + [row]) == if row.id in Ids(FirstById(rows)) then FirstById(rows) else FirstById(rows) + [row]
  {
    assert (rows + [row])[..|rows|] == rows;
  }

  lemma IdsAppend(cs: seq<Candidate>, c: Candidate)
    ensures Ids(cs + [c]) == Ids(cs) + {c.id}
  {
    assert forall x :: x in cs + [c] <==> x in cs || x == c;
  }

  method FetchBucketCandidates(fetch: Fetch, w: Windows) returns (merged: Option<seq<Candidate>>)
    ensures merged == FetchAll(fetch, w)
  {
    var specs := [(w.rush, RUSH_LIMIT), (w.middle, MATCH_LIMIT), (w.safe, SAFE_LIMIT)];
    var out: seq<Candidate> := [];
    var seen: set<int> := {};
    ghost var scanned: seq<Candidate> := [];
    for s := 0 to 3
      invariant out == FirstById(scanned) && seen == Ids(out)
      invariant Fetched(fetch, w, s) == Some(scanned)
    {
      var rows := fetch(specs[s].0, specs[s].1);
      if rows.None? {
        FetchFails(fetch, w, s + 1, 3);
        return None;
      }
      out, seen := MergeRows(out, seen, rows.value, scanned);
      scanned := scanned + rows.value;
    }
    merged := Some(out);
  }

  /** Under the query contract every fetched candidate has a rank in one of the windows, once per id. */
  lemma FetchedCandidates(fetch: Fetch, w: Windows)
    requires FetchContract(fetch) && FetchAll(fetch, w).Some?
    ensures var pool := FetchAll(fetch, w).value;
            && (forall c :: c in pool ==> InSomeWindow(c, w))
            && (forall i, j :: 0 <= i < j < |pool| ==> pool[i].id != pool[j].id)
            && |pool| <= RUSH_LIMIT + MATCH_LIMIT + SAFE_LIMIT
            && Ids(pool) == Ids(Fetched(fetch, w, 3).value)
  {
    var rows := Fetched(fetch, w, 3).value;
    FetchedInWindows(fetch, w, 3);
    FirstByIdIsDistinct(rows);
    FirstByIdShorter(rows);
  }

  /** All three windows are asked, each with its own limit; a failed query fails the fetch. */
  lemma FetchAsksEachWindow(fetch: Fetch, w: Windows)
    ensures var rush, middle := fetch(w.rush, RUSH_LIMIT), fetch(w.middle, MATCH_LIMIT);
            var safe := fetch(w.safe, SAFE_LIMIT);
            && (FetchAll(fetch, w).None? <==> rush.None? || middle.None? || safe.None?)
            && (FetchAll(fetch, w).Some? ==> FetchAll(fetch, w).value == FirstById(rush.value + middle.value + safe.value))
  {
    var rush, middle := fetch(w.rush, RUSH_LIMIT), fetch(w.middle, MATCH_LIMIT);
    assert rush.Some? ==> [] + rush.value == rush.value;
    assert Fetched(fetch, w, 1) == rush;
    assert Fetched(fetch, w, 2) == if rush.None? || middle.None? then None else Some(rush.value + middle.value);
  }

  /** Position of the first row with this id. */
  function FirstRow(rows: seq<Candidate>, id: int): nat { FirstWhere(rows, HasId(id)) }

  function HasId(id: int): Candidate -> bool { (c: Candidate) => c.id == id }

  lemma IdFound(rows: seq<Candidate>, id: int)
    ensures id in Ids(rows) <==> FirstRow(rows, id) < |rows|
  {
    FirstWhereFinds(rows, HasId(id));
    if FirstRow(rows, id) < |rows| { assert rows[FirstRow(rows, id)] in rows; }
  }

  /** The merged rows are the first rows of their ids, in the order they came. */
  lemma {:induction false} FirstByIdIsFirst(rows: seq<Candidate>)
    ensures var r := FirstById(rows);
            && (forall i :: 0 <= i < |r| ==> FirstRow(rows, r[i].id) < |rows| && r[i] == rows[FirstRow(rows, r[i].id)])
            && (forall i, j :: 0 <= i < j < |r| ==> FirstRow(rows, r[i].id) < FirstRow(rows, r[j].id))
  {
    if rows == [] {
    } else {
      var init, last := rows[..|rows| - 1], rows[|rows| - 1];
      assert rows == init + [last];
      FirstByIdIsFirst(init);
      FirstByIdIsDistinct(init);
      var before, r := FirstById(init), FirstById(rows);
      forall i | 0 <= i < |r|
        ensures FirstRow(rows, r[i].id) == (if i < |before| then FirstRow(init, r[i].id) else |init|)
        ensures i < |before| ==> r[i] == before[i] && FirstRow(init, r[i].id) < |init|
      {
        FirstWhereAppend(init, last, HasId(r[i].id));
        IdFound(init, r[i].id);
      }
    }
  }

  lemma {:induction false} FirstByIdShorter(rows: seq<Candidate>)
    ensures |FirstById(rows)| <= |rows|
  {
    if rows == [] {
    } else {
      FirstByIdShorter(rows[..|rows| - 1]);
    }
  }

  // ---- hard filters, applied in place ----

  datatype AbilityRule = AbilityRule(subject: string, excludeBelow: int)

  /** The part of the request and of the metadata that the filter reads; keywords are lower-cased. */
  datatype Preference = Preference(
    excludedMajors: seq<string>, excludedKeywords: seq<string>, requiredMajors: seq<string>,
    physicsScore: Option<int>, mathScore: Option<int>, abilityRules: map<string, seq<AbilityRule>>)

  predicate Contains(text: string, part: string) {
    exists i :: 0 <= i <= |text| && part <= text[i..]
  }

  /** Any non-empty keyword occurs in the text. */
  predicate Hits(text: string, keywords: seq<string>) {
    exists kw :: kw in keywords && kw != "" && Contains(text, kw)
  }

  function SubjectScore(p: Preference, subject: string): Option<int> {
    if subject == "physics" then p.physicsScore else if subject == "math" then p.mathScore else None
  }

  /** The last rule of a subject wins. */
  function Thresholds(rules: seq<AbilityRule>): map<string, int> {
    if rules == [] then map[]
    else Thresholds(rules[..|rules| - 1])[rules[|rules| - 1].subject := rules[|rules| - 1].excludeBelow]
  }

  function RulesFor(p: Preference, category: string): map<string, int> {
    if category in p.abilityRules then Thresholds(p.abilityRules[category]) else map[]
  }

  predicate BelowThreshold(p: Preference, rules: map<string, int>, subject: string) {
    subject in rules && SubjectScore(p, subject).Some? && SubjectScore(p, subject).value < rules[subject]
  }

  predicate AbilityExcludes(p: Preference, category: string) {
    var rules := RulesFor(p, category);
    exists subject :: subject in rules.Keys && BelowThreshold(p, rules, subject)
  }

  /** The categories a trigger word of an avoid-keyword stands for. */
  const AVOIDED: map<string, set<string>> :=
    map["生化环材" := {"0703", "0813", "0804", "0825", "0710"}, "化学" := {"0703", "0813"}, "生物" := {"0710"},
        "材料" := {"0804"}, "环境" := {"0825"}]

  predicate AvoidsCategory(p: Preference, category: string) {
    exists kw, trigger :: kw in p.excludedKeywords && trigger in AVOIDED.Keys
                       && Contains(kw, trigger) && category in AVOIDED[trigger]
  }

  predicate Keep(p: Preference, c: Candidate) {
    && !AbilityExcludes(p, c.category)
    && !AvoidsCategory(p, c.category)
    && !Hits(c.searchText, p.excludedMajors)
    && !Hits(c.searchText, p.excludedKeywords)
    && (p.requiredMajors != [] ==> Hits(c.searchText, p.requiredMajors))
  }

  ghost predicate Occurs(part: string, text: string) { exists before, after :: text == before + part + after }

  ghost predicate Mentions(text: string, keywords: seq<string>) {
    exists kw :: kw in keywords && kw != "" && Occurs(kw, text)
  }

  /** Rule k is the one that counts for its subject, and the score is known and below it. */
  ghost predicate FailsRule(p: Preference, rules: seq<AbilityRule>, k: nat) {
    && IsLastRule(rules, k)
    && ((rules[k].subject == "physics" && p.physicsScore.Some? && p.physicsScore.value < rules[k].excludeBelow)
        || (rules[k].subject == "math" && p.mathScore.Some? && p.mathScore.value < rules[k].excludeBelow))
  }

  ghost predicate IsLastRule(rules: seq<AbilityRule>, k: nat) {
    k < |rules| && forall j :: k < j < |rules| ==> rules[j].subject != rules[k].subject
  }

  lemma ContainsIffOccurs(text: string, part: string)
    ensures Contains(text, part) <==> Occurs(part, text)
  {
    if Contains(text, part) {
      var i :| 0 <= i <= |text| && part <= text[i..];
      assert text == text[..i] + part + text[i + |part|..];
    }
    if Occurs(part, text) {
      var before, after :| text == before + part + after;
      assert text[|before|..] == part + after;
    }
  }

  lemma HitsIffMentions(text: string, keywords: seq<string>)
    ensures Hits(text, keywords) <==> Mentions(text, keywords)
  {
    forall kw ensures Contains(text, kw) <==> Occurs(kw, text) { ContainsIffOccurs(text, kw); }
  }

  lemma {:induction false} LastRuleCounts(rules: seq<AbilityRule>, k: nat)
    requires IsLastRule(rules, k)
    ensures rules[k].subject in Thresholds(rules) && Thresholds(rules)[rules[k].subject] == rules[k].excludeBelow
  {
    if k < |rules| - 1 {
      assert rules[|rules| - 1].subject != rules[k].subject;
      LastRuleCounts(rules[..|rules| - 1], k);
    }
  }

  lemma {:induction false} ThresholdHasRule(rules: seq<AbilityRule>, subject: string) returns (k: nat)
    requires subject in Thresholds(rules)
    ensures IsLastRule(rules, k) && rules[k].subject == subject
  {
    k := |rules| - 1;
    if rules[k].subject != subject {
      k := ThresholdHasRule(rules[..k], subject);
    }
  }

  lemma AbilityExcludesIff(p: Preference, category: string)
    ensures AbilityExcludes(p, category)
       <==> category in p.abilityRules && exists k: nat :: FailsRule(p, p.abilityRules[category], k)
  {
    if category in p.abilityRules {
      var rules := p.abilityRules[category];
      if AbilityExcludes(p, category) {
        var subject :| subject in Thresholds(rules).Keys && BelowThreshold(p, Thresholds(rules), subject);
        var k := ThresholdHasRule(rules, subject);
        LastRuleCounts(rules, k);
        assert FailsRule(p, rules, k);
      }
      if k: nat :| FailsRule(p, rules, k) {
        LastRuleCounts(rules, k);
        assert rules[k].subject in RulesFor(p, category).Keys;
        assert BelowThreshold(p, RulesFor(p, category), rules[k].subject);
      }
    }
  }

  ghost predicate Avoided(p: Preference, category: string) {
    exists kw, trigger :: kw in p.excludedKeywords && trigger in AVOIDED && Occurs(trigger, kw) && category in AVOIDED[trigger]
  }

  lemma AvoidsIff(p: Preference, category: string)
    ensures AvoidsCategory(p, category) <==> Avoided(p, category)
  {
    forall kw, trigger ensures Contains(kw, trigger) <==> Occurs(trigger, kw) { ContainsIffOccurs(kw, trigger); }
  }

  /**
    A candidate is kept exactly when no rule that counts fails, no excluded keyword stands for its category, no
    excluded keyword occurs in its text, and, when majors are required, one of them does.
   */
  lemma KeepIff(p: Preference, c: Candidate)
    ensures Keep(p, c) <==>
            && !(c.category in p.abilityRules && exists k: nat :: FailsRule(p, p.abilityRules[c.category], k))
            && !Avoided(p, c.category)
            && !Mentions(c.searchText, p.excludedMajors) && !Mentions(c.searchText, p.excludedKeywords)
            && (p.requiredMajors == [] || Mentions(c.searchText, p.requiredMajors))
  {
    AbilityExcludesIff(p, c.category);
    AvoidsIff(p, c.category);
    HitsIffMentions(c.searchText, p.excludedMajors);
    HitsIffMentions(c.searchText, p.excludedKeywords);
    HitsIffMentions(c.searchText, p.requiredMajors);
  }

  function Filtered(p: Preference, cs: seq<Candidate>): seq<Candidate> {
    if cs == [] then []
    else Filtered(p, cs[..|cs| - 1]) + if Keep(p, cs[|cs| - 1]) then [cs[|cs| - 1]] else []
  }

  /** The subjects of a category are visited in no fixed order; only whether one excludes matters. */
  method ExcludedByAbility(p: Preference, category: string) returns (excluded: bool)
    ensures excluded == AbilityExcludes(p, category)
  {
    var rules := RulesFor(p, category);
    var todo := rules.Keys;
    excluded := false;
    while todo != {}
      invariant todo <= rules.Keys && !excluded
      invariant forall subject :: subject in rules.Keys - todo ==> !BelowThreshold(p, rules, subject)
      decreases todo
    {
      var subject :| subject in todo;
      todo := todo - {subject};
      if BelowThreshold(p, rules, subject) {
        excluded := true;
        break;
      }
    }
  }

  method IsExcluded(p: Preference, c: Candidate) returns (excluded: bool)
    ensures excluded == !Keep(p, c)
  {
    var byAbility := ExcludedByAbility(p, c.category);
    excluded := byAbility || AvoidsCategory(p, c.category) || Hits(c.searchText, p.excludedMajors)
                || Hits(c.searchText, p.excludedKeywords)
                || (p.requiredMajors != [] && !Hits(c.searchText, p.requiredMajors));
  }

  method PutAt(a: array<Candidate>, k: nat, c: Candidate)
    requires k < a.Length
    modifies a
    ensures a[..k + 1] == old(a[..k]) + [c] && a[k + 1..] == old(a[k..])[1..]
  {
    a[k] := c;
  }

  method FilterByPreference(a: array<Candidate>, p: Preference) returns (kept: nat)
    modifies a
    ensures kept <= a.Length
    ensures a[..kept] == Filtered(p, old(a[..])) && a[kept..] == old(a[kept..])
  {
    kept := 0;
    ghost var was := a[..];
    for i := 0 to a.Length
      invariant kept <= i && |was| == a.Length
      invariant a[..kept] == Filtered(p, was[..i])
      invariant a[kept..] == was[kept..]
    {
      var c := a[i];
      assert c == was[i] by { assert a[kept..][i - kept] == was[kept..][i - kept]; }
      assert was[..i + 1][..i] == was[..i];
      var excluded := IsExcluded(p, c);
      if excluded {
        continue;
      }
      PutAt(a, kept, c);
      kept := kept + 1;
      assert a[kept..] == was[kept..];
    }
    assert was[..a.Length] == was;
  }

  /** q excludes at least what p excludes and asks for nothing else. */
  ghost predicate Tightens(p: Preference, q: Preference) {
    && (forall s :: s in p.excludedMajors ==> s in q.excludedMajors)
    && (forall s :: s in p.excludedKeywords ==> s in q.excludedKeywords)
    && q.requiredMajors == p.requiredMajors && q.abilityRules == p.abilityRules
    && q.physicsScore == p.physicsScore && q.mathScore == p.mathScore
  }

  lemma TighterKeepsLess(p: Preference, q: Preference, c: Candidate)
    requires Tightens(p, q) && Keep(q, c)
    ensures Keep(p, c)
  {
    assert forall subject :: BelowThreshold(p, RulesFor(p, c.category), subject)
                         <==> BelowThreshold(q, RulesFor(q, c.category), subject);
  }

  /** More exclusions never enlarge the pool: the new pool is what filtering the old pool again leaves. */
  lemma {:induction false} MoreExclusionsShrinkPool(p: Preference, q: Preference, cs: seq<Candidate>)
    requires Tightens(p, q)
    ensures Filtered(q, cs) == Filtered(q, Filtered(p, cs)) && |Filtered(q, cs)| <= |Filtered(p, cs)|
  {
    if cs == [] {
    } else {
      var init, last := cs[..|cs| - 1], cs[|cs| - 1];
      MoreExclusionsShrinkPool(p, q, init);
      if Keep(q, last) { TighterKeepsLess(p, q, last); }
      var f := Filtered(p, init);
      if Keep(p, last) {
        assert (f + [last])[..|f|] == f;
      } else {
        assert Filtered(p, cs) == f && Filtered(q, cs) == Filtered(q, init);
      }

    }
  }

  lemma {:induction false} FilteredMembers(p: Preference, cs: seq<Candidate>)
    ensures forall c :: c in Filtered(p, cs) <==> c in cs && Keep(p, c)
  {
    if cs == [] {
    } else {
      FilteredMembers(p, cs[..|cs| - 1]);
      assert cs == cs[..|cs| - 1] + [cs[|cs| - 1]];
    }
  }

  /** What is kept stays in the order of the pool. */
  lemma {:induction false} FilteredSplits(p: Preference, a: seq<Candidate>, b: seq<Candidate>)
    ensures Filtered(p, a + b) == Filtered(p, a) + Filtered(p, b)
  {
    if b == [] {
      assert a + b == a;
    } else {
      assert (a + b)[..|a + b| - 1] == a + b[..|b| - 1];
      FilteredSplits(p, a, b[..|b| - 1]);
    }
  }
}
