/**
  Folding the picked items into groups of majors, and refilling every group from the pool.
 */
module VolunteerPlan {
  import opened Options
  import opened Selection
  import opened Sequences
  import opened Recommend
  import opened Table

  const MAX_MAJORS_PER_GROUP := 6

  datatype PlanMajor = PlanMajor(order: nat, code: string, name: string)

  datatype PlanGroup = PlanGroup(orderNo: nat, key: GroupKey, tier: Tier, majors: seq<PlanMajor>)

  function Codes(majors: seq<PlanMajor>): set<string> { set m | m in majors :: m.code }

  // ---- the roster: all majors of a picked group found in the pool ----

  function OfGroup(cs: seq<Candidate>, key: GroupKey): seq<Candidate> {
    if cs == [] then []
    else
      var last := cs[|cs| - 1];
      OfGroup(cs[..|cs| - 1], key) + if (last.university, last.groupCode) == key then [last] else []
  }

  /** First occurrences of the non-empty major codes, in score order. */
  function DistinctMajors(scored: seq<Item>): seq<PlanMajor> {
    if scored == [] then []
    else
      var init, c := DistinctMajors(scored[..|scored| - 1]), scored[|scored| - 1].candidate;
      if c.majorCode == "" || c.majorCode in Codes(init) then init else init + [PlanMajor(0, c.majorCode, c.majorName)]
  }

  function RosterOf(cs: seq<Candidate>, score: Candidate -> int, key: GroupKey, tier: Tier): seq<PlanMajor> {
    DistinctMajors(ScoreCandidates(OfGroup(cs, key), tier, score))
  }

  function FirstTier(items: seq<Item>, key: GroupKey): Tier {
    if items == [] then Rush else if Key(items[0]) == key then items[0].tier else FirstTier(items[1..], key)
  }

  method RosterScan(scored: seq<Item>) returns (list: seq<PlanMajor>)
    ensures list == DistinctMajors(scored)
  {
    list := [];
    var seen: set<string> := {};
    for i := 0 to |scored|
      invariant list == DistinctMajors(scored[..i]) && seen == Codes(list)
    {
      assert scored[..i + 1][..i] == scored[..i];
      var c := scored[i].candidate;
      if c.majorCode == "" || c.majorCode in seen {
        continue;
      }
      seen := seen + {c.majorCode};
      assert Codes(list + [PlanMajor(0, c.majorCode, c.majorName)]) == seen;
      list := list + [PlanMajor(0, c.majorCode, c.majorName)];
    }
    assert scored[..|scored|] == scored;
  }

  /** The roster map has every wanted group's roster, but for groups without rows in the pool. */
  ghost predicate RosterAgrees(roster: map<GroupKey, seq<PlanMajor>>, cs: seq<Candidate>, items: seq<Item>,
                               score: Candidate -> int) {
    && (forall key :: key in roster ==> key in Keys(items) && roster[key] == RosterOf(cs, score, key, FirstTier(items, key)))
    && (forall key :: key in Keys(items) && key !in roster ==> OfGroup(cs, key) == [])
  }

  /** The groups are visited in no fixed order; every order gives the same roster. */
  method BuildGroupMajorRoster(cs: seq<Candidate>, items: seq<Item>, score: Candidate -> int)
    returns (out: map<GroupKey, seq<PlanMajor>>)
    ensures RosterAgrees(out, cs, items, score)
  {
    var wanted: map<GroupKey, Tier> := map[];
    for i := 0 to |items|
      invariant wanted.Keys == Keys(items[..i])
      invariant forall key :: key in wanted ==> wanted[key] == FirstTier(items[..i], key)
    {
      var key := Key(items[i]);
      assert items[..i + 1] == items[..i] + [items[i]];
      forall k ensures FirstTier(items[..i + 1], k) == if k in Keys(items[..i]) then FirstTier(items[..i], k)
                                                       else if k == key then items[i].tier else Rush {
        FirstTierAppend(items[..i], items[i], k);
      }
      if key !in wanted {
        wanted := wanted[key := items[i].tier];
      }
    }
    assert items[..|items|] == items;
    var byGroup := GroupRows(cs, wanted.Keys);
    out := map[];
    var todo := byGroup.Keys;
    while todo != {}
      invariant todo <= byGroup.Keys && out.Keys == byGroup.Keys - todo
      invariant forall key :: key in out ==> out[key] == RosterOf(cs, score, key, FirstTier(items, key))
      decreases todo
    {
      var key :| key in todo;
      todo := todo - {key};
      var list := RosterScan(ScoreCandidates(byGroup[key], wanted[key], score));
      out := out[key := list];
    }
  }

  method GroupRows(cs: seq<Candidate>, wanted: set<GroupKey>) returns (byGroup: map<GroupKey, seq<Candidate>>)
    ensures forall key :: key in byGroup ==> key in wanted && byGroup[key] == OfGroup(cs, key)
    ensures forall key :: key in wanted && key !in byGroup ==> OfGroup(cs, key) == []
  {
    byGroup := map[];
    for i := 0 to |cs|
      invariant forall key :: key in byGroup ==> key in wanted && byGroup[key] == OfGroup(cs[..i], key)
      invariant forall key :: key in wanted && key !in byGroup ==> OfGroup(cs[..i], key) == []
    {
      assert cs[..i + 1][..i] == cs[..i];
      var key := (cs[i].university, cs[i].groupCode);
      if key in wanted {
        byGroup := byGroup[key := (if key in byGroup then byGroup[key] else []) + [cs[i]]];
      }
    }
    assert cs[..|cs|] == cs;
  }

  lemma {:induction false} FirstTierAppend(items: seq<Item>, it: Item, key: GroupKey)
    ensures FirstTier(items + [it], key) == if key in Keys(items) then FirstTier(items, key)
                                            else if key == Key(it) then it.tier else Rush
  {
    if items == [] {
    } else {
      assert (items + [it])[1..] == items[1..] + [it];
      FirstTierAppend(items[1..], it, key);
      assert Keys(items) == {Key(items[0])} + Keys(items[1..]) by { assert items == [items[0]] + items[1..]; }
    }
  }

  // ---- the plan ----

  /** Position of the group with this key, or the length when there is none. */
  function Find(groups: seq<PlanGroup>, key: GroupKey): nat {
    if groups == [] then 0 else if groups[0].key == key then 0 else 1 + Find(groups[1..], key)
  }

  lemma {:induction false} FindFinds(groups: seq<PlanGroup>, key: GroupKey)
    ensures var i := Find(groups, key);
            && i <= |groups| && (i < |groups| ==> groups[i].key == key)
            && (forall j :: 0 <= j < i ==> groups[j].key != key)
  {
    if groups != [] && groups[0].key != key { FindFinds(groups[1..], key); }
  }

  function AddMajor(g: PlanGroup, code: string, name: string): PlanGroup {
    g.(majors := g.majors + [PlanMajor(|g.majors| + 1, code, name)])
  }

  /** Puts one item into its group, which is opened behind the others when there is none yet. */
  function FoldOne(groups: seq<PlanGroup>, it: Item): seq<PlanGroup> {
    var i := Find(groups, Key(it));
    if i < |groups| then groups[i := AddMajor(groups[i], it.candidate.majorCode, it.candidate.majorName)]
    else groups + [AddMajor(PlanGroup(it.order, Key(it), it.tier, []), it.candidate.majorCode, it.candidate.majorName)]
  }

  function FoldItems(items: seq<Item>): seq<PlanGroup> {
    if items == [] then [] else FoldOne(FoldItems(items[..|items| - 1]), items[|items| - 1])
  }

  /** Roster majors not yet in the group, in roster order, up to the cap. */
  function Fill(g: PlanGroup, roster: seq<PlanMajor>): PlanGroup
    decreases |roster|
  {
    if roster == [] || |g.majors| >= MAX_MAJORS_PER_GROUP then g
    else if roster[0].code in Codes(g.majors) then Fill(g, roster[1..])
    else Fill(AddMajor(g, roster[0].code, roster[0].name), roster[1..])
  }

  function Plan(cs: seq<Candidate>, score: Candidate -> int, items: seq<Item>): seq<PlanGroup> {
    var groups := FoldItems(items);
    seq(|groups|, i requires 0 <= i < |groups| =>
      Fill(groups[i], RosterOf(cs, score, groups[i].key, FirstTier(items, groups[i].key))))
  }

  function RecordCount(groups: seq<PlanGroup>): nat {
    if groups == [] then 0 else |groups[0].majors| + RecordCount(groups[1..])
  }

  method FillGroup(g: PlanGroup, roster: seq<PlanMajor>) returns (filled: PlanGroup)
    ensures filled == Fill(g, roster)
  {
    filled := g;
    var existing := Codes(g.majors);
    for i := 0 to |roster|
      invariant existing == Codes(filled.majors)
      invariant Fill(g, roster) == Fill(filled, roster[i..])
    {
      if |filled.majors| >= MAX_MAJORS_PER_GROUP {
        return;
      }
      var m := roster[i];
      assert roster[i..][1..] == roster[i + 1..];
      if m.code !in existing {
        var grown := AddMajor(filled, m.code, m.name);
        assert Codes(grown.majors) == existing + {m.code};
        filled := grown;
        existing := existing + {m.code};
      }
    }
  }

  /** The index map behind the fold: every key sits at the position Find would report. */
  ghost predicate IndexAgrees(index: map<GroupKey, nat>, groups: seq<PlanGroup>) {
    && (forall key :: key in index ==> index[key] < |groups| && groups[index[key]].key == key)
    && (forall i :: 0 <= i < |groups| ==> groups[i].key in index && index[groups[i].key] == i)
  }

  method FoldItem(groups: seq<PlanGroup>, index: map<GroupKey, nat>, it: Item)
    returns (folded: seq<PlanGroup>, keys: map<GroupKey, nat>)
    requires IndexAgrees(index, groups)
    ensures folded == FoldOne(groups, it) && IndexAgrees(keys, folded)
  {
    folded, keys := groups, index;
    FindFinds(groups, Key(it));
    if Key(it) !in keys {
      folded := folded + [PlanGroup(it.order, Key(it), it.tier, [])];
      keys := keys[Key(it) := |groups|];
    }
    var at := keys[Key(it)];
    folded := folded[at := AddMajor(folded[at], it.candidate.majorCode, it.candidate.majorName)];
  }

  method FoldScan(items: seq<Item>) returns (groups: seq<PlanGroup>, index: map<GroupKey, nat>)
    ensures groups == FoldItems(items) && IndexAgrees(index, groups)
  {
    groups, index := [], map[];
    for i := 0 to |items|
      invariant groups == FoldItems(items[..i]) && IndexAgrees(index, groups)
    {
      assert items[..i + 1][..i] == items[..i];
      groups, index := FoldItem(groups, index, items[i]);
    }
    assert items[..|items|] == items;
  }

  /** Refills every indexed group; the index is visited in no fixed order. */
  method RefillScan(folded: seq<PlanGroup>, index: map<GroupKey, nat>, roster: map<GroupKey, seq<PlanMajor>>)
    returns (groups: seq<PlanGroup>)
    requires IndexAgrees(index, folded)
    ensures |groups| == |folded|
    ensures forall i :: 0 <= i < |folded| ==> groups[i] == Fill(folded[i], Listed(roster, folded[i].key))
  {
    groups := folded;
    var todo := index.Keys;
    while todo != {}
      invariant todo <= index.Keys && |groups| == |folded|
      invariant forall i :: 0 <= i < |groups| ==> groups[i] == Refilled(folded[i], roster, folded[i].key !in todo)
      decreases todo
    {
      var key :| key in todo;
      todo := todo - {key};
      var at := index[key];
      var filled := FillGroup(groups[at], Listed(roster, key));
      groups := groups[at := filled];
      assert forall i :: 0 <= i < |folded| && folded[i].key == key ==> i == at;
    }
  }

  function Listed(roster: map<GroupKey, seq<PlanMajor>>, key: GroupKey): seq<PlanMajor> {
    if key in roster then roster[key] else []
  }

  ghost function Refilled(g: PlanGroup, roster: map<GroupKey, seq<PlanMajor>>, done: bool): PlanGroup {
    if done then Fill(g, Listed(roster, g.key)) else g
  }

  lemma {:induction false} FoldKeys(items: seq<Item>)
    ensures forall i :: 0 <= i < |FoldItems(items)| ==> FoldItems(items)[i].key in Keys(items)
  {
    if items == [] {
    } else {
      FoldKeys(items[..|items| - 1]);
      assert items == items[..|items| - 1] + [items[|items| - 1]];
      FindFinds(FoldItems(items[..|items| - 1]), Key(items[|items| - 1]));
    }
  }

  /** A wanted group without a roster entry has no rows in the pool, so its roster is empty. */
  lemma ListedIsRoster(cs: seq<Candidate>, score: Candidate -> int, items: seq<Item>,
                       roster: map<GroupKey, seq<PlanMajor>>, key: GroupKey)
    requires RosterAgrees(roster, cs, items, score) && key in Keys(items)
    ensures Listed(roster, key) == RosterOf(cs, score, key, FirstTier(items, key))
  {
    if key !in roster {
      assert OfGroup(cs, key) == [];
    }
  }

  lemma RefillIsPlan(cs: seq<Candidate>, score: Candidate -> int, items: seq<Item>,
                     roster: map<GroupKey, seq<PlanMajor>>, groups: seq<PlanGroup>)
    requires RosterAgrees(roster, cs, items, score)
    requires var folded := FoldItems(items);
             && |groups| == |folded|
             && forall i :: 0 <= i < |folded| ==> groups[i] == Fill(folded[i], Listed(roster, folded[i].key))
    ensures groups == Plan(cs, score, items)
  {
    FoldKeys(items);
    forall i | 0 <= i < |groups| ensures groups[i] == Plan(cs, score, items)[i] {
      ListedIsRoster(cs, score, items, roster, FoldItems(items)[i].key);
    }
  }

  method CountRecords(groups: seq<PlanGroup>) returns (records: nat)
    ensures records == RecordCount(groups)
  {
    records := 0;
    for i := 0 to |groups|
      invariant RecordCount(groups) == records + RecordCount(groups[i..])
    {
      assert groups[i..][1..] == groups[i + 1..];
      records := records + |groups[i].majors|;
    }
  }

  method BuildVolunteerPlan(cs: seq<Candidate>, score: Candidate -> int, items: seq<Item>)
    returns (groups: seq<PlanGroup>, records: nat)
    ensures groups == Plan(cs, score, items) && records == RecordCount(groups)
  {
    var roster := BuildGroupMajorRoster(cs, items, score);
    var folded, index := FoldScan(items);
    groups := RefillScan(folded, index, roster);
    RefillIsPlan(cs, score, items, roster, groups);
    records := CountRecords(groups);
  }

  // ---- what the plan looks like ----

  /** 1 to 6 majors with distinct codes numbered from 1, the algorithm's pick first. */
  ghost predicate GroupShape(g: PlanGroup, it: Item) {
    && g.key == Key(it) && g.orderNo == it.order && g.tier == it.tier
    && 1 <= |g.majors| <= MAX_MAJORS_PER_GROUP
    && g.majors[0].code == it.candidate.majorCode && g.majors[0].name == it.candidate.majorName
    && (forall k :: 0 <= k < |g.majors| ==> g.majors[k].order == k + 1)
    && (forall j, k :: 0 <= j < k < |g.majors| ==> g.majors[j].code != g.majors[k].code)
  }

  /** The non-empty major codes of the pool's rows of a group. */
  ghost function PoolCodes(cs: seq<Candidate>, key: GroupKey): set<string> {
    (set c | c in cs && (c.university, c.groupCode) == key :: c.majorCode) - {""}
  }

  /** Added codes come from the pool's rows of the group, and a group below the cap has all of them. */
  ghost predicate GroupFilled(g: PlanGroup, cs: seq<Candidate>) {
    && g.majors != [] && Codes(g.majors[1..]) <= PoolCodes(cs, g.key)
    && (|g.majors| < MAX_MAJORS_PER_GROUP ==> PoolCodes(cs, g.key) <= Codes(g.majors))
  }

  function Single(it: Item): PlanGroup {
    PlanGroup(it.order, Key(it), it.tier, [PlanMajor(1, it.candidate.majorCode, it.candidate.majorName)])
  }

  lemma FoldFresh(groups: seq<PlanGroup>, it: Item)
    requires forall i :: 0 <= i < |groups| ==> groups[i].key != Key(it)
    ensures FoldOne(groups, it) == groups + [Single(it)]
  {
    FindFinds(groups, Key(it));
    var empty := PlanGroup(it.order, Key(it), it.tier, []);
    assert AddMajor(empty, it.candidate.majorCode, it.candidate.majorName) == Single(it);
  }

  lemma {:induction false} FoldDistinct(items: seq<Item>)
    requires DistinctKeys(items)
    ensures var groups := FoldItems(items);
            && |groups| == |items|
            && forall i :: 0 <= i < |items| ==> groups[i] == Single(items[i])
  {
    if items == [] {
    } else {
      var init, it := items[..|items| - 1], items[|items| - 1];
      FoldDistinct(init);
      var groups := FoldItems(init);
      forall i | 0 <= i < |groups| ensures groups[i].key != Key(it) { assert groups[i] == Single(items[i]); }
      FoldFresh(groups, it);
    }
  }

  lemma {:induction false} OfGroupMembers(cs: seq<Candidate>, key: GroupKey)
    ensures forall c :: c in OfGroup(cs, key) <==> c in cs && (c.university, c.groupCode) == key
  {
    if cs == [] {
    } else {
      OfGroupMembers(cs[..|cs| - 1], key);
      assert cs == cs[..|cs| - 1] + [cs[|cs| - 1]];
    }
  }

  ghost function NamedCodes(items: seq<Item>): set<string> {
    (set it | it in items :: it.candidate.majorCode) - {""}
  }

  lemma {:induction false} DistinctMajorsCodes(scored: seq<Item>)
    ensures Codes(DistinctMajors(scored)) == NamedCodes(scored)
  {
    if scored == [] {
    } else {
      var init, last := scored[..|scored| - 1], scored[|scored| - 1];
      DistinctMajorsCodes(init);
      assert scored == init + [last];
      var r, c := DistinctMajors(init), last.candidate;
      assert Codes(r + [PlanMajor(0, c.majorCode, c.majorName)]) == Codes(r) + {c.majorCode};
      assert NamedCodes(scored) == NamedCodes(init) + ({c.majorCode} - {""});
    }
  }

  /** The roster holds exactly the non-empty codes of the pool's rows of the group. */
  lemma RosterCodes(cs: seq<Candidate>, score: Candidate -> int, key: GroupKey, tier: Tier)
    ensures Codes(RosterOf(cs, score, key, tier)) == PoolCodes(cs, key)
  {
    var rows := OfGroup(cs, key);
    OfGroupMembers(cs, key);
    ScoredMembers(rows, tier, score);
    var scored := ScoreCandidates(rows, tier, score);
    DistinctMajorsCodes(scored);
    forall code | code in PoolCodes(cs, key) ensures code in NamedCodes(scored) {
      var c :| c in cs && (c.university, c.groupCode) == key && c.majorCode == code;
      assert Item(c, tier, score(c), 0) in scored;
    }
    forall code | code in NamedCodes(scored) ensures code in PoolCodes(cs, key) {
      var it :| it in scored && it.candidate.majorCode == code;
      assert it.candidate in rows;
    }
  }

  /** Filling keeps the shape, adds only roster codes, and below the cap adds all of them. */
  lemma {:induction false} FillKeepsShape(g: PlanGroup, roster: seq<PlanMajor>, it: Item)
    requires GroupShape(g, it)
    ensures var f := Fill(g, roster);
            && GroupShape(f, it) && g.majors <= f.majors
            && (forall code :: code in Codes(f.majors) ==> code in Codes(g.majors) || code in Codes(roster))
            && (|f.majors| < MAX_MAJORS_PER_GROUP ==> Codes(roster) <= Codes(f.majors))
    decreases |roster|
  {
    if roster != [] && |g.majors| < MAX_MAJORS_PER_GROUP {
      assert Codes(roster) == {roster[0].code} + Codes(roster[1..]) by { assert roster == [roster[0]] + roster[1..]; }
      if roster[0].code in Codes(g.majors) {
        FillKeepsShape(g, roster[1..], it);
      } else {
        var grown := AddMajor(g, roster[0].code, roster[0].name);
        assert Codes(grown.majors) == Codes(g.majors) + {roster[0].code};
        assert forall k :: 0 <= k < |g.majors| ==> g.majors[k].code in Codes(g.majors);
        FillKeepsShape(grown, roster[1..], it);
      }
    }
  }

  /** Majors without their numbers. */
  function Named(majors: seq<PlanMajor>): seq<(string, string)> {
    seq(|majors|, i requires 0 <= i < |majors| => (majors[i].code, majors[i].name))
  }

  /** The roster majors a group does not have yet, first occurrences in roster order. */
  function Missing(roster: seq<PlanMajor>, have: set<string>): seq<(string, string)>
    decreases |roster|
  {
    if roster == [] then []
    else if roster[0].code in have then Missing(roster[1..], have)
    else [(roster[0].code, roster[0].name)] + Missing(roster[1..], have + {roster[0].code})
  }

  /** What is added keeps the score order of the roster and is cut only by the cap. */
  lemma {:induction false} FillFollowsRoster(g: PlanGroup, roster: seq<PlanMajor>)
    requires |g.majors| <= MAX_MAJORS_PER_GROUP
    ensures var room, missing := MAX_MAJORS_PER_GROUP - |g.majors|, Missing(roster, Codes(g.majors));
            Named(Fill(g, roster).majors) == Named(g.majors) + missing[..if |missing| < room then |missing| else room]
    decreases |roster|
  {
    if roster != [] && |g.majors| < MAX_MAJORS_PER_GROUP {
      if roster[0].code in Codes(g.majors) {
        FillFollowsRoster(g, roster[1..]);
      } else {
        var grown := AddMajor(g, roster[0].code, roster[0].name);
        assert Codes(grown.majors) == Codes(g.majors) + {roster[0].code};
        FillFollowsRoster(grown, roster[1..]);
        assert Named(grown.majors) == Named(g.majors) + [(roster[0].code, roster[0].name)];
      }
    }
  }

  /** Position of the first item with this major code. */
  function FirstOf(scored: seq<Item>, code: string): nat { FirstWhere(scored, HasCode(code)) }

  function HasCode(code: string): Item -> bool { (it: Item) => it.candidate.majorCode == code }

  lemma {:induction false} NamedIffFound(scored: seq<Item>, code: string)
    ensures code in NamedCodes(scored) <==> code != "" && FirstOf(scored, code) < |scored|
  {
    FirstWhereFinds(scored, HasCode(code));
    if FirstOf(scored, code) < |scored| {
      assert scored[FirstOf(scored, code)] in scored;
    }
  }

  /** The distinct majors are the first items of their codes, in list order. */
  ghost predicate FirstsInOrder(majors: seq<PlanMajor>, scored: seq<Item>) {
    && (forall i :: 0 <= i < |majors| ==>
          FirstOf(scored, majors[i].code) < |scored|
          && scored[FirstOf(scored, majors[i].code)].candidate.majorName == majors[i].name)
    && (forall i, j :: 0 <= i < j < |majors| ==> FirstOf(scored, majors[i].code) < FirstOf(scored, majors[j].code))
  }

  lemma {:induction false} DistinctMajorsAreFirsts(scored: seq<Item>)
    ensures FirstsInOrder(DistinctMajors(scored), scored)
  {
    if scored == [] {
    } else {
      var init, it := scored[..|scored| - 1], scored[|scored| - 1];
      assert scored == init + [it];
      DistinctMajorsAreFirsts(init);
      DistinctMajorsCodes(init);
      var before, majors := DistinctMajors(init), DistinctMajors(scored);
      forall i | 0 <= i < |majors|
        ensures i < |before| ==> majors[i] == before[i] && FirstOf(scored, majors[i].code) == FirstOf(init, majors[i].code) < |init|
        ensures i == |before| ==> FirstOf(scored, majors[i].code) == |init| && majors[i].name == it.candidate.majorName
      {
        FirstWhereAppend(init, it, HasCode(majors[i].code));
        NamedIffFound(init, majors[i].code);
      }
    }
  }

  /** Every row of the group whose code stands at i or behind scores no better than c. */
  ghost predicate BestFrom(cs: seq<Candidate>, score: Candidate -> int, key: GroupKey, roster: seq<PlanMajor>, i: nat, c: Candidate) {
    forall j, d :: i <= j < |roster| && RowOf(cs, key, roster[j].code, d) ==> score(c) >= score(d)
  }

  predicate RowOf(cs: seq<Candidate>, key: GroupKey, code: string, d: Candidate) {
    d in cs && (d.university, d.groupCode) == key && d.majorCode == code
  }

  lemma {:induction false} RowIsBehind(cs: seq<Candidate>, score: Candidate -> int, key: GroupKey, tier: Tier, at: nat, code: string, d: Candidate)
    requires var scored := ScoreCandidates(OfGroup(cs, key), tier, score); at <= FirstOf(scored, code) && at < |scored|
    requires RowOf(cs, key, code, d)
    ensures ScoreCandidates(OfGroup(cs, key), tier, score)[at].score >= score(d)
  {
    var scored := ScoreCandidates(OfGroup(cs, key), tier, score);
    OfGroupMembers(cs, key);
    ScoredMembers(OfGroup(cs, key), tier, score);
    assert Item(d, tier, score(d), 0) in scored;
    var k :| 0 <= k < |scored| && scored[k] == Item(d, tier, score(d), 0);
    FirstWhereFinds(scored, HasCode(code));
  }

  /** Each roster major names a best row of its code, and no row of a major behind it scores better. */
  lemma {:induction false} RosterByScore(cs: seq<Candidate>, score: Candidate -> int, key: GroupKey, tier: Tier, i: nat)
    returns (c: Candidate)
    requires i < |RosterOf(cs, score, key, tier)|
    ensures var roster := RosterOf(cs, score, key, tier);
            RowOf(cs, key, roster[i].code, c) && c.majorName == roster[i].name && BestFrom(cs, score, key, roster, i, c)
  {
    var scored, roster := ScoreCandidates(OfGroup(cs, key), tier, score), RosterOf(cs, score, key, tier);
    DistinctMajorsAreFirsts(scored);
    var at := FirstOf(scored, roster[i].code);
    FirstWhereFinds(scored, HasCode(roster[i].code));
    c := scored[at].candidate;
    OfGroupMembers(cs, key);
    ScoredMembers(OfGroup(cs, key), tier, score);
    assert scored[at] in scored;
    forall j, d | i <= j < |roster| && RowOf(cs, key, roster[j].code, d) ensures score(c) >= score(d) {
      RowIsBehind(cs, score, key, tier, at, roster[j].code, d);
    }
  }

  /** For items with distinct groups the plan has one well-shaped, fully filled group per item, in item order. */
  lemma PlanShape(cs: seq<Candidate>, score: Candidate -> int, items: seq<Item>, i: nat)
    requires DistinctKeys(items) && i < |items|
    ensures var groups := Plan(cs, score, items);
            && |groups| == |items|
            && GroupShape(groups[i], items[i]) && GroupFilled(groups[i], cs)
  {
    FoldDistinct(items);
    var it := items[i];
    var g := FoldItems(items)[i];
    var tier := FirstTier(items, g.key);
    var roster := RosterOf(cs, score, g.key, tier);
    FillKeepsShape(g, roster, it);
    RosterCodes(cs, score, g.key, tier);
    var f := Fill(g, roster);
    forall code | code in Codes(f.majors[1..]) ensures code in Codes(roster) {
      var k :| 1 <= k < |f.majors| && f.majors[k].code == code;
      assert code in Codes(f.majors) && code != f.majors[0].code;
    }
  }

  /** End to end: the plan of a recommended table has one such group per table row. */
  lemma RecommendedPlan(cs: seq<Candidate>, score: Candidate -> int, w: Windows, requested: int, i: nat)
    requires i < |RecommendItems(cs, score, w, requested)|
    ensures var items := RecommendItems(cs, score, w, requested);
            var groups := Plan(cs, score, items);
            && |groups| == |items| <= EffectivePlanSize(requested)
            && groups[i].orderNo == i + 1
            && GroupShape(groups[i], items[i]) && GroupFilled(groups[i], cs)
            && |groups| <= RecordCount(groups) <= MAX_MAJORS_PER_GROUP * |groups|
  {
    var items := RecommendItems(cs, score, w, requested);
    TableRules(cs, score, w, requested);
    PlanShape(cs, score, items, i);
    var groups := Plan(cs, score, items);
    forall k | 0 <= k < |groups| ensures 1 <= |groups[k].majors| <= MAX_MAJORS_PER_GROUP {
      PlanShape(cs, score, items, k);
    }
    RecordBounds(groups);
  }

  lemma {:induction false} RecordBounds(groups: seq<PlanGroup>)
    requires forall k :: 0 <= k < |groups| ==> 1 <= |groups[k].majors| <= MAX_MAJORS_PER_GROUP
    ensures |groups| <= RecordCount(groups) <= MAX_MAJORS_PER_GROUP * |groups|
  {
    if groups == [] {
    } else {
      RecordBounds(groups[1..]);
    }
  }

  // ---- folding items that share a group ----

  /** The picked majors of a group, in item order. */
  function PickedMajors(items: seq<Item>, key: GroupKey): seq<(string, string)> {
    if items == [] then []
    else (if Key(items[0]) == key then [(items[0].candidate.majorCode, items[0].candidate.majorName)] else [])
         + PickedMajors(items[1..], key)
  }

  lemma {:induction false} PickedMajorsAppend(items: seq<Item>, it: Item, key: GroupKey)
    ensures PickedMajors(items + [it], key)
         == PickedMajors(items, key) + if Key(it) == key then [(it.candidate.majorCode, it.candidate.majorName)] else []
  {
    if items == [] {
      assert [it][1..] == [];
    } else {
      var name := (items[0].candidate.majorCode, items[0].candidate.majorName);
      var head, last := if Key(items[0]) == key then [name] else [],
                        if Key(it) == key then [(it.candidate.majorCode, it.candidate.majorName)] else [];
      assert (items + [it])[1..] == items[1..] + [it];
      PickedMajorsAppend(items[1..], it, key);
      assert head + (PickedMajors(items[1..], key) + last) == head + PickedMajors(items[1..], key) + last;
    }
  }

  function HasKey(key: GroupKey): Item -> bool { (it: Item) => Key(it) == key }

  /** The group has all majors picked for its key, and number and tier of the first item of it. */
  ghost predicate GroupCollects(g: PlanGroup, items: seq<Item>) {
    var at := FirstWhere(items, HasKey(g.key));
    && Named(g.majors) == PickedMajors(items, g.key)
    && at < |items| && g.orderNo == items[at].order && g.tier == items[at].tier
  }

  /** One group per key, in the order in which the keys first occur. */
  ghost predicate Collected(groups: seq<PlanGroup>, items: seq<Item>) {
    && (forall i :: 0 <= i < |groups| ==> GroupCollects(groups[i], items))
    && (forall i, j :: 0 <= i < j < |groups| ==> FirstWhere(items, HasKey(groups[i].key)) < FirstWhere(items, HasKey(groups[j].key)))
    && (forall x :: x in items ==> Key(x) in (set g | g in groups :: g.key))
  }

  lemma {:induction false} GroupStays(g: PlanGroup, items: seq<Item>, it: Item)
    requires GroupCollects(g, items) && g.key != Key(it)
    ensures GroupCollects(g, items + [it])
  {
    PickedMajorsAppend(items, it, g.key);
    FirstWhereAppend(items, it, HasKey(g.key));
  }

  lemma {:induction false} GroupGrows(g: PlanGroup, items: seq<Item>, it: Item)
    requires GroupCollects(g, items) && g.key == Key(it)
    ensures GroupCollects(AddMajor(g, it.candidate.majorCode, it.candidate.majorName), items + [it])
  {
    PickedMajorsAppend(items, it, g.key);
    FirstWhereAppend(items, it, HasKey(g.key));
  }

  lemma {:induction false} GroupOpens(items: seq<Item>, it: Item)
    requires forall x :: x in items ==> Key(x) != Key(it)
    ensures GroupCollects(AddMajor(PlanGroup(it.order, Key(it), it.tier, []), it.candidate.majorCode, it.candidate.majorName), items + [it])
    ensures FirstWhere(items + [it], HasKey(Key(it))) == |items|
  {
    NoneOfKey(items, Key(it));
    PickedMajorsAppend(items, it, Key(it));
    FirstWhereFinds(items, HasKey(Key(it)));
    FirstWhereAppend(items, it, HasKey(Key(it)));
  }

  lemma {:induction false} FoldedGroup(groups: seq<PlanGroup>, items: seq<Item>, it: Item, i: nat)
    requires Collected(groups, items) && i < |FoldOne(groups, it)|
    ensures var g := FoldOne(groups, it)[i];
            GroupCollects(g, items + [it])
            && (i < |groups| ==> g.key == groups[i].key
                                 && FirstWhere(items + [it], HasKey(g.key)) == FirstWhere(items, HasKey(g.key)) < |items|)
            && (i == |groups| ==> FirstWhere(items + [it], HasKey(g.key)) == |items|)
  {
    var at := Find(groups, Key(it));
    FindFinds(groups, Key(it));
    if i < |groups| {
      assert GroupCollects(groups[i], items);
      FirstWhereAppend(items, it, HasKey(groups[i].key));
      if i == at {
        GroupGrows(groups[i], items, it);
      } else {
        KeysDiffer(groups, items);
        GroupStays(groups[i], items, it);
      }
    } else {
      NoItemOfKey(items, Key(it), groups);
      GroupOpens(items, it);
    }
  }

  lemma {:induction false} FoldedKeys(groups: seq<PlanGroup>, items: seq<Item>, it: Item, x: Item)
    requires Collected(groups, items) && x in items + [it]
    ensures Key(x) in (set g | g in FoldOne(groups, it) :: g.key)
  {
    var after, at := FoldOne(groups, it), Find(groups, Key(it));
    FindFinds(groups, Key(it));
    if x in items {
      var g :| g in groups && g.key == Key(x);
      var i :| 0 <= i < |groups| && groups[i] == g;
      assert after[i] in after;
    } else {
      assert after[at] in after;
    }
  }

  lemma {:induction false} FoldOneCollects(groups: seq<PlanGroup>, items: seq<Item>, it: Item)
    requires Collected(groups, items)
    ensures Collected(FoldOne(groups, it), items + [it])
  {
    var after := FoldOne(groups, it);
    forall i | 0 <= i < |after| ensures GroupCollects(after[i], items + [it]) { FoldedGroup(groups, items, it, i); }
    forall i, j | 0 <= i < j < |after|
      ensures FirstWhere(items + [it], HasKey(after[i].key)) < FirstWhere(items + [it], HasKey(after[j].key))
    {
      FoldedGroup(groups, items, it, i);
      FoldedGroup(groups, items, it, j);
    }
    forall x | x in items + [it] ensures Key(x) in (set g | g in after :: g.key) { FoldedKeys(groups, items, it, x); }
  }

  lemma {:induction false} KeysDiffer(groups: seq<PlanGroup>, items: seq<Item>)
    requires Collected(groups, items)
    ensures forall i, j :: 0 <= i < |groups| && 0 <= j < |groups| && i != j ==> groups[i].key != groups[j].key
  {}

  lemma {:induction false} NoItemOfKey(items: seq<Item>, key: GroupKey, groups: seq<PlanGroup>)
    requires forall x :: x in items ==> Key(x) in (set g | g in groups :: g.key)
    requires forall i :: 0 <= i < |groups| ==> groups[i].key != key
    ensures forall x :: x in items ==> Key(x) != key
  {
    forall x | x in items ensures Key(x) != key {
      var g :| g in groups && g.key == Key(x);
    }
  }

  lemma {:induction false} NoneOfKey(items: seq<Item>, key: GroupKey)
    requires forall x :: x in items ==> Key(x) != key
    ensures PickedMajors(items, key) == []
  {
    if items != [] { NoneOfKey(items[1..], key); }
  }

  /**
    For any items, repeated groups included: one group per key, in the order of first occurrence, with number and tier
    of its first item and all majors picked for it, in item order.
   */
  lemma {:induction false} FoldCollects(items: seq<Item>)
    ensures Collected(FoldItems(items), items)
  {
    if items == [] {
    } else {
      var init, it := items[..|items| - 1], items[|items| - 1];
      FoldCollects(init);
      assert items == init + [it];
      FoldOneCollects(FoldItems(init), init, it);
    }
  }

  function AllMajors(groups: seq<PlanGroup>): seq<PlanMajor> {
    if groups == [] then [] else AllMajors(groups[..|groups| - 1]) + groups[|groups| - 1].majors
  }

  lemma {:induction false} RecordsAppend(groups: seq<PlanGroup>, g: PlanGroup)
    ensures RecordCount(groups + [g]) == RecordCount(groups) + |g.majors|
  {
    if groups == [] {
      assert [g][1..] == [];
    } else {
      assert (groups + [g])[1..] == groups[1..] + [g];
      RecordsAppend(groups[1..], g);
    }
  }

  /** The record count is the number of majors in all groups. */
  lemma {:induction false} RecordsAreMajors(groups: seq<PlanGroup>)
    ensures RecordCount(groups) == |AllMajors(groups)|
  {
    if groups == [] {
    } else {
      RecordsAreMajors(groups[..|groups| - 1]);
      RecordsAppend(groups[..|groups| - 1], groups[|groups| - 1]);
      assert groups == groups[..|groups| - 1] + [groups[|groups| - 1]];
    }
  }
}
