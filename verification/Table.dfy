/**
  The volunteer table: three tiers picked one after another on shared books, with the quota a
  tier could not fill carried to the next one, and the preview of the same pool.
 */
module Table {
  import opened Options
  import opened Selection
  import opened Recommend

  function Windowed(cs: seq<Candidate>, w: Window): seq<Candidate> {
    if cs == [] then []
    else Windowed(cs[..|cs| - 1], w) + if InWindow(cs[|cs| - 1], w) then [cs[|cs| - 1]] else []
  }

  function TierItems(cs: seq<Candidate>, score: Candidate -> int, tier: Tier, w: Window): seq<Item> {
    ScoreCandidates(Windowed(cs, w), tier, score)
  }

  function Chosen(scored: seq<Item>, sel: seq<nat>): seq<Item>
    requires forall j :: 0 <= j < |sel| ==> sel[j] < |scored|
  {
    seq(|sel|, j requires 0 <= j < |sel| => scored[sel[j]])
  }

  lemma ChosenAppend(scored: seq<Item>, sel: seq<nat>, i: nat)
    requires i < |scored| && forall j :: 0 <= j < |sel| ==> sel[j] < i
    ensures forall j :: 0 <= j < |sel + [i]| ==> (sel + [i])[j] < i + 1
    ensures Chosen(scored, sel + [i]) == Chosen(scored, sel) + [scored[i]]
  {}

  datatype TierPick = TierPick(items: seq<Item>, books: Slots)

  /** What one tier picks and how it leaves the books. */
  function PickTier(cs: seq<Candidate>, score: Candidate -> int, tier: Tier, w: Window, quota: int, books: Slots): TierPick {
    var scored := TierItems(cs, score, tier, w);
    PickIncreasing(scored, |scored|, books, quota);
    var p := Pick(scored, |scored|, books, quota);
    TierPick(Chosen(scored, p.out), p.slots)
  }

  /** The two maps the tiers share. */
  class SlotBooks {
    var seenGroups: set<GroupKey>
    var usedSchools: map<string, nat>

    constructor ()
      ensures Books() == Slots({}, map[])
    {
      seenGroups := {};
      usedSchools := map[];
    }

    function Books(): Slots
      reads this
    {
      Slots(seenGroups, usedSchools)
    }

    method PickBucket(cs: seq<Candidate>, score: Candidate -> int, tier: Tier, w: Window, quota: int)
      returns (out: seq<Item>)
      modifies this
      ensures TierPick(out, Books()) == PickTier(cs, score, tier, w, quota, old(Books()))
    {
      if quota <= 0 {
        ghost var scored := TierItems(cs, score, tier, w);
        PickStops(scored, 0, |scored|, Books(), quota);
        return [];
      }
      var inWindow := WindowScan(cs, w);
      var scored := ScoreCandidates(inWindow, tier, score);
      PickIncreasing(scored, |scored|, Books(), quota);
      out := PickScan(scored, quota);
    }

    /** Books the item's group and one slot of its school, unless the group is taken or the school is full. */
    method Take(it: Item) returns (taken: bool)
      modifies this
      ensures taken == !Blocked(old(Books()), it)
      ensures Books() == if taken then Book(old(Books()), it) else old(Books())
    {
      if Key(it) in seenGroups || (School(it) in usedSchools && usedSchools[School(it)] >= MAX_GROUPS_PER_SCHOOL) {
        return false;
      }
      seenGroups := seenGroups + {Key(it)};
      usedSchools := usedSchools[School(it) := (if School(it) in usedSchools then usedSchools[School(it)] else 0) + 1];
      taken := true;
    }

    /** The greedy loop; it stops at the quota, the fold does not, and the two agree. */
    method PickScan(scored: seq<Item>, quota: int) returns (out: seq<Item>)
      requires quota > 0
      requires Increasing(Pick(scored, |scored|, Books(), quota).out, |scored|)
      modifies this
      ensures var p := Pick(scored, |scored|, old(Books()), quota);
              out == Chosen(scored, p.out) && Books() == p.slots
    {
      ghost var p := Picked(Books(), []);
      out := [];
      for i := 0 to |scored|
        invariant p == Pick(scored, i, old(Books()), quota) && forall j :: 0 <= j < |p.out| ==> p.out[j] < i
        invariant Books() == p.slots && out == Chosen(scored, p.out)
        invariant |out| < quota
      {
        var taken := Take(scored[i]);
        if taken {
          ChosenAppend(scored, p.out, i);
          out := out + [scored[i]];
          p := Picked(Books(), p.out + [i]);
          if |out| >= quota {
            PickStops(scored, i + 1, |scored|, old(Books()), quota);
            return;
          }
        }
      }
    }
  }

  method WindowScan(cs: seq<Candidate>, w: Window) returns (inWindow: seq<Candidate>)
    ensures inWindow == Windowed(cs, w)
  {
    inWindow := [];
    for i := 0 to |cs|
      invariant inWindow == Windowed(cs[..i], w)
    {
      assert cs[..i + 1][..i] == cs[..i];
      if InWindow(cs[i], w) {
        inWindow := inWindow + [cs[i]];
      }
    }
    assert cs[..|cs|] == cs;
  }

  /** Nothing is picked once the quota is reached. */
  lemma {:induction false} PickStops(scored: seq<Item>, m: nat, n: nat, start: Slots, quota: int)
    requires m <= n <= |scored| && |Pick(scored, m, start, quota).out| >= quota
    ensures Pick(scored, n, start, quota) == Pick(scored, m, start, quota)
  {
    if m < n { PickStops(scored, m, n - 1, start, quota); }
  }

  lemma {:induction false} WindowedMembers(cs: seq<Candidate>, w: Window)
    ensures forall c :: c in Windowed(cs, w) <==> c in cs && InWindow(c, w)
  {
    if cs == [] {
    } else {
      WindowedMembers(cs[..|cs| - 1], w);
      assert cs == cs[..|cs| - 1] + [cs[|cs| - 1]];
    }
  }

  // ---- what one tier guarantees ----

  predicate SameGroup(c: Candidate, d: Candidate) { c.university == d.university && c.groupCode == d.groupCode }

  ghost predicate DistinctKeys(items: seq<Item>) {
    forall i, j :: 0 <= i < j < |items| ==> !SameGroup(items[i].candidate, items[j].candidate)
  }

  /** Whether the items leave no place for a candidate: its group is among them, or four groups of its university are. */
  predicate Taken(items: seq<Item>, c: Candidate) {
    (exists it :: it in items && SameGroup(it.candidate, c)) || CountSchool(items, c.university) >= 4
  }

  function CountSchool(items: seq<Item>, school: string): nat {
    if items == [] then 0
    else CountSchool(items[..|items| - 1], school) + if items[|items| - 1].candidate.university == school then 1 else 0
  }

  ghost function Keys(items: seq<Item>): set<GroupKey> { set it | it in items :: Key(it) }

  ghost function GroupsOf(keys: set<GroupKey>, school: string): set<GroupKey> {
    set k | k in keys && k.0 == school
  }

  /** The school counters agree with the groups seen, and no school is over its cap. */
  ghost predicate BooksAgree(books: Slots) {
    forall school :: Used(books, school) == |GroupsOf(books.seen, school)| <= MAX_GROUPS_PER_SCHOOL
  }

  lemma BookAgrees(books: Slots, it: Item)
    requires BooksAgree(books) && !Blocked(books, it)
    ensures BooksAgree(Book(books, it))
  {
    forall school
      ensures var b := Book(books, it);
              Used(b, school) == |GroupsOf(b.seen, school)| <= MAX_GROUPS_PER_SCHOOL
    {
      var b := Book(books, it);
      if school == School(it) {
        assert GroupsOf(b.seen, school) == GroupsOf(books.seen, school) + {Key(it)};
      } else {
        assert GroupsOf(b.seen, school) == GroupsOf(books.seen, school);
      }
    }
  }

  lemma {:induction false} PickAgrees(scored: seq<Item>, n: nat, books: Slots, quota: int)
    requires n <= |scored| && BooksAgree(books)
    ensures BooksAgree(Pick(scored, n, books, quota).slots)
  {
    if n == 0 {
    } else {
      PickAgrees(scored, n - 1, books, quota);
      var q := Pick(scored, n - 1, books, quota);
      if |q.out| < quota && !Blocked(q.slots, scored[n - 1]) {
        BookAgrees(q.slots, scored[n - 1]);
      }
    }
  }

  lemma {:induction false} KeysOfLast(items: seq<Item>)
    requires items != []
    ensures Keys(items) == Keys(items[..|items| - 1]) + {Key(items[|items| - 1])}
    ensures DistinctKeys(items) ==> Key(items[|items| - 1]) !in Keys(items[..|items| - 1])
  {
    assert items == items[..|items| - 1] + [items[|items| - 1]];
  }

  lemma GroupsAdd(keys: set<GroupKey>, k: GroupKey, school: string)
    requires k !in keys
    ensures |GroupsOf(keys + {k}, school)| == |GroupsOf(keys, school)| + if k.0 == school then 1 else 0
  {
    if k.0 == school {
      assert GroupsOf(keys + {k}, school) == GroupsOf(keys, school) + {k};
    } else {
      assert GroupsOf(keys + {k}, school) == GroupsOf(keys, school);
    }
  }

  lemma {:induction false} CountSchoolIsGroups(items: seq<Item>, school: string)
    requires DistinctKeys(items)
    ensures CountSchool(items, school) == |GroupsOf(Keys(items), school)|
  {
    if items == [] {
      assert GroupsOf(Keys(items), school) == {};
    } else {
      CountSchoolIsGroups(items[..|items| - 1], school);
      KeysOfLast(items);
      GroupsAdd(Keys(items[..|items| - 1]), Key(items[|items| - 1]), school);
    }
  }

  /** Books that hold exactly the items' groups block exactly what the items leave no place for. */
  lemma {:induction false} BlockedIffTaken(books: Slots, items: seq<Item>, it: Item)
    requires DistinctKeys(items) && books.seen == Keys(items) && BooksAgree(books)
    ensures Blocked(books, it) <==> Taken(items, it.candidate)
  {
    CountSchoolIsGroups(items, School(it));
    assert Used(books, School(it)) == |GroupsOf(books.seen, School(it))|;
    assert Key(it) in Keys(items) <==> exists x :: x in items && SameGroup(x.candidate, it.candidate);
  }

  /** A tier obeys its quota, picks fresh pairwise different groups, and books exactly those. */
  lemma TierBooks(cs: seq<Candidate>, score: Candidate -> int, tier: Tier, w: Window, quota: int, books: Slots)
    requires BooksAgree(books)
    ensures var r := PickTier(cs, score, tier, w, quota, books);
            && |r.items| <= (if quota > 0 then quota else 0)
            && DistinctKeys(r.items) && Keys(r.items) !! books.seen
            && r.books.seen == books.seen + Keys(r.items)
            && BooksAgree(r.books)
  {
    var scored := TierItems(cs, score, tier, w);
    var p := Pick(scored, |scored|, books, quota);
    PickBooks(scored, |scored|, books, quota);
    PickAgrees(scored, |scored|, books, quota);
    ChosenFacts(scored, books, p.out);
  }

  /** A tier's items are its scored candidates from its window. */
  lemma TierMembers(cs: seq<Candidate>, score: Candidate -> int, tier: Tier, w: Window, quota: int, books: Slots)
    ensures forall it :: it in PickTier(cs, score, tier, w, quota, books).items ==>
              (it.candidate in cs && InWindow(it.candidate, w) && it.tier == tier && it.score == score(it.candidate))
  {
    var scored := TierItems(cs, score, tier, w);
    WindowedMembers(cs, w);
    ScoredMembers(Windowed(cs, w), tier, score);
    PickIncreasing(scored, |scored|, books, quota);
    var items := PickTier(cs, score, tier, w, quota, books).items;
    assert forall i :: 0 <= i < |items| ==> items[i] in scored;
  }

  /** After a shortfall nothing in the window is still free. */
  lemma TierShortfall(cs: seq<Candidate>, score: Candidate -> int, tier: Tier, w: Window, quota: int, books: Slots, c: Candidate)
    requires c in cs && InWindow(c, w)
    requires |PickTier(cs, score, tier, w, quota, books).items| < quota
    ensures Blocked(PickTier(cs, score, tier, w, quota, books).books, Item(c, tier, score(c), 0))
  {
    var scored := TierItems(cs, score, tier, w);
    var p := Pick(scored, |scored|, books, quota);
    PickBooks(scored, |scored|, books, quota);
    WindowedMembers(cs, w);
    ScoredMembers(Windowed(cs, w), tier, score);
    var i :| 0 <= i < |scored| && scored[i] == Item(c, tier, score(c), 0);
    PickedOrBlocked(scored, |scored|, books, quota, i);
    if i in p.out { assert i in Indices(p.out); }
  }

  lemma ChosenFacts(scored: seq<Item>, books: Slots, out: seq<nat>)
    requires Increasing(out, |scored|) && Admissible(scored, books, Indices(out))
    ensures var items := Chosen(scored, out);
            && DistinctKeys(items)
            && (forall it :: it in items ==> it in scored && Key(it) !in books.seen)
            && Keys(items) == (set i | i in Indices(out) :: Key(scored[i]))
  {
    var items := Chosen(scored, out);
    forall i, j | 0 <= i < j < |items| ensures Key(items[i]) != Key(items[j]) {
      assert out[i] in Indices(out) && out[j] in Indices(out);
    }
    forall it | it in items ensures it in scored && Key(it) !in books.seen {
      var j :| 0 <= j < |items| && items[j] == it;
      assert out[j] in Indices(out);
    }
    forall k | k in Keys(items) ensures k in (set i | i in Indices(out) :: Key(scored[i])) {
      var j :| 0 <= j < |items| && Key(items[j]) == k;
      assert out[j] in Indices(out);
    }
    forall i | i in Indices(out) ensures Key(scored[i]) in Keys(items) {
      var j :| 0 <= j < |out| && out[j] == i;
      assert items[j] in items;
    }
  }

  /** Within its books and quota a tier's i-th best score is at least that of any other admissible choice. */
  lemma TierOptimal(cs: seq<Candidate>, score: Candidate -> int, tier: Tier, w: Window, quota: int, books: Slots, sel: seq<nat>)
    requires Feasible(TierItems(cs, score, tier, w), books, quota, sel)
    ensures var scored := TierItems(cs, score, tier, w);
            var items := PickTier(cs, score, tier, w, quota, books).items;
            && |sel| <= |items|
            && (forall i :: 0 <= i < |sel| ==> items[i].score >= scored[sel[i]].score)
  {
    ScoredMembers(Windowed(cs, w), tier, score);
    GreedyBestScores(TierItems(cs, score, tier, w), books, quota, sel);
  }

  // ---- the whole table ----

  function EffectivePlanSize(requested: int): (n: int)
    ensures 1 <= n <= PLAN_SIZE_CAP
    ensures n == requested <==> 1 <= requested <= PLAN_SIZE_CAP
    ensures requested > PLAN_SIZE_CAP ==> n == PLAN_SIZE_CAP
    ensures requested <= 0 ==> n == DEFAULT_PLAN_SIZE
  {
    if requested <= 0 then DEFAULT_PLAN_SIZE else if requested > PLAN_SIZE_CAP then PLAN_SIZE_CAP else requested
  }

  datatype Quota = Quota(rush: int, middle: int, safe: int)

  function SplitTierQuota(planSize: int): Quota {
    if planSize <= 0 then Quota(0, 0, 0) else Quota(planSize / 4, planSize - planSize / 4 - planSize / 4, planSize / 4)
  }

  lemma QuotaSplitsPlan(planSize: int)
    ensures var q := SplitTierQuota(planSize);
            && 0 <= q.rush == q.safe && 0 <= q.middle
            && q.rush + q.middle + q.safe == (if planSize > 0 then planSize else 0)
            && 2 * q.rush <= q.middle <= 2 * q.rush + 3
  {}

  predicate TooFewPlaces(c: Candidate) { c.admittedCount.Some? && 0 < c.admittedCount.value < 5 }

  /** Drops safe items whose known admission plan is below five. */
  function EnsureSafeQuality(items: seq<Item>): seq<Item> {
    if items == [] then []
    else
      EnsureSafeQuality(items[..|items| - 1])
      + if TooFewPlaces(items[|items| - 1].candidate) then [] else [items[|items| - 1]]
  }

  lemma {:induction false} SafeQualityKeepsAllIff(items: seq<Item>)
    ensures |EnsureSafeQuality(items)| <= |items|
    ensures |EnsureSafeQuality(items)| == |items| <==> forall it :: it in items ==> !TooFewPlaces(it.candidate)
  {
    if items == [] {
    } else {
      var init, last := items[..|items| - 1], items[|items| - 1];
      SafeQualityKeepsAllIff(init);
      assert forall it :: it in items <==> it in init || it == last;
    }
  }

  lemma {:induction false} SafeQualityMembers(items: seq<Item>)
    ensures forall it :: it in EnsureSafeQuality(items) <==> it in items && !TooFewPlaces(it.candidate)
  {
    if items == [] {
    } else {
      SafeQualityMembers(items[..|items| - 1]);
      assert items == items[..|items| - 1] + [items[|items| - 1]];
    }
  }

  lemma {:induction false} SafeQualityDistinct(items: seq<Item>)
    requires DistinctKeys(items)
    ensures DistinctKeys(EnsureSafeQuality(items))
  {
    if items == [] {
    } else {
      var init, last := items[..|items| - 1], items[|items| - 1];
      SafeQualityDistinct(init);
      SafeQualityMembers(init);
      var kept := EnsureSafeQuality(init);
      forall i | 0 <= i < |kept| ensures Key(kept[i]) != Key(last) {
        assert kept[i] in init;
      }
    }
  }

  /** Exactly the items with too few places are dropped, and what is kept still has distinct groups. */
  lemma SafeQualityPart(items: seq<Item>)
    requires DistinctKeys(items)
    ensures var kept := EnsureSafeQuality(items);
            && |kept| <= |items| && DistinctKeys(kept) && Keys(kept) <= Keys(items)
            && (forall it :: it in kept <==>
                  it in items && (it.candidate.admittedCount.None? || it.candidate.admittedCount.value !in {1, 2, 3, 4}))
  {
    SafeQualityKeepsAllIff(items);
    SafeQualityMembers(items);
    SafeQualityDistinct(items);
  }

  datatype Tiers = Tiers(rush: TierPick, middle: TierPick, safe: TierPick)

  /** The three picks: what a tier leaves of its quota is handed to the next one. */
  function PickTiers(cs: seq<Candidate>, score: Candidate -> int, w: Windows, planSize: int): Tiers {
    var q := SplitTierQuota(planSize);
    var rush := PickTier(cs, score, Rush, w.rush, q.rush, Slots({}, map[]));
    var middleQuota := q.middle + (q.rush - |rush.items|);
    var middle := PickTier(cs, score, Match, w.middle, middleQuota, rush.books);
    var safeQuota := q.safe + (middleQuota - |middle.items|);
    var safe := PickTier(cs, score, Safe, w.safe, safeQuota, middle.books);
    Tiers(rush, middle, safe)
  }

  function Number(items: seq<Item>): seq<Item> {
    seq(|items|, i requires 0 <= i < |items| => items[i].(order := i + 1))
  }

  function RecommendItems(cs: seq<Candidate>, score: Candidate -> int, w: Windows, requested: int): seq<Item> {
    var t := PickTiers(cs, score, w, EffectivePlanSize(requested));
    Number(t.rush.items + t.middle.items + EnsureSafeQuality(t.safe.items))
  }

  method RecommendTable(cs: seq<Candidate>, score: Candidate -> int, w: Windows, requested: int) returns (items: seq<Item>)
    ensures items == RecommendItems(cs, score, w, requested)
  {
    ghost var t := PickTiers(cs, score, w, EffectivePlanSize(requested));
    var q := SplitTierQuota(EffectivePlanSize(requested));
    var books := new SlotBooks();
    var rush := books.PickBucket(cs, score, Rush, w.rush, q.rush);
    assert TierPick(rush, books.Books()) == t.rush;
    var middleQuota := q.middle + (q.rush - |rush|);
    var middle := books.PickBucket(cs, score, Match, w.middle, middleQuota);
    assert TierPick(middle, books.Books()) == t.middle;
    var safeQuota := q.safe + (middleQuota - |middle|);
    var safe := books.PickBucket(cs, score, Safe, w.safe, safeQuota);
    assert safe == t.safe.items;
    items := NumberItems(rush + middle + EnsureSafeQuality(safe));
  }

  method NumberItems(all: seq<Item>) returns (items: seq<Item>)
    ensures items == Number(all)
  {
    items := [];
    for i := 0 to |all|
      invariant items == Number(all)[..i]
    {
      items := items + [all[i].(order := i + 1)];
    }
  }

  /** What the rush tier leaves of the first two quotas, and the first two tiers of the whole plan. */
  function MatchQuota(t: Tiers, planSize: int): int {
    SplitTierQuota(planSize).rush + SplitTierQuota(planSize).middle - |t.rush.items|
  }

  function SafeQuota(t: Tiers, planSize: int): int {
    (if planSize > 0 then planSize else 0) - |t.rush.items| - |t.middle.items|
  }

  function WindowOf(w: Windows, tier: Tier): Window {
    match tier case Rush => w.rush case Match => w.middle case Safe => w.safe
  }

  lemma NoBooksAgree()
    ensures BooksAgree(Slots({}, map[]))
  {
    assert forall school :: GroupsOf({}, school) == {};
  }

  /** Tiers share the split of the plan size front to back: the first k tiers never pick more than their quotas together. */
  lemma TierSizes(cs: seq<Candidate>, score: Candidate -> int, w: Windows, planSize: int)
    requires planSize > 0
    ensures var t, q := PickTiers(cs, score, w, planSize), SplitTierQuota(planSize);
            && |t.rush.items| <= q.rush
            && |t.rush.items| + |t.middle.items| <= q.rush + q.middle
            && |t.rush.items| + |t.middle.items| + |t.safe.items| <= planSize
  {
    QuotaSplitsPlan(planSize);
    var t, q := PickTiers(cs, score, w, planSize), SplitTierQuota(planSize);
    TierSize(cs, score, Rush, w.rush, q.rush, Slots({}, map[]));
    TierSize(cs, score, Match, w.middle, q.rush + q.middle - |t.rush.items|, t.rush.books);
    TierSize(cs, score, Safe, w.safe, planSize - |t.rush.items| - |t.middle.items|, t.middle.books);
  }

  lemma TierSize(cs: seq<Candidate>, score: Candidate -> int, tier: Tier, w: Window, quota: int, books: Slots)
    ensures |PickTier(cs, score, tier, w, quota, books).items| <= (if quota > 0 then quota else 0)
  {
    var scored := TierItems(cs, score, tier, w);
    PickIncreasing(scored, |scored|, books, quota);
  }

  /** Along the shared books the tiers never pick the same group, and the school counters stay true. */
  lemma TierKeys(cs: seq<Candidate>, score: Candidate -> int, w: Windows, planSize: int)
    ensures var t := PickTiers(cs, score, w, planSize);
            && DistinctKeys(t.rush.items) && DistinctKeys(t.middle.items) && DistinctKeys(t.safe.items)
            && Keys(t.rush.items) !! Keys(t.middle.items)
            && Keys(t.rush.items) + Keys(t.middle.items) !! Keys(t.safe.items)
            && t.safe.books.seen == Keys(t.rush.items) + Keys(t.middle.items) + Keys(t.safe.items)
            && BooksAgree(t.safe.books)
  {
    var t := PickTiers(cs, score, w, planSize);
    RushAndMatchKeys(cs, score, w, planSize);
    QuotaSplitsPlan(planSize);
    TierBooks(cs, score, Safe, w.safe, SafeQuota(t, planSize), t.middle.books);
  }

  lemma RushAndMatchKeys(cs: seq<Candidate>, score: Candidate -> int, w: Windows, planSize: int)
    ensures var t := PickTiers(cs, score, w, planSize);
            && DistinctKeys(t.rush.items) && DistinctKeys(t.middle.items) && Keys(t.rush.items) !! Keys(t.middle.items)
            && t.middle.books.seen == Keys(t.rush.items) + Keys(t.middle.items)
            && BooksAgree(t.middle.books)
            && t.rush.books.seen == Keys(t.rush.items) && BooksAgree(t.rush.books)
  {
    var t := PickTiers(cs, score, w, planSize);
    assert t.rush.books.seen == Keys(t.rush.items) && DistinctKeys(t.rush.items) && BooksAgree(t.rush.books) by {
      NoBooksAgree();
      TierBooks(cs, score, Rush, w.rush, SplitTierQuota(planSize).rush, Slots({}, map[]));
    }
    TierBooks(cs, score, Match, w.middle, MatchQuota(t, planSize), t.rush.books);
  }

  lemma ShortfallMeansBlocked(cs: seq<Candidate>, score: Candidate -> int, w: Windows, planSize: int, c: Candidate)
    requires planSize > 0 && c in cs
    ensures var t, q := PickTiers(cs, score, w, planSize), SplitTierQuota(planSize);
            && (|t.rush.items| < q.rush && InWindow(c, w.rush) ==> Blocked(t.rush.books, Item(c, Rush, score(c), 0)))
            && (|t.rush.items| + |t.middle.items| < q.rush + q.middle && InWindow(c, w.middle) ==>
                  Blocked(t.middle.books, Item(c, Match, score(c), 0)))
            && (|t.rush.items| + |t.middle.items| + |t.safe.items| < planSize && InWindow(c, w.safe) ==>
                  Blocked(t.safe.books, Item(c, Safe, score(c), 0)))
  {
    var t, q := PickTiers(cs, score, w, planSize), SplitTierQuota(planSize);
    QuotaSplitsPlan(planSize);
    if |t.rush.items| < q.rush && InWindow(c, w.rush) {
      TierShortfall(cs, score, Rush, w.rush, q.rush, Slots({}, map[]), c);
    }
    if |t.middle.items| < MatchQuota(t, planSize) && InWindow(c, w.middle) {
      TierShortfall(cs, score, Match, w.middle, MatchQuota(t, planSize), t.rush.books, c);
    }
    if |t.safe.items| < SafeQuota(t, planSize) && InWindow(c, w.safe) {
      TierShortfall(cs, score, Safe, w.safe, SafeQuota(t, planSize), t.middle.books, c);
    }
  }

  /** The books after each tier hold exactly what the tiers so far have picked. */
  lemma {:induction false} BooksHoldPicks(cs: seq<Candidate>, score: Candidate -> int, w: Windows, planSize: int, it: Item)
    ensures var t := PickTiers(cs, score, w, planSize);
            var two := t.rush.items + t.middle.items;
            && (Blocked(t.rush.books, it) <==> Taken(t.rush.items, it.candidate))
            && (Blocked(t.middle.books, it) <==> Taken(two, it.candidate))
            && (Blocked(t.safe.books, it) <==> Taken(two + t.safe.items, it.candidate))
  {
    var t := PickTiers(cs, score, w, planSize);
    RushAndMatchKeys(cs, score, w, planSize);
    TierKeys(cs, score, w, planSize);
    DistinctAppend(t.rush.items, t.middle.items);
    DistinctAppend(t.rush.items + t.middle.items, t.safe.items);
    BlockedIffTaken(t.rush.books, t.rush.items, it);
    BlockedIffTaken(t.middle.books, t.rush.items + t.middle.items, it);
    BlockedIffTaken(t.safe.books, t.rush.items + t.middle.items + t.safe.items, it);
  }

  /**
    Whenever the first k tiers together pick less than their quotas together, they leave no place for any candidate
    of the k-th tier's window: unused quota goes to the very next tier.
   */
  lemma {:induction false} ShortfallMeansTaken(cs: seq<Candidate>, score: Candidate -> int, w: Windows, planSize: int, c: Candidate)
    requires planSize > 0 && c in cs
    ensures var t, q := PickTiers(cs, score, w, planSize), SplitTierQuota(planSize);
            var rush, middle, safe := t.rush.items, t.middle.items, t.safe.items;
            && (|rush| < q.rush && InWindow(c, w.rush) ==> Taken(rush, c))
            && (|rush| + |middle| < q.rush + q.middle && InWindow(c, w.middle) ==> Taken(rush + middle, c))
            && (|rush| + |middle| + |safe| < planSize && InWindow(c, w.safe) ==> Taken(rush + middle + safe, c))
  {
    ShortfallMeansBlocked(cs, score, w, planSize, c);
    BooksHoldPicks(cs, score, w, planSize, Item(c, Rush, score(c), 0));
    BooksHoldPicks(cs, score, w, planSize, Item(c, Match, score(c), 0));
    BooksHoldPicks(cs, score, w, planSize, Item(c, Safe, score(c), 0));
  }

  ghost predicate Dominates(items: seq<Item>, scored: seq<Item>, sel: seq<nat>) {
    && |sel| <= |items|
    && forall i :: 0 <= i < |sel| ==> sel[i] < |scored| && items[i].score >= scored[sel[i]].score
  }

  lemma TierDominates(cs: seq<Candidate>, score: Candidate -> int, tier: Tier, w: Window, quota: int, books: Slots, sel: seq<nat>)
    ensures Feasible(TierItems(cs, score, tier, w), books, quota, sel) ==>
              Dominates(PickTier(cs, score, tier, w, quota, books).items, TierItems(cs, score, tier, w), sel)
  {
    if Feasible(TierItems(cs, score, tier, w), books, quota, sel) { TierOptimal(cs, score, tier, w, quota, books, sel); }
  }

  /** Place by place each tier beats every admissible choice that fits into what the tiers before it left. */
  lemma {:induction false} TiersOptimal(cs: seq<Candidate>, score: Candidate -> int, w: Windows, planSize: int, sel: seq<nat>)
    requires planSize > 0
    ensures var t, q := PickTiers(cs, score, w, planSize), SplitTierQuota(planSize);
            var rush, middle := TierItems(cs, score, Rush, w.rush), TierItems(cs, score, Match, w.middle);
            var safe, r, m := TierItems(cs, score, Safe, w.safe), |t.rush.items|, |t.middle.items|;
            && (Feasible(rush, Slots({}, map[]), q.rush, sel) ==> Dominates(t.rush.items, rush, sel))
            && (Feasible(middle, t.rush.books, q.rush + q.middle - r, sel) ==> Dominates(t.middle.items, middle, sel))
            && (Feasible(safe, t.middle.books, planSize - r - m, sel) ==> Dominates(t.safe.items, safe, sel))
  {
    var t, q := PickTiers(cs, score, w, planSize), SplitTierQuota(planSize);
    QuotaSplitsPlan(planSize);
    TierDominates(cs, score, Rush, w.rush, q.rush, Slots({}, map[]), sel);
    TierDominates(cs, score, Match, w.middle, MatchQuota(t, planSize), t.rush.books, sel);
    TierDominates(cs, score, Safe, w.safe, SafeQuota(t, planSize), t.middle.books, sel);
  }

  lemma DistinctAppend(a: seq<Item>, b: seq<Item>)
    requires DistinctKeys(a) && DistinctKeys(b) && Keys(a) !! Keys(b)
    ensures DistinctKeys(a + b) && Keys(a + b) == Keys(a) + Keys(b)
  {
    forall i, j | 0 <= i < j < |a + b| ensures Key((a + b)[i]) != Key((a + b)[j]) {
      if i < |a| <= j {
        assert a[i] in a && b[j - |a|] in b;
        assert Key(a[i]) in Keys(a) && Key(b[j - |a|]) in Keys(b);
      }
    }
    assert forall it :: it in a + b <==> it in a || it in b;
  }

  lemma NumberKeeps(items: seq<Item>)
    ensures var r := Number(items);
            && |r| == |items| && Keys(r) == Keys(items) && (DistinctKeys(items) ==> DistinctKeys(r))
  {
    var r := Number(items);
    forall i | 0 <= i < |items| ensures Key(r[i]) == Key(items[i]) && r[i] in r && items[i] in items {}
    forall k | k in Keys(r) ensures k in Keys(items) {
      var i :| 0 <= i < |r| && Key(r[i]) == k;
      assert items[i] in items;
    }
    forall k | k in Keys(items) ensures k in Keys(r) {
      var i :| 0 <= i < |items| && Key(items[i]) == k;
      assert r[i] in r;
    }
  }

  lemma TierItemsInWindow(cs: seq<Candidate>, score: Candidate -> int, w: Windows, planSize: int, it: Item)
    requires var t := PickTiers(cs, score, w, planSize);
             it in t.rush.items || it in t.middle.items || it in t.safe.items
    ensures it.candidate in cs && InWindow(it.candidate, WindowOf(w, it.tier))
  {
    var t := PickTiers(cs, score, w, planSize);
    QuotaSplitsPlan(planSize);
    if it in t.rush.items {
      TierMembers(cs, score, Rush, w.rush, SplitTierQuota(planSize).rush, Slots({}, map[]));
    } else if it in t.middle.items {
      TierMembers(cs, score, Match, w.middle, MatchQuota(t, planSize), t.rush.books);
    } else {
      TierMembers(cs, score, Safe, w.safe, SafeQuota(t, planSize), t.middle.books);
    }
  }

  /**
    The table never exceeds the plan size, never repeats a (university, group), never holds more
    than four groups of one university, and every item is a pool candidate ranked in its tier's window.
   */
  lemma TableRules(cs: seq<Candidate>, score: Candidate -> int, w: Windows, requested: int)
    ensures var items := RecommendItems(cs, score, w, requested);
            && |items| <= EffectivePlanSize(requested)
            && DistinctKeys(items)
            && (forall school :: CountSchool(items, school) <= 4)
            && (forall i :: 0 <= i < |items| ==>
                  && items[i].order == i + 1 && items[i].candidate in cs
                  && InWindow(items[i].candidate, WindowOf(w, items[i].tier)))
  {
    var n := EffectivePlanSize(requested);
    var t := PickTiers(cs, score, w, n);
    TierSizes(cs, score, w, n);
    TierKeys(cs, score, w, n);
    SafeQualityPart(t.safe.items);
    var safe := EnsureSafeQuality(t.safe.items);
    DistinctAppend(t.rush.items, t.middle.items);
    DistinctAppend(t.rush.items + t.middle.items, safe);
    var all := t.rush.items + t.middle.items + safe;
    NumberKeeps(all);
    var items := Number(all);
    forall school ensures CountSchool(items, school) <= 4 {
      CountSchoolIsGroups(items, school);
      SubsetSize(GroupsOf(Keys(all), school), GroupsOf(t.safe.books.seen, school));
    }
    forall i | 0 <= i < |items|
      ensures items[i].candidate in cs && InWindow(items[i].candidate, WindowOf(w, items[i].tier))
    {
      TierItemsInWindow(cs, score, w, n, all[i]);
    }
  }

  ghost predicate DropsNothing(safe: seq<Item>) { forall it :: it in safe ==> !TooFewPlaces(it.candidate) }

  /**
    The finished table has plan size exactly when the picks reach it and none of the picked safe items
    is dropped afterwards: a dropped item is not replaced.
   */
  lemma FullTableIff(cs: seq<Candidate>, score: Candidate -> int, w: Windows, requested: int)
    ensures var n := EffectivePlanSize(requested);
            var t := PickTiers(cs, score, w, n);
            |RecommendItems(cs, score, w, requested)| == n
            <==> |t.rush.items| + |t.middle.items| + |t.safe.items| == n && DropsNothing(t.safe.items)
  {
    var n := EffectivePlanSize(requested);
    TierSizes(cs, score, w, n);
    SafeQualityKeepsAllIff(PickTiers(cs, score, w, n).safe.items);
  }

  /** When the finished table is short, no candidate of the safe window has a place left or a picked safe item was dropped. */
  lemma ShortTableMeansBlockedOrDropped(cs: seq<Candidate>, score: Candidate -> int, w: Windows, requested: int, c: Candidate)
    requires |RecommendItems(cs, score, w, requested)| < EffectivePlanSize(requested) && c in cs && InWindow(c, w.safe)
    ensures var t := PickTiers(cs, score, w, EffectivePlanSize(requested));
            Taken(t.rush.items + t.middle.items + t.safe.items, c) || !DropsNothing(t.safe.items)
  {
    var n := EffectivePlanSize(requested);
    FullTableIff(cs, score, w, requested);
    TierSizes(cs, score, w, n);
    ShortfallMeansTaken(cs, score, w, n, c);
  }

  lemma {:induction false} TakenStays(items: seq<Item>, more: seq<Item>, c: Candidate)
    requires Taken(items, c)
    ensures Taken(items + more, c)
  {
    CountSchoolGrows(items, more, c.university);
    if it :| it in items && SameGroup(it.candidate, c) { assert it in items + more; }
  }

  lemma {:induction false} CountSchoolGrows(items: seq<Item>, more: seq<Item>, school: string)
    ensures CountSchool(items, school) <= CountSchool(items + more, school)
  {
    if more == [] {
      assert items + more == items;
    } else {
      assert (items + more)[..|items + more| - 1] == items + more[..|more| - 1];
      CountSchoolGrows(items, more[..|more| - 1], school);
    }
  }

  /** A candidate that is free at the end lies in windows whose tiers were filled: quota spills forward only. */
  lemma FreeMeansTierFull(cs: seq<Candidate>, score: Candidate -> int, w: Windows, planSize: int, c: Candidate)
    requires planSize > 0 && c in cs
    requires var t := PickTiers(cs, score, w, planSize); !Taken(t.rush.items + t.middle.items + t.safe.items, c)
    ensures var t, q := PickTiers(cs, score, w, planSize), SplitTierQuota(planSize);
            && (InWindow(c, w.rush) ==> |t.rush.items| == q.rush)
            && (InWindow(c, w.middle) ==> |t.rush.items| + |t.middle.items| == q.rush + q.middle)
            && (InWindow(c, w.safe) ==> |t.rush.items| + |t.middle.items| + |t.safe.items| == planSize)
  {
    var t := PickTiers(cs, score, w, planSize);
    TierSizes(cs, score, w, planSize);
    ShortfallMeansTaken(cs, score, w, planSize, c);
    if Taken(t.rush.items, c) { TakenStays(t.rush.items, t.middle.items, c); }
    if Taken(t.rush.items + t.middle.items, c) { TakenStays(t.rush.items + t.middle.items, t.safe.items, c); }
  }

  /** The candidates that can be left free beside a short table from which nothing was dropped. */
  lemma FreeBesideShortTable(cs: seq<Candidate>, score: Candidate -> int, w: Windows, requested: int, c: Candidate)
    requires |RecommendItems(cs, score, w, requested)| < EffectivePlanSize(requested) && c in cs
    requires var t := PickTiers(cs, score, w, EffectivePlanSize(requested));
             DropsNothing(t.safe.items) && !Taken(t.rush.items + t.middle.items + t.safe.items, c)
    ensures var t, q := PickTiers(cs, score, w, EffectivePlanSize(requested)), SplitTierQuota(EffectivePlanSize(requested));
            && !InWindow(c, w.safe)
            && (InWindow(c, w.rush) ==> |t.rush.items| == q.rush)
            && (InWindow(c, w.middle) ==> |t.rush.items| + |t.middle.items| == q.rush + q.middle)
  {
    FreeMeansTierFull(cs, score, w, EffectivePlanSize(requested), c);
    if InWindow(c, w.safe) { ShortTableMeansBlockedOrDropped(cs, score, w, requested, c); }
  }

  // ---- the order of the table ----

  function TierRank(tier: Tier): nat { match tier case Rush => 0 case Match => 1 case Safe => 2 }

  /** The first tier stands first, and inside a tier the better score. */
  ghost predicate InTableOrder(items: seq<Item>) {
    forall i, j :: 0 <= i < j < |items| ==>
      && TierRank(items[i].tier) <= TierRank(items[j].tier)
      && (items[i].tier == items[j].tier ==> items[i].score >= items[j].score)
  }

  /** The table holds the picked item, under its number. */
  ghost predicate Lists(items: seq<Item>, it: Item) {
    it.order == 0 && exists i :: 0 <= i < |items| && items[i] == it.(order := i + 1)
  }

  /** One tier as it is joined: labelled, by falling score, and with its numbers still open. */
  ghost predicate TierLabelled(items: seq<Item>, tier: Tier) {
    Descending(items) && forall i :: 0 <= i < |items| ==> items[i].tier == tier && items[i].order == 0
  }

  lemma TierInOrder(cs: seq<Candidate>, score: Candidate -> int, tier: Tier, w: Window, quota: int, books: Slots)
    ensures TierLabelled(PickTier(cs, score, tier, w, quota, books).items, tier)
  {
    var scored := TierItems(cs, score, tier, w);
    ScoredMembers(Windowed(cs, w), tier, score);
    PickIncreasing(scored, |scored|, books, quota);
    var out := Pick(scored, |scored|, books, quota).out;
    forall i | 0 <= i < |out| ensures scored[out[i]].tier == tier && scored[out[i]].order == 0 {
      assert scored[out[i]] in scored;
    }
  }

  lemma {:induction false} SafeQualityInOrder(items: seq<Item>)
    requires TierLabelled(items, Safe)
    ensures TierLabelled(EnsureSafeQuality(items), Safe)
  {
    if items == [] {
    } else {
      var init, last := items[..|items| - 1], items[|items| - 1];
      SafeQualityInOrder(init);
      SafeQualityMembers(init);
      var kept := EnsureSafeQuality(init);
      forall i | 0 <= i < |kept| ensures kept[i].score >= last.score {
        assert kept[i] in init;
      }
    }
  }

  lemma {:induction false} TiersLabelled(cs: seq<Candidate>, score: Candidate -> int, w: Windows, planSize: int)
    ensures var t := PickTiers(cs, score, w, planSize);
            TierLabelled(t.rush.items, Rush) && TierLabelled(t.middle.items, Match) && TierLabelled(t.safe.items, Safe)
  {
    var t := PickTiers(cs, score, w, planSize);
    QuotaSplitsPlan(planSize);
    assert TierLabelled(t.rush.items, Rush) by {
      TierInOrder(cs, score, Rush, w.rush, SplitTierQuota(planSize).rush, Slots({}, map[]));
    }
    assert TierLabelled(t.middle.items, Match) by {
      TierInOrder(cs, score, Match, w.middle, MatchQuota(t, planSize), t.rush.books);
    }
    assert TierLabelled(t.safe.items, Safe) by {
      TierInOrder(cs, score, Safe, w.safe, SafeQuota(t, planSize), t.middle.books);
    }
  }

  lemma {:induction false} TiersJoined(rush: seq<Item>, middle: seq<Item>, safe: seq<Item>)
    requires TierLabelled(rush, Rush) && TierLabelled(middle, Match) && TierLabelled(safe, Safe)
    ensures InTableOrder(Number(rush + middle + safe))
  {}

  /** The table lists the tiers front to back, each by falling score, and holds all that was picked and not dropped. */
  lemma {:induction false} TableOrder(cs: seq<Candidate>, score: Candidate -> int, w: Windows, requested: int)
    ensures var t, items := PickTiers(cs, score, w, EffectivePlanSize(requested)), RecommendItems(cs, score, w, requested);
            && InTableOrder(items)
            && (forall it: Item :: Lists(items, it) <==>
                  it in t.rush.items || it in t.middle.items || (it in t.safe.items && !TooFewPlaces(it.candidate)))
  {
    var t := PickTiers(cs, score, w, EffectivePlanSize(requested));
    TiersLabelled(cs, score, w, EffectivePlanSize(requested));
    SafeQualityInOrder(t.safe.items);
    SafeQualityMembers(t.safe.items);
    TiersJoined(t.rush.items, t.middle.items, EnsureSafeQuality(t.safe.items));
    TableListsAll(t.rush.items + t.middle.items, EnsureSafeQuality(t.safe.items));
    assert forall it :: it in t.rush.items + t.middle.items <==> it in t.rush.items || it in t.middle.items;
  }

  lemma TableListsAll(a: seq<Item>, b: seq<Item>)
    requires forall it :: it in a || it in b ==> it.order == 0
    ensures forall it: Item :: Lists(Number(a + b), it) <==> it in a || it in b
  {
    var all, items := a + b, Number(a + b);
    forall it: Item | it in a || it in b ensures Lists(items, it) {
      assert it in all;
      var i :| 0 <= i < |all| && all[i] == it;
      assert items[i] == it.(order := i + 1);
    }
    forall it: Item | Lists(items, it) ensures it in a || it in b {
      var i :| 0 <= i < |items| && items[i] == it.(order := i + 1);
      assert all[i] in a || all[i] in b;
      assert all[i] == it;
    }
  }

  /** The pool's candidates of a window with one score, in pool order. */
  function Tied(cs: seq<Candidate>, w: Window, score: Candidate -> int, s: int): seq<Candidate> {
    if cs == [] then []
    else (if InWindow(cs[0], w) && score(cs[0]) == s then [cs[0]] else []) + Tied(cs[1..], w, score, s)
  }

  lemma {:induction false} TiedAppend(cs: seq<Candidate>, c: Candidate, w: Window, score: Candidate -> int, s: int)
    ensures Tied(cs + [c], w, score, s) == Tied(cs, w, score, s) + if InWindow(c, w) && score(c) == s then [c] else []
  {
    if cs == [] {
      assert ([c])[1..] == [];
    } else {
      assert (cs + [c])[1..] == cs[1..] + [c];
      TiedAppend(cs[1..], c, w, score, s);
    }
  }

  lemma MakeItemsAppend(cs: seq<Candidate>, c: Candidate, tier: Tier, score: Candidate -> int)
    ensures MakeItems(cs + [c], tier, score) == MakeItems(cs, tier, score) + [Item(c, tier, score(c), 0)]
  {}

  /** Candidates of equal score are tried in the order of the pool. */
  lemma {:induction false} TiesInPoolOrder(cs: seq<Candidate>, score: Candidate -> int, tier: Tier, w: Window, s: int)
    ensures OfScore(TierItems(cs, score, tier, w), s) == MakeItems(Tied(cs, w, score, s), tier, score)
  {
    StableSortContract(MakeItems(Windowed(cs, w), tier, score), s);
    TiedIsOfScore(cs, score, tier, w, s);
  }

  lemma {:induction false} TiedIsOfScore(cs: seq<Candidate>, score: Candidate -> int, tier: Tier, w: Window, s: int)
    ensures OfScore(MakeItems(Windowed(cs, w), tier, score), s) == MakeItems(Tied(cs, w, score, s), tier, score)
  {
    if cs == [] {
      assert MakeItems([], tier, score) == [];
    } else {
      var init, c := cs[..|cs| - 1], cs[|cs| - 1];
      assert cs == init + [c];
      TiedIsOfScore(init, score, tier, w, s);
      TiedAppend(init, c, w, score, s);
      MakeItemsAppend(Windowed(init, w), c, tier, score);
      OfScoreAppend(MakeItems(Windowed(init, w), tier, score), Item(c, tier, score(c), 0), s);
      MakeItemsAppend(Tied(init, w, score, s), c, tier, score);
      if !InWindow(c, w) {
        assert Windowed(cs, w) == Windowed(init, w);
      }
      if !InWindow(c, w) || score(c) != s {
        assert Tied(cs, w, score, s) == Tied(init, w, score, s);
      }
    }
  }

  // ---- two tables that stay short ----

  const RANGES := Windows(Window(1, 10), Window(10, 20), Window(20, 100))

  function ById(c: Candidate): int { c.id }

  lemma WindowedOne(c: Candidate, w: Window)
    ensures Windowed([c], w) == if InWindow(c, w) then [c] else []
  {
    assert [c][..0] == [];
    assert Windowed([c], w) == [] + if InWindow(c, w) then [c] else [];
  }

  lemma WindowedPair(a: Candidate, b: Candidate, w: Window)
    ensures Windowed([a, b], w) == (if InWindow(a, w) then [a] else []) + (if InWindow(b, w) then [b] else [])
  {
    assert [a, b][..1] == [a];
    WindowedOne(a, w);
  }

  lemma SortedPair(a: Item, b: Item)
    requires a.score >= b.score
    ensures StableSort([a, b]) == [a, b]
  {
    assert [a, b][..1] == [a] && [a][..0] == [];
    assert StableSort([a]) == [a];
  }

  lemma NothingToPick(cs: seq<Candidate>, tier: Tier, w: Window, quota: int, books: Slots)
    requires Windowed(cs, w) == []
    ensures PickTier(cs, ById, tier, w, quota, books) == TierPick([], books)
  {
    assert MakeItems([], tier, ById) == [];
  }

  // One candidate for a plan of one, in the first window: that tier's quota is none, and nothing spills back.

  const EARLY := Candidate(1, "A", "1", "m", "m", Some(5), Some(50), "", "")

  /** The table stays empty beside a free candidate of the first window, and nothing was dropped. */
  lemma NothingSpillsBack()
    ensures var t := PickTiers([EARLY], ById, RANGES, 1);
            && RecommendItems([EARLY], ById, RANGES, 1) == [] && DropsNothing(t.safe.items)
            && InWindow(EARLY, RANGES.rush) && !Taken(t.rush.items + t.middle.items + t.safe.items, EARLY)
  {
    var none := Slots({}, map[]);
    WindowedOne(EARLY, RANGES.middle);
    WindowedOne(EARLY, RANGES.safe);
    var scored := TierItems([EARLY], ById, Rush, RANGES.rush);
    PickStops(scored, 0, |scored|, none, 0);
    assert PickTier([EARLY], ById, Rush, RANGES.rush, 0, none) == TierPick([], none);
    NothingToPick([EARLY], Match, RANGES.middle, 1, none);
    NothingToPick([EARLY], Safe, RANGES.safe, 1, none);
  }

  // Two safe candidates for a plan of one: the better one has two places, the other fifty.

  const SCARCE := Candidate(2, "A", "1", "m", "m", Some(50), Some(2), "", "")
  const PLENTIFUL := Candidate(1, "B", "1", "m", "m", Some(50), Some(50), "", "")

  lemma ScarceIsPicked()
    ensures var scarce := Item(SCARCE, Safe, 2, 0);
            PickTier([SCARCE, PLENTIFUL], ById, Safe, RANGES.safe, 1, Slots({}, map[]))
            == TierPick([scarce], Book(Slots({}, map[]), scarce))
  {
    var cs, scarce, plentiful := [SCARCE, PLENTIFUL], Item(SCARCE, Safe, 2, 0), Item(PLENTIFUL, Safe, 1, 0);
    WindowedPair(SCARCE, PLENTIFUL, RANGES.safe);
    assert Windowed(cs, RANGES.safe) == cs;
    var items := [scarce, plentiful];
    assert MakeItems(cs, Safe, ById)[0] == scarce && MakeItems(cs, Safe, ById)[1] == plentiful;
    assert MakeItems(cs, Safe, ById) == items;
    SortedPair(scarce, plentiful);
    assert Pick(items, 1, Slots({}, map[]), 1) == Picked(Book(Slots({}, map[]), scarce), [0]);
    assert Pick(items, 2, Slots({}, map[]), 1) == Picked(Book(Slots({}, map[]), scarce), [0]);
    assert Chosen(items, [0]) == [scarce];
  }

  lemma ScarceTiers()
    ensures var nothing, scarce := TierPick([], Slots({}, map[])), Item(SCARCE, Safe, 2, 0);
            PickTiers([SCARCE, PLENTIFUL], ById, RANGES, 1)
            == Tiers(nothing, nothing, TierPick([scarce], Book(Slots({}, map[]), scarce)))
  {
    WindowedPair(SCARCE, PLENTIFUL, RANGES.rush);
    WindowedPair(SCARCE, PLENTIFUL, RANGES.middle);
    NothingToPick([SCARCE, PLENTIFUL], Rush, RANGES.rush, 0, Slots({}, map[]));
    NothingToPick([SCARCE, PLENTIFUL], Match, RANGES.middle, 1, Slots({}, map[]));
    ScarceIsPicked();
  }

  lemma {:induction false} OtherSchoolIsFree(it: Item, c: Candidate)
    requires it.candidate.university != c.university
    ensures !Taken([it], c)
  {
    assert [it][..0] == [];
    assert CountSchool([it], c.university) == 0 + 0;
  }

  lemma {:induction false} ScarceIsDropped(scarce: Item)
    requires TooFewPlaces(scarce.candidate)
    ensures Number([] + [] + EnsureSafeQuality([scarce])) == []
  {
    assert [scarce][..0] == [];
    assert EnsureSafeQuality([scarce]) == [];
  }

  /** The table stays empty although a candidate of the safe window is free. */
  lemma {:induction false} DroppedPickLeavesFreeCandidate()
    ensures var t := PickTiers([SCARCE, PLENTIFUL], ById, RANGES, 1);
            && RecommendItems([SCARCE, PLENTIFUL], ById, RANGES, 1) == []
            && InWindow(PLENTIFUL, RANGES.safe) && !Taken(t.rush.items + t.middle.items + t.safe.items, PLENTIFUL)
  {
    ScarceTiers();
    var scarce := Item(SCARCE, Safe, 2, 0);
    ScarceIsDropped(scarce);
    OtherSchoolIsFree(scarce, PLENTIFUL);
    assert [] + [] + [scarce] == [scarce];
  }

  // ---- preview ----

  /** The first window, in tier order, that holds the rank. */
  function TierOf(c: Candidate, w: Windows): Option<Tier> {
    if InWindow(c, w.rush) then Some(Rush)
    else if InWindow(c, w.middle) then Some(Match)
    else if InWindow(c, w.safe) then Some(Safe) else None
  }

  function CountTier(cs: seq<Candidate>, w: Windows, tier: Tier): nat {
    if cs == [] then 0
    else CountTier(cs[..|cs| - 1], w, tier) + if TierOf(cs[|cs| - 1], w) == Some(tier) then 1 else 0
  }

  method PreviewCounts(pool: seq<Candidate>, w: Windows) returns (rush: nat, middle: nat, safe: nat)
    ensures rush == CountTier(pool, w, Rush) && middle == CountTier(pool, w, Match) && safe == CountTier(pool, w, Safe)
  {
    rush, middle, safe := 0, 0, 0;
    for i := 0 to |pool|
      invariant rush == CountTier(pool[..i], w, Rush)
      invariant middle == CountTier(pool[..i], w, Match)
      invariant safe == CountTier(pool[..i], w, Safe)
    {
      assert pool[..i + 1][..i] == pool[..i];
      var c := pool[i];
      if c.minRank.None? {
        continue;
      }
      var r := c.minRank.value;
      if r >= w.rush.min && r <= w.rush.max {
        rush := rush + 1;
      } else if r >= w.middle.min && r <= w.middle.max {
        middle := middle + 1;
      } else if r >= w.safe.min && r <= w.safe.max {
        safe := safe + 1;
      }
    }
    assert pool[..|pool|] == pool;
  }

  lemma {:induction false} CountsSum(pool: seq<Candidate>, w: Windows)
    ensures CountTier(pool, w, Rush) + CountTier(pool, w, Match) + CountTier(pool, w, Safe) <= |pool|
    ensures CountTier(pool, w, Rush) + CountTier(pool, w, Match) + CountTier(pool, w, Safe) == |pool|
            <==> forall c :: c in pool ==> InSomeWindow(c, w)
  {
    if pool == [] {
    } else {
      var init, last := pool[..|pool| - 1], pool[|pool| - 1];
      CountsSum(init, w);
      assert pool == init + [last];
      assert InSomeWindow(last, w) <==> TierOf(last, w).Some?;
      assert (forall c :: c in pool ==> InSomeWindow(c, w))
        <==> (forall c :: c in init ==> InSomeWindow(c, w)) && InSomeWindow(last, w);
    }
  }

  /** How many of the pool have a rank of the range. */
  function CountRanks(pool: seq<Candidate>, low: int, high: int): nat {
    if pool == [] then 0
    else (if InWindow(pool[0], Window(low, high)) then 1 else 0) + CountRanks(pool[1..], low, high)
  }

  lemma {:induction false} CountRanksAppend(pool: seq<Candidate>, c: Candidate, low: int, high: int)
    ensures CountRanks(pool + [c], low, high) == CountRanks(pool, low, high) + if InWindow(c, Window(low, high)) then 1 else 0
  {
    if pool == [] {
      assert [c][1..] == [];
    } else {
      assert (pool + [c])[1..] == pool[1..] + [c];
      CountRanksAppend(pool[1..], c, low, high);
    }
  }

  /** A rank that two windows share is counted for the earlier tier, once. */
  lemma {:induction false} CountsByRank(pool: seq<Candidate>, w: Windows)
    requires WindowsMeet(w)
    ensures CountTier(pool, w, Rush) == CountRanks(pool, w.rush.min, w.rush.max)
    ensures CountTier(pool, w, Match) == CountRanks(pool, w.rush.max + 1, w.middle.max)
    ensures CountTier(pool, w, Safe) == CountRanks(pool, w.middle.max + 1, w.safe.max)
  {
    if pool == [] {
    } else {
      var init, c := pool[..|pool| - 1], pool[|pool| - 1];
      assert pool == init + [c];
      CountsByRank(init, w);
      CountRanksAppend(init, c, w.rush.min, w.rush.max);
      CountRanksAppend(init, c, w.rush.max + 1, w.middle.max);
      CountRanksAppend(init, c, w.middle.max + 1, w.safe.max);
    }
  }

  /** Preview's three counts add up to its pool size, whatever the preferences filter out. */
  lemma PreviewCountsSumToPool(fetch: Fetch, w: Windows, p: Preference)
    requires FetchContract(fetch) && FetchAll(fetch, w).Some?
    ensures var pool := Filtered(p, FetchAll(fetch, w).value);
            CountTier(pool, w, Rush) + CountTier(pool, w, Match) + CountTier(pool, w, Safe) == |pool|
  {
    FetchedCandidates(fetch, w);
    FilteredMembers(p, FetchAll(fetch, w).value);
    CountsSum(Filtered(p, FetchAll(fetch, w).value), w);
  }

  /** No rank of the combined interval falls between the tiers, so nothing in range is lost by the windows. */
  lemma EveryRankHasATier(rank: int, scale: (int, Ratio) -> int, c: Candidate)
    requires MonotoneScale(scale, rank)
    ensures var w := ComputeBucketWindows(rank, scale);
            TierOf(c, w).Some? <==> c.minRank.Some? && w.rush.min <= c.minRank.value <= w.safe.max
  {}
}
