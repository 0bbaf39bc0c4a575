/**
  Tier picking: one slot per (university, group), a cap of groups per university, a quota
  per tier, and the two shared books the tiers write one after another.
 */
module Selection {
  import opened Options

  const MAX_GROUPS_PER_SCHOOL := 4

  datatype Candidate = Candidate(
    id: int, university: string, groupCode: string, majorCode: string, majorName: string,
    minRank: Option<int>, admittedCount: Option<int>, category: string, searchText: string)

  datatype Tier = Rush | Match | Safe

  /** A scored candidate; the composite score is rounded to four digits, so it is an integer here. */
  datatype Item = Item(candidate: Candidate, tier: Tier, score: int, order: nat)

  datatype Window = Window(min: int, max: int)

  type GroupKey = (string, string)

  function Key(it: Item): GroupKey { (it.candidate.university, it.candidate.groupCode) }

  function School(it: Item): string { it.candidate.university }

  predicate InWindow(c: Candidate, w: Window) { c.minRank.Some? && w.min <= c.minRank.value <= w.max }

  // ---- the shared books ----

  datatype Slots = Slots(seen: set<GroupKey>, used: map<string, nat>)

  function Used(s: Slots, school: string): nat { if school in s.used then s.used[school] else 0 }

  predicate Blocked(s: Slots, it: Item) {
    Key(it) in s.seen || Used(s, School(it)) >= MAX_GROUPS_PER_SCHOOL
  }

  function Book(s: Slots, it: Item): Slots {
    Slots(s.seen + {Key(it)}, s.used[School(it) := Used(s, School(it)) + 1])
  }

  // ---- the greedy pass ----

  datatype Picked = Picked(slots: Slots, out: seq<nat>)

  /** The books and the picked indices after the first n scored items. */
  function Pick(scored: seq<Item>, n: nat, start: Slots, quota: int): Picked
    requires n <= |scored|
  {
    if n == 0 then Picked(start, [])
    else
      var p := Pick(scored, n - 1, start, quota);
      if |p.out| >= quota || Blocked(p.slots, scored[n - 1]) then p
      else Picked(Book(p.slots, scored[n - 1]), p.out + [n - 1])
  }

  ghost predicate Increasing(sel: seq<nat>, bound: nat) {
    && (forall j :: 0 <= j < |sel| ==> sel[j] < bound)
    && (forall i, j :: 0 <= i < j < |sel| ==> sel[i] < sel[j])
  }

  ghost function AtSchool(scored: seq<Item>, chosen: set<nat>, school: string): set<nat>
    requires forall i :: i in chosen ==> i < |scored|
  {
    set i | i in chosen && School(scored[i]) == school
  }

  /** Chosen indices use unseen, pairwise different groups and respect the school cap. */
  ghost predicate Admissible(scored: seq<Item>, start: Slots, chosen: set<nat>) {
    && (forall i :: i in chosen ==> i < |scored| && Key(scored[i]) !in start.seen)
    && (forall i, j :: i in chosen && j in chosen && Key(scored[i]) == Key(scored[j]) ==> i == j)
    && (forall school :: AtSchool(scored, chosen, school) != {} ==>
          Used(start, school) + |AtSchool(scored, chosen, school)| <= MAX_GROUPS_PER_SCHOOL)
  }

  ghost function Indices(sel: seq<nat>): set<nat> { set i | i in sel }

  /** A selection in list order that obeys every rule pickBucket enforces. */
  ghost predicate Feasible(scored: seq<Item>, start: Slots, quota: int, sel: seq<nat>) {
    && Increasing(sel, |scored|)
    && |sel| <= (if quota > 0 then quota else 0)
    && Admissible(scored, start, Indices(sel))
  }

  lemma {:induction false} IncreasingSize(sel: seq<nat>, bound: nat)
    requires Increasing(sel, bound)
    ensures |Indices(sel)| == |sel|
  {
    if sel == [] {
      assert Indices(sel) == {};
    } else {
      var init, last := sel[..|sel| - 1], sel[|sel| - 1];
      IncreasingSize(init, bound);
      assert sel == init + [last];
      assert last !in init;
      assert Indices(sel) == Indices(init) + {last};
    }
  }

  /** The books hold exactly what was there at the start plus the chosen indices. */
  ghost predicate Account(scored: seq<Item>, start: Slots, chosen: set<nat>, books: Slots) {
    && Admissible(scored, start, chosen)
    && books.seen == start.seen + (set i | i in chosen :: Key(scored[i]))
    && (forall school :: Used(books, school) == Used(start, school) + |AtSchool(scored, chosen, school)|)
  }

  lemma AtSchoolAdds(scored: seq<Item>, chosen: set<nat>, k: nat, school: string)
    requires k < |scored| && k !in chosen && forall i :: i in chosen ==> i < |scored|
    ensures |AtSchool(scored, chosen + {k}, school)|
         == |AtSchool(scored, chosen, school)| + if School(scored[k]) == school then 1 else 0
  {
    if School(scored[k]) == school {
      assert AtSchool(scored, chosen + {k}, school) == AtSchool(scored, chosen, school) + {k};
    } else {
      assert AtSchool(scored, chosen + {k}, school) == AtSchool(scored, chosen, school);
    }
  }

  /** Booking one unblocked item keeps the account. */
  lemma BookKeepsAccount(scored: seq<Item>, start: Slots, chosen: set<nat>, books: Slots, k: nat)
    requires k < |scored| && k !in chosen
    requires Account(scored, start, chosen, books) && !Blocked(books, scored[k])
    ensures Account(scored, start, chosen + {k}, Book(books, scored[k]))
  {
    var more, after := chosen + {k}, Book(books, scored[k]);
    forall school
      ensures Used(after, school) == Used(start, school) + |AtSchool(scored, more, school)|
      ensures AtSchool(scored, more, school) != {} ==> Used(after, school) <= MAX_GROUPS_PER_SCHOOL
    {
      SchoolKeepsAccount(scored, start, chosen, books, k, school);
    }
    assert forall i :: i in chosen ==> Key(scored[i]) in books.seen;
  }

  lemma SchoolKeepsAccount(scored: seq<Item>, start: Slots, chosen: set<nat>, books: Slots, k: nat, school: string)
    requires k < |scored| && k !in chosen && (forall i :: i in chosen ==> i < |scored|) && !Blocked(books, scored[k])
    requires Used(books, school) == Used(start, school) + |AtSchool(scored, chosen, school)|
    requires AtSchool(scored, chosen, school) != {} ==> Used(books, school) <= MAX_GROUPS_PER_SCHOOL
    ensures var more, after := chosen + {k}, Book(books, scored[k]);
            && Used(after, school) == Used(start, school) + |AtSchool(scored, more, school)|
            && (AtSchool(scored, more, school) != {} ==> Used(after, school) <= MAX_GROUPS_PER_SCHOOL)
  {
    AtSchoolAdds(scored, chosen, k, school);
    if School(scored[k]) != school {
      assert AtSchool(scored, chosen + {k}, school) == AtSchool(scored, chosen, school);
    }
  }

  lemma EmptyAccount(scored: seq<Item>, start: Slots)
    ensures Account(scored, start, {}, start)
  {
    forall school ensures AtSchool(scored, {}, school) == {} {}
  }

  lemma IndicesAppend(sel: seq<nat>, k: nat)
    ensures Indices(sel + [k]) == Indices(sel) + {k}
  {}

  lemma {:induction false} PickIncreasing(scored: seq<Item>, n: nat, start: Slots, quota: int)
    requires n <= |scored|
    ensures var p := Pick(scored, n, start, quota);
            Increasing(p.out, n) && |p.out| <= (if quota > 0 then quota else 0)
  {
    if n == 0 {
    } else {
      PickIncreasing(scored, n - 1, start, quota);
    }
  }

  lemma {:induction false} PickAccount(scored: seq<Item>, n: nat, start: Slots, quota: int)
    requires n <= |scored|
    ensures var p := Pick(scored, n, start, quota); Account(scored, start, Indices(p.out), p.slots)
  {
    if n == 0 {
      EmptyAccount(scored, start);
      assert Indices([]) == {};
    } else {
      PickAccount(scored, n - 1, start, quota);
      var q := Pick(scored, n - 1, start, quota);
      if |q.out| < quota && !Blocked(q.slots, scored[n - 1]) {
        PickIncreasing(scored, n - 1, start, quota);
        IndicesAppend(q.out, n - 1);
        assert n - 1 !in Indices(q.out);
        BookKeepsAccount(scored, start, Indices(q.out), q.slots, n - 1);
      }
    }
  }

  /** What the books say after n items, in terms of what was picked. */
  lemma PickBooks(scored: seq<Item>, n: nat, start: Slots, quota: int)
    requires n <= |scored|
    ensures var p := Pick(scored, n, start, quota);
            && Increasing(p.out, n)
            && |p.out| <= (if quota > 0 then quota else 0)
            && Account(scored, start, Indices(p.out), p.slots)
  {
    PickIncreasing(scored, n, start, quota);
    PickAccount(scored, n, start, quota);
  }

  /** Books only fill up, so an item blocked once stays blocked, and the picks only grow. */
  lemma {:induction false} PickGrows(scored: seq<Item>, m: nat, n: nat, start: Slots, quota: int)
    requires m <= n <= |scored|
    ensures var p, q := Pick(scored, m, start, quota), Pick(scored, n, start, quota);
            && p.out <= q.out
            && p.slots.seen <= q.slots.seen
            && (forall school :: Used(p.slots, school) <= Used(q.slots, school))
  {
    if m < n {
      PickGrows(scored, m, n - 1, start, quota);
    }
  }

  /** While the quota is not reached, a scanned item is picked or blocked. */
  lemma PickedOrBlocked(scored: seq<Item>, n: nat, start: Slots, quota: int, i: nat)
    requires i < n <= |scored|
    requires |Pick(scored, n, start, quota).out| < quota
    ensures i in Pick(scored, n, start, quota).out || Blocked(Pick(scored, n, start, quota).slots, scored[i])
  {
    PickGrows(scored, i, n, start, quota);
    PickGrows(scored, i + 1, n, start, quota);
    var before, after := Pick(scored, i, start, quota), Pick(scored, i + 1, start, quota);
    if !Blocked(before.slots, scored[i]) {
      assert after.out[|after.out| - 1] == i;
    }
  }

  // ---- optimality of the greedy pass ----

  /** Counting by school decides: school-wise at most means at most. */
  lemma {:induction false} CountBySchool(scored: seq<Item>, a: set<nat>, g: set<nat>)
    requires forall i :: i in a || i in g ==> i < |scored|
    requires forall school :: |AtSchool(scored, a, school)| <= |AtSchool(scored, g, school)|
    ensures |a| <= |g|
    decreases a
  {
    if a == {} {
    } else {
      var i :| i in a;
      var x := School(scored[i]);
      var ax, gx := AtSchool(scored, a, x), AtSchool(scored, g, x);
      forall school
        ensures |AtSchool(scored, a - ax, school)| <= |AtSchool(scored, g - gx, school)|
      {
        if school == x {
          assert AtSchool(scored, a - ax, school) == {};
        } else {
          assert AtSchool(scored, a - ax, school) == AtSchool(scored, a, school);
          assert AtSchool(scored, g - gx, school) == AtSchool(scored, g, school);
        }
      }
      assert i in ax;
      CountBySchool(scored, a - ax, g - gx);
      assert |a - ax| == |a| - |ax| && |g - gx| == |g| - |gx|;
    }
  }

  /** An injective choice of keys inside the keys of g is no larger than g. */
  lemma {:induction false} KeysBound(scored: seq<Item>, a: set<nat>, g: set<nat>)
    requires forall i :: i in a || i in g ==> i < |scored|
    requires forall i, j :: i in a && j in a && Key(scored[i]) == Key(scored[j]) ==> i == j
    requires forall i :: i in a ==> exists j :: j in g && Key(scored[j]) == Key(scored[i])
    ensures |a| <= |g|
    decreases a
  {
    if a == {} {
    } else {
      var i :| i in a;
      var j :| j in g && Key(scored[j]) == Key(scored[i]);
      forall i' | i' in a - {i} ensures exists j' :: j' in g - {j} && Key(scored[j']) == Key(scored[i']) {
        var j' :| j' in g && Key(scored[j']) == Key(scored[i']);
        assert j' != j;
        assert j' in g - {j};
      }
      KeysBound(scored, a - {i}, g - {j});
    }
  }

  lemma SchoolBound(scored: seq<Item>, n: nat, start: Slots, quota: int, a: set<nat>, school: string)
    requires n <= |scored| && Admissible(scored, start, a)
    requires forall i :: i in a ==> i < n
    requires |Pick(scored, n, start, quota).out| < quota
    ensures var g := Indices(Pick(scored, n, start, quota).out);
            && (forall i :: i in g ==> i < n)
            && |AtSchool(scored, a, school)| <= |AtSchool(scored, g, school)|
  {
    PickBooks(scored, n, start, quota);
    var p := Pick(scored, n, start, quota);
    var g := Indices(p.out);
    var ax, gx := AtSchool(scored, a, school), AtSchool(scored, g, school);
    if Used(p.slots, school) < MAX_GROUPS_PER_SCHOOL {
      forall i | i in ax ensures exists j :: j in gx && Key(scored[j]) == Key(scored[i]) {
        PickedOrBlocked(scored, n, start, quota, i);
        assert Key(scored[i]) in p.slots.seen by {
          if i in p.out { assert i in g; }
        }
        var j :| j in g && Key(scored[j]) == Key(scored[i]);
        assert j in gx;
      }
      KeysBound(scored, ax, gx);
    }
  }

  /** In every prefix of the list the greedy pass has at least as many picks as any admissible choice. */
  lemma GreedyPrefixMaximal(scored: seq<Item>, n: nat, start: Slots, quota: int, a: set<nat>)
    requires n <= |scored| && Admissible(scored, start, a) && |a| <= quota
    requires forall i :: i in a ==> i < n
    ensures |a| <= |Pick(scored, n, start, quota).out|
  {
    PickBooks(scored, n, start, quota);
    var p := Pick(scored, n, start, quota);
    if |p.out| < quota {
      forall school
        ensures |AtSchool(scored, a, school)| <= |AtSchool(scored, Indices(p.out), school)|
      {
        SchoolBound(scored, n, start, quota, a, school);
      }
      CountBySchool(scored, a, Indices(p.out));
      IncreasingSize(p.out, n);
    }
  }

  /** The admissible choices are closed under taking a part. */
  lemma AdmissiblePart(scored: seq<Item>, start: Slots, a: set<nat>, part: set<nat>)
    requires Admissible(scored, start, a) && part <= a
    ensures Admissible(scored, start, part)
  {
    forall school | AtSchool(scored, part, school) != {}
      ensures Used(start, school) + |AtSchool(scored, part, school)| <= MAX_GROUPS_PER_SCHOOL
    {
      assert AtSchool(scored, part, school) <= AtSchool(scored, a, school);
      SubsetSize(AtSchool(scored, part, school), AtSchool(scored, a, school));
    }
  }

  lemma {:induction false} SubsetSize<T>(a: set<T>, b: set<T>)
    requires a <= b
    ensures |a| <= |b|
    decreases a
  {
    if a == {} {
    } else {
      var x :| x in a;
      SubsetSize(a - {x}, b - {x});
    }
  }

  lemma IthPickDominates(scored: seq<Item>, start: Slots, quota: int, sel: seq<nat>, i: nat)
    requires Feasible(scored, start, quota, sel) && i < |sel|
    ensures var out := Pick(scored, |scored|, start, quota).out;
            i < |out| && out[i] <= sel[i]
  {
    var part := sel[..i + 1];
    var n := sel[i] + 1;
    AdmissiblePart(scored, start, Indices(sel), Indices(part));
    assert Increasing(part, n);
    IncreasingSize(part, n);
    GreedyPrefixMaximal(scored, n, start, quota, Indices(part));
    PickBooks(scored, n, start, quota);
    PickGrows(scored, n, |scored|, start, quota);
    assert Pick(scored, n, start, quota).out[i] < n;
  }

  /** Greedy is feasible, and its i-th pick comes no later than the i-th pick of any feasible selection. */
  lemma GreedyOptimal(scored: seq<Item>, start: Slots, quota: int, sel: seq<nat>)
    requires Feasible(scored, start, quota, sel)
    ensures var out := Pick(scored, |scored|, start, quota).out;
            && Feasible(scored, start, quota, out)
            && |sel| <= |out|
            && (forall i :: 0 <= i < |sel| ==> out[i] <= sel[i])
  {
    PickBooks(scored, |scored|, start, quota);
    var out := Pick(scored, |scored|, start, quota).out;
    forall i | 0 <= i < |sel| ensures i < |out| && out[i] <= sel[i] {
      IthPickDominates(scored, start, quota, sel, i);
    }
    if |sel| > 0 { IthPickDominates(scored, start, quota, sel, |sel| - 1); }
  }

  ghost predicate Descending(scored: seq<Item>) {
    forall i, j :: 0 <= i < j < |scored| ==> scored[i].score >= scored[j].score
  }

  function Total(scored: seq<Item>, sel: seq<nat>): int
    requires forall j :: 0 <= j < |sel| ==> sel[j] < |scored|
  {
    if sel == [] then 0 else scored[sel[0]].score + Total(scored, sel[1..])
  }

  lemma {:induction false} TotalDominates(scored: seq<Item>, out: seq<nat>, sel: seq<nat>)
    requires Descending(scored)
    requires forall i :: 0 <= i < |scored| ==> scored[i].score >= 0
    requires forall j :: 0 <= j < |out| ==> out[j] < |scored|
    requires |sel| <= |out|
    requires forall j :: 0 <= j < |sel| ==> out[j] <= sel[j] < |scored|
    ensures Total(scored, sel) <= Total(scored, out)
    decreases |out|
  {
    if sel != [] {
      TotalDominates(scored, out[1..], sel[1..]);
      assert out[0] == sel[0] || scored[out[0]].score >= scored[sel[0]].score;
    } else if out != [] {
      TotalDominates(scored, out[1..], []);
    }
  }

  /**
    On a list sorted by descending score, the i-th best greedy score is at least the i-th best
    score of any feasible selection, and with non-negative scores its total is maximal.
   */
  lemma GreedyBestScores(scored: seq<Item>, start: Slots, quota: int, sel: seq<nat>)
    requires Descending(scored) && Feasible(scored, start, quota, sel)
    ensures var out := Pick(scored, |scored|, start, quota).out;
            && |sel| <= |out| && Increasing(out, |scored|)
            && (forall i :: 0 <= i < |sel| ==> scored[out[i]].score >= scored[sel[i]].score)
            && ((forall i :: 0 <= i < |scored| ==> scored[i].score >= 0) ==>
                  Total(scored, sel) <= Total(scored, out))
  {
    GreedyOptimal(scored, start, quota, sel);
    var out := Pick(scored, |scored|, start, quota).out;
    forall i | 0 <= i < |sel| ensures scored[out[i]].score >= scored[sel[i]].score {
      assert out[i] == sel[i] || out[i] < sel[i];
    }
    if forall i :: 0 <= i < |scored| ==> scored[i].score >= 0 {
      TotalDominates(scored, out, sel);
    }
  }
}
