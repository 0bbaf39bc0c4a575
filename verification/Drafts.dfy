/**
  The draft tool of one user's conversation: its gates, the check of the newest draft, and the
  status transitions of the draft table. Drafts are listed oldest first; the last one is the newest.
 */
module Drafts {
  import opened Options

  const REGION := "230000"

  datatype Status = Generating | Ready | Failed | Superseded | Adopted

  /** The request after decoding; rest stands for its remaining fields. */
  datatype Input = Input(region: string, subject: string, score: int, rank: int, rest: string)

  datatype Draft = Draft(id: nat, status: Status, input: Input)

  /** A tool call; input is None when the arguments do not decode. */
  datatype Call = Call(user: int, conversation: int, dryRun: bool, input: Option<Input>)

  datatype Conversation = NoService | Active | Archived | Missing | LoadFailed

  datatype Recommendation = Plan | NoPlan | RecommendError

  /** How the calls that this tool call makes come out, and the id the table hands out. */
  datatype World = World(conversation: Conversation, previewOk: bool, listOk: bool, supersedeOk: bool, createOk: bool,
                         recommendation: Recommendation, readyOk: bool, failOk: bool, newId: nat)

  datatype Refusal = NoContext | BadArguments | MissingFields | OtherRegion | NotFound | NotLoaded | IsArchived

  datatype Reply =
    | Refused(reason: Refusal)
    | Previewed | PreviewFailed
    | StillGenerating
    | Reused(id: nat)
    | CreateFailed
    | RecommendFailed(id: nat)
    | PersistFailed(id: nat)
    | Created(id: nat)

  predicate Live(s: Status) { s == Generating || s == Ready }

  // ---- the table ----

  /** A guarded update: only a row with this id whose status is among from. */
  function Mark(drafts: seq<Draft>, id: nat, from: set<Status>, to: Status): seq<Draft> {
    seq(|drafts|, i requires 0 <= i < |drafts| =>
      if drafts[i].id == id && drafts[i].status in from then drafts[i].(status := to) else drafts[i])
  }

  predicate Marks(drafts: seq<Draft>, id: nat, from: set<Status>) {
    exists i :: 0 <= i < |drafts| && drafts[i].id == id && drafts[i].status in from
  }

  ghost predicate DistinctIds(drafts: seq<Draft>) {
    forall i, j :: 0 <= i < j < |drafts| ==> drafts[i].id != drafts[j].id
  }

  predicate IsFresh(drafts: seq<Draft>, id: nat) { forall d :: d in drafts ==> d.id != id }

  // ---- one tool call, as a function ----

  /** The gates before anything is read or written; a dry run stops after its preview. */
  function Gate(c: Call, w: World): Option<Reply> {
    if c.user <= 0 || c.conversation <= 0 then Some(Refused(NoContext))
    else if c.input.None? then Some(Refused(BadArguments))
    else if c.input.value.region == "" || c.input.value.subject == "" || c.input.value.score == 0 || c.input.value.rank == 0 then
      Some(Refused(MissingFields))
    else if c.input.value.region != REGION then Some(Refused(OtherRegion))
    else if c.dryRun then Some(if w.previewOk then Previewed else PreviewFailed)
    else
      match w.conversation
      case Missing => Some(Refused(NotFound))
      case LoadFailed => Some(Refused(NotLoaded))
      case Archived => Some(Refused(IsArchived))
      case _ => None
  }

  function Newest(drafts: seq<Draft>): Draft
    requires drafts != []
  {
    drafts[|drafts| - 1]
  }

  /** Only the newest draft is looked at, and only when the list could be read. */
  predicate Waits(drafts: seq<Draft>, w: World) {
    w.listOk && drafts != [] && Newest(drafts).status == Generating
  }

  predicate Reuses(drafts: seq<Draft>, input: Input, w: World) {
    w.listOk && drafts != [] && Newest(drafts).status == Ready && Newest(drafts).input == input
  }

  predicate Drifts(drafts: seq<Draft>, input: Input, w: World) {
    w.listOk && drafts != [] && Newest(drafts).status == Ready && Newest(drafts).input != input
  }

  function AfterSupersede(drafts: seq<Draft>, input: Input, w: World): seq<Draft> {
    if Drifts(drafts, input, w) && w.supersedeOk then drafts[|drafts| - 1 := Newest(drafts).(status := Superseded)] else drafts
  }

  /** Status in which a created draft is left. */
  function Left(w: World): Status {
    if w.recommendation == Plan && w.readyOk then Ready else if w.failOk then Failed else Generating
  }

  function AfterCall(drafts: seq<Draft>, c: Call, w: World): seq<Draft> {
    if Gate(c, w).Some? || Waits(drafts, w) || Reuses(drafts, c.input.value, w) then drafts
    else
      var base := AfterSupersede(drafts, c.input.value, w);
      if w.createOk then base + [Draft(w.newId, Left(w), c.input.value)] else base
  }

  function ReplyTo(drafts: seq<Draft>, c: Call, w: World): Reply {
    if Gate(c, w).Some? then Gate(c, w).value
    else if Waits(drafts, w) then StillGenerating
    else if Reuses(drafts, c.input.value, w) then Reused(Newest(drafts).id)
    else if !w.createOk then CreateFailed
    else if w.recommendation != Plan then RecommendFailed(w.newId)
    else if !w.readyOk then PersistFailed(w.newId)
    else Created(w.newId)
  }

  /** Whether the recommendation algorithm runs. */
  predicate Recommends(drafts: seq<Draft>, c: Call, w: World) {
    Gate(c, w).None? && !Waits(drafts, w) && !Reuses(drafts, c.input.value, w) && w.createOk
  }

  class DraftTool {
    var drafts: seq<Draft>
    var recommendations: nat

    constructor ()
      ensures drafts == [] && recommendations == 0
    {
      drafts, recommendations := [], 0;
    }

    method MarkStatus(id: nat, from: set<Status>, to: Status, storeOk: bool) returns (ok: bool)
      modifies this`drafts
      ensures drafts == if storeOk then Mark(old(drafts), id, from, to) else old(drafts)
      ensures ok <==> storeOk && Marks(old(drafts), id, from)
    {
      if !storeOk {
        return false;
      }
      ok := Marks(drafts, id, from);
      drafts := Mark(drafts, id, from, to);
    }

    method Create(input: Input, w: World) returns (id: Option<nat>)
      modifies this`drafts
      ensures id == if w.createOk then Some(w.newId) else None
      ensures drafts == if w.createOk then old(drafts) + [Draft(w.newId, Generating, input)] else old(drafts)
    {
      if !w.createOk {
        return None;
      }
      drafts := drafts + [Draft(w.newId, Generating, input)];
      id := Some(w.newId);
    }

    /** Looks at the newest draft; a reply ends the call, and a drifted ready draft is superseded. */
    method InspectNewest(input: Input, w: World) returns (reply: Option<Reply>)
      requires DistinctIds(drafts)
      modifies this`drafts
      ensures drafts == AfterSupersede(old(drafts), input, w)
      ensures reply == (if Waits(old(drafts), w) then Some(StillGenerating)
                        else if Reuses(old(drafts), input, w) then Some(Reused(Newest(old(drafts)).id)) else None)
    {
      if !w.listOk || drafts == [] {
        return None;
      }
      var d := drafts[|drafts| - 1];
      match d.status {
        case Generating => return Some(StillGenerating);
        case Ready =>
          if d.input == input {
            return Some(Reused(d.id));
          }
          MarkNewest(drafts, {Ready}, Superseded);
          var marked := MarkStatus(d.id, {Ready}, Superseded, w.supersedeOk);
        case _ =>
      }
      reply := None;
    }

    method ExecuteGenerateVolunteerPlanDraft(c: Call, w: World) returns (reply: Reply)
      requires DistinctIds(drafts) && IsFresh(drafts, w.newId)
      modifies this
      ensures drafts == AfterCall(old(drafts), c, w) && reply == ReplyTo(old(drafts), c, w)
      ensures recommendations == old(recommendations) + if Recommends(old(drafts), c, w) then 1 else 0
      ensures DistinctIds(drafts)
    {
      var gate := CheckGates(c, w);
      if gate.Some? {
        return gate.value;
      }
      var input := c.input.value;
      ghost var base := AfterSupersede(drafts, input, w);
      SupersedeKeeps(drafts, input, w);
      var inspected := InspectNewest(input, w);
      if inspected.Some? {
        return inspected.value;
      }
      var created := Create(input, w);
      if created.None? {
        return CreateFailed;
      }
      var id := created.value;
      recommendations := recommendations + 1;
      FreshMark(base, Draft(id, Generating, input), {Generating}, Ready);
      FreshMark(base, Draft(id, Generating, input), {Generating, Ready}, Failed);
      if w.recommendation != Plan {
        var failed := MarkStatus(id, {Generating, Ready}, Failed, w.failOk);
        return RecommendFailed(id);
      }
      var ready := MarkStatus(id, {Generating}, Ready, w.readyOk);
      if !ready {
        var failed := MarkStatus(id, {Generating, Ready}, Failed, w.failOk);
        return PersistFailed(id);
      }
      reply := Created(id);
    }

    method CheckGates(c: Call, w: World) returns (reply: Option<Reply>)
      ensures reply == Gate(c, w)
    {
      if c.user <= 0 || c.conversation <= 0 {
        return Some(Refused(NoContext));
      }
      if c.input.None? {
        return Some(Refused(BadArguments));
      }
      var input := c.input.value;
      if input.region == "" || input.subject == "" || input.score == 0 || input.rank == 0 {
        return Some(Refused(MissingFields));
      }
      if input.region != REGION {
        return Some(Refused(OtherRegion));
      }
      if c.dryRun {
        return Some(if w.previewOk then Previewed else PreviewFailed);
      }
      reply := match w.conversation
        case Missing => Some(Refused(NotFound))
        case LoadFailed => Some(Refused(NotLoaded))
        case Archived => Some(Refused(IsArchived))
        case _ => None;
    }

    /** The user adopts a ready draft. */
    method Adopt(id: nat, storeOk: bool) returns (ok: bool)
      modifies this`drafts
      ensures drafts == if storeOk then Mark(old(drafts), id, {Ready}, Adopted) else old(drafts)
      ensures ok <==> storeOk && Marks(old(drafts), id, {Ready})
    {
      ok := MarkStatus(id, {Ready}, Adopted, storeOk);
    }
  }

  lemma MarkNewest(drafts: seq<Draft>, from: set<Status>, to: Status)
    requires DistinctIds(drafts) && drafts != [] && Newest(drafts).status in from
    ensures Mark(drafts, Newest(drafts).id, from, to) == drafts[|drafts| - 1 := Newest(drafts).(status := to)]
  {}

  lemma FreshMark(base: seq<Draft>, d: Draft, from: set<Status>, to: Status)
    requires IsFresh(base, d.id) && d.status in from
    ensures Mark(base + [d], d.id, from, to) == base + [d.(status := to)] && Marks(base + [d], d.id, from)
  {
    assert (base + [d])[|base|] == d;
  }

  lemma SupersedeKeeps(drafts: seq<Draft>, input: Input, w: World)
    requires DistinctIds(drafts) && IsFresh(drafts, w.newId)
    ensures DistinctIds(AfterSupersede(drafts, input, w)) && IsFresh(AfterSupersede(drafts, input, w), w.newId)
  {
    var base := AfterSupersede(drafts, input, w);
    forall d | d in base ensures d.id != w.newId {
      var i :| 0 <= i < |base| && base[i] == d;
      assert drafts[i] in drafts;
    }
  }

  // ---- runs ----

  datatype Event = ToolEvent(c: Call, w: World) | AdoptEvent(id: nat, storeOk: bool)

  function Step(drafts: seq<Draft>, e: Event): seq<Draft> {
    match e
    case ToolEvent(c, w) => AfterCall(drafts, c, w)
    case AdoptEvent(id, storeOk) => if storeOk then Mark(drafts, id, {Ready}, Adopted) else drafts
  }

  function Run(drafts: seq<Draft>, events: seq<Event>): seq<Draft> {
    if events == [] then drafts else Step(Run(drafts, events[..|events| - 1]), events[|events| - 1])
  }

  /** Only the newest draft is generating or ready. */
  ghost predicate OnlyNewestLive(drafts: seq<Draft>) {
    forall i :: 0 <= i < |drafts| - 1 ==> !Live(drafts[i].status)
  }

  /**
    A call that passes the gates creates its draft while the list could not be read and the newest
    draft is live, or while the supersede of a drifted ready draft fails.
   */
  predicate StoreFails(drafts: seq<Draft>, c: Call, w: World) {
    && Gate(c, w).None? && w.createOk && drafts != []
    && (if w.listOk then Newest(drafts).status == Ready && Newest(drafts).input != c.input.value && !w.supersedeOk
        else Live(Newest(drafts).status))
  }

  /** One step keeps only the newest draft live exactly when no such store failure meets it. */
  lemma StepKeepsNewestIff(drafts: seq<Draft>, c: Call, w: World)
    requires OnlyNewestLive(drafts)
    ensures OnlyNewestLive(AfterCall(drafts, c, w)) <==> !StoreFails(drafts, c, w)
    ensures StoreFails(drafts, c, w) ==> !w.listOk || !w.supersedeOk
  {
    var after := AfterCall(drafts, c, w);
    assert forall i :: 0 <= i < |drafts| - 1 ==> after[i] == drafts[i];
    if |after| > |drafts| && drafts != [] { assert !Live(after[|drafts| - 1].status) <==> !StoreFails(drafts, c, w); }
  }

  lemma AdoptKeepsNewest(drafts: seq<Draft>, id: nat)
    requires OnlyNewestLive(drafts)
    ensures OnlyNewestLive(Mark(drafts, id, {Ready}, Adopted))
  {
    var after := Mark(drafts, id, {Ready}, Adopted);
    forall i | 0 <= i < |after| - 1 ensures !Live(after[i].status) { assert !Live(drafts[i].status); }
  }

  predicate StoreWorks(e: Event) { e.ToolEvent? ==> e.w.listOk && e.w.supersedeOk }

  /** In every run whose reads and supersedes succeed, only the newest draft can be generating or ready. */
  lemma {:induction false} OnlyNewestIsLive(events: seq<Event>)
    requires forall e :: e in events ==> StoreWorks(e)
    ensures OnlyNewestLive(Run([], events))
  {
    if events == [] {
    } else {
      var init, e := events[..|events| - 1], events[|events| - 1];
      assert forall x :: x in init ==> x in events;
      OnlyNewestIsLive(init);
      assert StoreWorks(e);
      if e.ToolEvent? {
        StepKeepsNewestIff(Run([], init), e.c, e.w);
      } else {
        AdoptKeepsNewest(Run([], init), e.id);
      }
    }
  }

  /** A list that cannot be read lets a second ready draft appear. */
  lemma FailedReadOverlaps()
    ensures var input := Input(REGION, "physics", 600, 5000, "");
            var c := Call(1, 1, false, Some(input));
            var w := World(Active, true, true, true, true, Plan, true, true, 1);
            var drafts := Run([], [ToolEvent(c, w), ToolEvent(c, w.(listOk := false, newId := 2))]);
            drafts == [Draft(1, Ready, input), Draft(2, Ready, input)] && !OnlyNewestLive(drafts)
  {
    var c := Call(1, 1, false, Some(Input(REGION, "physics", 600, 5000, "")));
    var w := World(Active, true, true, true, true, Plan, true, true, 1);
    var first, second := ToolEvent(c, w), ToolEvent(c, w.(listOk := false, newId := 2));
    assert [first, second][..1] == [first] && [first][..0] == [];
    assert Run([], [first]) == [Draft(1, Ready, c.input.value)];
    assert Run([], [first, second])[0].status == Ready;
  }

  /** So does a supersede that fails. */
  lemma FailedSupersedeOverlaps()
    ensures var input := Input(REGION, "physics", 600, 5000, "");
            var c := Call(1, 1, false, Some(input));
            var c' := c.(input := Some(input.(rest := "medicine")));
            var w := World(Active, true, true, true, true, Plan, true, true, 1);
            var drafts := Run([], [ToolEvent(c, w), ToolEvent(c', w.(supersedeOk := false, newId := 2))]);
            drafts == [Draft(1, Ready, input), Draft(2, Ready, c'.input.value)] && !OnlyNewestLive(drafts)
  {
    var input := Input(REGION, "physics", 600, 5000, "");
    var c := Call(1, 1, false, Some(input));
    var c' := c.(input := Some(input.(rest := "medicine")));
    var w := World(Active, true, true, true, true, Plan, true, true, 1);
    var first, second := ToolEvent(c, w), ToolEvent(c', w.(supersedeOk := false, newId := 2));
    assert [first, second][..1] == [first] && [first][..0] == [];
    assert Run([], [first]) == [Draft(1, Ready, input)];
    assert input.rest != c'.input.value.rest;
    assert Run([], [first, second])[0].status == Ready;
  }

  predicate Opens(c: Call, w: World) { Gate(c, w).None? && w.listOk }

  /** Events that leave the newest draft alone: refused calls, dry runs and repeats of its input. */
  predicate LeavesAlone(input: Input, e: Event) {
    e.ToolEvent? && (Gate(e.c, e.w).Some? || (e.c.input.value == input && e.w.listOk))
  }

  /**
    A ready draft answers every later call with equal input under the same id, without running the
    algorithm again, however many refused calls, dry runs and repeats lie in between.
   */
  lemma {:induction false} RepeatReuses(drafts: seq<Draft>, events: seq<Event>, c: Call, w: World)
    requires drafts != [] && Newest(drafts).status == Ready && c.input == Some(Newest(drafts).input) && Opens(c, w)
    requires forall e :: e in events ==> LeavesAlone(Newest(drafts).input, e)
    ensures Run(drafts, events) == drafts && AfterCall(Run(drafts, events), c, w) == drafts
    ensures ReplyTo(Run(drafts, events), c, w) == Reused(Newest(drafts).id) && !Recommends(Run(drafts, events), c, w)
  {
    if events == [] {
    } else {
      var init := events[..|events| - 1];
      assert forall x :: x in init ==> x in events;
      RepeatReuses(drafts, init, c, w);
      assert LeavesAlone(Newest(drafts).input, events[|events| - 1]);
    }
  }

  lemma CreatedIsReady(drafts: seq<Draft>, c: Call, w: World)
    requires ReplyTo(drafts, c, w).Created?
    ensures var after := AfterCall(drafts, c, w);
            after != [] && Newest(after) == Draft(w.newId, Ready, c.input.value) && Recommends(drafts, c, w)
  {}

  /** In particular the draft a call has created answers its repeats, until something else touches it. */
  lemma CreatedIsReused(drafts: seq<Draft>, c: Call, w: World, events: seq<Event>, c': Call, w': World)
    requires ReplyTo(drafts, c, w).Created? && c'.input == c.input && Opens(c', w')
    requires forall e :: e in events ==> LeavesAlone(c.input.value, e)
    ensures var after := Run(AfterCall(drafts, c, w), events);
            && Recommends(drafts, c, w) && !Recommends(after, c', w')
            && ReplyTo(after, c', w') == Reused(ReplyTo(drafts, c, w).id)
  {
    var created := AfterCall(drafts, c, w);
    CreatedIsReady(drafts, c, w);
    RepeatReuses(created, events, c', w');
  }

  /**
    Drifted input supersedes the ready draft before anything is created: it is gone even when the new
    draft cannot be created or its recommendation fails, and no other draft changes.
   */
  lemma DriftSupersedesFirst(drafts: seq<Draft>, c: Call, w: World)
    requires Opens(c, w) && Drifts(drafts, c.input.value, w) && w.supersedeOk
    ensures var after, n := AfterCall(drafts, c, w), |drafts|;
            && n <= |after| && after[..n - 1] == drafts[..n - 1]
            && after[n - 1] == Newest(drafts).(status := Superseded)
            && (w.createOk ==> after[n..] == [Draft(w.newId, Left(w), c.input.value)])
            && (!w.createOk ==> |after| == n)
            && ((exists d :: d in after[n - 1..] && d.status == Ready) <==> ReplyTo(drafts, c, w).Created?)
  {
    var after, n := AfterCall(drafts, c, w), |drafts|;
    if w.createOk { assert after[n - 1..] == [after[n - 1], Draft(w.newId, Left(w), c.input.value)]; }
    assert after[n - 1..][0] == after[n - 1];
    if ReplyTo(drafts, c, w).Created? { assert after[n - 1..][1] in after[n - 1..]; }
  }

  /** Drafts are never removed or rewritten, terminal ones never change, and at most one is added. */
  ghost predicate History(before: seq<Draft>, after: seq<Draft>) {
    && |before| <= |after|
    && forall i :: 0 <= i < |before| ==>
         && after[i].id == before[i].id && after[i].input == before[i].input
         && (!Live(before[i].status) ==> after[i] == before[i])
         && (after[i].status == Generating ==> before[i].status == Generating)
         && (after[i].status == Ready ==> before[i].status == Ready)
  }

  lemma {:induction false} HistoryStays(drafts: seq<Draft>, events: seq<Event>)
    ensures History(drafts, Run(drafts, events)) && |Run(drafts, events)| <= |drafts| + |events|
  {
    if events == [] {
    } else {
      HistoryStays(drafts, events[..|events| - 1]);
    }
  }

  /** The newest draft is generating after a call exactly when neither mark of a created one could be written, or it was before. */
  lemma StuckIff(drafts: seq<Draft>, c: Call, w: World)
    ensures var after := AfterCall(drafts, c, w);
            after != [] && Newest(after).status == Generating
            <==> if Recommends(drafts, c, w) then !w.failOk && !(w.recommendation == Plan && w.readyOk)
                 else drafts != [] && Newest(drafts).status == Generating
  {}

  /**
    While the newest draft is generating, a call that passes the gates is told to wait exactly when the
    list can be read; when it cannot, the call goes on as if there were no draft.
   */
  lemma GeneratingWaitsIff(drafts: seq<Draft>, c: Call, w: World)
    requires drafts != [] && Newest(drafts).status == Generating && Gate(c, w).None?
    ensures ReplyTo(drafts, c, w) == StillGenerating <==> w.listOk
    ensures w.listOk ==> AfterCall(drafts, c, w) == drafts
    ensures !w.listOk && w.createOk ==> AfterCall(drafts, c, w) == drafts + [Draft(w.newId, Left(w), c.input.value)]
  {}

  predicate ReadsList(e: Event) { e.ToolEvent? ==> Gate(e.c, e.w).Some? || e.w.listOk }

  /** So a draft left generating stops its conversation for as long as the list can be read. */
  lemma {:induction false} GeneratingBlocks(drafts: seq<Draft>, events: seq<Event>)
    requires OnlyNewestLive(drafts) && drafts != [] && Newest(drafts).status == Generating
    requires forall e :: e in events ==> ReadsList(e)
    ensures Run(drafts, events) == drafts
  {
    if events == [] {
    } else {
      var init, e := events[..|events| - 1], events[|events| - 1];
      assert forall x :: x in init ==> x in events;
      GeneratingBlocks(drafts, init);
      assert ReadsList(e);
      if e.ToolEvent? && Gate(e.c, e.w).None? { GeneratingWaitsIff(drafts, e.c, e.w); }
    }
  }

  /** When neither final mark of a created draft can be written, it is left generating; then any readable call waits. */
  lemma StuckDraftIsReached()
    ensures var input := Input(REGION, "physics", 600, 5000, "");
            var c := Call(1, 1, false, Some(input));
            var w := World(Active, true, true, true, true, Plan, false, false, 1);
            var drafts := Run([], [ToolEvent(c, w)]);
            && drafts == [Draft(1, Generating, input)]
            && ReplyTo(drafts, c, w.(readyOk := true, newId := 2)) == StillGenerating
  {
    var c := Call(1, 1, false, Some(Input(REGION, "physics", 600, 5000, "")));
    var w := World(Active, true, true, true, true, Plan, false, false, 1);
    assert [ToolEvent(c, w)][..0] == [];
    assert Run([], []) == [];
  }

  // ---- the gates ----

  predicate Complete(i: Input) { i.region != "" && i.subject != "" && i.score != 0 && i.rank != 0 }

  /** The calls that may write: in a conversation, complete, for the region, in earnest, and not archived. */
  predicate Admitted(c: Call, w: World) {
    && c.user > 0 && c.conversation > 0 && c.input.Some? && Complete(c.input.value) && c.input.value.region == REGION
    && !c.dryRun && (w.conversation == Active || w.conversation == NoService)
  }

  /** However many calls are not admitted, dry runs among them, they change nothing and run no recommendation. */
  lemma {:induction false} OnlyAdmittedCallsAct(drafts: seq<Draft>, events: seq<Event>)
    requires forall e :: e in events ==> e.ToolEvent? && !Admitted(e.c, e.w)
    ensures Run(drafts, events) == drafts
    ensures forall e :: e in events ==> !Recommends(drafts, e.c, e.w)
  {
    if events == [] {
    } else {
      var init, e := events[..|events| - 1], events[|events| - 1];
      assert forall x :: x in events <==> x in init || x == e;
      OnlyAdmittedCallsAct(drafts, init);
      assert Gate(e.c, e.w).Some?;
    }
  }

  // ---- what every call does ----

  /** The newest draft stands in the way: it is being generated, or it is ready for the same input. */
  predicate StandsInTheWay(drafts: seq<Draft>, c: Call, w: World)
    requires c.input.Some?
  {
    w.listOk && drafts != []
    && (drafts[|drafts| - 1].status == Generating
        || (drafts[|drafts| - 1].status == Ready && drafts[|drafts| - 1].input == c.input.value))
  }

  /**
    A draft is added exactly by an admitted call in whose way no draft stands, when it can be created: behind a
    failed, superseded or adopted newest draft too. It is left ready exactly when the plan was found and stored.
   */
  lemma CallAddsIff(drafts: seq<Draft>, c: Call, w: World)
    ensures var after, n := AfterCall(drafts, c, w), |drafts|;
            var adds := Admitted(c, w) && w.createOk && !StandsInTheWay(drafts, c, w);
            && |after| == n + (if adds then 1 else 0)
            && (forall i :: 0 <= i < n ==>
                  after[i] == if i == n - 1 && Admitted(c, w) && w.listOk && drafts[i].status == Ready
                                 && drafts[i].input != c.input.value && w.supersedeOk
                              then drafts[i].(status := Superseded) else drafts[i])
            && (adds ==>
                  && after[n].id == w.newId && after[n].input == c.input.value
                  && (after[n].status == Ready <==> w.recommendation == Plan && w.readyOk)
                  && (after[n].status == Failed <==> !(w.recommendation == Plan && w.readyOk) && w.failOk)
                  && (after[n].status == Ready || after[n].status == Failed || after[n].status == Generating))
            && (Recommends(drafts, c, w) <==> adds)
  {
    assert Admitted(c, w) <==> Gate(c, w).None?;
  }

  /** The reply of an admitted call says what became of it. */
  lemma ReplyMeans(drafts: seq<Draft>, c: Call, w: World)
    requires Admitted(c, w)
    ensures var reply, blocked := ReplyTo(drafts, c, w), StandsInTheWay(drafts, c, w);
            && (reply == StillGenerating <==> blocked && drafts[|drafts| - 1].status == Generating)
            && (reply.Reused? <==> blocked && drafts[|drafts| - 1].status == Ready)
            && (reply.Reused? ==> reply.id == drafts[|drafts| - 1].id)
            && (reply == CreateFailed <==> !blocked && !w.createOk)
            && (reply == RecommendFailed(w.newId) <==> !blocked && w.createOk && w.recommendation != Plan)
            && (reply == PersistFailed(w.newId) <==> !blocked && w.createOk && w.recommendation == Plan && !w.readyOk)
            && (reply == Created(w.newId) <==> !blocked && w.createOk && w.recommendation == Plan && w.readyOk)
  {
    assert Gate(c, w).None?;
  }

  /** A call that is not admitted is a dry run, answered by its preview, or is told the first requirement it fails. */
  lemma RefusalMeans(drafts: seq<Draft>, c: Call, w: World)
    requires !Admitted(c, w)
    ensures var reply, known := ReplyTo(drafts, c, w), c.user > 0 && c.conversation > 0;
            var decoded := known && c.input.Some?;
            var complete := decoded && Complete(c.input.value);
            var valid := complete && c.input.value.region == REGION;
            && (reply == Refused(NoContext) <==> !known)
            && (reply == Refused(BadArguments) <==> known && !decoded)
            && (reply == Refused(MissingFields) <==> decoded && !complete)
            && (reply == Refused(OtherRegion) <==> complete && !valid)
            && (reply == Previewed <==> valid && c.dryRun && w.previewOk)
            && (reply == PreviewFailed <==> valid && c.dryRun && !w.previewOk)
            && (reply == Refused(NotFound) <==> valid && !c.dryRun && w.conversation == Missing)
            && (reply == Refused(NotLoaded) <==> valid && !c.dryRun && w.conversation == LoadFailed)
            && (reply == Refused(IsArchived) <==> valid && !c.dryRun && w.conversation == Archived)
  {
    assert Gate(c, w).Some?;
  }

  /** Adopting changes exactly the ready draft with this id, and its input is answered by a new draft from then on. */
  lemma AdoptingFrees(drafts: seq<Draft>, i: nat, c: Call, w: World)
    requires DistinctIds(drafts) && i < |drafts| && drafts[i].status == Ready
    requires Admitted(c, w) && w.createOk && i == |drafts| - 1
    ensures var after := Step(drafts, AdoptEvent(drafts[i].id, true));
            && after == drafts[i := drafts[i].(status := Adopted)]
            && |AfterCall(after, c, w)| == |drafts| + 1 && AfterCall(after, c, w)[..|drafts|] == after
  {
    var after := Step(drafts, AdoptEvent(drafts[i].id, true));
    CallAddsIff(after, c, w);
    assert AfterCall(after, c, w)[..|drafts|] == after;
  }
}
