/** The durable fixed-slot launch authority of `src/featureforge/glue_launch.py`, for one run id:
    any number of `start` invocations, crashed at any point or running at once, whether or not
    they share an invocation id. */
module GlueLaunch {
  import opened Ordering

  const MAX_GLUE_LAUNCHES: int := 3

  datatype SlotState = Reserved | Completed(jobRunId: string)

  /** Item `GLUE#ATTEMPT#n`. `holder` is the invocation whose transaction wrote it: not stored,
      since the item knows only the invocation id, which others may bear too. */
  datatype Slot = Slot(binding: string, invocation: string, holder: nat, state: SlotState)

  /** One physical `StartJobRun` call under launch token `(binding, slot)`; the job it started, if any. */
  datatype JobCall = JobCall(binding: string, slot: int, invocation: string, started: Option<string>)
  {
    function Token(): (string, int) {
      (binding, slot)
    }
  }

  /** `committed` are the transaction tokens the service has seen commit, `spent` the slots whose
      own reservation was acted on, `replays` the number of replayed grants acted on, `unseen` which
      invocation has read which slot as absent. */
  datatype World = World(
    authority: Option<string>,
    slots: map<int, Slot>,
    calls: seq<JobCall>,
    committed: set<(string, int, string)>,
    spent: set<int>,
    replays: nat,
    unseen: set<(nat, int)>)

  const START := World(None, map[], [], {}, {}, 0, {})

  // ---- What invocations do to the world -----------------------------------------------------------------------

  /** Each step is one of an invocation, `process`, that goes by the id `invocation`. */
  datatype Step =
    | Claim(process: nat, invocation: string, binding: string)
    | Look(process: nat, invocation: string, slot: int)
    | Reserve(process: nat, invocation: string, binding: string, slot: int)
    | Launch(process: nat, invocation: string, binding: string, slot: int, started: Option<string>)
    | Relaunch(process: nat, invocation: string, binding: string, slot: int, started: Option<string>)
    | Complete(process: nat, invocation: string, binding: string, slot: int, jobRunId: string)

  /** The condition of the reservation transaction. */
  predicate CanReserve(w: World, binding: string, slot: int) {
    w.authority == Some(binding) && slot !in w.slots
  }

  function WithSlot(w: World, binding: string, slot: int, invocation: string, process: nat): World {
    w.(slots := w.slots[slot := Slot(binding, invocation, process, Reserved)],
       committed := w.committed + {(binding, slot, invocation)})
  }

  /** The slot is this invocation's own reservation, not yet acted on. */
  predicate Holds(w: World, process: nat, invocation: string, binding: string, slot: int) {
    && slot in w.slots && slot !in w.spent
    && w.slots[slot].binding == binding && w.slots[slot].invocation == invocation && w.slots[slot].holder == process
  }

  /** The service may answer this invocation's reservation from the token of another's, made since
      this one read the slot as absent: an invocation that finds the slot reserves nothing. */
  predicate CanReplay(w: World, process: nat, invocation: string, binding: string, slot: int) {
    && (process, slot) in w.unseen
    && (binding, slot, invocation) in w.committed && slot in w.slots && w.slots[slot].holder != process
  }

  function WithCall(w: World, binding: string, slot: int, invocation: string, started: Option<string>): World {
    w.(calls := w.calls + [JobCall(binding, slot, invocation, started)])
  }

  /** The physical call that follows a grant. */
  function ActOn(w: World, own: bool, binding: string, slot: int, invocation: string, started: Option<string>): World {
    var called := WithCall(w, binding, slot, invocation, started);
    if own then called.(spent := w.spent + {slot}) else called.(replays := w.replays + 1)
  }

  predicate StartedBy(w: World, binding: string, slot: int, jobRunId: string) {
    exists call | call in w.calls :: call.binding == binding && call.slot == slot && call.started == Some(jobRunId)
  }

  function Recorded(w: World, slot: int, jobRunId: string): World
    requires slot in w.slots
  {
    w.(slots := w.slots[slot := w.slots[slot].(state := Completed(jobRunId))])
  }

  /** The condition of the update that records a job, and that the job is one the slot started. */
  predicate CanComplete(w: World, invocation: string, binding: string, slot: int, jobRunId: string) {
    && slot in w.slots && w.slots[slot].state.Reserved?
    && w.slots[slot].binding == binding && w.slots[slot].invocation == invocation
    && StartedBy(w, binding, slot, jobRunId)
  }

  function Looked(w: World, process: nat, slot: int): World {
    if slot in w.slots then w else w.(unseen := w.unseen + {(process, slot)})
  }

  /** An invocation launches only on a grant, once, and completes a slot only with a job started
      under it: properties of its program, which `Start` below is proved to have. */
  function Apply(w: World, step: Step): World {
    match step
    case Claim(_, _, binding) => if w.authority.None? then w.(authority := Some(binding)) else w
    case Look(process, _, slot) => Looked(w, process, slot)
    case Reserve(process, invocation, binding, slot) =>
      if 1 <= slot <= MAX_GLUE_LAUNCHES && CanReserve(w, binding, slot) then WithSlot(w, binding, slot, invocation, process) else w
    case Launch(process, invocation, binding, slot, started) =>
      if Holds(w, process, invocation, binding, slot) then ActOn(w, true, binding, slot, invocation, started) else w
    case Relaunch(process, invocation, binding, slot, started) =>
      if CanReplay(w, process, invocation, binding, slot) then ActOn(w, false, binding, slot, invocation, started) else w
    case Complete(_, invocation, binding, slot, jobRunId) =>
      if CanComplete(w, invocation, binding, slot, jobRunId) then Recorded(w, slot, jobRunId) else w
  }

  function Run(w: World, steps: seq<Step>): World {
    if steps == [] then w else Apply(Run(w, steps[..|steps| - 1]), steps[|steps| - 1])
  }

  // ---- Invariant ----------------------------------------------------------------------------------------------

  predicate SlotHolds(w: World, slot: int) {
    slot in w.slots ==>
      && 1 <= slot <= MAX_GLUE_LAUNCHES && w.authority == Some(w.slots[slot].binding)
      && (w.slots[slot].binding, slot, w.slots[slot].invocation) in w.committed
      && (w.slots[slot].state.Completed? ==> StartedBy(w, w.slots[slot].binding, slot, w.slots[slot].state.jobRunId))
  }

  predicate CallHolds(w: World, call: JobCall) {
    call.slot in w.slots && w.slots[call.slot].binding == call.binding && w.slots[call.slot].invocation == call.invocation
  }

  predicate TokenHolds(w: World, token: (string, int, string)) {
    token.1 in w.slots && w.slots[token.1].binding == token.0 && w.slots[token.1].invocation == token.2
  }

  ghost predicate DistinctCalls(calls: seq<JobCall>) {
    forall i, j | 0 <= i < j < |calls| :: calls[i].slot != calls[j].slot
  }

  /** Every call acts on one reservation or on one replayed grant. */
  ghost predicate CallsCount(w: World) {
    && w.spent <= w.slots.Keys && |w.calls| == |w.spent| + w.replays
    && (w.replays == 0 ==> DistinctCalls(w.calls) && forall call | call in w.calls :: call.slot in w.spent)
  }

  ghost predicate Inv(w: World) {
    && (forall slot :: SlotHolds(w, slot))
    && (forall call | call in w.calls :: CallHolds(w, call))
    && (forall token | token in w.committed :: TokenHolds(w, token))
    && CallsCount(w)
  }

  lemma ClaimKeeps(w: World, binding: string)
    requires Inv(w) && w.authority.None?
    ensures Inv(w.(authority := Some(binding)))
  {
    var w' := w.(authority := Some(binding));
    forall slot ensures SlotHolds(w', slot) {
      assert SlotHolds(w, slot);
    }
    assert forall call | call in w'.calls :: CallHolds(w, call);
    assert forall token | token in w'.committed :: TokenHolds(w, token);
  }

  lemma LookKeeps(w: World, process: nat, slot: int)
    requires Inv(w)
    ensures Inv(Looked(w, process, slot))
  {
    var w' := Looked(w, process, slot);
    forall slot ensures SlotHolds(w', slot) {
      assert SlotHolds(w, slot);
    }
    assert forall call | call in w'.calls :: CallHolds(w, call);
    assert forall token | token in w'.committed :: TokenHolds(w, token);
  }

  lemma ReserveKeeps(w: World, binding: string, slot: int, invocation: string, process: nat)
    requires Inv(w) && 1 <= slot <= MAX_GLUE_LAUNCHES && CanReserve(w, binding, slot)
    ensures Inv(WithSlot(w, binding, slot, invocation, process)) && slot !in w.spent
  {
    var w' := WithSlot(w, binding, slot, invocation, process);
    forall s ensures SlotHolds(w', s) {
      assert SlotHolds(w, s);
    }
    forall call | call in w'.calls ensures CallHolds(w', call) {
      assert CallHolds(w, call);
    }
    forall token | token in w'.committed ensures TokenHolds(w', token) {
      assert token in w.committed ==> TokenHolds(w, token);
    }
  }

  lemma ActKeepsCount(w: World, own: bool, binding: string, slot: int, invocation: string, started: Option<string>)
    requires CallsCount(w) && slot in w.slots && (own ==> slot !in w.spent)
    ensures CallsCount(ActOn(w, own, binding, slot, invocation, started))
  {
    var w' := ActOn(w, own, binding, slot, invocation, started);
    if w'.replays == 0 {
      forall i, j | 0 <= i < j < |w'.calls| ensures w'.calls[i].slot != w'.calls[j].slot {
        assert w'.calls[i] in w.calls;
      }
    }
  }

  lemma ActKeeps(w: World, own: bool, binding: string, slot: int, invocation: string, started: Option<string>)
    requires Inv(w) && (own ==> slot !in w.spent)
    requires slot in w.slots && w.slots[slot].binding == binding && w.slots[slot].invocation == invocation
    ensures Inv(ActOn(w, own, binding, slot, invocation, started))
  {
    var w' := ActOn(w, own, binding, slot, invocation, started);
    ActKeepsCount(w, own, binding, slot, invocation, started);
    hide CallsCount;
    forall s ensures SlotHolds(w', s) {
      assert SlotHolds(w, s);
    }
    forall call | call in w'.calls ensures CallHolds(w', call) {
      assert call in w.calls ==> CallHolds(w, call);
    }
    assert forall token | token in w'.committed :: TokenHolds(w, token);
  }

  lemma CompleteKeeps(w: World, invocation: string, binding: string, slot: int, jobRunId: string)
    requires Inv(w) && CanComplete(w, invocation, binding, slot, jobRunId)
    ensures Inv(Recorded(w, slot, jobRunId))
  {
    var w' := Recorded(w, slot, jobRunId);
    forall s ensures SlotHolds(w', s) {
      assert SlotHolds(w, s);
    }
    forall call | call in w'.calls ensures CallHolds(w', call) {
      assert CallHolds(w, call);
    }
    forall token | token in w'.committed ensures TokenHolds(w', token) {
      assert TokenHolds(w, token);
    }
  }

  lemma ApplyKeeps(w: World, step: Step)
    requires Inv(w)
    ensures Inv(Apply(w, step))
  {
    hide CallsCount;
    match step
    case Claim(_, _, binding) => if w.authority.None? { ClaimKeeps(w, binding); }
    case Look(process, _, slot) => LookKeeps(w, process, slot);
    case Reserve(process, invocation, binding, slot) =>
      if 1 <= slot <= MAX_GLUE_LAUNCHES && CanReserve(w, binding, slot) { ReserveKeeps(w, binding, slot, invocation, process); }
    case Launch(process, invocation, binding, slot, started) =>
      if Holds(w, process, invocation, binding, slot) { ActKeeps(w, true, binding, slot, invocation, started); }
    case Relaunch(process, invocation, binding, slot, started) =>
      if CanReplay(w, process, invocation, binding, slot) {
        assert TokenHolds(w, (binding, slot, invocation));
        ActKeeps(w, false, binding, slot, invocation, started);
      }
    case Complete(_, invocation, binding, slot, jobRunId) =>
      if CanComplete(w, invocation, binding, slot, jobRunId) { CompleteKeeps(w, invocation, binding, slot, jobRunId); }
  }

  lemma {:induction false} RunKeeps(w: World, steps: seq<Step>)
    requires Inv(w)
    ensures Inv(Run(w, steps))
  {
    if steps != [] {
      RunKeeps(w, steps[..|steps| - 1]);
      ApplyKeeps(Run(w, steps[..|steps| - 1]), steps[|steps| - 1]);
    }
  }

  lemma StartHolds()
    ensures Inv(START)
  {
  }

  lemma FewSlots(w: World)
    requires Inv(w)
    ensures |w.spent| <= MAX_GLUE_LAUNCHES && w.spent <= {1, 2, 3}
    ensures w.spent == {1, 2, 3} <==> |w.spent| == MAX_GLUE_LAUNCHES
  {
    forall slot | slot in w.spent ensures slot in {1, 2, 3} {
      assert SlotHolds(w, slot);
    }
    SubsetSize(w.spent, {1, 2, 3});
    if w.spent != {1, 2, 3} {
      var slot :| slot in {1, 2, 3} && slot !in w.spent;
      SubsetSize(w.spent, {1, 2, 3} - {slot});
    }
  }

  lemma CallsAreBounded(w: World)
    requires Inv(w)
    ensures |w.calls| <= MAX_GLUE_LAUNCHES + w.replays
  {
    FewSlots(w);
  }

  /** In every reachable world at most MAX_GLUE_LAUNCHES physical calls were made, and one more for
      each replayed grant that was acted on; all under launch tokens of one and the same binding,
      each under its own reserved slot; and pairwise distinct ones unless a grant was replayed. */
  lemma LaunchesAreBounded(steps: seq<Step>)
    ensures
      var w := Run(START, steps);
      && |w.calls| <= MAX_GLUE_LAUNCHES + w.replays
      && (w.replays == 0 ==> forall i, j | 0 <= i < j < |w.calls| :: w.calls[i].Token() != w.calls[j].Token())
      && (forall call | call in w.calls ::
            CallHolds(w, call) && w.authority == Some(call.binding) && 1 <= call.slot <= MAX_GLUE_LAUNCHES)
  {
    StartHolds();
    RunKeeps(START, steps);
    var w := Run(START, steps);
    forall call | call in w.calls ensures 1 <= call.slot <= MAX_GLUE_LAUNCHES && w.authority == Some(call.binding) {
      assert CallHolds(w, call) && SlotHolds(w, call.slot);
    }
    FewSlots(w);
  }

  // ---- When grants are replayed ---------------------------------------------------------------------------------

  ghost predicate NoRelaunch(steps: seq<Step>) {
    forall s | s in steps :: !s.Relaunch?
  }

  lemma {:induction false} ReplaysStay(w: World, steps: seq<Step>)
    requires NoRelaunch(steps)
    ensures Run(w, steps).replays == w.replays
  {
    if steps != [] {
      ReplaysStay(w, steps[..|steps| - 1]);
      assert steps[|steps| - 1] in steps;
    }
  }

  /** A slot that is not spent can be: by its holder, or by a newcomer that reserves it first. */
  lemma SpendSlot(w: World, slot: int) returns (steps: seq<Step>)
    requires Inv(w) && w.authority.Some? && 1 <= slot <= MAX_GLUE_LAUNCHES
    ensures NoRelaunch(steps) && slot in Run(w, steps).spent && w.spent <= Run(w, steps).spent
    ensures Inv(Run(w, steps)) && Run(w, steps).authority == w.authority
  {
    hide Inv;
    if slot in w.spent {
      return [];
    }
    var binding := w.authority.value;
    if slot in w.slots {
      var s := w.slots[slot];
      steps := [Launch(s.holder, s.invocation, s.binding, slot, None)];
      OneStep(w, steps[0]);
    } else {
      var reserve, launch := Reserve(0, "new", binding, slot), Launch(0, "new", binding, slot, None);
      steps := [reserve, launch];
      OneStep(w, reserve);
      OneStep(Apply(w, reserve), launch);
      assert steps[..1] == [reserve];
      assert Run(w, steps) == Apply(Run(w, [reserve]), launch);
    }
    RunKeeps(w, steps);
  }

  lemma OneStep(w: World, step: Step)
    ensures Run(w, [step]) == Apply(w, step)
  {
    assert [step][..0] == [];
    assert Run(w, [step]) == Apply(Run(w, []), step);
  }

  lemma CallNeedsAuthority(w: World)
    requires Inv(w) && w.replays > 0
    ensures w.authority.Some?
  {
    assert CallHolds(w, w.calls[0]) && SlotHolds(w, w.calls[0].slot);
  }

  /** One replayed grant already breaks the bound: every run in which one was acted on goes on,
      without another, to use up all slots beside it. */
  lemma ReplayBreaksTheBound(steps: seq<Step>) returns (more: seq<Step>)
    requires Run(START, steps).replays > 0
    ensures NoRelaunch(more) && |Run(Run(START, steps), more).calls| == MAX_GLUE_LAUNCHES + Run(START, steps).replays
  {
    hide Apply;
    StartHolds();
    RunKeeps(START, steps);
    var w := Run(START, steps);
    CallNeedsAuthority(w);
    var a := SpendSlot(w, 1);
    var b := SpendSlot(Run(w, a), 2);
    var c := SpendSlot(Run(Run(w, a), b), 3);
    RunTwice(w, a, b);
    RunTwice(w, a + b, c);
    more := a + b + c;
    ReplaysStay(w, more);
    FewSlots(Run(w, more));
    assert Run(w, more).spent == {1, 2, 3};
  }

  // ---- Who may share an id ----------------------------------------------------------------------------------------

  /** An invocation takes a step, another one does, and the first goes on: they overlap. */
  ghost predicate Interrupted(steps: seq<Step>, i: nat, j: nat, k: nat) {
    i < j < k < |steps| && steps[i].process == steps[k].process != steps[j].process
  }

  /** The run is one of invocations that go by the ids `ids` and overlap only where `overlap` allows it. */
  ghost predicate Follows(steps: seq<Step>, ids: nat -> string, overlap: (nat, nat) -> bool) {
    && (forall s | s in steps :: s.invocation == ids(s.process))
    && (forall i: nat, j: nat, k: nat {:trigger Interrupted(steps, i, j, k)} | Interrupted(steps, i, j, k) ::
          overlap(steps[i].process, steps[j].process))
  }

  /** No two invocations that may overlap share an id; those that cannot may. */
  ghost predicate OverlapsAreTold(ids: nat -> string, overlap: (nat, nat) -> bool) {
    forall p: nat, q: nat | p != q && overlap(p, q) :: ids(p) != ids(q)
  }

  lemma {:induction false} SlotsStay(steps: seq<Step>, n: nat)
    requires n <= |steps|
    ensures Run(START, steps[..n]).slots.Keys <= Run(START, steps).slots.Keys
  {
    if n == |steps| {
      assert steps[..n] == steps;
    } else {
      var last := |steps| - 1;
      assert steps[..last][..n] == steps[..n];
      SlotsStay(steps[..last], n);
    }
  }

  /** When the invocation read the slot, no one had reserved it. */
  lemma {:induction false} LookIndex(steps: seq<Step>, process: nat, slot: int) returns (i: nat)
    requires (process, slot) in Run(START, steps).unseen
    ensures i < |steps| && steps[i].Look? && steps[i].process == process && slot !in Run(START, steps[..i]).slots
  {
    var last := |steps| - 1;
    if (process, slot) in Run(START, steps[..last]).unseen {
      i := LookIndex(steps[..last], process, slot);
      assert steps[..last][..i] == steps[..i];
    } else {
      i := last;
    }
  }

  /** A slot was reserved by its holder, under the holder's id. */
  lemma {:induction false} ReserveIndex(steps: seq<Step>, slot: int) returns (j: nat)
    requires slot in Run(START, steps).slots
    ensures j < |steps| && steps[j].Reserve? && slot in Run(START, steps[..j + 1]).slots
    ensures steps[j].process == Run(START, steps).slots[slot].holder
    ensures steps[j].invocation == Run(START, steps).slots[slot].invocation
  {
    var last := |steps| - 1;
    if slot in Run(START, steps[..last]).slots {
      j := ReserveIndex(steps[..last], slot);
      assert steps[..last][..j + 1] == steps[..j + 1];
    } else {
      j := last;
      assert steps[..j + 1] == steps;
    }
  }

  /** A replayed grant is acted on only by an invocation that the slot's holder, of the same id, interrupted. */
  lemma ReplayNeedsOverlap(before: seq<Step>, step: Step, ids: nat -> string, overlap: (nat, nat) -> bool)
    requires Follows(before + [step], ids, overlap) && step.Relaunch?
    requires CanReplay(Run(START, before), step.process, step.invocation, step.binding, step.slot)
    ensures !OverlapsAreTold(ids, overlap)
  {
    var steps, w := before + [step], Run(START, before);
    StartHolds();
    RunKeeps(START, before);
    assert TokenHolds(w, (step.binding, step.slot, step.invocation));
    var i := LookIndex(before, step.process, step.slot);
    var j := ReserveIndex(before, step.slot);
    if j <= i {
      assert before[..i][..j + 1] == before[..j + 1] || j == i;
      if j < i { SlotsStay(before[..i], j + 1); }
    }
    assert steps[i] == before[i] && steps[j] == before[j] && steps[|before|] == step;
    assert before[j] in steps && step in steps;
    assert Interrupted(steps, i, j, |before|);
  }

  lemma FollowsBefore(steps: seq<Step>, n: nat, ids: nat -> string, overlap: (nat, nat) -> bool)
    requires n <= |steps| && Follows(steps, ids, overlap)
    ensures Follows(steps[..n], ids, overlap)
  {
    forall i: nat, j: nat, k: nat {:trigger Interrupted(steps[..n], i, j, k)} | Interrupted(steps[..n], i, j, k)
      ensures overlap(steps[..n][i].process, steps[..n][j].process)
    {
      assert Interrupted(steps, i, j, k);
    }
  }

  /** Where overlapping invocations do not share an id no grant is replayed. */
  lemma {:induction false} ToldNeverReplays(steps: seq<Step>, ids: nat -> string, overlap: (nat, nat) -> bool)
    requires Follows(steps, ids, overlap) && OverlapsAreTold(ids, overlap)
    ensures Run(START, steps).replays == 0
  {
    if steps != [] {
      var last := |steps| - 1;
      var before, step := steps[..last], steps[last];
      FollowsBefore(steps, last, ids, overlap);
      ToldNeverReplays(before, ids, overlap);
      assert steps == before + [step];
      if step.Relaunch? && CanReplay(Run(START, before), step.process, step.invocation, step.binding, step.slot) {
        ReplayNeedsOverlap(before, step, ids, overlap);
      }
    }
  }

  lemma RunNext(steps: seq<Step>, step: Step)
    ensures Run(START, steps + [step]) == Apply(Run(START, steps), step)
  {
    assert (steps + [step])[..|steps|] == steps;
  }

  /** `p` and `q` find slot 1 absent, `q` reserves it and launches, `p` is granted the replay and launches too. */
  function SharedSlot(p: nat, q: nat, id: string): seq<Step> {
    [Claim(p, id, "b"), Look(p, id, 1), Look(q, id, 1), Reserve(q, id, "b", 1), Launch(q, id, "b", 1, None),
     Relaunch(p, id, "b", 1, None)]
  }

  /** An invocation finds the slot absent, reserves it and launches. */
  function SlotBy(r: nat, id: string, slot: int): seq<Step> {
    [Look(r, id, slot), Reserve(r, id, "b", slot), Launch(r, id, "b", slot, None)]
  }

  /** Two later invocations, under whatever ids, use up the other slots. */
  function OtherSlots(r: nat, r': nat, id: string, id': string): seq<Step> {
    SlotBy(r, id, 2) + SlotBy(r', id', 3)
  }

  lemma SharedSlotRuns(p: nat, q: nat, id: string)
    requires p != q
    ensures var w := Run(START, SharedSlot(p, q, id));
      && |w.calls| == 2 && w.authority == Some("b") && w.slots.Keys == {1} && w.spent == {1}
  {
    var s := SharedSlot(p, q, id);
    OneStep(START, s[0]);
    RunNext([s[0]], s[1]);
    RunNext([s[0]] + [s[1]], s[2]);
    RunNext([s[0]] + [s[1]] + [s[2]], s[3]);
    RunNext([s[0]] + [s[1]] + [s[2]] + [s[3]], s[4]);
    RunNext([s[0]] + [s[1]] + [s[2]] + [s[3]] + [s[4]], s[5]);
    assert s == [s[0]] + [s[1]] + [s[2]] + [s[3]] + [s[4]] + [s[5]];
  }

  lemma SlotByRuns(before: seq<Step>, r: nat, id: string, slot: int)
    requires var w := Run(START, before);
             w.authority == Some("b") && slot !in w.slots && slot !in w.spent && 1 <= slot <= MAX_GLUE_LAUNCHES
    ensures var w, w' := Run(START, before), Run(START, before + SlotBy(r, id, slot));
      |w'.calls| == |w.calls| + 1 && w'.authority == w.authority && w'.slots.Keys == w.slots.Keys + {slot} && w'.spent == w.spent + {slot}
  {
    var s := SlotBy(r, id, slot);
    RunNext(before, s[0]);
    RunNext(before + [s[0]], s[1]);
    RunNext(before + [s[0]] + [s[1]], s[2]);
    assert before + s == before + [s[0]] + [s[1]] + [s[2]];
  }

  lemma OtherSlotsRun(before: seq<Step>, r: nat, r': nat, id: string, id': string)
    requires var w := Run(START, before); w.authority == Some("b") && w.slots.Keys == {1} && w.spent == {1}
    ensures |Run(START, before + OtherSlots(r, r', id, id')).calls| == |Run(START, before).calls| + 2
  {
    hide SlotBy;
    hide Apply;
    SlotByRuns(before, r, id, 2);
    SlotByRuns(before + SlotBy(r, id, 2), r', id', 3);
    assert before + OtherSlots(r, r', id, id') == before + SlotBy(r, id, 2) + SlotBy(r', id', 3);
  }

  function WhoAct(p: nat, q: nat, i: nat): nat {
    if i < 2 || i == 5 then p else if i < 5 then q else if i < 9 then p + q + 1 else p + q + 2
  }

  lemma WhoActs(p: nat, q: nat, ids: nat -> string, i: nat)
    requires i < 12
    ensures (SharedSlot(p, q, ids(p)) + OtherSlots(p + q + 1, p + q + 2, ids(p + q + 1), ids(p + q + 2)))[i].process == WhoAct(p, q, i)
  {
    var a, b := SharedSlot(p, q, ids(p)), OtherSlots(p + q + 1, p + q + 2, ids(p + q + 1), ids(p + q + 2));
    assert (a + b)[i] == if i < 6 then a[i] else b[i - 6];
  }

  /** Among them only `p` and `q` overlap. */
  lemma WhoOverlaps(p: nat, q: nat, ids: nat -> string, i: nat, j: nat, k: nat)
    requires p != q && Interrupted(SharedSlot(p, q, ids(p)) + OtherSlots(p + q + 1, p + q + 2, ids(p + q + 1), ids(p + q + 2)), i, j, k)
    ensures k < 12 && WhoAct(p, q, i) == p && WhoAct(p, q, j) == q
  {
    assert |SharedSlot(p, q, ids(p)) + OtherSlots(p + q + 1, p + q + 2, ids(p + q + 1), ids(p + q + 2))| == 12;
    hide SharedSlot;
    hide OtherSlots;
    WhoActs(p, q, ids, i);
    WhoActs(p, q, ids, j);
    WhoActs(p, q, ids, k);
  }

  lemma SharedIds(p: nat, q: nat, ids: nat -> string, s: Step)
    requires ids(p) == ids(q)
    requires s in SharedSlot(p, q, ids(p)) + OtherSlots(p + q + 1, p + q + 2, ids(p + q + 1), ids(p + q + 2))
    ensures s.invocation == ids(s.process)
  {
    assert s in SharedSlot(p, q, ids(p)) || s in OtherSlots(p + q + 1, p + q + 2, ids(p + q + 1), ids(p + q + 2));
  }

  lemma SharedFollows(ids: nat -> string, overlap: (nat, nat) -> bool, p: nat, q: nat)
    requires p != q && overlap(p, q) && ids(p) == ids(q)
    ensures Follows(SharedSlot(p, q, ids(p)) + OtherSlots(p + q + 1, p + q + 2, ids(p + q + 1), ids(p + q + 2)), ids, overlap)
  {
    hide SharedSlot;
    hide OtherSlots;
    hide WhoAct;
    var steps := SharedSlot(p, q, ids(p)) + OtherSlots(p + q + 1, p + q + 2, ids(p + q + 1), ids(p + q + 2));
    forall s | s in steps ensures s.invocation == ids(s.process) {
      SharedIds(p, q, ids, s);
    }
    forall i: nat, j: nat, k: nat {:trigger Interrupted(steps, i, j, k)} | Interrupted(steps, i, j, k)
      ensures overlap(steps[i].process, steps[j].process)
    {
      WhoOverlaps(p, q, ids, i, j, k);
      WhoActs(p, q, ids, i);
      WhoActs(p, q, ids, j);
    }
  }

  /** Two invocations that may overlap and share an id suffice to break the bound. */
  lemma SharingBreaksTheBound(ids: nat -> string, overlap: (nat, nat) -> bool, p: nat, q: nat) returns (steps: seq<Step>)
    requires p != q && overlap(p, q) && ids(p) == ids(q)
    ensures Follows(steps, ids, overlap) && |Run(START, steps).calls| > MAX_GLUE_LAUNCHES
  {
    hide Follows;
    hide SharedSlot;
    hide OtherSlots;
    hide Apply;
    SharedSlotRuns(p, q, ids(p));
    OtherSlotsRun(SharedSlot(p, q, ids(p)), p + q + 1, p + q + 2, ids(p + q + 1), ids(p + q + 2));
    SharedFollows(ids, overlap, p, q);
    steps := SharedSlot(p, q, ids(p)) + OtherSlots(p + q + 1, p + q + 2, ids(p + q + 1), ids(p + q + 2));
  }

  /** The exact condition of the bound: whatever the invocations do, crash and retry, at most
      MAX_GLUE_LAUNCHES physical calls are made exactly when no two that may overlap share an id. */
  lemma BoundHoldsIff(ids: nat -> string, overlap: (nat, nat) -> bool)
    ensures (forall steps {:trigger Follows(steps, ids, overlap)} | Follows(steps, ids, overlap) ::
               |Run(START, steps).calls| <= MAX_GLUE_LAUNCHES)
       <==> OverlapsAreTold(ids, overlap)
  {
    if OverlapsAreTold(ids, overlap) {
      forall steps {:trigger Follows(steps, ids, overlap)} | Follows(steps, ids, overlap)
        ensures |Run(START, steps).calls| <= MAX_GLUE_LAUNCHES
      {
        ToldNeverReplays(steps, ids, overlap);
        LaunchesAreBounded(steps);
      }
    } else {
      var p: nat, q: nat :| p != q && overlap(p, q) && ids(p) == ids(q);
      var steps := SharingBreaksTheBound(ids, overlap, p, q);
      assert Follows(steps, ids, overlap);
    }
  }

  // ---- One invocation among others -----------------------------------------------------------------------------

  datatype Fault = Delivered | LostRequest | LostReply

  /** What befalls one request: others' steps before it, its delivery, whether a transaction is
      answered from its token, and the job a launch starts. */
  datatype Weather = Weather(others: seq<Step>, fault: Fault, replayed: bool, started: Option<string>)

  /** The steps are other invocations'. */
  ghost predicate ByOthers(w: Weather, process: nat) {
    forall step | step in w.others :: step.process != process
  }

  /** No other invocation, while this one runs, goes by its invocation id. */
  ghost predicate Foreign(w: Weather, invocation: string) {
    forall step | step in w.others :: step.invocation != invocation
  }

  /** No other invocation goes by its id, and none acts on a replayed grant. */
  ghost predicate Alone(w: Weather, invocation: string) {
    Foreign(w, invocation) && NoRelaunch(w.others)
  }

  // What one invocation does to the world: a run in which its own steps, under its own id, stand
  // between those of others that it meets.

  function MetIn(trace: seq<Step>, process: nat): seq<Step> {
    if trace == [] then [] else
      var last := |trace| - 1;
      MetIn(trace[..last], process) + if trace[last].process == process then [] else [trace[last]]
  }

  predicate IsCall(step: Step) {
    step.Launch? || step.Relaunch?
  }

  function CallsIn(trace: seq<Step>, process: nat): nat {
    if trace == [] then 0 else
      var last := |trace| - 1;
      CallsIn(trace[..last], process) + if trace[last].process == process && IsCall(trace[last]) then 1 else 0
  }

  ghost predicate IsTrace(trace: seq<Step>, process: nat, invocation: string, met: seq<Step>, made: nat) {
    && MetIn(trace, process) == met && CallsIn(trace, process) == made
    && forall s | s in trace && s.process == process :: s.invocation == invocation
  }

  /** From `w` to `w'` by this invocation's steps, `made` of them physical calls, and the steps `met` of others. */
  ghost predicate Ran(w: World, w': World, process: nat, invocation: string, met: seq<Step>, made: nat) {
    exists trace :: IsTrace(trace, process, invocation, met, made) && w' == Run(w, trace)
  }

  lemma {:induction false} RunTwice(w: World, a: seq<Step>, b: seq<Step>)
    ensures Run(w, a + b) == Run(Run(w, a), b)
  {
    if b == [] {
      assert a + b == a;
    } else {
      var last := |b| - 1;
      RunTwice(w, a, b[..last]);
      assert (a + b)[..|a + b| - 1] == a + b[..last];
    }
  }

  lemma {:induction false} TraceTwice(a: seq<Step>, b: seq<Step>, process: nat)
    ensures MetIn(a + b, process) == MetIn(a, process) + MetIn(b, process)
    ensures CallsIn(a + b, process) == CallsIn(a, process) + CallsIn(b, process)
  {
    if b == [] {
      assert a + b == a;
    } else {
      var last := |b| - 1;
      TraceTwice(a, b[..last], process);
      assert (a + b)[..|a + b| - 1] == a + b[..last];
    }
  }

  lemma {:induction false} OthersAreMet(steps: seq<Step>, process: nat)
    requires forall s | s in steps :: s.process != process
    ensures MetIn(steps, process) == steps && CallsIn(steps, process) == 0
  {
    if steps != [] {
      OthersAreMet(steps[..|steps| - 1], process);
      assert steps == steps[..|steps| - 1] + [steps[|steps| - 1]];
    }
  }

  lemma RanByOthers(w: World, steps: seq<Step>, process: nat, invocation: string)
    requires forall s | s in steps :: s.process != process
    ensures Ran(w, Run(w, steps), process, invocation, steps, 0)
  {
    OthersAreMet(steps, process);
    assert IsTrace(steps, process, invocation, steps, 0);
  }

  lemma RanByStep(w: World, step: Step)
    ensures Ran(w, Apply(w, step), step.process, step.invocation, [], if IsCall(step) then 1 else 0)
  {
    OneStep(w, step);
    assert [step][..0] == [] && CallsIn([], step.process) == 0 && MetIn([], step.process) == [];
    assert [step][|[step]| - 1] == step;
    assert CallsIn([step], step.process) == if IsCall(step) then 1 else 0;
    assert IsTrace([step], step.process, step.invocation, [], if IsCall(step) then 1 else 0);
  }

  lemma RanNot(w: World, process: nat, invocation: string)
    ensures Ran(w, w, process, invocation, [], 0)
  {
    assert Run(w, []) == w && IsTrace([], process, invocation, [], 0);
  }

  lemma RanOn(w: World, w': World, w'': World, process: nat, invocation: string, met: seq<Step>, made: nat, met': seq<Step>, made': nat)
    requires Ran(w, w', process, invocation, met, made) && Ran(w', w'', process, invocation, met', made')
    ensures Ran(w, w'', process, invocation, met + met', made + made')
  {
    var a :| IsTrace(a, process, invocation, met, made) && w' == Run(w, a);
    var b :| IsTrace(b, process, invocation, met', made') && w'' == Run(w', b);
    RunTwice(w, a, b);
    TraceTwice(a, b, process);
    assert IsTrace(a + b, process, invocation, met + met', made + made');
  }

  /** Then one step of its own. */
  lemma RanOnStep(w: World, w': World, step: Step, met: seq<Step>, made: nat)
    requires Ran(w, w', step.process, step.invocation, met, made)
    ensures Ran(w, Apply(w', step), step.process, step.invocation, met, made + if IsCall(step) then 1 else 0)
  {
    RanByStep(w', step);
    RanOn(w, w', Apply(w', step), step.process, step.invocation, met, made, [], if IsCall(step) then 1 else 0);
    assert met + [] == met;
  }

  /** Where a step of another stands among those met. */
  lemma MetAt(trace: seq<Step>, process: nat, a: nat) returns (i: nat)
    requires a < |trace| && trace[a].process != process
    ensures i == |MetIn(trace[..a], process)| < |MetIn(trace, process)| && MetIn(trace, process)[i] == trace[a]
  {
    i := |MetIn(trace[..a], process)|;
    assert trace == trace[..a] + [trace[a]] + trace[a + 1..];
    OthersAreMet([trace[a]], process);
    TraceTwice(trace[..a], [trace[a]], process);
    TraceTwice(trace[..a] + [trace[a]], trace[a + 1..], process);
  }

  lemma MetInOrder(trace: seq<Step>, process: nat, a: nat, b: nat)
    requires a < b < |trace| && trace[a].process != process
    ensures |MetIn(trace[..a], process)| < |MetIn(trace[..b], process)|
  {
    assert trace[..b][..a] == trace[..a];
    var i := MetAt(trace[..b], process, a);
  }

  /** The run follows ids and overlaps when what was met does, and who was met may overlap. */
  lemma TraceFollows(before: seq<Step>, trace: seq<Step>, process: nat, invocation: string, met: seq<Step>, made: nat,
                     ids: nat -> string, overlap: (nat, nat) -> bool)
    requires IsTrace(trace, process, invocation, met, made) && ids(process) == invocation
    requires (forall s | s in before :: s.process != process) && Follows(before + met, ids, overlap)
    requires forall s | s in met :: overlap(process, s.process) && overlap(s.process, process)
    ensures Follows(before + trace, ids, overlap)
  {
    var all := before + trace;
    OthersAreMet(before, process);
    TraceTwice(before, trace, process);
    forall s | s in all ensures s.invocation == ids(s.process) {
      if s.process != process {
        var a :| 0 <= a < |all| && all[a] == s;
        var i := MetAt(all, process, a);
        assert s in before + met;
      }
    }
    forall i: nat, j: nat, k: nat {:trigger Interrupted(all, i, j, k)} | Interrupted(all, i, j, k)
      ensures overlap(all[i].process, all[j].process)
    {
      if all[i].process == process {
        assert i >= |before|;
        MetLater(before, trace, process, met, j);
      } else if all[j].process == process {
        assert j >= |before|;
        MetLater(before, trace, process, met, k);
      } else {
        var i' := MetAt(all, process, i);
        var j' := MetAt(all, process, j);
        var k' := MetAt(all, process, k);
        MetInOrder(all, process, i, j);
        MetInOrder(all, process, j, k);
        assert Interrupted(before + met, i', j', k');
      }
    }
  }

  lemma MetLater(before: seq<Step>, trace: seq<Step>, process: nat, met: seq<Step>, j: nat)
    requires |before| <= j < |before + trace| && (before + trace)[j].process != process && MetIn(trace, process) == met
    ensures (before + trace)[j] in met
  {
    assert (before + trace)[j] == trace[j - |before|];
    var i := MetAt(trace, process, j - |before|);
  }

  /** An invocation that joins a run of others keeps the bound, if none that it meets shares its id
      and overlapping others do not share theirs. */
  lemma RanIsBounded(before: seq<Step>, w': World, process: nat, invocation: string, met: seq<Step>, made: nat,
                     ids: nat -> string, overlap: (nat, nat) -> bool)
    requires Ran(Run(START, before), w', process, invocation, met, made) && ids(process) == invocation
    requires (forall s | s in before :: s.process != process) && Follows(before + met, ids, overlap)
    requires forall s | s in met :: overlap(process, s.process) && overlap(s.process, process)
    requires OverlapsAreTold(ids, overlap)
    ensures |w'.calls| <= MAX_GLUE_LAUNCHES
  {
    var trace :| IsTrace(trace, process, invocation, met, made) && w' == Run(Run(START, before), trace);
    TraceFollows(before, trace, process, invocation, met, made, ids, overlap);
    RunTwice(START, before, trace);
    BoundHoldsIff(ids, overlap);
    assert Follows(before + trace, ids, overlap);
  }

  /** The invocation has no reservation of its own. */
  predicate HoldsNothing(w: World, process: nat) {
    forall slot | slot in w.slots :: w.slots[slot].holder != process
  }

  /** What others cannot disturb: slots keep their holders, my reservations stay mine to act on and
      no new one is mine; authorities, tokens and calls stay. */
  ghost predicate Undisturbed(w: World, w': World, process: nat) {
    && (forall slot | slot in w.slots ::
          slot in w'.slots && w'.slots[slot] == w.slots[slot].(state := w'.slots[slot].state)
          && (w.slots[slot].holder == process && slot in w'.spent ==> slot in w.spent))
    && (HoldsNothing(w, process) ==> HoldsNothing(w', process))
    && (w.authority.Some? ==> w'.authority == w.authority)
    && (forall call | call in w.calls :: call in w'.calls)
    && w.committed <= w'.committed && w.unseen <= w'.unseen
  }

  lemma OthersStep(w: World, step: Step, process: nat)
    requires step.process != process && w.spent <= w.slots.Keys
    ensures Undisturbed(w, Apply(w, step), process)
    ensures Apply(w, step).spent <= Apply(w, step).slots.Keys
  {
  }

  lemma {:induction false} OthersRun(w: World, steps: seq<Step>, process: nat)
    requires (forall step | step in steps :: step.process != process) && w.spent <= w.slots.Keys
    ensures Undisturbed(w, Run(w, steps), process) && Run(w, steps).spent <= Run(w, steps).slots.Keys
  {
    if steps != [] {
      var before := Run(w, steps[..|steps| - 1]);
      OthersRun(w, steps[..|steps| - 1], process);
      OthersStep(before, steps[|steps| - 1], process);
    }
  }

  /** Invocations of other ids commit no token under mine. */
  lemma {:induction false} ForeignRun(w: World, steps: seq<Step>, invocation: string)
    requires forall step | step in steps :: step.invocation != invocation
    ensures forall token | token in Run(w, steps).committed && token.2 == invocation :: token in w.committed
  {
    if steps != [] {
      ForeignRun(w, steps[..|steps| - 1], invocation);
      assert steps[|steps| - 1] in steps;
    }
  }

  datatype LaunchError = BadIdentity | RequestFailed | AuthorityConflict | AttemptConflict | NoWinner | LaunchFailed | BudgetExhausted

  /** Every request is delivered, launches start a job, and nobody else acts. */
  predicate IsCalm(w: Weather) {
    w.others == [] && w.fault == Delivered && w.started.Some?
  }

  ghost predicate Calm(w: nat -> Weather) {
    forall i :: IsCalm(w(i))
  }

  /** The slot is free to launch, or has a job to return. */
  predicate Available(w: World, slot: int) {
    1 <= slot <= MAX_GLUE_LAUNCHES && (slot !in w.slots || w.slots[slot].state.Completed?)
  }

  lemma CallStarts(w: World, own: bool, binding: string, slot: int, invocation: string, jobRunId: string)
    ensures StartedBy(ActOn(w, own, binding, slot, invocation, Some(jobRunId)), binding, slot, jobRunId)
  {
    var call := JobCall(binding, slot, invocation, Some(jobRunId));
    assert call in ActOn(w, own, binding, slot, invocation, Some(jobRunId)).calls;
  }

  lemma StartStays(w: World, w': World, binding: string, slot: int, jobRunId: string)
    requires StartedBy(w, binding, slot, jobRunId) && forall call | call in w.calls :: call in w'.calls
    ensures StartedBy(w', binding, slot, jobRunId)
  {
  }

  /** A grant, its own or replayed, can still be acted on after others' steps. */
  lemma GrantStays(w: World, w': World, process: nat, own: bool, binding: string, slot: int, invocation: string)
    requires Inv(w) && Undisturbed(w, w', process)
    requires if own then Holds(w, process, invocation, binding, slot) else CanReplay(w, process, invocation, binding, slot)
    ensures if own then Holds(w', process, invocation, binding, slot) else CanReplay(w', process, invocation, binding, slot)
    ensures slot in w'.slots && w'.slots[slot].binding == binding && w'.slots[slot].invocation == invocation
    ensures own ==> slot !in w'.spent
  {
    assert !own ==> TokenHolds(w, (binding, slot, invocation));
  }

  ghost predicate IsMet(s: Step, w: nat -> Weather) {
    exists i: nat :: s in w(i).others
  }

  /** All the steps met are among those around the requests. */
  ghost predicate Meets(met: seq<Step>, w: nat -> Weather) {
    forall s {:trigger IsMet(s, w)} | s in met :: IsMet(s, w)
  }

  lemma MeetsLater(met: seq<Step>, w: nat -> Weather, n: nat)
    requires Meets(met, (i: nat) => w(n + i))
    ensures Meets(met, w)
  {
    var later: nat -> Weather := (i: nat) => w(n + i);
    forall s | s in met ensures IsMet(s, w) {
      assert IsMet(s, later);
      var i: nat :| s in later(i).others;
      assert s in w(n + i).others;
    }
  }

  lemma MeetsBoth(met: seq<Step>, met': seq<Step>, w: nat -> Weather)
    requires Meets(met, w) && Meets(met', w)
    ensures Meets(met + met', w)
  {
  }

  lemma MeetsAt(w: nat -> Weather, i: nat)
    ensures Meets(w(i).others, w)
  {
    forall s | s in w(i).others ensures IsMet(s, w) {
    }
  }

  /** The world after the one call of a grant, before its job is recorded. */
  function Called(w: World, own: bool, binding: string, slot: int, invocation: string, around: Weather): World {
    ActOn(Run(w, around.others), own, binding, slot, invocation, around.started)
  }

  class DurableGlueLauncher {
    var world: World

    method Others(w: Weather, process: nat, ghost invocation: string)
      requires Inv(world) && ByOthers(w, process)
      modifies this
      ensures Inv(world) && Ran(old(world), world, process, invocation, w.others, 0) && Undisturbed(old(world), world, process)
      ensures world == Run(old(world), w.others)
      ensures w.others == [] ==> world == old(world)
      ensures NoRelaunch(w.others) ==> world.replays == old(world).replays
    {
      RunKeeps(world, w.others);
      RanByOthers(world, w.others, process, invocation);
      OthersRun(world, w.others, process);
      if NoRelaunch(w.others) { ReplaysStay(world, w.others); }
      world := Run(world, w.others);
    }

    /** The authority item, created once or found to be this binding's. */
    method ClaimAuthority(process: nat, binding: string, invocation: string, w: Weather, w': Weather)
      returns (r: Option<LaunchError>, ghost met: seq<Step>)
      requires Inv(world) && ByOthers(w, process) && ByOthers(w', process) && HoldsNothing(world, process)
      modifies this
      ensures Inv(world) && Ran(old(world), world, process, invocation, met, 0) && HoldsNothing(world, process)
      ensures met == w.others || met == w.others + w'.others
      ensures r.None? ==> world.authority == Some(binding)
      ensures NoRelaunch(w.others) && NoRelaunch(w'.others) ==> world.replays == old(world).replays
      ensures IsCalm(w) && IsCalm(w') ==>
                && (r.None? <==> old(world).authority in {None, Some(binding)})
                && world.slots == old(world).slots
    {
      hide Ran;
      Others(w, process, invocation);
      ghost var t := world;
      RanOnStep(old(world), t, Claim(process, invocation, binding), w.others, 0);
      if w.fault == LostRequest { return Some(RequestFailed), w.others; }
      if world.authority.None? {
        ClaimKeeps(world, binding);
        world := world.(authority := Some(binding));
        return if w.fault == Delivered then None else Some(RequestFailed), w.others;
      }
      if w.fault != Delivered { return Some(RequestFailed), w.others; }
      ghost var t' := world;
      Others(w', process, invocation);
      RanOn(old(world), t', world, process, invocation, w.others, 0, w'.others, 0);
      met := w.others + w'.others;
      if w'.fault != Delivered { return Some(RequestFailed), met; }
      r := if world.authority == Some(binding) then None else Some(AuthorityConflict);
    }

    /** The reservation transaction, of a slot read as absent. A grant is this invocation's own reservation,
        or (`!own`, which the program cannot tell) the replay of one that another bearer of its id made; with
        no other bearer it is its own. */
    method ReserveSlot(process: nat, binding: string, slot: int, invocation: string, w: Weather)
      returns (r: Result<bool, LaunchError>, own: bool)
      requires Inv(world) && ByOthers(w, process) && HoldsNothing(world, process) && 1 <= slot <= MAX_GLUE_LAUNCHES
      requires (process, slot) in world.unseen
      modifies this
      ensures Inv(world) && Ran(old(world), world, process, invocation, w.others, 0)
      ensures r.Ok? && r.value ==>
                if own then Holds(world, process, invocation, binding, slot) else CanReplay(world, process, invocation, binding, slot)
      ensures r.Ok? && r.value && own ==> world.slots[slot].state.Reserved?
      ensures r == Ok(false) ==> HoldsNothing(world, process)
      ensures Foreign(w, invocation) && (binding, slot, invocation) !in old(world).committed && r.Ok? && r.value ==> own
      ensures NoRelaunch(w.others) ==> world.replays == old(world).replays
      ensures IsCalm(w) && slot !in old(world).slots ==> r == Ok(CanReserve(old(world), binding, slot)) && own == r.value
      ensures IsCalm(w) && r == Ok(false) ==> world == old(world)
    {
      hide Ran;
      Others(w, process, invocation);
      ghost var t := world;
      RanOnStep(old(world), t, Reserve(process, invocation, binding, slot), w.others, 0);
      if Foreign(w, invocation) { ForeignRun(old(world), w.others, invocation); }
      if w.fault == LostRequest { return Err(RequestFailed), false; }
      var granted := CanReserve(world, binding, slot);
      own := granted;
      if (binding, slot, invocation) in world.committed && w.replayed {
        assert TokenHolds(world, (binding, slot, invocation));
        granted := true;
      } else if granted {
        ReserveKeeps(world, binding, slot, invocation, process);
        world := WithSlot(world, binding, slot, invocation, process);
      }
      r := if w.fault == Delivered then Ok(granted) else Err(RequestFailed);
    }

    /** The physical call that follows a grant: one, whatever comes of it. */
    method CallGlue(process: nat, binding: string, slot: int, invocation: string, own: bool, w: Weather) returns (started: bool)
      requires Inv(world) && ByOthers(w, process)
      requires if own then Holds(world, process, invocation, binding, slot) else CanReplay(world, process, invocation, binding, slot)
      modifies this
      ensures Inv(world) && Ran(old(world), world, process, invocation, w.others, 1)
      ensures world == Called(old(world), own, binding, slot, invocation, w)
      ensures own && NoRelaunch(w.others) ==> world.replays == old(world).replays
      ensures started <==> w.fault == Delivered && w.started.Some?
      ensures w.started.Some? ==> StartedBy(world, binding, slot, w.started.value)
      ensures slot in world.slots && world.slots[slot].binding == binding && world.slots[slot].invocation == invocation
      ensures IsCalm(w) ==> world.slots == old(world).slots
    {
      hide Inv;
      hide Ran;
      hide StartedBy;
      Others(w, process, invocation);
      GrantStays(old(world), world, process, own, binding, slot, invocation);
      ghost var t := world;
      ghost var step := if own then Launch(process, invocation, binding, slot, w.started)
                        else Relaunch(process, invocation, binding, slot, w.started);
      RanOnStep(old(world), t, step, w.others, 0);
      ActKeeps(world, own, binding, slot, invocation, w.started);
      world := ActOn(world, own, binding, slot, invocation, w.started);
      if w.started.Some? { CallStarts(t, own, binding, slot, invocation, w.started.value); }
      started := w.fault == Delivered && w.started.Some?;
    }

    /** The one physical call that follows a grant, and the record of its job. */
    method LaunchJob(process: nat, binding: string, slot: int, invocation: string, own: bool, w: Weather, w': Weather)
      returns (r: Result<string, LaunchError>, ghost met: seq<Step>)
      requires Inv(world) && ByOthers(w, process) && ByOthers(w', process)
      requires if own then Holds(world, process, invocation, binding, slot) else CanReplay(world, process, invocation, binding, slot)
      modifies this
      ensures Inv(world) && Ran(old(world), world, process, invocation, met, 1)
      ensures met == w.others || met == w.others + w'.others
      ensures var called := Called(old(world), own, binding, slot, invocation, w);
              var after := Run(called, w'.others);
              if w.fault != Delivered || w.started.None? then r.Err? && world == called
              else world == after
                   || (CanComplete(after, invocation, binding, slot, w.started.value) && world == Recorded(after, slot, w.started.value))
      ensures r.Ok? ==> r.value == w.started.value && StartedBy(world, binding, slot, r.value)
      ensures own && NoRelaunch(w.others) && NoRelaunch(w'.others) ==> world.replays == old(world).replays
      ensures w.others == w'.others == [] ==> |world.calls| == |old(world).calls| + 1
      ensures IsCalm(w) && IsCalm(w') && old(world).slots[slot].state.Reserved? ==> r == Ok(w.started.value)
    {
      hide Inv;
      hide Ran;
      hide StartedBy;
      var started := CallGlue(process, binding, slot, invocation, own, w);
      met := w.others;
      if !started { return Err(LaunchFailed), met; }
      var jobRunId := w.started.value;
      ghost var called := world;
      Others(w', process, invocation);
      RanOn(old(world), called, world, process, invocation, w.others, 1, w'.others, 0);
      met := w.others + w'.others;
      StartStays(called, world, binding, slot, jobRunId);
      ghost var after := world;
      r := RecordJob(process, binding, slot, invocation, jobRunId, w');
      RanOn(old(world), after, world, process, invocation, met, 1, [], 0);
      assert met + [] == met;
    }

    /** The conditional update that completes the slot; another bearer of the id may have come first. */
    method RecordJob(process: nat, binding: string, slot: int, invocation: string, jobRunId: string, w: Weather)
      returns (r: Result<string, LaunchError>)
      requires Inv(world) && StartedBy(world, binding, slot, jobRunId)
      modifies this
      ensures Inv(world) && Ran(old(world), world, process, invocation, [], 0) && StartedBy(world, binding, slot, jobRunId)
      ensures world == if w.fault != LostRequest && CanComplete(old(world), invocation, binding, slot, jobRunId)
                       then Recorded(old(world), slot, jobRunId) else old(world)
      ensures r.Ok? ==> r.value == jobRunId
      ensures w.fault == Delivered ==> (r.Ok? <==> CanComplete(old(world), invocation, binding, slot, jobRunId))
    {
      RanNot(world, process, invocation);
      RanByStep(world, Complete(process, invocation, binding, slot, jobRunId));
      if w.fault == LostRequest || !CanComplete(world, invocation, binding, slot, jobRunId) { return Err(RequestFailed); }
      CompleteKeeps(world, invocation, binding, slot, jobRunId);
      world := Recorded(world, slot, jobRunId);
      r := if w.fault == Delivered then Ok(jobRunId) else Err(RequestFailed);
    }

    /** The consistent read of a slot. */
    method ReadSlot(process: nat, slot: int, invocation: string, w: Weather) returns (r: Result<Option<Slot>, LaunchError>)
      requires Inv(world) && ByOthers(w, process) && HoldsNothing(world, process)
      modifies this
      ensures Inv(world) && Ran(old(world), world, process, invocation, w.others, 0) && HoldsNothing(world, process)
      ensures Undisturbed(old(world), world, process)
      ensures NoRelaunch(w.others) ==> world.replays == old(world).replays
      ensures r.Ok? <==> w.fault == Delivered
      ensures r.Ok? ==> r.value == if slot in world.slots then Some(world.slots[slot]) else None
      ensures r == Ok(None) ==> (process, slot) in world.unseen
      ensures w.others == [] && slot in old(world).slots ==> world == old(world)
      ensures w.others == [] ==> world.slots == old(world).slots && world.authority == old(world).authority
    {
      hide Ran;
      Others(w, process, invocation);
      ghost var t := world;
      RanOnStep(old(world), t, Look(process, invocation, slot), w.others, 0);
      LookKeeps(t, process, slot);
      world := Looked(world, process, slot);
      if w.fault != Delivered { return Err(RequestFailed); }
      r := Ok(if slot in world.slots then Some(world.slots[slot]) else None);
    }

    /** One slot: its completed job, or a launch of its own, or nothing (`None`) when it is consumed. At most one
        physical call is made; with no other bearer of its id about, none on a replayed grant. */
    method TrySlot(process: nat, binding: string, slot: int, invocation: string, w: nat -> Weather)
      returns (r: Result<Option<string>, LaunchError>, ghost met: seq<Step>, ghost made: nat)
      requires Inv(world) && HoldsNothing(world, process) && 1 <= slot <= MAX_GLUE_LAUNCHES && forall i :: ByOthers(w(i), process)
      modifies this
      ensures Inv(world) && Ran(old(world), world, process, invocation, met, made) && Meets(met, w)
      ensures made <= 1 && (r == Ok(None) ==> made == 0 && HoldsNothing(world, process))
      ensures r.Ok? && r.value.Some? ==> StartedBy(world, binding, slot, r.value.value)
      ensures (forall i :: Alone(w(i), invocation)) ==> world.replays == old(world).replays
      ensures Calm(w) && old(world).authority == Some(binding) ==>
                && r.Ok? && (r.value.Some? <==> Available(old(world), slot))
                && (r.value.None? ==> world == old(world))
    {
      hide Ran;
      hide Meets;
      hide StartedBy;
      hide Called;
      hide Recorded;
      hide Run;
      MeetsAt(w, 0);
      var read := ReadSlot(process, slot, invocation, w(0));
      met, made := w(0).others, 0;
      if read.Err? { return Err(read.error), met, made; }
      if read.value.Some? {
        var existing := read.value.value;
        assert SlotHolds(world, slot);
        if existing.binding != binding { return Err(AttemptConflict), met, made; }
        return Ok(if existing.state.Completed? then Some(existing.state.jobRunId) else None), met, made;
      }
      ghost var t := world;
      assert (binding, slot, invocation) in world.committed ==> TokenHolds(world, (binding, slot, invocation));
      var granted, own := ReserveSlot(process, binding, slot, invocation, w(1));
      RanOn(old(world), t, world, process, invocation, met, 0, w(1).others, 0);
      MeetsAt(w, 1);
      MeetsBoth(met, w(1).others, w);
      met := met + w(1).others;
      if granted.Err? { return Err(granted.error), met, made; }
      ghost var t' := world;
      if granted.value {
        var launched, more := LaunchJob(process, binding, slot, invocation, own, w(2), w(3));
        RanOn(old(world), t', world, process, invocation, met, 0, more, 1);
        MeetsAt(w, 2);
        MeetsAt(w, 3);
        MeetsBoth(w(2).others, w(3).others, w);
        MeetsBoth(met, more, w);
        met, made := met + more, 1;
        return if launched.Ok? then Ok(Some(launched.value)) else Err(launched.error), met, made;
      }
      Others(w(4), process, invocation);
      RanOn(old(world), t', world, process, invocation, met, 0, w(4).others, 0);
      MeetsAt(w, 4);
      MeetsBoth(met, w(4).others, w);
      met := met + w(4).others;
      if w(4).fault != Delivered { return Err(RequestFailed), met, made; }
      if slot !in world.slots || world.slots[slot].binding != binding { return Err(NoWinner), met, made; }
      r := Ok(None);
    }

    /** `start`: over all its requests the world only takes its own steps, under its own id, and those of others
        that it meets, so `RanIsBounded` applies to it; of the physical calls at most one is its own, and with no
        other bearer of its id about that one is not on a replayed grant, so that three stay three. A returned job
        was started by a call under this binding. Undisturbed, it succeeds exactly when the authority is its own
        to claim and one of the slots is available. */
    method Start(process: nat, binding: string, invocation: string, w: nat -> Weather)
      returns (r: Result<string, LaunchError>, ghost met: seq<Step>, ghost made: nat)
      requires Inv(world) && HoldsNothing(world, process) && forall i :: ByOthers(w(i), process)
      modifies this
      ensures Inv(world) && Ran(old(world), world, process, invocation, met, made) && Meets(met, w) && made <= 1
      ensures |world.calls| <= MAX_GLUE_LAUNCHES + world.replays
      ensures (forall i :: Alone(w(i), invocation)) ==> world.replays == old(world).replays
      ensures r.Ok? ==> exists slot :: StartedBy(world, binding, slot, r.value)
      ensures Calm(w) ==>
                (r.Ok? <==>
                   && IsBoundedIdentity(invocation) && old(world).authority in {None, Some(binding)}
                   && exists slot :: Available(old(world), slot))
    {
      hide Ran;
      hide Meets;
      hide Inv;
      hide StartedBy;
      ghost var start := world;
      RanNot(start, process, invocation);
      met, made := [], 0;
      NothingMet(w);
      CallsAreBounded(world);
      if !IsBoundedIdentity(invocation) { return Err(BadIdentity), met, made; }
      var claimed;
      claimed, met := ClaimAuthority(process, binding, invocation, w(0), w(1));
      MeetsAt(w, 0);
      MeetsAt(w, 1);
      MeetsBoth(w(0).others, w(1).others, w);
      CallsAreBounded(world);
      if claimed.Some? { return Err(claimed.value), met, made; }
      ghost var claim := world;
      for slot := 1 to MAX_GLUE_LAUNCHES + 1
        invariant Inv(world) && Ran(start, world, process, invocation, met, 0) && Meets(met, w) && HoldsNothing(world, process)
        invariant made == 0 && |world.calls| <= MAX_GLUE_LAUNCHES + world.replays
        invariant (forall i :: Alone(w(i), invocation)) ==> world.replays == start.replays
        invariant Calm(w) ==> world == claim && forall s | 1 <= s < slot :: !Available(claim, s)
      {
        ghost var t := world;
        var tried, more, one := TrySlot(process, binding, slot, invocation, (i: nat) => w(5 * slot + i));
        RanOn(start, t, world, process, invocation, met, 0, more, one);
        MeetsLater(more, w, 5 * slot);
        MeetsBoth(met, more, w);
        met, made := met + more, one;
        CallsAreBounded(world);
        if tried.Err? { return Err(tried.error), met, made; }
        if tried.value.Some? {
          assert Calm(w) ==> Available(claim, slot) && Available(start, slot);
          return Ok(tried.value.value), met, made;
        }
      }
      assert Calm(w) ==> forall s :: Available(start, s) == Available(claim, s);
      r := Err(BudgetExhausted);
    }
  }

  lemma NothingMet(w: nat -> Weather)
    ensures Meets([], w)
  {
  }
}
