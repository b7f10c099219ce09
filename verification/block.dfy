/** Block volumes: creation with its conflicts, deletion, and publishing, where the initiator group of a
    LUN decides which node may use it. */
module Blocks {
  import opened Common
  import opened Capacity
  import opened Identifiers
  import AccessModel

  type Life = AccessModel.Life

  type Answer = AccessModel.Answer

  const MASK_ALL := "com.sun.ms.vss.hg.maskAll"

  // What the appliance says about a LUN.
  datatype LunInfo = LunInfo(size: int, href: string, groups: seq<string>, target: string, numbers: seq<int>)

  type Luns = map<string, LunInfo>

  datatype LunState = LunState(id: VolumeId, state: Life, capacity: int, accessModes: seq<AccessMode>,
                               href: string, groups: seq<string>, target: string)

  datatype CreateRequest = CreateRequest(range: Option<Range>, capabilities: seq<Capability>, target: string)

  /** How the appliance answers: the creation (a conflict is a reply), the enquiry that follows a
      conflict, and what it says of a new LUN. */
  datatype Answers = Answers(create: Answer, getFails: bool, href: string, numbers: seq<int>)

  datatype Outcome =
    | Done
    | Served(volumeId: string, capacity: int)
    | AlreadyExists | FailedPrecondition | ApplianceFailure
    | Crash

  datatype After = After(lun: LunState, luns: Luns, outcome: Outcome)

  function NewLun(id: VolumeId): LunState { LunState(id, AccessModel.Creating, 0, [], "", [], "") }

  function WithInfo(lun: LunState, info: LunInfo): LunState {
    lun.(capacity := info.size, href := info.href, groups := info.groups, target := info.target,
         state := AccessModel.Created)
  }

  function NewInfo(req: CreateRequest, ans: Answers): LunInfo {
    LunInfo(VolumeSize(req.range), ans.href, [MASK_ALL], req.target, ans.numbers)
  }

  // ---- What the operations do ----

  /** The appliance has a LUN of that name already. When nothing speaks against it, the answer is
      logged from a variable that is set by a creation only. */
  function Conflict(lun: LunState, luns: Luns, req: CreateRequest, getFails: bool): After
    requires lun.id.name in luns
  {
    if lun.state.Created? && getFails then After(lun, luns, ApplianceFailure)
    else
      var known := if lun.state.Created? then WithInfo(lun, luns[lun.id.name]) else lun;
      var compatible := RangeAllows(req.range, known.capacity) && Supported(req.capabilities, known.accessModes, true);
      After(known, luns, if compatible then Crash else AlreadyExists)
  }

  function CreateLun(lun: LunState, luns: Luns, req: CreateRequest, ans: Answers): After {
    if !ans.create.Reply? then
      After(lun.(state := AccessModel.Deleted),
            if ans.create.Lost? && lun.id.name !in luns then luns[lun.id.name := NewInfo(req, ans)] else luns,
            ApplianceFailure)
    else if lun.id.name in luns then Conflict(lun, luns, req, ans.getFails)
    else
      var created := WithInfo(lun, NewInfo(req, ans));
      After(created, luns[lun.id.name := NewInfo(req, ans)],
            if ans.numbers == [] then Crash else Served(VolumeIdString(lun.id), created.capacity))
  }

  function DeleteLun(lun: LunState, luns: Luns, answer: Answer): After {
    if !lun.state.Created? then After(lun, luns, Done)
    else if answer.Fail? then After(lun, luns, ApplianceFailure)
    else
      var left := AccessModel.HashDelete(luns, lun.id.name);
      if answer.Lost? then After(lun, left, ApplianceFailure)
      else After(lun.(state := AccessModel.Deleted), left, Done)  // 404 counts as success
  }

  function FetchLun(lun: LunState, luns: Luns, getFails: bool): After {
    if getFails || lun.id.name !in luns then After(lun, luns, ApplianceFailure)
    else After(WithInfo(lun, luns[lun.id.name]), luns, Done)
  }

  function WithGroup(luns: Luns, name: string, group: string): Luns
    requires name in luns
  {
    luns[name := luns[name].(groups := [group])]
  }

  /** The initiator groups are read, compared, and set in a second call; either call may fail. */
  function PublishLun(lun: LunState, luns: Luns, node: string, getFails: bool, put: Answer): After {
    var name := lun.id.name;
    if getFails || name !in luns then After(lun, luns, ApplianceFailure)
    else if luns[name].groups == [] then After(lun, luns, Crash)
    else if luns[name].groups != [MASK_ALL] then After(lun, luns, FailedPrecondition)
    else After(lun, if put.Fail? then luns else WithGroup(luns, name, node),
               if put.Reply? then Done else ApplianceFailure)
  }

  function UnpublishLun(lun: LunState, luns: Luns, put: Answer): After {
    After(lun, if put.Fail? || lun.id.name !in luns then luns else WithGroup(luns, lun.id.name, MASK_ALL),
          if put.Reply? then Done else ApplianceFailure)  // 404 counts as success
  }

  // ---- The LUN object ----

  // The appliance, as far as LUNs go.
  class Appliance {
    var luns: Luns

    constructor ()
      ensures luns == map[]
    {
      luns := map[];
    }
  }

  class Lun {
    const id: VolumeId
    var state: Life
    var capacity: int
    var accessModes: seq<AccessMode>
    var href: string
    var groups: seq<string>
    var target: string

    ghost function View(): LunState
      reads this
    {
      LunState(id, state, capacity, accessModes, href, groups, target)
    }

    constructor (id: VolumeId)
      ensures View() == NewLun(id)
    {
      this.id := id;
      state, capacity, accessModes, href, groups, target := AccessModel.Creating, 0, [], "", [], "";
    }

    method SetInfo(info: LunInfo)
      modifies this
      ensures View() == WithInfo(old(View()), info)
    {
      capacity := info.size;
      href := info.href;
      groups := info.groups;
      target := info.target;
      state := AccessModel.Created;
    }

    method Create(appliance: Appliance, req: CreateRequest, ans: Answers) returns (outcome: Outcome)
      modifies this, appliance
      ensures After(View(), appliance.luns, outcome) == CreateLun(old(View()), old(appliance.luns), req, ans)
    {
      var size := GetVolumeSize(req.range);
      var info, conflict := LunInfo(size, ans.href, [MASK_ALL], req.target, ans.numbers), id.name in appliance.luns;
      if !ans.create.Fail? && !conflict { appliance.luns := appliance.luns[id.name := info]; }
      if !ans.create.Reply? {
        state := AccessModel.Deleted;
        return ApplianceFailure;
      }
      var answer := None;
      if conflict {
        if state.Created? {
          if ans.getFails { return ApplianceFailure; }
          SetInfo(appliance.luns[id.name]);  // the answer to the enquiry is known in this block only
        }
        if !RangeAllows(req.range, capacity) { return AlreadyExists; }
        var supported := CompareCapabilities(req.capabilities, accessModes, true);
        if !supported { return AlreadyExists; }
      } else {
        SetInfo(info);
        answer := Some(info);
      }
      if answer.None? || answer.value.numbers == [] { return Crash; }
      return Served(VolumeIdString(id), capacity);
    }

    method Delete(appliance: Appliance, answer: Answer) returns (outcome: Outcome)
      modifies this, appliance
      ensures After(View(), appliance.luns, outcome) == DeleteLun(old(View()), old(appliance.luns), answer)
    {
      if state.Created? {
        if !answer.Fail? { appliance.luns := AccessModel.HashDelete(appliance.luns, id.name); }
        if !answer.Reply? { return ApplianceFailure; }
        state := AccessModel.Deleted;
      }
      return Done;
    }

    method GetDetails(appliance: Appliance, getFails: bool) returns (outcome: Outcome)
      modifies this
      ensures After(View(), appliance.luns, outcome) == FetchLun(old(View()), appliance.luns, getFails)
    {
      if getFails || id.name !in appliance.luns { return ApplianceFailure; }
      SetInfo(appliance.luns[id.name]);
      return Done;
    }

    method Publish(appliance: Appliance, node: string, getFails: bool, put: Answer) returns (outcome: Outcome)
      modifies appliance
      ensures After(View(), appliance.luns, outcome) == PublishLun(View(), old(appliance.luns), node, getFails, put)
    {
      if getFails || id.name !in appliance.luns { return ApplianceFailure; }
      var list := appliance.luns[id.name].groups;
      if |list| == 0 { return Crash; }  // list[0] is logged before the length is checked
      if |list| != 1 || list[0] != MASK_ALL { return FailedPrecondition; }
      if !put.Fail? { appliance.luns := WithGroup(appliance.luns, id.name, node); }
      return if put.Reply? then Done else ApplianceFailure;
    }

    method Unpublish(appliance: Appliance, put: Answer) returns (outcome: Outcome)
      modifies appliance
      ensures After(View(), appliance.luns, outcome) == UnpublishLun(View(), old(appliance.luns), put)
    {
      if !put.Fail? && id.name in appliance.luns {
        appliance.luns := WithGroup(appliance.luns, id.name, MASK_ALL);
      }
      return if put.Reply? then Done else ApplianceFailure;
    }
  }

  // ---- Any number of operations on one LUN ----

  datatype Operation =
    | Creation(req: CreateRequest, ans: Answers)
    | Deletion(answer: Answer)
    | Details(getFails: bool)
    | Publish(node: string, getFails: bool, put: Answer)
    | Unpublish(put: Answer)

  function Perform(lun: LunState, luns: Luns, op: Operation): After {
    match op
    case Creation(req, ans) => CreateLun(lun, luns, req, ans)
    case Deletion(answer) => DeleteLun(lun, luns, answer)
    case Details(getFails) => FetchLun(lun, luns, getFails)
    case Publish(node, getFails, put) => PublishLun(lun, luns, node, getFails, put)
    case Unpublish(put) => UnpublishLun(lun, luns, put)
  }

  predicate Leads(states: seq<After>, ops: seq<Operation>, i: nat)
    requires i < |ops| < |states|
  {
    states[i + 1] == Perform(states[i].lun, states[i].luns, ops[i])
  }

  /** The operations lead from one state to the next, starting with a LUN object that knows nothing; the
      appliance may hold LUNs already. */
  ghost predicate Path(states: seq<After>, ops: seq<Operation>) {
    && |states| == |ops| + 1
    && states[0].lun == NewLun(states[0].lun.id)
    && forall i | 0 <= i < |ops| :: Leads(states, ops, i)
  }

  // The appliance has the LUN.
  predicate Present(state: After) { state.lun.id.name in state.luns }

  function GroupsOf(state: After): seq<string>
    requires Present(state)
  {
    state.luns[state.lun.id.name].groups
  }

  /** Operations never fill in the access modes, and never change the ID. */
  lemma {:induction false} NoAccessModes(states: seq<After>, ops: seq<Operation>, i: nat)
    requires Path(states, ops) && i < |states|
    ensures states[i].lun.accessModes == [] && states[i].lun.id == states[0].lun.id
  {
    if i > 0 {
      NoAccessModes(states, ops, i - 1);
      assert Leads(states, ops, i - 1);
      PerformKeepsModes(states[i - 1].lun, states[i - 1].luns, ops[i - 1]);
    }
  }

  lemma PerformKeepsModes(lun: LunState, luns: Luns, op: Operation)
    ensures var after := Perform(lun, luns, op).lun; after.accessModes == lun.accessModes && after.id == lun.id
  {
  }

  // ---- Creation ----

  /** However a LUN object came about, a creation request that meets an existing LUN never succeeds. It
      crashes exactly when it asks for no capability and its range contains the capacity, as far as the
      object knows it; requests are validated to ask for a capability, so that they are turned down,
      compatible or not, unless already the enquiry fails. */
  lemma ConflictExactly(states: seq<After>, ops: seq<Operation>, i: nat)
    requires Path(states, ops) && i < |ops| && ops[i].Creation? && ops[i].ans.create.Reply? && Present(states[i])
    ensures var lun, req := states[i].lun, ops[i].req;
            var capacity := if lun.state.Created? then states[i].luns[lun.id.name].size else lun.capacity;
            states[i + 1].outcome ==
              if lun.state.Created? && ops[i].ans.getFails then ApplianceFailure
              else if req.capabilities == [] && RangeAllows(req.range, capacity) then Crash
              else AlreadyExists
  {
    NoAccessModes(states, ops, i);
    assert Leads(states, ops, i);
    NothingSupported(ops[i].req.capabilities);
  }

  lemma NothingSupported(caps: seq<Capability>)
    ensures Supported(caps, [], true) <==> caps == []
  {
    if caps != [] { assert caps[0] in caps; }
  }

  // The operation removes the LUN from the appliance.
  predicate Removes(state: After, op: Operation) {
    op.Deletion? && Present(state) && state.lun.state.Created? && !op.answer.Fail?
  }

  /** A LUN stays on the appliance until a deletion takes effect. */
  lemma {:induction false} PresentUntilRemoved(states: seq<After>, ops: seq<Operation>, i: nat, j: nat)
    requires Path(states, ops) && i <= j < |states| && Present(states[i])
    requires forall k | i <= k < j :: !Removes(states[k], ops[k])
    ensures Present(states[j])
  {
    if i < j {
      PresentUntilRemoved(states, ops, i, j - 1);
      assert Leads(states, ops, j - 1);
      PerformKeepsPresent(states[j - 1], ops[j - 1]);
    }
  }

  lemma PerformKeepsPresent(state: After, op: Operation)
    requires Present(state)
    ensures Present(Perform(state.lun, state.luns, op)) <==> !Removes(state, op)
  {
  }

  lemma ServedWhenAbsent(states: seq<After>, ops: seq<Operation>, i: nat)
    requires Path(states, ops) && i < |ops| && ops[i].Creation? && states[i + 1].outcome.Served?
    ensures !Present(states[i]) && Present(states[i + 1])
  {
    assert Leads(states, ops, i);
    if ops[i].ans.create.Reply? && Present(states[i]) { ConflictExactly(states, ops, i); }
  }

  /** Creation of a LUN is not idempotent: of any two creation requests that succeed, equal or not, one
      comes before a deletion of the LUN and the other after it. */
  lemma CreationIsNotIdempotent(states: seq<After>, ops: seq<Operation>, i: nat, j: nat)
    requires Path(states, ops) && i < j < |ops| && ops[i].Creation? && ops[j].Creation?
    requires states[i + 1].outcome.Served? && states[j + 1].outcome.Served?
    ensures exists k | i < k < j :: Removes(states[k], ops[k])
  {
    ServedWhenAbsent(states, ops, i);
    ServedWhenAbsent(states, ops, j);
    if forall k | i < k < j :: !Removes(states[k], ops[k]) {
      PresentUntilRemoved(states, ops, i + 1, j);
      assert false;
    }
  }

  /** A creation that meets no LUN of its name succeeds exactly when its answer arrives and has an assigned
      number. The LUN is then there, masked, with the size of the response, and the object knows it. */
  lemma CreationOutcome(states: seq<After>, ops: seq<Operation>, i: nat)
    requires Path(states, ops) && i < |ops| && ops[i].Creation? && !Present(states[i])
    ensures var now, ans, id := states[i + 1], ops[i].ans, states[0].lun.id;
            && (now.outcome.Served? <==> ans.create.Reply? && ans.numbers != [])
            && (now.outcome.ApplianceFailure? <==> !ans.create.Reply?)
            && (Present(now) <==> !ans.create.Fail?)
            && (Present(now) ==>
                  var info := now.luns[now.lun.id.name];
                  && info.groups == [MASK_ALL] && info.target == ops[i].req.target
                  && ChosenSize(ops[i].req.range, info.size)
                  && (ans.create.Reply? ==>
                        && now.lun.state.Created? && now.lun.capacity == info.size && now.lun.href == info.href
                        && now.lun.groups == info.groups && now.lun.target == info.target)
                  && (now.outcome.Served? ==> now.outcome == Served(VolumeIdString(id), info.size)))
            && (!ans.create.Reply? ==> now.lun.state.Deleted?)
  {
    NoAccessModes(states, ops, i);
    assert Leads(states, ops, i);
    SizeIsChosen(ops[i].req.range);
  }

  /** A deletion succeeds exactly when its call is answered, or the LUN is not known to exist, in which case
      no call is made. A call that does not fail removes the LUN. */
  lemma DeletionOutcome(states: seq<After>, ops: seq<Operation>, i: nat)
    requires Path(states, ops) && i < |ops| && ops[i].Deletion?
    ensures var before, now, answer := states[i], states[i + 1], ops[i].answer;
            var known := before.lun.state.Created?;
            && (now.outcome.Done? <==> !known || answer.Reply?)
            && (now.outcome.ApplianceFailure? <==> known && !answer.Reply?)
            && (Present(now) <==> Present(before) && (!known || answer.Fail?))
            && now.lun == before.lun.(state := if known && answer.Reply? then AccessModel.Deleted
                                               else before.lun.state)
            && forall name <- before.luns :: name != before.lun.id.name ==>
                 name in now.luns && now.luns[name] == before.luns[name]
  {
    assert Leads(states, ops, i);
  }

  /** An enquiry succeeds exactly when the LUN is there and the call does; the object then knows the LUN. */
  lemma DetailsOutcome(states: seq<After>, ops: seq<Operation>, i: nat)
    requires Path(states, ops) && i < |ops| && ops[i].Details?
    ensures var before, now := states[i], states[i + 1];
            && now.luns == before.luns
            && (now.outcome.Done? <==> !ops[i].getFails && Present(before))
            && (!now.outcome.Done? ==> now.outcome.ApplianceFailure? && now.lun == before.lun)
            && (now.outcome.Done? ==>
                  var info := before.luns[before.lun.id.name];
                  && now.lun.state.Created? && now.lun.capacity == info.size && now.lun.href == info.href
                  && now.lun.groups == info.groups && now.lun.target == info.target)
  {
    assert Leads(states, ops, i);
  }

  // ---- Publishing ----

  // A call of the operation that bears on the initiator group takes effect, whether or not its answer arrives.
  predicate Sets(state: After, op: Operation) {
    match op
    case Creation(_, ans) => !Present(state) && !ans.create.Fail?
    case Deletion(_) => Removes(state, op)
    case Details(_) => false
    case Publish(_, getFails, put) => Present(state) && !getFails && GroupsOf(state) == [MASK_ALL] && !put.Fail?
    case Unpublish(put) => Present(state) && !put.Fail?
  }

  // Of the first n operations, number i published the LUN to node, and nothing bore on the group since.
  ghost predicate LastSet(states: seq<After>, ops: seq<Operation>, i: nat, n: nat, node: string)
    requires n <= |ops| < |states|
  {
    && i < n && Sets(states[i], ops[i]) && ops[i].Publish? && ops[i].node == node
    && forall j | i < j < n :: !Sets(states[j], ops[j])
  }

  ghost predicate LastPublished(states: seq<After>, ops: seq<Operation>, n: nat, node: string)
    requires n <= |ops| < |states|
  {
    exists i :: LastSet(states, ops, i, n, node)
  }

  // What the operation makes of the group.
  predicate GroupAfter(state: After, op: Operation, now: After) {
    if Sets(state, op) then Present(now) ==> GroupsOf(now) == if op.Publish? then [op.node] else [MASK_ALL]
    else (Present(now) <==> Present(state)) && (Present(now) ==> GroupsOf(now) == GroupsOf(state))
  }

  lemma PerformSetsGroup(state: After, op: Operation)
    ensures GroupAfter(state, op, Perform(state.lun, state.luns, op))
    ensures Sets(state, op) && op.Publish? ==>
              Present(state) && GroupsOf(state) == [MASK_ALL] && Present(Perform(state.lun, state.luns, op))
  {
  }

  // The group of the LUN is as described.
  ghost predicate GroupKnown(states: seq<After>, ops: seq<Operation>, n: nat, groups: seq<string>)
    requires n <= |ops| < |states|
  {
    && |groups| == 1
    && (groups == [MASK_ALL] || LastPublished(states, ops, n, groups[0]))
    && (forall node | LastPublished(states, ops, n, node) :: groups == [node])
  }

  /** Starting without the LUN or with a masked one, after any number of operations that may fail or lose
      their answers, the LUN's group is the node of the last publish, if nothing bore on the group since,
      and the mask otherwise. */
  lemma {:induction false} GroupIsMaskOrLastNode(states: seq<After>, ops: seq<Operation>, n: nat)
    requires Path(states, ops) && n < |states|
    requires Present(states[0]) ==> GroupsOf(states[0]) == [MASK_ALL]
    ensures Present(states[n]) ==> GroupKnown(states, ops, n, GroupsOf(states[n]))
  {
    if n > 0 {
      GroupIsMaskOrLastNode(states, ops, n - 1);
      assert Leads(states, ops, n - 1);
      PerformSetsGroup(states[n - 1], ops[n - 1]);
      if Present(states[n]) {
        if Sets(states[n - 1], ops[n - 1]) {
          GroupSet(states, ops, n - 1, GroupsOf(states[n]));
        } else {
          GroupStays(states, ops, n - 1, GroupsOf(states[n]));
        }
      }
    }
  }

  lemma GroupSet(states: seq<After>, ops: seq<Operation>, i: nat, groups: seq<string>)
    requires i < |ops| < |states| && Sets(states[i], ops[i])
    requires groups == if ops[i].Publish? then [ops[i].node] else [MASK_ALL]
    ensures GroupKnown(states, ops, i + 1, groups)
  {
    assert ops[i].Publish? ==> LastSet(states, ops, i, i + 1, ops[i].node);
  }

  lemma GroupStays(states: seq<After>, ops: seq<Operation>, i: nat, groups: seq<string>)
    requires i < |ops| < |states| && !Sets(states[i], ops[i]) && GroupKnown(states, ops, i, groups)
    ensures GroupKnown(states, ops, i + 1, groups)
  {
    forall node ensures LastPublished(states, ops, i + 1, node) <==> LastPublished(states, ops, i, node) {
      LastPublishedStays(states, ops, i, node);
    }
  }

  lemma LastPublishedStays(states: seq<After>, ops: seq<Operation>, n: nat, node: string)
    requires n < |ops| < |states| && !Sets(states[n], ops[n])
    ensures LastPublished(states, ops, n + 1, node) <==> LastPublished(states, ops, n, node)
  {
    if LastPublished(states, ops, n + 1, node) {
      var i :| LastSet(states, ops, i, n + 1, node);
      assert LastSet(states, ops, i, n, node);
    }
    if LastPublished(states, ops, n, node) {
      var i :| LastSet(states, ops, i, n, node);
      assert LastSet(states, ops, i, n + 1, node);
    }
  }

  /** No publish ever crashes on such a LUN. */
  lemma PublishNeverCrashes(states: seq<After>, ops: seq<Operation>, n: nat)
    requires Path(states, ops) && n < |ops| && ops[n].Publish?
    requires Present(states[0]) ==> GroupsOf(states[0]) == [MASK_ALL]
    ensures !states[n + 1].outcome.Crash?
  {
    GroupIsMaskOrLastNode(states, ops, n);
    assert Leads(states, ops, n);
  }

  // The LUN is there and some node may use it.
  predicate Unmasked(state: After) { Present(state) && GroupsOf(state) != [MASK_ALL] }

  // The LUN is there and no node may use it.
  predicate Masked(state: After) { Present(state) && GroupsOf(state) == [MASK_ALL] }

  /** The answers of a publish. It succeeds exactly when the LUN is there and masked and no call fails, and
      then the group is the node; it is turned down exactly when the group is another one, and crashes
      exactly when there is none; in the latter two cases nothing changes. */
  lemma PublishOutcome(states: seq<After>, ops: seq<Operation>, i: nat)
    requires Path(states, ops) && i < |ops| && ops[i].Publish?
    ensures var before, now, op := states[i], states[i + 1], ops[i];
            && (now.outcome.Done? <==> !op.getFails && Masked(before) && op.put.Reply?)
            && (now.outcome.Done? ==> Present(now) && GroupsOf(now) == [op.node])
            && (now.outcome.FailedPrecondition? <==>
                  !op.getFails && Present(before) && |GroupsOf(before)| > 0 && !Masked(before))
            && (now.outcome.Crash? <==> !op.getFails && Present(before) && |GroupsOf(before)| == 0)
            && (now.outcome.ApplianceFailure? <==>
                  op.getFails || !Present(before) || (Masked(before) && !op.put.Reply?))
            && (now.outcome.FailedPrecondition? || now.outcome.Crash? ==> now.luns == before.luns)
            && now.lun == before.lun
  {
    assert Leads(states, ops, i);
  }

  /** An unpublish succeeds exactly when its call is answered, and then the LUN is masked, if it is there. */
  lemma UnpublishOutcome(states: seq<After>, ops: seq<Operation>, i: nat)
    requires Path(states, ops) && i < |ops| && ops[i].Unpublish?
    ensures var before, now, put := states[i], states[i + 1], ops[i].put;
            && now.outcome == (if put.Reply? then Done else ApplianceFailure)
            && (Present(now) <==> Present(before)) && now.lun == before.lun
            && (Present(before) && !put.Fail? ==> Masked(now))
            && (put.Fail? ==> now.luns == before.luns)
  {
    assert Leads(states, ops, i);
  }

  /** Between two publishes that succeed, the first to a node rather than to the mask, the LUN is unpublished,
      or removed: in particular two nodes are never told one after the other that the LUN is theirs. */
  lemma PublishesAlternate(states: seq<After>, ops: seq<Operation>, i: nat, j: nat)
    requires Path(states, ops) && i < j < |ops|
    requires ops[i].Publish? && states[i + 1].outcome.Done? && ops[i].node != MASK_ALL
    requires ops[j].Publish? && states[j + 1].outcome.Done?
    ensures exists k | i < k < j :: Sets(states[k], ops[k]) && !ops[k].Publish?
  {
    PublishOutcome(states, ops, i);
    PublishOutcome(states, ops, j);
    var k := MaskedBetween(states, ops, i + 1, j);
  }

  /** After an unpublish that succeeds the next publish succeeds too, if its calls do and the LUN is there. */
  lemma PublishAfterUnpublish(states: seq<After>, ops: seq<Operation>, i: nat, j: nat)
    requires Path(states, ops) && i < j < |ops| && ops[i].Unpublish? && states[i + 1].outcome.Done?
    requires forall k | i < k < j :: ops[k].Publish? ==> !Sets(states[k], ops[k])
    requires ops[j].Publish? && !ops[j].getFails && ops[j].put.Reply? && Present(states[i]) && Present(states[j])
    ensures states[j + 1].outcome.Done? && Present(states[j + 1]) && GroupsOf(states[j + 1]) == [ops[j].node]
  {
    UnpublishOutcome(states, ops, i);
    StaysMasked(states, ops, i + 1, j);
    PublishOutcome(states, ops, j);
  }

  lemma {:induction false} StaysMasked(states: seq<After>, ops: seq<Operation>, i: nat, j: nat)
    requires Path(states, ops) && i <= j <= |ops| && (Present(states[i]) ==> Masked(states[i]))
    requires forall k | i <= k < j :: ops[k].Publish? ==> !Sets(states[k], ops[k])
    ensures Present(states[j]) ==> Masked(states[j])
  {
    if i < j {
      StaysMasked(states, ops, i, j - 1);
      assert Leads(states, ops, j - 1);
      PerformSetsGroup(states[j - 1], ops[j - 1]);
    }
  }

  lemma {:induction false} MaskedBetween(states: seq<After>, ops: seq<Operation>, i: nat, j: nat) returns (k: nat)
    requires Path(states, ops) && i <= j < |states| && Unmasked(states[i]) && !Unmasked(states[j])
    ensures i <= k < j && Sets(states[k], ops[k]) && !ops[k].Publish?
  {
    k := j - 1;
    if Unmasked(states[k]) {
      assert Leads(states, ops, k);
      PerformSetsGroup(states[k], ops[k]);
    } else {
      k := MaskedBetween(states, ops, i, k);
    }
  }
}
