/** Filesystem volumes: creation with its retries, expansion, and the state they leave behind. */
module Filesystems {
  import opened Common
  import opened Capacity
  import opened Identifiers
  import AccessModel

  type Life = AccessModel.Life

  const FILESYSTEM_ACCESS_MODES := [
    SingleNodeWriter, MultiNodeMultiWriter, SingleNodeReaderOnly, MultiNodeReaderOnly, SingleNodeReaderOnly]

  // What the appliance says about a filesystem.
  datatype FsInfo = FsInfo(quota: int, readOnly: bool, mountpoint: string, href: string)

  datatype FsState = FsState(id: VolumeId, state: Life, capacity: int, accessModes: seq<AccessMode>,
                             mountpoint: string, href: string)

  datatype CreateRequest = CreateRequest(range: Option<Range>, capabilities: seq<Capability>)

  type Answer = AccessModel.Answer

  /** How the appliance answers: the creation (a conflict is a reply), the enquiry that follows a
      conflict, and where it puts a new filesystem. */
  datatype Answers = Answers(create: Answer, getFails: bool, mountpoint: string, href: string)

  datatype Response = Response(volumeId: string, capacity: int)

  datatype FsError = AlreadyExists | ApplianceFailure

  type Shares = map<string, FsInfo>

  datatype After = After(fs: FsState, shares: Shares, result: Result<Response, FsError>)

  function NewFilesystem(id: VolumeId): FsState { FsState(id, AccessModel.Creating, 0, [], "", "") }

  function ModesOf(info: FsInfo): seq<AccessMode> {
    if info.readOnly then FILESYSTEM_ACCESS_MODES[2..] else FILESYSTEM_ACCESS_MODES
  }

  function WithInfo(fs: FsState, info: FsInfo): FsState {
    fs.(capacity := info.quota, mountpoint := info.mountpoint, href := info.href,
        accessModes := ModesOf(info), state := AccessModel.Created)
  }

  function ResponseOf(fs: FsState): Response { Response(VolumeIdString(fs.id), fs.capacity) }

  /** The appliance has a filesystem of that name already. */
  function Conflict(fs: FsState, shares: Shares, req: CreateRequest, getFails: bool): After
    requires fs.id.name in shares
  {
    if fs.state.Created? && getFails then After(fs, shares, Err(ApplianceFailure))
    else
      var known := if fs.state.Created? then WithInfo(fs, shares[fs.id.name]) else fs;
      if RangeAllows(req.range, known.capacity) && Supported(req.capabilities, known.accessModes, false)
      then After(known, shares, Ok(ResponseOf(known)))
      else After(known, shares, Err(AlreadyExists))
  }

  function NewInfo(req: CreateRequest, ans: Answers): FsInfo {
    FsInfo(VolumeSize(req.range), false, ans.mountpoint, ans.href)
  }

  function CreateFs(fs: FsState, shares: Shares, req: CreateRequest, ans: Answers): After {
    if !ans.create.Reply? then
      After(fs.(state := AccessModel.Deleted),
            if ans.create.Lost? && fs.id.name !in shares then shares[fs.id.name := NewInfo(req, ans)] else shares,
            Err(ApplianceFailure))
    else if fs.id.name in shares then Conflict(fs, shares, req, ans.getFails)
    else
      var created := WithInfo(fs, NewInfo(req, ans));
      After(created, shares[fs.id.name := NewInfo(req, ans)], Ok(ResponseOf(created)))
  }

  function ExpandFs(fs: FsState, shares: Shares, required: int, ans: Answer): After {
    if fs.capacity >= required then After(fs, shares, Ok(ResponseOf(fs)))
    else if ans.Fail? || fs.id.name !in shares then After(fs, shares, Err(ApplianceFailure))
    else
      var grown := shares[fs.id.name := shares[fs.id.name].(quota := required)];
      if ans.Lost? then After(fs, grown, Err(ApplianceFailure))
      else After(fs.(capacity := required), grown, Ok(ResponseOf(fs.(capacity := required))))
  }

  // ---- The filesystem object ----

  // The appliance, as far as filesystems go.
  class Appliance {
    var shares: Shares

    constructor ()
      ensures shares == map[]
    {
      shares := map[];
    }
  }

  class Filesystem {
    const id: VolumeId
    var state: Life
    var capacity: int
    var accessModes: seq<AccessMode>
    var mountpoint: string
    var href: string

    ghost function View(): FsState
      reads this
    {
      FsState(id, state, capacity, accessModes, mountpoint, href)
    }

    constructor (id: VolumeId)
      ensures View() == NewFilesystem(id)
    {
      this.id := id;
      state, capacity, accessModes, mountpoint, href := AccessModel.Creating, 0, [], "", "";
    }

    method SetInfo(info: FsInfo)
      modifies this
      ensures View() == WithInfo(old(View()), info)
    {
      capacity := info.quota;
      mountpoint := info.mountpoint;
      href := info.href;
      if info.readOnly {
        accessModes := FILESYSTEM_ACCESS_MODES[2..|FILESYSTEM_ACCESS_MODES|];
      } else {
        accessModes := FILESYSTEM_ACCESS_MODES[0..|FILESYSTEM_ACCESS_MODES|];
      }
      state := AccessModel.Created;
    }

    method Create(appliance: Appliance, req: CreateRequest, ans: Answers) returns (result: Result<Response, FsError>)
      modifies this, appliance
      ensures After(View(), appliance.shares, result) == CreateFs(old(View()), old(appliance.shares), req, ans)
    {
      var size := GetVolumeSize(req.range);
      var info, conflict := FsInfo(size, false, ans.mountpoint, ans.href), id.name in appliance.shares;
      if !ans.create.Fail? && !conflict { appliance.shares := appliance.shares[id.name := info]; }
      if !ans.create.Reply? {
        state := AccessModel.Deleted;
        return Err(ApplianceFailure);
      }
      if conflict {
        if state.Created? {
          if ans.getFails { return Err(ApplianceFailure); }
          SetInfo(appliance.shares[id.name]);
        }
        if !RangeAllows(req.range, capacity) { return Err(AlreadyExists); }
        var supported := CompareCapabilities(req.capabilities, accessModes, false);
        if !supported { return Err(AlreadyExists); }
      } else {
        SetInfo(info);
      }
      return Ok(Response(VolumeIdString(id), capacity));
    }

    method Expand(appliance: Appliance, required: int, ans: Answer) returns (result: Result<Response, FsError>)
      modifies this, appliance
      ensures After(View(), appliance.shares, result) == ExpandFs(old(View()), old(appliance.shares), required, ans)
    {
      if capacity >= required {
        return Ok(Response(VolumeIdString(id), capacity));
      }
      if ans.Fail? || id.name !in appliance.shares {
        return Err(ApplianceFailure);
      }
      appliance.shares := appliance.shares[id.name := appliance.shares[id.name].(quota := required)];
      if ans.Lost? {
        return Err(ApplianceFailure);
      }
      capacity := appliance.shares[id.name].quota;
      return Ok(Response(VolumeIdString(id), capacity));
    }
  }

  // ---- What each operation does ----

  // The access modes a filesystem supports.
  predicate Supports(info: FsInfo, mode: AccessMode) {
    || mode == SingleNodeReaderOnly || mode == MultiNodeReaderOnly
    || (!info.readOnly && (mode == SingleNodeWriter || mode == MultiNodeMultiWriter))
  }

  /** A read-only filesystem supports the reading modes only, any other one the writing modes besides. */
  lemma ModesExactly(info: FsInfo, mode: AccessMode)
    ensures mode in ModesOf(info) <==> Supports(info, mode)
  {
    assert mode in ModesOf(info) <==> exists i | 0 <= i < |ModesOf(info)| :: ModesOf(info)[i] == mode;
  }

  predicate FitsRequest(req: CreateRequest, info: FsInfo) {
    && RangeAllows(req.range, info.quota)
    && forall c <- req.capabilities :: !c.block && Supports(info, c.mode)
  }

  // The object knows what the appliance says.
  predicate Knows(fs: FsState, info: FsInfo) {
    && fs.state.Created? && fs.capacity == info.quota && fs.mountpoint == info.mountpoint && fs.href == info.href
    && forall mode :: mode in fs.accessModes <==> Supports(info, mode)
  }

  // Nothing but the filesystem name changes on the appliance.
  predicate OnlyShare(shares: Shares, now: Shares, name: string) {
    && (forall m <- shares :: m != name ==> m in now && now[m] == shares[m])
    && (forall m <- now :: m != name ==> m in shares)
  }

  /** A creation request that meets no filesystem of its name succeeds exactly when its answer arrives. The
      filesystem is there unless the call fails, writable and with the size that is chosen for the range. */
  lemma CreationOutcome(fs: FsState, shares: Shares, req: CreateRequest, ans: Answers)
    requires fs.id.name !in shares
    ensures var after, name := CreateFs(fs, shares, req, ans), fs.id.name;
            && OnlyShare(shares, after.shares, name) && (name in after.shares <==> !ans.create.Fail?)
            && (name in after.shares ==>
                  !after.shares[name].readOnly && ChosenSize(req.range, after.shares[name].quota))
            && (if ans.create.Reply?
                then Knows(after.fs, after.shares[name])
                     && after.result == Ok(Response(VolumeIdString(fs.id), after.shares[name].quota))
                else after.fs.state.Deleted? && after.result == Err(ApplianceFailure))
            && after.fs.id == fs.id
  {
    SizeIsChosen(req.range);
    forall info: FsInfo, mode ensures mode in ModesOf(info) <==> Supports(info, mode) { ModesExactly(info, mode); }
  }

  /** A creation request that meets a filesystem of its name changes nothing on the appliance. For a cached,
      known filesystem it succeeds exactly when the call and the enquiry are answered and the filesystem fits
      the request; any answer to the call but the conflict marks the object as deleted. */
  lemma ConflictOutcome(fs: FsState, shares: Shares, req: CreateRequest, ans: Answers)
    requires fs.id.name in shares && fs.state.Created?
    ensures var after, info := CreateFs(fs, shares, req, ans), shares[fs.id.name];
            && after.shares == shares
            && (after.result.Ok? <==> ans.create.Reply? && !ans.getFails && FitsRequest(req, info))
            && (after.result.Ok? ==> after.result.value == Response(VolumeIdString(fs.id), info.quota))
            && (after.result == Err(AlreadyExists) <==>
                  ans.create.Reply? && !ans.getFails && !FitsRequest(req, info))
            && (ans.create.Reply? && !ans.getFails ==> Knows(after.fs, info))
            && (ans.create.Reply? && ans.getFails ==> after.fs == fs)
            && (!ans.create.Reply? ==> after.fs == fs.(state := AccessModel.Deleted))
  {
    forall info: FsInfo, mode ensures mode in ModesOf(info) <==> Supports(info, mode) { ModesExactly(info, mode); }
    if FitsRequest(req, shares[fs.id.name]) {
      assert Supported(req.capabilities, ModesOf(shares[fs.id.name]), false);
    }
  }

  /** An expansion makes no call if the capacity the object knows suffices. Otherwise it sets the quota to the
      capacity asked for, unless the call fails, and succeeds exactly when the answer arrives. */
  lemma ExpansionOutcome(fs: FsState, shares: Shares, required: int, ans: Answer)
    ensures var after, name := ExpandFs(fs, shares, required, ans), fs.id.name;
            && OnlyShare(shares, after.shares, name) && (name in after.shares <==> name in shares)
            && (after.result.Ok? <==> fs.capacity >= required || (ans.Reply? && name in shares))
            && (after.result.Ok? ==>
                  after.result.value == Response(VolumeIdString(fs.id), after.fs.capacity)
                  && after.fs == fs.(capacity := if fs.capacity >= required then fs.capacity else required))
            && (!after.result.Ok? ==> after.fs == fs && after.result == Err(ApplianceFailure))
            && (name in shares ==>
                  after.shares[name] == shares[name].(
                    quota := if fs.capacity >= required || ans.Fail? then shares[name].quota else required))
  {
  }

  // ---- Retries ----

  /** A creation request for an existing, known filesystem succeeds exactly when its range contains the
      capacity and the access modes support its capabilities; it then returns the ID and the capacity
      of the filesystem and changes nothing on the appliance. */
  lemma RetryOnExisting(fs: FsState, shares: Shares, req: CreateRequest, ans: Answers)
    requires fs.id.name in shares && fs.state.Created? && ans.create.Reply? && !ans.getFails
    ensures var info, after := shares[fs.id.name], CreateFs(fs, shares, req, ans);
            && after.shares == shares
            && after.fs == WithInfo(fs, info)
            && (after.result.Ok? <==>
                  RangeAllows(req.range, info.quota) && Supported(req.capabilities, ModesOf(info), false))
            && after.result ==
               if after.result.Ok? then Ok(Response(VolumeIdString(fs.id), info.quota)) else Err(AlreadyExists)
  {
  }

  /** Creation is idempotent: repeating a request that created a filesystem gives the same response,
      and leaves everything as it is, exactly when the request's range is well-formed and its
      capabilities are all supported; a request with another range succeeds exactly when that range
      contains the capacity. */
  lemma CreateIsIdempotent(fs: FsState, shares: Shares, req: CreateRequest, ans: Answers, again: CreateRequest,
                           ans': Answers)
    requires fs.id.name !in shares && ans.create.Reply? && ans'.create.Reply? && !ans'.getFails
    ensures var first := CreateFs(fs, shares, req, ans);
            var second := CreateFs(first.fs, first.shares, again, ans');
            && first.result == Ok(Response(VolumeIdString(fs.id), VolumeSize(req.range)))
            && second.fs == first.fs && second.shares == first.shares
            && (second.result == first.result <==> RangeAllows(again.range, first.result.value.capacity)
                                                   && Supported(again.capabilities, FILESYSTEM_ACCESS_MODES, false))
            && (again == req ==> (second.result == first.result <==>
                  WellFormed(req.range) && Supported(req.capabilities, FILESYSTEM_ACCESS_MODES, false)))
            && (second.result != first.result ==> second.result == Err(AlreadyExists))
  {
    var first := CreateFs(fs, shares, req, ans);
    RetryOnExisting(first.fs, first.shares, again, ans');
    ChosenSizeAllowed(req.range);
  }

  /** A placeholder learns nothing about a filesystem that exists already: every request with at least
      one capability is turned down. */
  lemma PlaceholderConflict(fs: FsState, shares: Shares, req: CreateRequest, ans: Answers)
    requires fs.id.name in shares && ans.create.Reply? && fs.state.Creating? && fs.accessModes == []
    ensures CreateFs(fs, shares, req, ans).result.Ok? <==> req.capabilities == [] && RangeAllows(req.range, fs.capacity)
  {
    if req.capabilities != [] { assert req.capabilities[0] in req.capabilities; }
  }

  /** When the answer to a creation is lost, the filesystem exists on the appliance, but no retry can
      succeed: neither on the same object nor on the placeholder of a later request. */
  lemma LostCreationBlocksRetries(id: VolumeId, shares: Shares, req: CreateRequest, ans: Answers,
                                  again: CreateRequest, ans': Answers)
    requires id.name !in shares && ans.create.Lost? && again.capabilities != []
    ensures var lost := CreateFs(NewFilesystem(id), shares, req, ans);
            && id.name in lost.shares && lost.result.Err?
            && CreateFs(lost.fs, lost.shares, again, ans').result.Err?
            && CreateFs(NewFilesystem(id), lost.shares, again, ans').result.Err?
  {
    assert again.capabilities[0] in again.capabilities;
  }

  /** A successful expansion reports the larger of the capacity the object knows and the one asked for.
      A creation request that follows gets the same response exactly when its range and capabilities fit
      and, if no call was made, the capacity the object knows is that of the appliance. */
  lemma ExpandThenCreate(fs: FsState, shares: Shares, required: int, req: CreateRequest, ans: Answers)
    requires fs.id.name in shares && fs.state.Created? && ans.create.Reply? && !ans.getFails
    ensures var grown := ExpandFs(fs, shares, required, AccessModel.Reply);
            var capacity := if fs.capacity >= required then fs.capacity else required;
            && grown.result == Ok(Response(VolumeIdString(fs.id), capacity))
            && (CreateFs(grown.fs, grown.shares, req, ans).result == grown.result <==>
                  && RangeAllows(req.range, capacity) && Supported(req.capabilities, ModesOf(shares[fs.id.name]), false)
                  && (fs.capacity >= required ==> fs.capacity == shares[fs.id.name].quota))
  {
    var grown := ExpandFs(fs, shares, required, AccessModel.Reply);
    RetryOnExisting(grown.fs, grown.shares, req, ans);
  }

  // The operation leaves the filesystem with a smaller quota than it had.
  predicate Lowers(fs: FsState, shares: Shares, op: Operation) {
    fs.id.name in shares
    && var after := Perform(fs, shares, op);
    fs.id.name in after.shares && after.shares[fs.id.name].quota < shares[fs.id.name].quota
  }

  /** An operation takes quota away from a filesystem exactly when it is an expansion that takes effect,
      to a capacity above the one the object knows and below the one the filesystem has. */
  lemma LowersExactly(fs: FsState, shares: Shares, op: Operation)
    requires fs.id.name in shares
    ensures Lowers(fs, shares, op) <==>
              op.Expansion? && !op.answer.Fail? && fs.capacity < op.required < shares[fs.id.name].quota
  {
  }

  /** It happens: a filesystem of 10 bytes is expanded to 100 with the answer lost, and to 50 after that. */
  lemma ExpansionCanLower(id: VolumeId, ans: Answers, capability: Capability)
    requires ans.create.Reply?
    ensures var created := CreateFs(NewFilesystem(id), map[], CreateRequest(Some(Range(10, 0)), [capability]), ans);
            var lost := ExpandFs(created.fs, created.shares, 100, AccessModel.Lost);
            var last := ExpandFs(lost.fs, lost.shares, 50, AccessModel.Reply);
            && Lowers(lost.fs, lost.shares, Expansion(50, AccessModel.Reply))
            && lost.shares[id.name].quota == 100 && last.shares[id.name].quota == 50
            && last.result == Ok(Response(VolumeIdString(id), 50))
  {
  }

  // ---- Any number of requests ----

  datatype Operation = Creation(req: CreateRequest, ans: Answers) | Expansion(required: int, answer: Answer)

  function Perform(fs: FsState, shares: Shares, op: Operation): After {
    match op
    case Creation(req, ans) => CreateFs(fs, shares, req, ans)
    case Expansion(required, answer) => ExpandFs(fs, shares, required, answer)
  }

  // The results of the operations, one after the other.
  function Results(fs: FsState, shares: Shares, ops: seq<Operation>): (rs: seq<Result<Response, FsError>>)
    ensures |rs| == |ops|
    decreases |ops|
  {
    if ops == [] then []
    else var after := Perform(fs, shares, ops[0]); [after.result] + Results(after.fs, after.shares, ops[1..])
  }

  /** Requests are validated to have at least one capability; a volume has been found before it is expanded. */
  predicate Sound(fs: FsState, op: Operation) {
    match op
    case Creation(req, _) => req.capabilities != []
    case Expansion(_, _) => fs.accessModes != []
  }

  predicate AllSound(fs: FsState, shares: Shares, ops: seq<Operation>)
    decreases |ops|
  {
    ops == [] || (Sound(fs, ops[0])
                  && var after := Perform(fs, shares, ops[0]); AllSound(after.fs, after.shares, ops[1..]))
  }

  // What the object knows about an existing filesystem; only a lost expansion leaves it behind.
  predicate InStep(fs: FsState, shares: Shares) {
    && (fs.accessModes != [] ==> fs.id.name in shares && fs.capacity <= shares[fs.id.name].quota
                                 && fs.accessModes == ModesOf(shares[fs.id.name]))
    && (fs.state.Created? ==> fs.accessModes != [])
  }

  // Creations do not change the capacity any more.
  predicate Settled(fs: FsState, shares: Shares) {
    && fs.accessModes != [] && fs.id.name in shares
    && (fs.state.Created? ==> fs.capacity == shares[fs.id.name].quota)
  }

  lemma PerformStaysInStep(fs: FsState, shares: Shares, op: Operation)
    requires InStep(fs, shares) && Sound(fs, op)
    ensures var after := Perform(fs, shares, op);
            && InStep(after.fs, after.shares) && after.fs.id == fs.id
            && (fs.accessModes != [] ==> after.fs.accessModes != [] && fs.capacity <= after.fs.capacity)
            && (after.result.Ok? ==> after.fs.accessModes != [] && after.result.value == ResponseOf(after.fs))
  {
    if op.Creation? { assert op.req.capabilities[0] in op.req.capabilities; }
  }

  lemma CreationSettles(fs: FsState, shares: Shares, op: Operation)
    requires InStep(fs, shares) && Sound(fs, op) && op.Creation?
    ensures var after := Perform(fs, shares, op);
            && (after.result.Ok? ==> Settled(after.fs, after.shares))
            && (Settled(fs, shares) ==> Settled(after.fs, after.shares) && after.fs.capacity == fs.capacity)
  {
    assert op.req.capabilities[0] in op.req.capabilities;
  }

  // The object and the appliance agree on the capacity.
  predicate InSync(fs: FsState, shares: Shares) {
    InStep(fs, shares) && (fs.accessModes != [] ==> fs.capacity == shares[fs.id.name].quota)
  }

  predicate NeverLowers(fs: FsState, shares: Shares, ops: seq<Operation>)
    decreases |ops|
  {
    ops == [] || (!Lowers(fs, shares, ops[0])
                  && var after := Perform(fs, shares, ops[0]); NeverLowers(after.fs, after.shares, ops[1..]))
  }

  lemma PerformStaysInSync(fs: FsState, shares: Shares, op: Operation)
    requires InSync(fs, shares) && Sound(fs, op) && (op.Expansion? ==> !op.answer.Lost?)
    ensures var after := Perform(fs, shares, op); InSync(after.fs, after.shares) && !Lowers(fs, shares, op)
  {
    PerformStaysInStep(fs, shares, op);
    if fs.id.name in shares { LowersExactly(fs, shares, op); }
  }

  /** It happens only after an expansion whose answer is lost: without one, no sequence of operations ever
      takes quota away. */
  lemma {:induction false} QuotaNeverShrinks(fs: FsState, shares: Shares, ops: seq<Operation>)
    requires InSync(fs, shares) && AllSound(fs, shares, ops)
    requires forall op <- ops :: op.Expansion? ==> !op.answer.Lost?
    ensures NeverLowers(fs, shares, ops)
    decreases |ops|
  {
    if ops != [] {
      var after := Perform(fs, shares, ops[0]);
      PerformStaysInSync(fs, shares, ops[0]);
      QuotaNeverShrinks(after.fs, after.shares, ops[1..]);
    }
  }

  /** Over any sequence of creations and expansions, failing or not, all successful responses carry the
      same volume ID, and the capacity they report never decreases. */
  lemma {:induction false} CapacityNeverShrinks(fs: FsState, shares: Shares, ops: seq<Operation>, i: nat, j: nat)
    requires InStep(fs, shares) && AllSound(fs, shares, ops) && i < j < |ops|
    requires var rs := Results(fs, shares, ops); rs[i].Ok? && rs[j].Ok?
    ensures var rs := Results(fs, shares, ops);
            && rs[i].value.volumeId == rs[j].value.volumeId == VolumeIdString(fs.id)
            && rs[i].value.capacity <= rs[j].value.capacity
    decreases |ops|
  {
    var after := Perform(fs, shares, ops[0]);
    PerformStaysInStep(fs, shares, ops[0]);
    if i > 0 {
      CapacityNeverShrinks(after.fs, after.shares, ops[1..], i - 1, j - 1);
    } else {
      ReportsAtLeast(after.fs, after.shares, ops[1..], j - 1);
    }
  }

  lemma {:induction false} ReportsAtLeast(fs: FsState, shares: Shares, ops: seq<Operation>, j: nat)
    requires InStep(fs, shares) && AllSound(fs, shares, ops) && fs.accessModes != [] && j < |ops|
    requires Results(fs, shares, ops)[j].Ok?
    ensures var r := Results(fs, shares, ops)[j].value; r.volumeId == VolumeIdString(fs.id) && fs.capacity <= r.capacity
    decreases |ops|
  {
    var after := Perform(fs, shares, ops[0]);
    PerformStaysInStep(fs, shares, ops[0]);
    if j > 0 { ReportsAtLeast(after.fs, after.shares, ops[1..], j - 1); }
  }

  /** Over any sequence of creation requests for one name, failing or not and whatever their ranges,
      all successful responses are equal. */
  lemma {:induction false} CreationsAgree(fs: FsState, shares: Shares, ops: seq<Operation>, i: nat, j: nat)
    requires InStep(fs, shares) && AllSound(fs, shares, ops) && i < j < |ops|
    requires forall op <- ops :: op.Creation?
    requires var rs := Results(fs, shares, ops); rs[i].Ok? && rs[j].Ok?
    ensures var rs := Results(fs, shares, ops); rs[i] == rs[j]
    decreases |ops|
  {
    var after := Perform(fs, shares, ops[0]);
    PerformStaysInStep(fs, shares, ops[0]);
    CreationSettles(fs, shares, ops[0]);
    if i > 0 {
      CreationsAgree(after.fs, after.shares, ops[1..], i - 1, j - 1);
    } else {
      ReportsSettled(after.fs, after.shares, ops[1..], j - 1);
    }
  }

  lemma {:induction false} ReportsSettled(fs: FsState, shares: Shares, ops: seq<Operation>, j: nat)
    requires InStep(fs, shares) && AllSound(fs, shares, ops) && Settled(fs, shares) && j < |ops|
    requires (forall op <- ops :: op.Creation?) && Results(fs, shares, ops)[j].Ok?
    ensures Results(fs, shares, ops)[j].value == ResponseOf(fs)
    decreases |ops|
  {
    var after := Perform(fs, shares, ops[0]);
    PerformStaysInStep(fs, shares, ops[0]);
    CreationSettles(fs, shares, ops[0]);
    if j > 0 { ReportsSettled(after.fs, after.shares, ops[1..], j - 1); }
  }
}
