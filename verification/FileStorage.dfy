/**
 The file storage service and everything that acts on it, as one state machine.

 A World holds the service's resources, the Provision attempt in flight for each claim, the
 Delete call in flight for each persistent volume, and the persistent volumes issued so far.
 An Action names one atomic event together with every choice the service makes in it, so Step
 is a function and a run is a sequence of actions.  An action that cannot happen in a state
 leaves it unchanged.  An answer that makes Provision give up ends the attempt.  A call that
 fails without taking effect is no action at all; the attempt that made it ends with Abandon.
 */
module FileStorage {
  import opened Wrappers
  import opened Ocids
  import opened Naming

  datatype Life = Creating | Active | Deleting | Deleted {
    function Rank(): nat {
      match this
      case Creating => 0
      case Active => 1
      case Deleting => 2
      case Deleted => 3
    }

    predicate Live() {
      Creating? || Active?
    }
  }

  datatype FileSystem = FileSystem(compartment: Ocid, ad: string, name: string, life: Life)

  datatype Export = Export(fs: Ocid, exportSet: Ocid, path: string, life: Life)

  datatype MountLife = MountCreating | MountActive | MountDeleting | MountDeleted | MountFailed

  datatype MountTarget = MountTarget(life: MountLife, ips: seq<Ocid>, exportSet: Option<Ocid>)

  datatype Cloud = Cloud(
    fss: map<Ocid, FileSystem>,
    exports: map<Ocid, Export>,
    mounts: map<Ocid, MountTarget>,
    addresses: map<Ocid, Option<string>>)

  /** Where a Provision attempt stands: the next call it makes, with what it has learnt. */
  datatype Pc =
    | AwaitMount
    | ResolveIp(ips: seq<Ocid>, exportSet: Ocid)
    | FindFs(ip: string, exportSet: Ocid)
    | MakeFs(ip: string, exportSet: Ocid)
    | AwaitFs(ip: string, exportSet: Ocid, fs: Ocid)
    | FindExport(ip: string, exportSet: Ocid, fs: Ocid, seen: set<Ocid>, pages: Option<nat>)
    | MakeExport(ip: string, exportSet: Ocid, fs: Ocid)
    | AwaitExport(ip: string, exportSet: Ocid, fs: Ocid, exportId: Ocid)

  datatype Attempt = Attempt(ad: string, mount: Ocid, pc: Pc)

  /** What a persistent volume made by the plugin stands for. */
  datatype Handle = Handle(uid: string, ad: string, exportSet: Ocid, fs: Ocid, exportId: Ocid, server: string)

  /** Where a Delete call stands: the export is always dropped before the file system. */
  datatype Teardown = DropExport | DropFs

  datatype World = World(
    prefix: string,
    compartment: Ocid,
    cloud: Cloud,
    claims: map<string, Attempt>,
    volumes: set<Handle>,
    teardowns: map<Handle, Teardown>)

  /** One event of a claim's Provision attempt.  `lost` is a create that took effect but whose response never arrived. */
  datatype Call =
    | Begin(ad: string, mount: Ocid)
    | PollMount
    | GetIp(ipId: Ocid)
    | ListFs(items: seq<Ocid>)
    | CreateFs(id: Ocid, lost: bool)
    | PollFs
    | ListExports(items: seq<Ocid>, more: Option<nat>)
    | CreateExport(id: Ocid, lost: bool)
    | PollExport
    | Abandon

  /** The service's answer to a delete request.  NotFound may be untrue: an unauthorised caller gets it too. */
  datatype Reply = Accepted | NotFound | Refused(applied: bool)

  datatype TearCall = BeginTear | DeleteExport(reply: Reply) | DeleteFs(reply: Reply) | AbandonTear

  datatype Action =
    | Claim(uid: string, call: Call)
    | Tear(volume: Handle, tear: TearCall)
    | FsMoves(id: Ocid, to: Life)
    | ExportMoves(id: Ocid, to: Life)
    | MountIs(id: Ocid, mount: MountTarget)
    | AddressIs(id: Ocid, address: Option<string>)

  // ----- the service -----

  /** Lifecycles only move forward. */
  function AgeFs(c: Cloud, id: Ocid, to: Life): Cloud {
    if id in c.fss && c.fss[id].life.Rank() < to.Rank()
    then c.(fss := c.fss[id := c.fss[id].(life := to)])
    else c
  }

  function AgeExport(c: Cloud, id: Ocid, to: Life): Cloud {
    if id in c.exports && c.exports[id].life.Rank() < to.Rank()
    then c.(exports := c.exports[id := c.exports[id].(life := to)])
    else c
  }

  /** The file systems a claim's attempts in one availability domain look for. */
  predicate Keyed(w: World, f: FileSystem, ad: string, uid: string) {
    f.compartment == w.compartment && f.ad == ad && f.name == DisplayName(w.prefix, uid)
  }

  predicate NoDuplicates(s: seq<Ocid>) {
    forall i, j :: 0 <= i < j < |s| ==> s[i] != s[j]
  }

  /** A truthful, complete answer to ListFileSystems; DELETED file systems may or may not be listed. */
  predicate FsListing(w: World, ad: string, uid: string, items: seq<Ocid>) {
    && NoDuplicates(items)
    && (forall id :: id in items ==> id in w.cloud.fss && Keyed(w, w.cloud.fss[id], ad, uid))
    && (forall id :: id in w.cloud.fss && Keyed(w, w.cloud.fss[id], ad, uid) && !w.cloud.fss[id].life.Deleted? ==> id in items)
  }

  predicate Joins(e: Export, fs: Ocid, exportSet: Ocid) {
    e.fs == fs && e.exportSet == exportSet
  }

  /**
   A truthful page of ListExports: its items match now, the pages still to come get fewer, and
   the last page completes the listing of the matching exports that are not DELETED.
   */
  predicate ExportPage(c: Cloud, fs: Ocid, exportSet: Ocid, seen: set<Ocid>, pages: Option<nat>, items: seq<Ocid>, more: Option<nat>) {
    && (forall id :: id in items ==> id in c.exports && Joins(c.exports[id], fs, exportSet))
    && (pages.Some? && more.Some? ==> more.value < pages.value)
    && (more.None? ==>
      forall id :: id in c.exports && Joins(c.exports[id], fs, exportSet) && !c.exports[id].life.Deleted? ==> id in seen || id in items)
  }

  datatype ExportSummary = ExportSummary(id: Ocid, life: Life)

  function Summaries(c: Cloud, items: seq<Ocid>): (s: seq<ExportSummary>)
    requires forall id :: id in items ==> id in c.exports
    ensures |s| == |items|
    ensures forall k :: 0 <= k < |items| ==> s[k] == ExportSummary(items[k], c.exports[items[k]].life)
  {
    seq(|items|, k requires 0 <= k < |items| => ExportSummary(items[k], c.exports[items[k]].life))
  }

  /** The first item of a listing that is CREATING or ACTIVE. */
  function FirstLive(s: seq<ExportSummary>): (r: Option<Ocid>)
    ensures r.None? ==> forall k :: 0 <= k < |s| ==> !s[k].life.Live()
    ensures r.Some? ==> exists k :: 0 <= k < |s| && s[k].id == r.value && s[k].life.Live() && forall j :: 0 <= j < k ==> !s[j].life.Live()
  {
    if s == [] then None
    else if s[0].life.Live() then Some(s[0].id)
    else
      var r := FirstLive(s[1..]);
      assert r.Some? ==> exists k :: 0 <= k < |s| - 1 && s[1..][k].id == r.value && s[1..][k].life.Live() && forall j :: 0 <= j < k ==> !s[1..][j].life.Live();
      r
  }

  // ----- steps -----

  function Goto(w: World, uid: string, pc: Pc): World
    requires uid in w.claims
  {
    w.(claims := w.claims[uid := w.claims[uid].(pc := pc)])
  }

  function EndAttempt(w: World, uid: string): World {
    w.(claims := w.claims - {uid})
  }

  /** The mount target read by one poll, when it lets the attempt go on. */
  predicate Usable(m: MountTarget) {
    m.life.MountActive? && m.ips != [] && m.exportSet.Some?
  }

  function MountStep(w: World, uid: string): World
    requires uid in w.claims
  {
    var id := w.claims[uid].mount;
    if id !in w.cloud.mounts || w.cloud.mounts[id].life.MountCreating? then w
    else if Usable(w.cloud.mounts[id]) then
      var m := w.cloud.mounts[id];
      Goto(w, uid, ResolveIp(m.ips, m.exportSet.value))
    else EndAttempt(w, uid)
  }

  /** Any one of the mount target's addresses may be chosen. */
  function IpStep(w: World, uid: string, pc: Pc, ipId: Ocid): World
    requires uid in w.claims && pc.ResolveIp?
  {
    if ipId !in pc.ips || ipId !in w.cloud.addresses then w
    else if w.cloud.addresses[ipId].Some? then Goto(w, uid, FindFs(w.cloud.addresses[ipId].value, pc.exportSet))
    else EndAttempt(w, uid)
  }

  function ListFsStep(w: World, uid: string, pc: Pc, items: seq<Ocid>): World
    requires uid in w.claims && pc.FindFs?
  {
    if !FsListing(w, w.claims[uid].ad, uid, items) then w
    else if |items| == 0 then Goto(w, uid, MakeFs(pc.ip, pc.exportSet))
    else if |items| == 1 then Goto(w, uid, AwaitFs(pc.ip, pc.exportSet, items[0]))
    else EndAttempt(w, uid)
  }

  function NewFs(w: World, uid: string, ad: string): FileSystem {
    FileSystem(w.compartment, ad, DisplayName(w.prefix, uid), Creating)
  }

  function CreateFsStep(w: World, uid: string, pc: Pc, id: Ocid, lost: bool): World
    requires uid in w.claims && pc.MakeFs?
  {
    if id in w.cloud.fss || id == "" then w
    else
      var w' := w.(cloud := w.cloud.(fss := w.cloud.fss[id := NewFs(w, uid, w.claims[uid].ad)]));
      if lost then EndAttempt(w', uid) else Goto(w', uid, AwaitFs(pc.ip, pc.exportSet, id))
  }

  function PollFsStep(w: World, uid: string, pc: Pc): World
    requires uid in w.claims && pc.AwaitFs?
  {
    if pc.fs !in w.cloud.fss || w.cloud.fss[pc.fs].life.Creating? then w
    else if w.cloud.fss[pc.fs].life.Active? then Goto(w, uid, FindExport(pc.ip, pc.exportSet, pc.fs, {}, None))
    else EndAttempt(w, uid)
  }

  function ListExportsStep(w: World, uid: string, pc: Pc, items: seq<Ocid>, more: Option<nat>): World
    requires uid in w.claims && pc.FindExport?
  {
    if !ExportPage(w.cloud, pc.fs, pc.exportSet, pc.seen, pc.pages, items, more) then w
    else
      var found := FirstLive(Summaries(w.cloud, items));
      if found.Some? then Goto(w, uid, AwaitExport(pc.ip, pc.exportSet, pc.fs, found.value))
      else if more.None? then Goto(w, uid, MakeExport(pc.ip, pc.exportSet, pc.fs))
      else Goto(w, uid, pc.(seen := pc.seen + (set id | id in items), pages := more))
  }

  function NewExport(pc: Pc): Export
    requires pc.MakeExport?
  {
    Export(pc.fs, pc.exportSet, "/" + pc.fs, Creating)
  }

  function CreateExportStep(w: World, uid: string, pc: Pc, id: Ocid, lost: bool): World
    requires uid in w.claims && pc.MakeExport?
  {
    if id in w.cloud.exports || id == "" then w
    else
      var w' := w.(cloud := w.cloud.(exports := w.cloud.exports[id := NewExport(pc)]));
      if lost then EndAttempt(w', uid) else Goto(w', uid, AwaitExport(pc.ip, pc.exportSet, pc.fs, id))
  }

  /** What a successful attempt issues. */
  function HandleOf(uid: string, attempt: Attempt): Handle
    requires attempt.pc.AwaitExport?
  {
    Handle(uid, attempt.ad, attempt.pc.exportSet, attempt.pc.fs, attempt.pc.exportId, attempt.pc.ip)
  }

  function PollExportStep(w: World, uid: string, pc: Pc): World
    requires uid in w.claims && pc.AwaitExport?
  {
    if pc.exportId !in w.cloud.exports || w.cloud.exports[pc.exportId].life.Creating? then w
    else if w.cloud.exports[pc.exportId].life.Active? then
      EndAttempt(w, uid).(volumes := w.volumes + {HandleOf(uid, w.claims[uid].(pc := pc))})
    else EndAttempt(w, uid)
  }

  function ClaimStep(w: World, uid: string, call: Call): World {
    if call.Begin? then
      if uid in w.claims then w else w.(claims := w.claims[uid := Attempt(call.ad, call.mount, AwaitMount)])
    else if uid !in w.claims then w
    else
      var pc := w.claims[uid].pc;
      match call
      case PollMount => if pc.AwaitMount? then MountStep(w, uid) else w
      case GetIp(ipId) => if pc.ResolveIp? then IpStep(w, uid, pc, ipId) else w
      case ListFs(items) => if pc.FindFs? then ListFsStep(w, uid, pc, items) else w
      case CreateFs(id, lost) => if pc.MakeFs? then CreateFsStep(w, uid, pc, id, lost) else w
      case PollFs => if pc.AwaitFs? then PollFsStep(w, uid, pc) else w
      case ListExports(items, more) => if pc.FindExport? then ListExportsStep(w, uid, pc, items, more) else w
      case CreateExport(id, lost) => if pc.MakeExport? then CreateExportStep(w, uid, pc, id, lost) else w
      case PollExport => if pc.AwaitExport? then PollExportStep(w, uid, pc) else w
      case Abandon => EndAttempt(w, uid)
  }

  predicate TakesEffect(reply: Reply) {
    reply.Accepted? || (reply.Refused? && reply.applied)
  }

  function TearStep(w: World, h: Handle, call: TearCall): World {
    if call.BeginTear? then
      if h in w.volumes && h !in w.teardowns then w.(teardowns := w.teardowns[h := DropExport]) else w
    else if h !in w.teardowns then w
    else
      match call
      case DeleteExport(reply) =>
        if !w.teardowns[h].DropExport? then w
        else
          var w' := if TakesEffect(reply) then w.(cloud := AgeExport(w.cloud, h.exportId, Deleting)) else w;
          w'.(teardowns := if reply.Refused? then w.teardowns - {h} else w.teardowns[h := DropFs])
      case DeleteFs(reply) =>
        if !w.teardowns[h].DropFs? then w
        else
          var w' := if TakesEffect(reply) then w.(cloud := AgeFs(w.cloud, h.fs, Deleting)) else w;
          w'.(teardowns := w.teardowns - {h})
      case AbandonTear => w.(teardowns := w.teardowns - {h})
      case BeginTear => w
  }

  function Step(w: World, a: Action): World {
    match a
    case Claim(uid, call) => ClaimStep(w, uid, call)
    case Tear(h, call) => TearStep(w, h, call)
    case FsMoves(id, to) => w.(cloud := AgeFs(w.cloud, id, to))
    case ExportMoves(id, to) => w.(cloud := AgeExport(w.cloud, id, to))
    case MountIs(id, m) => w.(cloud := w.cloud.(mounts := w.cloud.mounts[id := m]))
    case AddressIs(id, address) => w.(cloud := w.cloud.(addresses := w.cloud.addresses[id := address]))
  }

  function Run(w: World, actions: seq<Action>): World {
    if actions == [] then w else Step(Run(w, actions[..|actions| - 1]), actions[|actions| - 1])
  }

  lemma RunLast(w: World, actions: seq<Action>)
    requires actions != []
    ensures var n := |actions| - 1; Run(w, actions) == Step(Run(w, actions[..n]), actions[n])
  {
  }

  lemma RunAppend(w: World, actions: seq<Action>, a: Action)
    ensures Run(w, actions + [a]) == Step(Run(w, actions), a)
  {
  }

  lemma {:induction false} RunConcat(w: World, xs: seq<Action>, ys: seq<Action>)
    ensures Run(w, xs + ys) == Run(Run(w, xs), ys)
  {
    if ys == [] {
      assert xs + ys == xs;
    } else {
      var n := |ys| - 1;
      RunConcat(w, xs, ys[..n]);
      assert (xs + ys)[..|xs + ys| - 1] == xs + ys[..n];
      assert (xs + ys)[|xs + ys| - 1] == ys[n];
    }
  }
}
