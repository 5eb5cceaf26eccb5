/**
 The file storage and network calls, as the plugin sees them.  Each call first lets every other
 actor take any number of steps of the file storage machine, and then takes one step of its
 own.  A call may also fail; a create may then have taken effect all the same.  Every call is put
 on record with its answer and the moment it was answered, and the record is true.
 */
module FssClients {
  import opened Wrappers
  import opened Ocids
  import opened Naming
  import opened Errors
  import opened FileStorage
  import opened FssInvariant
  import opened FssTeardown

  /** Whose call it is: a claim's Provision attempt, or the Delete of a persistent volume. */
  datatype Actor = Attempting(uid: string) | Removing(volume: Handle)

  predicate Acts(me: Actor, a: Action) {
    match me
    case Attempting(uid) => a.Claim? && a.uid == uid
    case Removing(volume) => a.Tear? && a.volume == volume
  }

  /** What others cannot change for an actor between its calls. */
  ghost predicate Undisturbed(me: Actor, w: World, w': World) {
    && (me.Attempting? ==> (me.uid in w'.claims <==> me.uid in w.claims) && (me.uid in w.claims ==> w'.claims[me.uid] == w.claims[me.uid]))
    && (me.Removing? ==>
          (me.volume in w'.teardowns <==> me.volume in w.teardowns)
          && (me.volume in w.teardowns ==> w'.teardowns[me.volume] == w.teardowns[me.volume]))
    && (me.Attempting? ==> forall h | h in w'.volumes && h.uid == me.uid :: h in w.volumes)
    && w.volumes <= w'.volumes && w'.prefix == w.prefix && w'.compartment == w.compartment
  }

  // ----- the record of calls -----

  /** What was asked and what came back. */
  datatype Answer =
    | MountAnswer(id: Ocid, mount: Result<MountTarget, Error>)
    | AddressAnswer(id: Ocid, address: Result<Option<string>, Error>)
    | FsListAnswer(items: Result<seq<Ocid>, Error>)
    | FsCreateAnswer(created: Result<Ocid, Error>)
    | FsAnswer(id: Ocid, fs: Result<FileSystem, Error>)
    | ExportPageAnswer(page: Result<(seq<ExportSummary>, Option<nat>), Error>)
    | ExportCreateAnswer(created: Result<Ocid, Error>)
    | ExportAnswer(id: Ocid, exported: Result<Export, Error>)

  /**
   One call: by a claim's attempt, which is as given when the call is answered, or by the Delete of
   a volume.  `at` counts the actions before it takes effect.
   */
  datatype Record =
    | Asked(uid: string, attempt: Attempt, answer: Answer, at: nat)
    | Dropped(volume: Handle, step: Teardown, error: Option<Error>, at: nat)

  /** A successful answer is what the service holds. */
  ghost predicate Answers(w: World, uid: string, attempt: Attempt, answer: Answer) {
    match answer
    case MountAnswer(id, mount) => mount.Success? ==> id == attempt.mount && id in w.cloud.mounts && w.cloud.mounts[id] == mount.value
    case AddressAnswer(id, address) =>
      address.Success? ==> attempt.pc.ResolveIp? && id in attempt.pc.ips && id in w.cloud.addresses && w.cloud.addresses[id] == address.value
    case FsListAnswer(items) => items.Success? ==> attempt.pc.FindFs? && FsListing(w, attempt.ad, uid, items.value)
    case FsCreateAnswer(created) =>
      created.Success? ==> attempt.pc.MakeFs? && created.value !in w.cloud.fss && created.value != ""
    case FsAnswer(id, fs) => fs.Success? ==> attempt.pc.AwaitFs? && attempt.pc.fs == id && id in w.cloud.fss && w.cloud.fss[id] == fs.value
    case ExportPageAnswer(page) =>
      page.Success? ==> attempt.pc.FindExport? && exists items :: IsPage(w.cloud, attempt.pc, items, page.value.0, page.value.1)
    case ExportCreateAnswer(created) =>
      created.Success? ==> attempt.pc.MakeExport? && created.value !in w.cloud.exports && created.value != ""
    case ExportAnswer(id, exported) =>
      exported.Success? ==> attempt.pc.AwaitExport? && attempt.pc.exportId == id && id in w.cloud.exports && w.cloud.exports[id] == exported.value
  }

  ghost predicate IsPage(c: Cloud, pc: Pc, items: seq<Ocid>, summaries: seq<ExportSummary>, more: Option<nat>)
    requires pc.FindExport?
  {
    ExportPage(c, pc.fs, pc.exportSet, pc.seen, pc.pages, items, more) && summaries == Summaries(c, items)
  }

  /** The machine's step for a create that was answered. */
  predicate Made(a: Action, uid: string, answer: Answer) {
    && (answer.FsCreateAnswer? && answer.created.Success? ==> a == Claim(uid, CreateFs(answer.created.value, false)))
    && (answer.ExportCreateAnswer? && answer.created.Success? ==> a == Claim(uid, Call.CreateExport(answer.created.value, false)))
  }

  predicate IsCreated(answer: Answer) {
    (answer.FsCreateAnswer? || answer.ExportCreateAnswer?) && answer.created.Success?
  }

  /** An error as the machine's reply: nil, one that reads as not found, or any other. */
  predicate Says(error: Option<Error>, reply: Reply) {
    (error.None? <==> reply.Accepted?) && (IsNotFound(error) <==> reply.NotFound?)
  }

  ghost predicate Holds(origin: World, log: seq<Action>, rec: Record) {
    && rec.at <= |log|
    && var w := Run(origin, log[..rec.at]);
    match rec
    case Asked(uid, attempt, answer, at) =>
      && uid in w.claims && w.claims[uid] == attempt && Answers(w, uid, attempt, answer)
      && (IsCreated(answer) ==> at < |log| && Made(log[at], uid, answer))
    case Dropped(h, step, error, at) =>
      && at < |log| && log[at].Tear? && log[at].volume == h
      && h in w.teardowns && w.teardowns[h] == step
      && match log[at].tear
         case DeleteExport(reply) => step.DropExport? && Says(error, reply)
         case DeleteFs(reply) => step.DropFs? && Says(error, reply)
         case _ => false
  }

  ghost predicate Truthful(origin: World, log: seq<Action>, calls: seq<Record>) {
    forall k | 0 <= k < |calls| :: Holds(origin, log, calls[k])
  }

  lemma HoldsOn(origin: World, log: seq<Action>, longer: seq<Action>, rec: Record)
    requires Holds(origin, log, rec) && log <= longer
    ensures Holds(origin, longer, rec)
  {
    hide Run, Answers;
    assert longer[..rec.at] == log[..rec.at];
  }

  lemma TruthfulOn(origin: World, log: seq<Action>, longer: seq<Action>, calls: seq<Record>)
    requires Truthful(origin, log, calls) && log <= longer
    ensures Truthful(origin, longer, calls)
  {
    hide Holds;
    forall k | 0 <= k < |calls| ensures Holds(origin, longer, calls[k]) { HoldsOn(origin, log, longer, calls[k]); }
  }

  class FssClient {
    var world: World
    ghost const origin: World
    ghost var log: seq<Action>
    ghost var calls: seq<Record>

    /** The world is one that the machine can reach, by the actions logged, and the record is true. */
    ghost predicate Valid()
      reads this
    {
      Init(origin) && world == Run(origin, log) && Inv(world) && Truthful(origin, log, calls)
    }

    constructor (initial: World)
      requires Init(initial)
      ensures Valid() && world == initial && log == [] && calls == []
    {
      world, origin, log, calls := initial, initial, [], [];
    }

    ghost predicate At(uid: string, attempt: Attempt)
      reads this
    {
      uid in world.claims && world.claims[uid] == attempt
    }

    method Act(a: Action)
      requires Valid()
      modifies this
      ensures Valid()
      ensures world == Step(old(world), a) && log == old(log) + [a] && calls == old(calls)
    {
      hide Init, Inv, Step, Truthful;
      StepKeepsInv(world, a);
      RunAppend(origin, log, a);
      TruthfulOn(origin, log, log + [a], calls);
      world := Step(world, a);
      log := log + [a];
    }

    /** Everyone else acts, any number of times. */
    method Yield(me: Actor)
      requires Valid()
      modifies this
      ensures Valid() && calls == old(calls)
      ensures old(log) <= log && forall k | |old(log)| <= k < |log| :: !Acts(me, log[k])
      ensures Undisturbed(me, old(world), world)
    {
      var steps: nat := *;
      while steps > 0
        invariant Valid() && calls == old(calls)
        invariant old(log) <= log && forall k | |old(log)| <= k < |log| :: !Acts(me, log[k])
        invariant Undisturbed(me, old(world), world)
      {
        hide Init, Inv, Step, Run, Truthful;
        var a: Action := *;
        if !Acts(me, a) {
          ClaimsAfter(world, a, if me.Attempting? then me.uid else "");
          FssAfter(world, a);
          if me.Removing? { TeardownsAfter(world, a, me.volume); }
          Act(a);
        }
        steps := steps - 1;
      }
    }

    /** Put a call on record. */
    ghost method Note(rec: Record)
      requires Valid() && Holds(origin, log, rec)
      modifies this`calls
      ensures Valid() && calls == old(calls) + [rec]
    {
      hide Init, Inv, Run, Holds;
      calls := calls + [rec];
    }

    /** Put on record what the attempt asked just before its last step, or without any step. */
    ghost method NoteAsked(uid: string, answer: Answer, before: World, at: nat) returns (rec: Record)
      requires Valid() && at <= |log| && before == Run(origin, log[..at])
      requires uid in before.claims && Answers(before, uid, before.claims[uid], answer)
      requires IsCreated(answer) ==> at < |log| && Made(log[at], uid, answer)
      modifies this`calls
      ensures Valid() && calls == old(calls) + [rec]
      ensures rec == Asked(uid, before.claims[uid], answer, at)
    {
      hide Init, Inv, Run, Answers, Truthful;
      rec := Asked(uid, before.claims[uid], answer, at);
      Note(rec);
    }

    /** A volume has been issued, and if it is a new one nobody is deleting it. */
    twostate predicate Issued(h: Handle)
      reads this
    {
      h in world.volumes && (h !in old(world.volumes) ==> h !in world.teardowns)
    }

    // ----- calls made by a Provision attempt -----

    /** What holds after any call of an attempt: others and then this call have acted. */
    twostate predicate Called(me: Actor)
      reads this
    {
      && Valid() && old(log) <= log
      && (me.Attempting? && me.uid in world.claims ==>
            me.uid in old(world.claims) && forall h | h in world.volumes && h.uid == me.uid :: h in old(world.volumes))
      && old(world.volumes) <= world.volumes
      && world.prefix == old(world.prefix) && world.compartment == old(world.compartment)
    }

    method Begin(uid: string, ad: string, mount: Ocid)
      requires Valid() && uid !in world.claims
      modifies this
      ensures Valid() && old(log) <= log && At(uid, Attempt(ad, mount, AwaitMount)) && calls == old(calls)
      ensures forall h | h in world.volumes && h.uid == uid :: h in old(world).volumes
      ensures old(world).volumes <= world.volumes
      ensures world.prefix == old(world).prefix && world.compartment == old(world).compartment
    {
      Yield(Attempting(uid));
      Act(Claim(uid, Call.Begin(ad, mount)));
    }

    /** The attempt is over: Provision is returning an error. */
    method Abandon(uid: string)
      requires Valid()
      modifies this
      ensures Valid() && log == old(log) + [Claim(uid, Call.Abandon)] && calls == old(calls) && uid !in world.claims
      ensures old(world).volumes <= world.volumes && world.cloud == old(world).cloud
      ensures world.prefix == old(world).prefix && world.compartment == old(world).compartment
    {
      Act(Claim(uid, Call.Abandon));
    }

    method GetMountTarget(uid: string, id: Ocid) returns (r: Result<MountTarget, Error>, ghost rec: Record)
      requires Valid() && uid in world.claims && world.claims[uid].pc.AwaitMount? && world.claims[uid].mount == id
      modifies this
      ensures Called(Attempting(uid)) && calls == old(calls) + [rec]
      ensures rec == Asked(uid, old(world).claims[uid], MountAnswer(id, r), rec.at) && |old(log)| <= rec.at
      ensures r.Success? ==> id in world.cloud.mounts && world.cloud.mounts[id] == r.value
      ensures var x := old(world).claims[uid];
        if r.Success? && Usable(r.value) then At(uid, x.(pc := ResolveIp(r.value.ips, r.value.exportSet.value)))
        else At(uid, x) || (uid !in world.claims && r.Success? && !r.value.life.MountCreating?)
    {
      Yield(Attempting(uid));
      ghost var before, at := world, |log|;
      assert log[..at] == log;
      var fails: bool := *;
      if fails || id !in world.cloud.mounts {
        var e: Error := *;
        rec := NoteAsked(uid, MountAnswer(id, Failure(e)), before, at);
        return Failure(e), rec;
      }
      r := Success(world.cloud.mounts[id]);
      Act(Claim(uid, PollMount));
      hide Init, Inv, Run, Truthful;
      rec := NoteAsked(uid, MountAnswer(id, r), before, at);
    }

    method GetPrivateIp(uid: string, id: Ocid) returns (r: Result<Option<string>, Error>, ghost rec: Record)
      requires Valid() && uid in world.claims && world.claims[uid].pc.ResolveIp? && id in world.claims[uid].pc.ips
      modifies this
      ensures Called(Attempting(uid)) && calls == old(calls) + [rec]
      ensures rec == Asked(uid, old(world).claims[uid], AddressAnswer(id, r), rec.at) && |old(log)| <= rec.at
      ensures r.Success? ==> id in world.cloud.addresses && world.cloud.addresses[id] == r.value
      ensures var x := old(world).claims[uid];
        if r.Success? && r.value.Some? then At(uid, x.(pc := FindFs(r.value.value, x.pc.exportSet)))
        else if r.Success? then uid !in world.claims
        else At(uid, x)
    {
      Yield(Attempting(uid));
      ghost var before, at := world, |log|;
      assert log[..at] == log;
      var fails: bool := *;
      if fails || id !in world.cloud.addresses {
        var e: Error := *;
        rec := NoteAsked(uid, AddressAnswer(id, Failure(e)), before, at);
        return Failure(e), rec;
      }
      r := Success(world.cloud.addresses[id]);
      Act(Claim(uid, GetIp(id)));
      hide Init, Inv, Run, Truthful;
      rec := NoteAsked(uid, AddressAnswer(id, r), before, at);
    }

    /** The answer is filtered by exactly what the request asks for, and is complete. */
    method ListFileSystems(uid: string, compartment: Ocid, ad: string, name: string) returns (r: Result<seq<Ocid>, Error>, ghost rec: Record)
      requires Valid() && uid in world.claims && world.claims[uid].pc.FindFs?
      requires compartment == world.compartment && ad == world.claims[uid].ad && name == DisplayName(world.prefix, uid)
      modifies this
      ensures Called(Attempting(uid)) && calls == old(calls) + [rec]
      ensures rec == Asked(uid, old(world).claims[uid], FsListAnswer(r), rec.at) && |old(log)| <= rec.at
      ensures var x := old(world).claims[uid];
        if r.Failure? then At(uid, x)
        else if |r.value| == 0 then At(uid, x.(pc := MakeFs(x.pc.ip, x.pc.exportSet)))
        else if |r.value| == 1 then At(uid, x.(pc := AwaitFs(x.pc.ip, x.pc.exportSet, r.value[0])))
        else uid !in world.claims
      ensures r.Success? ==> FsListing(world, ad, uid, r.value)
    {
      Yield(Attempting(uid));
      ghost var before, at := world, |log|;
      assert log[..at] == log;
      var items: seq<Ocid> := *;
      if !FsListing(world, ad, uid, items) {
        var e: Error := *;
        rec := NoteAsked(uid, FsListAnswer(Failure(e)), before, at);
        return Failure(e), rec;
      }
      r := Success(items);
      Act(Claim(uid, ListFs(items)));
      hide Init, Inv, Run, Truthful;
      rec := NoteAsked(uid, FsListAnswer(r), before, at);
    }

    method CreateFileSystem(uid: string, compartment: Ocid, ad: string, name: string) returns (r: Result<Ocid, Error>, ghost rec: Record)
      requires Valid() && uid in world.claims && world.claims[uid].pc.MakeFs?
      requires compartment == world.compartment && ad == world.claims[uid].ad && name == DisplayName(world.prefix, uid)
      modifies this
      ensures Called(Attempting(uid)) && calls == old(calls) + [rec]
      ensures rec == Asked(uid, old(world).claims[uid], FsCreateAnswer(r), rec.at) && |old(log)| <= rec.at
      ensures var x := old(world).claims[uid];
        if r.Success? then At(uid, x.(pc := AwaitFs(x.pc.ip, x.pc.exportSet, r.value))) && world.cloud.fss[r.value] == FileSystem(compartment, ad, name, Creating)
        else At(uid, x) || uid !in world.claims
    {
      Yield(Attempting(uid));
      ghost var before, at := world, |log|;
      assert log[..at] == log;
      var id: Ocid := *;
      var e: Error := *;
      if id in world.cloud.fss || id == "" {
        rec := NoteAsked(uid, FsCreateAnswer(Failure(e)), before, at);
        return Failure(e), rec;
      }
      var lost: bool := *;
      Act(Claim(uid, CreateFs(id, lost)));
      r := if lost then Failure(e) else Success(id);
      hide Init, Inv, Run, Truthful;
      rec := NoteAsked(uid, FsCreateAnswer(r), before, at);
    }

    method GetFileSystem(uid: string, id: Ocid) returns (r: Result<FileSystem, Error>, ghost rec: Record)
      requires Valid() && uid in world.claims && world.claims[uid].pc.AwaitFs? && world.claims[uid].pc.fs == id
      modifies this
      ensures Called(Attempting(uid)) && calls == old(calls) + [rec]
      ensures rec == Asked(uid, old(world).claims[uid], FsAnswer(id, r), rec.at) && |old(log)| <= rec.at
      ensures r.Success? ==> id in world.cloud.fss && world.cloud.fss[id] == r.value
      ensures var x := old(world).claims[uid];
        if r.Success? && r.value.life.Active? then At(uid, x.(pc := FindExport(x.pc.ip, x.pc.exportSet, id, {}, None)))
        else if r.Success? && !r.value.life.Live() then uid !in world.claims
        else At(uid, x)
    {
      Yield(Attempting(uid));
      ghost var before, at := world, |log|;
      assert log[..at] == log;
      var fails: bool := *;
      if fails || id !in world.cloud.fss {
        var e: Error := *;
        rec := NoteAsked(uid, FsAnswer(id, Failure(e)), before, at);
        return Failure(e), rec;
      }
      r := Success(world.cloud.fss[id]);
      Act(Claim(uid, PollFs));
      hide Init, Inv, Run, Truthful;
      rec := NoteAsked(uid, FsAnswer(id, r), before, at);
    }

    method ListExportsPage(uid: string, compartment: Ocid, fs: Ocid, exportSet: Ocid, page: Option<nat>)
        returns (r: Result<(seq<ExportSummary>, Option<nat>), Error>, ghost rec: Record)
      requires Valid() && uid in world.claims && world.claims[uid].pc.FindExport?
      requires compartment == world.compartment
      requires fs == world.claims[uid].pc.fs && exportSet == world.claims[uid].pc.exportSet && page == world.claims[uid].pc.pages
      modifies this
      ensures Called(Attempting(uid)) && calls == old(calls) + [rec]
      ensures rec == Asked(uid, old(world).claims[uid], ExportPageAnswer(r), rec.at) && |old(log)| <= rec.at
      ensures r.Success? && page.Some? && r.value.1.Some? ==> r.value.1.value < page.value
      ensures var x := old(world).claims[uid];
        if r.Failure? then At(uid, x)
        else if FirstLive(r.value.0).Some? then At(uid, x.(pc := AwaitExport(x.pc.ip, exportSet, fs, FirstLive(r.value.0).value)))
        else if r.value.1.None? then At(uid, x.(pc := MakeExport(x.pc.ip, exportSet, fs)))
        else uid in world.claims && world.claims[uid].pc.FindExport? && world.claims[uid] == x.(pc := x.pc.(seen := world.claims[uid].pc.seen, pages := r.value.1))
    {
      Yield(Attempting(uid));
      ghost var before, at := world, |log|;
      assert log[..at] == log;
      var pc := world.claims[uid].pc;
      var items: seq<Ocid> := *;
      var more: Option<nat> := *;
      if !ExportPage(world.cloud, fs, exportSet, pc.seen, pc.pages, items, more) {
        var e: Error := *;
        rec := NoteAsked(uid, ExportPageAnswer(Failure(e)), before, at);
        return Failure(e), rec;
      }
      r := Success((Summaries(world.cloud, items), more));
      assert IsPage(before.cloud, pc, items, r.value.0, r.value.1);
      Act(Claim(uid, ListExports(items, more)));
      hide Init, Inv, Run, Truthful;
      rec := NoteAsked(uid, ExportPageAnswer(r), before, at);
    }

    method CreateExport(uid: string, fs: Ocid, exportSet: Ocid, path: string) returns (r: Result<Ocid, Error>, ghost rec: Record)
      requires Valid() && uid in world.claims && world.claims[uid].pc.MakeExport?
      requires fs == world.claims[uid].pc.fs && exportSet == world.claims[uid].pc.exportSet && path == "/" + fs
      modifies this
      ensures Called(Attempting(uid)) && calls == old(calls) + [rec]
      ensures rec == Asked(uid, old(world).claims[uid], ExportCreateAnswer(r), rec.at) && |old(log)| <= rec.at
      ensures var x := old(world).claims[uid];
        if r.Success? then At(uid, x.(pc := AwaitExport(x.pc.ip, exportSet, fs, r.value))) && world.cloud.exports[r.value] == Export(fs, exportSet, path, Creating)
        else At(uid, x) || uid !in world.claims
    {
      Yield(Attempting(uid));
      ghost var before, at := world, |log|;
      assert log[..at] == log;
      var id: Ocid := *;
      var e: Error := *;
      if id in world.cloud.exports || id == "" {
        rec := NoteAsked(uid, ExportCreateAnswer(Failure(e)), before, at);
        return Failure(e), rec;
      }
      var lost: bool := *;
      Act(Claim(uid, Call.CreateExport(id, lost)));
      r := if lost then Failure(e) else Success(id);
      hide Init, Inv, Run, Truthful;
      rec := NoteAsked(uid, ExportCreateAnswer(r), before, at);
    }

    /** The poll that sees the export ACTIVE completes the attempt. */
    method GetExport(uid: string, id: Ocid) returns (r: Result<Export, Error>, ghost rec: Record)
      requires Valid() && uid in world.claims && world.claims[uid].pc.AwaitExport? && world.claims[uid].pc.exportId == id
      modifies this
      ensures Called(Attempting(uid)) && calls == old(calls) + [rec]
      ensures rec == Asked(uid, old(world).claims[uid], ExportAnswer(id, r), rec.at) && |old(log)| <= rec.at
      ensures r.Success? ==> id in world.cloud.exports && world.cloud.exports[id] == r.value
      ensures var x := old(world).claims[uid];
        if r.Success? && r.value.life.Active?
        then uid !in world.claims && Issued(Handle(uid, x.ad, x.pc.exportSet, x.pc.fs, id, x.pc.ip))
        else if r.Success? && !r.value.life.Live() then uid !in world.claims
        else At(uid, x)
    {
      Yield(Attempting(uid));
      ghost var before, at := world, |log|;
      assert log[..at] == log;
      var fails: bool := *;
      if fails || id !in world.cloud.exports {
        var e: Error := *;
        rec := NoteAsked(uid, ExportAnswer(id, Failure(e)), before, at);
        return Failure(e), rec;
      }
      r := Success(world.cloud.exports[id]);
      Act(Claim(uid, PollExport));
      hide Init, Inv, Run, Truthful;
      rec := NoteAsked(uid, ExportAnswer(id, r), before, at);
    }

    // ----- calls made by the Delete of a persistent volume -----

    method BeginTeardown(h: Handle)
      requires Valid() && h in world.volumes && h !in world.teardowns
      modifies this
      ensures Called(Removing(h)) && calls == old(calls) && h in world.teardowns && world.teardowns[h] == DropExport
    {
      Yield(Removing(h));
      Act(Tear(h, BeginTear));
    }

    /** The service's answer, in the machine's terms. */
    static function AsReply(error: Option<Error>, applied: bool): (reply: Reply)
      ensures Says(error, reply)
    {
      if error.None? then Accepted else if IsNotFound(error) then NotFound else Refused(applied)
    }

    method DeleteExport(h: Handle, id: Ocid) returns (error: Option<Error>, ghost rec: Record)
      requires Valid() && h in world.teardowns && world.teardowns[h] == DropExport && id == h.exportId
      modifies this
      ensures Called(Removing(h)) && calls == old(calls) + [rec]
      ensures rec == Dropped(h, DropExport, error, rec.at) && |old(log)| <= rec.at && |log| == rec.at + 1
      ensures if error.None? || IsNotFound(error) then h in world.teardowns && world.teardowns[h] == DropFs else h !in world.teardowns
    {
      Yield(Removing(h));
      ghost var at := |log|;
      assert log[..at] == log;
      var fails: bool, applied: bool, e: Error := *, *, *;
      error := if fails then Some(e) else None;
      rec := Dropped(h, DropExport, error, at);
      Act(Tear(h, TearCall.DeleteExport(AsReply(error, applied))));
      hide Init, Inv, Run, Truthful;
      Note(rec);
    }

    method DeleteFileSystem(h: Handle, id: Ocid) returns (error: Option<Error>, ghost rec: Record)
      requires Valid() && h in world.teardowns && world.teardowns[h] == DropFs && id == h.fs
      modifies this
      ensures Called(Removing(h)) && calls == old(calls) + [rec]
      ensures rec == Dropped(h, DropFs, error, rec.at) && |old(log)| <= rec.at && |log| == rec.at + 1
      ensures h !in world.teardowns
    {
      Yield(Removing(h));
      ghost var at := |log|;
      assert log[..at] == log;
      var fails: bool, applied: bool, e: Error := *, *, *;
      error := if fails then Some(e) else None;
      rec := Dropped(h, DropFs, error, at);
      Act(Tear(h, DeleteFs(AsReply(error, applied))));
      hide Init, Inv, Run, Truthful;
      Note(rec);
    }
  }
}
