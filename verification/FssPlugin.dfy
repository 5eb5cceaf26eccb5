/** The file system plugin (pkg/provisioner/fss/fss.go). */
module FssPlugin {
  import opened Wrappers
  import opened Ocids
  import opened Naming
  import opened Errors
  import opened Polling
  import opened Kubernetes
  import opened FileStorage
  import opened FssInvariant
  import opened FssSafety
  import opened FssTeardown
  import opened FssClients
  import opened FssProtocol
  import opened Client
  import FssRecovery

  const OCI_VOLUME_ID := "volume.beta.kubernetes.io/oci-volume-id"
  const OCI_EXPORT_ID := "volume.beta.kubernetes.io/oci-export-id"
  const ANNOTATION_MOUNT_TARGET_ID := "volume.beta.kubernetes.io/oci-mount-target-id"
  const MNT_TARGET_ID := "mntTargetId"

  /** The claim's annotation wins over the storage class parameter; an empty one does not count. */
  function GetMountTargetID(options: VolumeOptions): (id: string)
  {
    if options.pvc.Some? && Lookup(options.pvc.value.annotations, ANNOTATION_MOUNT_TARGET_ID) != ""
    then options.pvc.value.annotations[ANNOTATION_MOUNT_TARGET_ID]
    else Lookup(options.parameters, MNT_TARGET_ID)
  }

  /** What asking only about the mount target chosen means: the annotation's, else the parameter's. */
  lemma MountTargetAsked(options: VolumeOptions, said: seq<Record>)
    requires options.pvc.Some? && OnlyMount(said, GetMountTargetID(options)) && (forall k | 0 <= k < |said| :: said[k].Asked?)
    requires said == [] <==> GetMountTargetID(options) == ""
    ensures var annotations, parameters := options.pvc.value.annotations, options.parameters;
      if ANNOTATION_MOUNT_TARGET_ID in annotations && annotations[ANNOTATION_MOUNT_TARGET_ID] != "" then
        said != [] && forall k | 0 <= k < |said| && said[k].answer.MountAnswer? :: said[k].answer.id == annotations[ANNOTATION_MOUNT_TARGET_ID]
      else if MNT_TARGET_ID in parameters && parameters[MNT_TARGET_ID] != "" then
        said != [] && forall k | 0 <= k < |said| && said[k].answer.MountAnswer? :: said[k].answer.id == parameters[MNT_TARGET_ID]
      else said == []
  {
  }

  method IsReadOnly(modes: seq<AccessMode>) returns (readOnly: bool)
    ensures readOnly <==> forall m | m in modes :: m == ReadOnlyMany
  {
    for i := 0 to |modes|
      invariant forall k | 0 <= k < i :: modes[k] == ReadOnlyMany
    {
      if modes[i] == ReadWriteMany || modes[i] == ReadWriteOnce {
        assert modes[i] in modes;
        return false;
      }
    }
    return true;
  }

  /** A persistent volume carries its resources' identifiers in two annotations. */
  ghost predicate Names(volume: PersistentVolume, h: Handle) {
    && OCI_VOLUME_ID in volume.annotations && volume.annotations[OCI_VOLUME_ID] == h.fs
    && OCI_EXPORT_ID in volume.annotations && volume.annotations[OCI_EXPORT_ID] == h.exportId
  }

  predicate Lifeless(items: seq<ExportSummary>) {
    forall k | 0 <= k < |items| :: !items[k].life.Creating? && !items[k].life.Active?
  }

  /** A page, successfully read, on which no item is CREATING or ACTIVE. */
  predicate LifelessPage(page: Result<(seq<ExportSummary>, Option<nat>), Error>) {
    page.Success? && Lifeless(page.value.0)
  }

  /** The first item that is CREATING or ACTIVE. */
  predicate IsFirstLive(items: seq<ExportSummary>, id: Ocid) {
    exists k :: 0 <= k < |items| && items[k].id == id && (items[k].life.Creating? || items[k].life.Active?)
                && forall j | 0 <= j < k :: !items[j].life.Creating? && !items[j].life.Active?
  }

  /** The search of one page. */
  method LiveItem(items: seq<ExportSummary>) returns (found: Option<Ocid>)
    ensures found == FirstLive(items)
    ensures if found.None? then Lifeless(items) else IsFirstLive(items, found.value)
  {
    for i := 0 to |items|
      invariant FirstLive(items) == FirstLive(items[i..])
      invariant forall k | 0 <= k < i :: !items[k].life.Creating? && !items[k].life.Active?
    {
      if items[i].life.Live() {
        return Some(items[i].id);
      }
    }
    return None;
  }

  /** An untrue not-found: the resource was CREATING or ACTIVE when the service denied having it. */
  ghost predicate Denied(origin: World, log: seq<Action>, rec: Record) {
    && rec.Dropped? && IsNotFound(rec.error) && rec.at <= |log|
    && var c := Run(origin, log[..rec.at]).cloud;
    if rec.step.DropExport? then LiveExportIn(c, rec.volume.exportId) else LiveFsIn(c, rec.volume.fs)
  }

  /** A delete that was accepted, or answered not found. */
  predicate GoneOrDeleted(rec: Record) {
    rec.Dropped? && (rec.error.None? || IsNotFound(rec.error))
  }

  /** The calls of one Delete: the export's, and then the file system's unless that was refused. */
  ghost predicate Deletes(said: seq<Record>, h: Handle) {
    && 1 <= |said| <= 2 && said[0].Dropped? && said[0].volume == h && said[0].step == DropExport
    && (|said| == 2 <==> GoneOrDeleted(said[0]))
    && (|said| == 2 ==> said[1].Dropped? && said[1].volume == h && said[1].step == DropFs && said[0].at < said[1].at)
  }

  /** What one Delete leaves live once both of its calls have been made and neither was refused. */
  lemma DeleteLeaves(origin: World, log: seq<Action>, said: seq<Record>, h: Handle)
    requires Init(origin) && Deletes(said, h) && |said| == 2 && GoneOrDeleted(said[1])
    requires Holds(origin, log, said[0]) && Holds(origin, log, said[1]) && |log| == said[1].at + 1
    ensures LiveFsIn(Run(origin, log).cloud, h.fs) <==> Denied(origin, log, said[1])
    ensures LiveExportIn(Run(origin, log).cloud, h.exportId) ==> Denied(origin, log, said[0])
  {
    hide Init, Run;
    BothDropped(origin, log, h, said[0].at, said[1].at);
    assert log[..said[1].at + 1] == log;
  }

  class FilesystemProvisioner {
    const client: FssClient
    const config: Configuration
    const region: string
    const environmentPrefix: string

    /** The world the client acts in is the one of this process's prefix and compartment. */
    ghost predicate Valid()
      reads this, client, config
    {
      && client.Valid()
      && client.world.prefix == GetPrefix(environmentPrefix)
      && config.Effective() == Some(client.world.compartment)
    }

    constructor (client: FssClient, config: Configuration, region: string, environmentPrefix: string)
      requires client.Valid() && client.world.prefix == GetPrefix(environmentPrefix)
      requires config.Effective() == Some(client.world.compartment)
      ensures Valid()
      ensures this.client == client && this.config == config && this.region == region && this.environmentPrefix == environmentPrefix
    {
      this.client, this.config, this.region, this.environmentPrefix := client, config, region, environmentPrefix;
    }

    method AwaitMountTarget(uid: string, id: Ocid) returns (r: Result<MountTarget, PollError>, ghost said: seq<Record>)
      requires Valid() && uid in client.world.claims && client.world.claims[uid].pc.AwaitMount? && client.world.claims[uid].mount == id
      modifies client
      ensures Valid() && client.Called(Attempting(uid)) && client.calls == old(client.calls) + said
      ensures Ours(said, uid, old(client.world).claims[uid].ad, |old(client.log)|)
      ensures MountReads(said, uid, old(client.world).claims[uid], id)
      ensures OnlyMount(said, id)
      ensures Polled(Saw(said, SawMount), r)
      ensures forall k | 0 <= k < |said| - 1 :: said[k].answer.mount.Success? && said[k].answer.mount.value.life.MountCreating?
      ensures said != [] && match said[|said| - 1].answer.mount
        case Failure(e) => r == Failure(CallErred(e))
        case Success(seen) =>
          && (seen.life.MountActive? ==> r == Success(seen))
          && (seen.life.MountCreating? ==> r == Failure(TimedOut) && |said| >= 2)
          && (!seen.life.MountActive? && !seen.life.MountCreating? ==> r == Failure(WentBad))
      ensures r.Failure? ==> Fails(said, FromPoll(r.error))
      ensures r.Success? ==>
        && id in client.world.cloud.mounts && client.world.cloud.mounts[id] == r.value && r.value.life.MountActive?
        && (forall e :: RefusalOfMount(Success(r.value)) == Some(e) ==> Fails(said, e))
      ensures r.Success? && Usable(r.value) ==>
        && Goes(said)
        && client.At(uid, old(client.world).claims[uid].(pc := ResolveIp(r.value.ips, r.value.exportSet.value)))
    {
      hide Init, Inv, Run, GetPrefix, Truthful, Goes, Fails, Ours, Saw, Polled, Unsettled, ReadsAs, Refusal, Holds, FsListing;
      said := [];
      ghost var x := client.world.claims[uid];
      PollsNowhere(SawMount);
      OursNowhere(uid, x.ad, |client.log|);
      var ticks: nat :| ticks >= 1;
      while true
        invariant Valid() && client.Called(Attempting(uid)) && client.calls == old(client.calls) + said
        invariant client.At(uid, x) && Unsettled(said, SawMount) && Ours(said, uid, x.ad, |old(client.log)|)
        invariant MountReads(said, uid, x, id)
        invariant forall k | 0 <= k < |said| :: said[k].answer.mount.Success? && said[k].answer.mount.value.life.MountCreating?
        invariant said == [] ==> ticks > 0
        decreases ticks
      {
        var answer, rec := client.GetMountTarget(uid, id);
        ReadsAsMount(rec);
        PollOn(said, rec, SawMount);
        OursOnceMore(said, rec, uid, x.ad, |old(client.log)|);
        said := said + [rec];
        if answer.Failure? {
          return Failure(CallErred(answer.error)), said;
        }
        match answer.value.life {
          case MountActive => return Success(answer.value), said;
          case MountFailed => return Failure(WentBad), said;
          case MountDeleting => return Failure(WentBad), said;
          case MountDeleted => return Failure(WentBad), said;
          case MountCreating =>
        }
        if ticks == 0 {
          return Failure(TimedOut), said;
        }
        ticks := ticks - 1;
      }
    }

    method AwaitFileSystem(uid: string, id: Ocid) returns (r: Result<FileSystem, PollError>, ghost said: seq<Record>)
      requires Valid() && uid in client.world.claims && client.world.claims[uid].pc.AwaitFs? && client.world.claims[uid].pc.fs == id
      modifies client
      ensures Valid() && client.Called(Attempting(uid)) && client.calls == old(client.calls) + said
      ensures Ours(said, uid, old(client.world).claims[uid].ad, |old(client.log)|)
      ensures FsReads(said, uid, old(client.world).claims[uid], id)
      ensures forall mount :: OnlyMount(said, mount)
      ensures Polled(Saw(said, SawFs), r)
      ensures forall k | 0 <= k < |said| - 1 :: said[k].answer.fs.Success? && said[k].answer.fs.value.life.Creating?
      ensures said != [] && match said[|said| - 1].answer.fs
        case Failure(e) => r == Failure(CallErred(e))
        case Success(seen) =>
          && (seen.life.Active? ==> r == Success(seen))
          && (seen.life.Creating? ==> r == Failure(TimedOut) && |said| >= 2)
          && (!seen.life.Active? && !seen.life.Creating? ==> r == Failure(WentBad))
      ensures if r.Success? then Goes(said) else Fails(said, FromPoll(r.error))
      ensures r.Success? ==> id in client.world.cloud.fss && client.world.cloud.fss[id] == r.value && r.value.life.Active?
      ensures r.Success? ==> var x := old(client.world).claims[uid];
        client.At(uid, x.(pc := Pc.FindExport(x.pc.ip, x.pc.exportSet, id, {}, None)))
    {
      hide Init, Inv, Run, GetPrefix, Truthful, Goes, Fails, Ours, Saw, Polled, Unsettled, ReadsAs, Refusal, Holds, FsListing;
      said := [];
      ghost var x := client.world.claims[uid];
      PollsNowhere(SawFs);
      OursNowhere(uid, x.ad, |client.log|);
      var ticks: nat :| ticks >= 1;
      while true
        invariant Valid() && client.Called(Attempting(uid)) && client.calls == old(client.calls) + said
        invariant client.At(uid, x) && Unsettled(said, SawFs) && Ours(said, uid, x.ad, |old(client.log)|)
        invariant FsReads(said, uid, x, id)
        invariant forall k | 0 <= k < |said| :: said[k].answer.fs.Success? && said[k].answer.fs.value.life.Creating?
        invariant said == [] ==> ticks > 0
        decreases ticks
      {
        var answer, rec := client.GetFileSystem(uid, id);
        ReadsAsFs(rec);
        PollOn(said, rec, SawFs);
        OursOnceMore(said, rec, uid, x.ad, |old(client.log)|);
        said := said + [rec];
        if answer.Failure? {
          return Failure(CallErred(answer.error)), said;
        }
        match answer.value.life {
          case Active => return Success(answer.value), said;
          case Deleting => return Failure(WentBad), said;
          case Deleted => return Failure(WentBad), said;
          case Creating =>
        }
        if ticks == 0 {
          return Failure(TimedOut), said;
        }
        ticks := ticks - 1;
      }
    }

    method AwaitExport(uid: string, id: Ocid) returns (r: Result<Export, PollError>, ghost said: seq<Record>)
      requires Valid() && uid in client.world.claims && client.world.claims[uid].pc.AwaitExport? && client.world.claims[uid].pc.exportId == id
      modifies client
      ensures Valid() && client.Called(Attempting(uid)) && client.calls == old(client.calls) + said
      ensures Ours(said, uid, old(client.world).claims[uid].ad, |old(client.log)|)
      ensures ExportReads(said, uid, old(client.world).claims[uid], id)
      ensures forall mount :: OnlyMount(said, mount)
      ensures Polled(Saw(said, SawExport), r)
      ensures forall k | 0 <= k < |said| - 1 :: said[k].answer.exported.Success? && said[k].answer.exported.value.life.Creating?
      ensures said != [] && match said[|said| - 1].answer.exported
        case Failure(e) => r == Failure(CallErred(e))
        case Success(seen) =>
          && (seen.life.Active? ==> r == Success(seen))
          && (seen.life.Creating? ==> r == Failure(TimedOut) && |said| >= 2)
          && (!seen.life.Active? && !seen.life.Creating? ==> r == Failure(WentBad))
      ensures if r.Success? then Goes(said) else Fails(said, FromPoll(r.error))
      ensures r.Success? ==> id in client.world.cloud.exports && client.world.cloud.exports[id] == r.value && r.value.life.Active?
      ensures r.Success? ==> var x := old(client.world).claims[uid];
        uid !in client.world.claims && client.Issued(Handle(uid, x.ad, x.pc.exportSet, x.pc.fs, id, x.pc.ip))
    {
      hide Init, Inv, Run, GetPrefix, Truthful, Goes, Fails, Ours, Saw, Polled, Unsettled, ReadsAs, Refusal, Holds, FsListing;
      said := [];
      ghost var x := client.world.claims[uid];
      PollsNowhere(SawExport);
      OursNowhere(uid, x.ad, |client.log|);
      var ticks: nat :| ticks >= 1;
      while true
        invariant Valid() && client.Called(Attempting(uid)) && client.calls == old(client.calls) + said
        invariant client.At(uid, x) && Unsettled(said, SawExport) && Ours(said, uid, x.ad, |old(client.log)|)
        invariant ExportReads(said, uid, x, id)
        invariant forall k | 0 <= k < |said| :: said[k].answer.exported.Success? && said[k].answer.exported.value.life.Creating?
        invariant said == [] ==> ticks > 0
        decreases ticks
      {
        var answer, rec := client.GetExport(uid, id);
        ReadsAsExport(rec);
        PollOn(said, rec, SawExport);
        OursOnceMore(said, rec, uid, x.ad, |old(client.log)|);
        said := said + [rec];
        if answer.Failure? {
          return Failure(CallErred(answer.error)), said;
        }
        match answer.value.life {
          case Active => return Success(answer.value), said;
          case Deleting => return Failure(WentBad), said;
          case Deleted => return Failure(WentBad), said;
          case Creating =>
        }
        if ticks == 0 {
          return Failure(TimedOut), said;
        }
        ticks := ticks - 1;
      }
    }

    /** At most one page is read at a time; the search stops at the first live item or after the last page. */
    method FindExport(uid: string, fs: Ocid, exportSet: Ocid) returns (r: Result<Option<Ocid>, Error>, ghost said: seq<Record>)
      requires Valid() && uid in client.world.claims && client.world.claims[uid].pc.FindExport?
      requires client.world.claims[uid].pc == Pc.FindExport(client.world.claims[uid].pc.ip, exportSet, fs, {}, None)
      modifies client, config`compartmentOCID
      ensures Valid() && client.Called(Attempting(uid)) && client.calls == old(client.calls) + said
      ensures Ours(said, uid, old(client.world).claims[uid].ad, |old(client.log)|)
      ensures PageReads(said)
      ensures if r.Success? then Goes(said) else Fails(said, r.error)
      ensures said != [] && forall k | 0 <= k < |said| - 1 :: LifelessPage(said[k].answer.page)
      ensures var last := said[|said| - 1].answer.page;
        && (last.Failure? ==> r == Failure(last.error))
        && (last.Success? ==> r.Success?)
      ensures r.Success? && r.value.None? ==> LifelessPage(said[|said| - 1].answer.page) && said[|said| - 1].answer.page.value.1.None?
      ensures r.Success? && r.value.Some? ==> IsFirstLive(said[|said| - 1].answer.page.value.0, r.value.value)
      ensures r.Success? ==> r.value == SearchPages(PagesOf(said)) == FirstLive(Flatten(PagesOf(said)))
      ensures r.Success? ==> var x := old(client.world).claims[uid]; client.At(uid, x.(pc :=
        if r.value.Some? then Pc.AwaitExport(x.pc.ip, exportSet, fs, r.value.value) else Pc.MakeExport(x.pc.ip, exportSet, fs)))
    {
      hide Init, Inv, Run, GetPrefix, Truthful, Goes, Fails, Ours, SearchPages, Flatten, Holds, Refusal, PagesOf, FirstLive, Lifeless, IsFirstLive, ExportPage, FsListing, Configuration.Effective;
      said := [];
      GoesNowhere();
      OursNowhere(uid, client.world.claims[uid].ad, |client.log|);
      NoPages();
      var page: Option<nat> := None;
      ghost var x := client.world.claims[uid];
      while true
        invariant Valid() && client.Called(Attempting(uid)) && client.calls == old(client.calls) + said
        invariant Ours(said, uid, x.ad, |old(client.log)|) && Goes(said)
        invariant PageReads(said) && forall k | 0 <= k < |said| :: LifelessPage(said[k].answer.page)
        invariant uid in client.world.claims && client.world.claims[uid].pc.FindExport? && client.world.claims[uid].pc.pages == page
        invariant client.world.claims[uid] == x.(pc := x.pc.(seen := client.world.claims[uid].pc.seen, pages := page))
        invariant FirstLive(Flatten(PagesOf(said))) == None
        invariant page.None? ==> said == []
        decreases page.None?, if page.Some? then page.value else 0
      {
        var compartment := config.CompartmentOCID();
        var response, rec := client.ListExportsPage(uid, compartment.value, fs, exportSet, page);
        PageReadsAs(rec);
        FailsHere(said, rec);
        OursOnceMore(said, rec, uid, x.ad, |old(client.log)|);
        if response.Failure? {
          return Failure(response.error), said + [rec];
        }
        var (items, more) := response.value;
        NextPage(said, rec);
        said := said + [rec];
        var found := LiveItem(items);
        if found.Some? {
          return Success(found), said;
        }
        page := more;
        if more.None? {
          return Success(None), said;
        }
      }
    }

    /** The id of the one file system of that name; an error when there are several. */
    method GetFileSystemByDisplayName(uid: string, ad: string, name: string) returns (r: Result<Option<Ocid>, Error>, ghost said: seq<Record>)
      requires Valid() && uid in client.world.claims && client.world.claims[uid].pc.FindFs?
      requires ad == client.world.claims[uid].ad && name == DisplayName(client.world.prefix, uid)
      modifies client, config`compartmentOCID
      ensures Valid() && client.Called(Attempting(uid)) && client.calls == old(client.calls) + said
      ensures Ours(said, uid, ad, |old(client.log)|)
      ensures |said| == 1 && said[0].Asked? && said[0].answer.FsListAnswer?
      ensures forall mount :: OnlyMount(said, mount)
      ensures if r.Success? then Goes(said) else Fails(said, r.error)
      ensures match said[0].answer.items
        case Failure(e) => r == Failure(e)
        case Success(items) =>
          && (|items| == 0 ==> r == Success(None))
          && (|items| == 1 ==> r == Success(Some(items[0])))
          && (|items| > 1 ==> r == Failure(Plain(MoreThanOneFileSystem)))
      ensures r.Success? ==> (if r.value.Some? then said[0].answer.items == Success([r.value.value]) else said[0].answer.items == Success([]))
      ensures r.Success? ==> var x := old(client.world).claims[uid]; client.At(uid, x.(pc :=
        if r.value.Some? then AwaitFs(x.pc.ip, x.pc.exportSet, r.value.value) else MakeFs(x.pc.ip, x.pc.exportSet)))
    {
      hide Init, Inv, Run, GetPrefix, Truthful, Goes, Fails;
      var compartment := config.CompartmentOCID();
      var items, rec := client.ListFileSystems(uid, compartment.value, ad, name);
      said := [rec];
      Once(rec, uid, ad, |old(client.log)|);
      if items.Failure? {
        return Failure(items.error), said;
      }
      if |items.value| == 1 {
        assert items.value == [items.value[0]];
        return Success(Some(items.value[0])), said;
      }
      if |items.value| > 1 {
        return Failure(Plain(MoreThanOneFileSystem)), said;
      }
      return Success(None), said;
    }

    method GetOrCreateFileSystem(uid: string, ad: string, name: string) returns (r: Result<Ocid, Error>, ghost said: seq<Record>)
      requires Valid() && uid in client.world.claims && client.world.claims[uid].pc.FindFs?
      requires ad == client.world.claims[uid].ad && name == DisplayName(client.world.prefix, uid)
      modifies client, config`compartmentOCID
      ensures Valid() && client.Called(Attempting(uid)) && client.calls == old(client.calls) + said
      ensures Ours(said, uid, ad, |old(client.log)|)
      ensures if r.Success? then Goes(said) else Fails(said, r.error)
      ensures OnlyMount(said, old(client.world).claims[uid].mount)
      ensures said != [] && said[0].answer.FsListAnswer?
      ensures r.Success? && said[0].answer.items != Success([r.value]) ==>
        said[0].answer.items == Success([]) && |said| >= 2 && said[1].answer == FsCreateAnswer(Success(r.value))
      ensures r.Success? ==> r.value in client.world.cloud.fss && client.world.cloud.fss[r.value].life.Active?
      ensures r.Success? ==> var x := old(client.world).claims[uid]; client.At(uid, x.(pc :=
        Pc.FindExport(x.pc.ip, x.pc.exportSet, r.value, {}, None)))
    {
      hide Init, Inv, Run, GetPrefix, Truthful, Goes, Fails, Ours, OnlyMount, MountReads, FsReads, ExportReads, PageReads, LifelessPage, Saw, Polled;
      var found;
      found, said := GetFileSystemByDisplayName(uid, ad, name);
      if found.Failure? {
        return Failure(found.error), said;
      }
      var id: Ocid;
      if found.value.Some? {
        id := found.value.value;
      } else {
        label Making:
        var compartment := config.CompartmentOCID();
        var created, rec := client.CreateFileSystem(uid, compartment.value, ad, name);
        Once(rec, uid, ad, |old@Making(client.log)|);
        Continues(said, [rec], uid, ad, |old(client.log)|, |old@Making(client.log)|);
        said := said + [rec];
        if created.Failure? {
          return Failure(created.error), said;
        }
        id := created.value;
      }
      label Made:
      var fs, more := AwaitFileSystem(uid, id);
      Continues(said, more, uid, ad, |old(client.log)|, |old@Made(client.log)|);
      said := said + more;
      r := if fs.Success? then Success(id) else Failure(FromPoll(fs.error));
    }

    method GetOrCreateExport(uid: string, fs: Ocid, exportSet: Ocid) returns (r: Result<(Ocid, Export), Error>, ghost said: seq<Record>)
      requires Valid() && uid in client.world.claims && client.world.claims[uid].pc.FindExport?
      requires client.world.claims[uid].pc == Pc.FindExport(client.world.claims[uid].pc.ip, exportSet, fs, {}, None)
      modifies client, config`compartmentOCID
      ensures Valid() && client.Called(Attempting(uid)) && client.calls == old(client.calls) + said
      ensures Ours(said, uid, old(client.world).claims[uid].ad, |old(client.log)|)
      ensures if r.Success? then Goes(said) else Fails(said, r.error)
      ensures OnlyMount(said, old(client.world).claims[uid].mount)
      ensures r.Success? ==> var x := old(client.world).claims[uid];
        && uid !in client.world.claims
        && client.Issued(Handle(uid, x.ad, exportSet, fs, r.value.0, x.pc.ip))
        && r.value.0 in client.world.cloud.exports && client.world.cloud.exports[r.value.0] == r.value.1
        && r.value.1.life.Active?
    {
      hide Init, Inv, Run, GetPrefix, Truthful, Goes, Fails, Ours, OnlyMount, MountReads, FsReads, ExportReads, PageReads, LifelessPage, Saw, Polled, SearchPages, Flatten, PagesOf, PageOf, FirstLive, Configuration.Effective;
      ghost var ad := client.world.claims[uid].ad;
      var found;
      found, said := FindExport(uid, fs, exportSet);
      PagesAskNoMount(said);
      if found.Failure? {
        return Failure(found.error), said;
      }
      var id: Ocid;
      if found.value.Some? {
        id := found.value.value;
      } else {
        label Making:
        var created, rec := client.CreateExport(uid, fs, exportSet, "/" + fs);
        Once(rec, uid, ad, |old@Making(client.log)|);
        Continues(said, [rec], uid, ad, |old(client.log)|, |old@Making(client.log)|);
        said := said + [rec];
        if created.Failure? {
          return Failure(created.error), said;
        }
        id := created.value;
      }
      label Made:
      var exported, more := AwaitExport(uid, id);
      Continues(said, more, uid, ad, |old(client.log)|, |old@Made(client.log)|);
      said := said + more;
      r := if exported.Success? then Success((id, exported.value)) else Failure(FromPoll(exported.error));
    }

    /** The export set of an ACTIVE mount target, and one of its addresses. */
    method ResolveMountTarget(uid: string, mount: Ocid) returns (r: Result<(Ocid, string), Error>, ghost target: seq<Action>, ghost said: seq<Record>)
      requires Valid() && uid in client.world.claims && client.world.claims[uid].pc.AwaitMount? && client.world.claims[uid].mount == mount
      modifies client
      ensures Valid() && client.Called(Attempting(uid)) && client.calls == old(client.calls) + said
      ensures Ours(said, uid, old(client.world).claims[uid].ad, |old(client.log)|)
      ensures if r.Success? then Goes(said) else Fails(said, r.error)
      ensures OnlyMount(said, old(client.world).claims[uid].mount)
      ensures said != [] && said[0].answer.MountAnswer? && said[0].answer.id == mount
      ensures r.Success? ==> |said| >= 2 && var read, asked := said[|said| - 2].answer, said[|said| - 1].answer;
        && read.MountAnswer? && read.mount.Success? && read.mount.value.exportSet == Some(r.value.0)
        && asked.AddressAnswer? && asked.id in read.mount.value.ips && asked.address == Success(Some(r.value.1))
      ensures r.Success? ==> client.At(uid, old(client.world).claims[uid].(pc := FindFs(r.value.1, r.value.0)))
      ensures r.Success? ==> old(client.log) <= target <= client.log && Serves(client.origin, target, client.log, mount, r.value.0, r.value.1)
    {
      hide Init, Inv, Run, GetPrefix, Truthful, Goes, Fails, Ours, Saw, Polled;
      ghost var ad := client.world.claims[uid].ad;
      var read;
      read, said := AwaitMountTarget(uid, mount);
      target := client.log;
      if read.Failure? {
        return Failure(FromPoll(read.error)), target, said;
      }
      if |read.value.ips| == 0 {
        return Failure(Plain(NoPrivateIps)), target, said;
      }
      if read.value.exportSet.None? {
        return Failure(Plain(NoExportSet)), target, said;
      }
      var pick: nat :| pick < |read.value.ips|;
      label Read:
      var address, rec := client.GetPrivateIp(uid, read.value.ips[pick]);
      Once(rec, uid, ad, |old@Read(client.log)|);
      Continues(said, [rec], uid, ad, |old(client.log)|, |old@Read(client.log)|);
      said := said + [rec];
      if address.Failure? {
        return Failure(address.error), target, said;
      }
      if address.value.None? {
        return Failure(Plain(NoIpAddress)), target, said;
      }
      r := Success((read.value.exportSet.value, address.value.value));
    }

    /** A Provision attempt from its first call on; what it leaves in flight on an error is for Provision to end. */
    method Attempt(uid: string, ad: string, mount: Ocid, name: string)
        returns (r: Result<(Handle, Export), Error>, ghost said: seq<Record>, ghost target: seq<Action>, ghost address: seq<Action>, ghost found: seq<Action>)
      requires Valid() && uid !in client.world.claims
      requires name == DisplayName(client.world.prefix, uid)
      modifies client, config`compartmentOCID
      ensures Valid() && old(client.log) <= client.log && client.calls == old(client.calls) + said
      ensures Ours(said, uid, ad, |old(client.log)|)
      ensures if r.Success? then Goes(said) else Fails(said, r.error)
      ensures OnlyMount(said, mount) && said != [] && said[0].answer.MountAnswer? && said[0].answer.id == mount
      ensures client.world.prefix == old(client.world.prefix) && client.world.compartment == old(client.world.compartment)
      ensures r.Success? ==> var h, c := r.value.0, client.world.cloud;
        && uid !in client.world.claims && client.Issued(h) && h.uid == uid && h.ad == ad
        && h.exportId in c.exports && c.exports[h.exportId] == r.value.1 && r.value.1.life.Active?
        && old(client.log) <= target <= address <= found <= client.log
        && Serves(client.origin, target, address, mount, h.exportSet, h.server)
        && var at := Run(client.origin, found).cloud;
        && h.fs in at.fss && at.fss[h.fs].life.Active?
    {
      hide Init, Inv, Run, GetPrefix, Truthful, Goes, Fails, Ours, OnlyMount, Serves;
      target, address, found := [], [], [];
      client.Begin(uid, ad, mount);
      label Begun:
      var resolved;
      resolved, target, said := ResolveMountTarget(uid, mount);
      OursEarlier(said, uid, ad, |old(client.log)|, |old@Begun(client.log)|);
      if resolved.Failure? {
        return Failure(resolved.error), said, target, address, found;
      }
      address := client.log;
      var (exportSet, server) := resolved.value;
      label Resolved:
      var fs, more := GetOrCreateFileSystem(uid, ad, name);
      Continues(said, more, uid, ad, |old(client.log)|, |old@Resolved(client.log)|);
      said := said + more;
      if fs.Failure? {
        return Failure(fs.error), said, target, address, found;
      }
      found := client.log;
      label Found:
      var exported, rest := GetOrCreateExport(uid, fs.value, exportSet);
      Continues(said, rest, uid, ad, |old(client.log)|, |old@Found(client.log)|);
      said := said + rest;
      if exported.Failure? {
        return Failure(exported.error), said, target, address, found;
      }
      var h := Handle(uid, ad, exportSet, fs.value, exported.value.0, server);
      r := Success((h, exported.value.1));
    }

    /** Since the call began, the mount target was ACTIVE in the volume's export set and then one of its addresses the volume's server. */
    twostate predicate ServedFrom(target: seq<Action>, address: seq<Action>, mount: Ocid, h: Handle)
      reads client
    {
      old(client.log) <= target <= address <= client.log && Serves(client.origin, target, address, mount, h.exportSet, h.server)
    }

    /** Nothing of the claim's was going away when the call began or has been deleted since. */
    twostate predicate LeftAlone(uid: string, ad: string)
      reads client
    {
      && old(client.log) <= client.log && FssRecovery.Healthy(old(client.world), uid, ad)
      && FssRecovery.UndeletedRun(old(client.world), client.log[|old(client.log)|..], uid, ad)
    }

    /** The volume's export is ACTIVE, and so is its file system unless someone has deleted that since the call began. */
    twostate predicate BothThere(h: Handle)
      reads client
    {
      var c := client.world.cloud;
      && h.exportId in c.exports && c.exports[h.exportId].life.Active? && Joins(c.exports[h.exportId], h.fs, h.exportSet)
      && h.fs in c.fss && Keyed(client.world, c.fss[h.fs], h.ad, h.uid)
      && (c.fss[h.fs].life.Active? || exists k :: |old(client.log)| <= k < |client.log| && RetiresFs(client.log[k], h.fs))
    }

    /** The compartment requests are made in: the configured one, else the instance's own. */
    lemma ItsCompartment()
      requires Valid()
      ensures if config.compartmentOCID != "" then client.world.compartment == config.compartmentOCID else config.metadata == Some(client.world.compartment)
    {
    }

    /** An attempt from its first call to its end, and what it means for the service. */
    method AttemptToTheEnd(uid: string, ad: string, mount: Ocid, name: string) returns (r: Result<(Handle, Export), Error>, ghost said: seq<Record>)
      requires Valid() && uid !in client.world.claims
      requires name == DisplayName(client.world.prefix, uid)
      modifies client, config`compartmentOCID
      ensures Valid() && old(client.log) <= client.log && uid !in client.world.claims && client.calls == old(client.calls) + said
      ensures Ours(said, uid, ad, |old(client.log)|)
      ensures if r.Success? then Goes(said) else Fails(said, r.error)
      ensures OnlyMount(said, mount) && said != [] && said[0].answer.MountAnswer? && said[0].answer.id == mount
      ensures client.world.prefix == old(client.world.prefix) && client.world.compartment == old(client.world.compartment)
      ensures LeftAlone(uid, ad) && r.Failure? ==> Excused(said[|said| - 1])
      ensures LeftAlone(uid, ad) && r.Success? ==>
        && FssRecovery.CreatedTheMissing(old(client.world), client.log[|old(client.log)|..], uid, ad, r.value.0)
        && r.value.0.exportId in client.world.cloud.exports && OwnPath(old(client.world), client.world, r.value.0)
      ensures r.Success? ==>
        && client.Issued(r.value.0) && r.value.0.uid == uid && r.value.0.ad == ad
        && BothThere(r.value.0) && client.world.cloud.exports[r.value.0.exportId] == r.value.1
        && exists target, address :: ServedFrom(target, address, mount, r.value.0)
    {
      hide Init, Inv, Run, GetPrefix, RetiresFs, Usable, Step, Serves, Truthful, Goes, Fails, Ours, Excused, OwnPath, OnlyMount,
        FssRecovery.Healthy, FssRecovery.UndeletedRun, FssRecovery.CreatedTheMissing;
      ghost var target, address, found;
      r, said, target, address, found := Attempt(uid, ad, mount, name);
      if r.Failure? {
        client.Abandon(uid);
        FailureExcused(client.origin, old(client.log), client.log, old(client.calls), said, uid, ad, r.error);
        return;
      }
      IssuedResources(client.origin, found, client.log, r.value.0);
      SuccessCounts(client.origin, old(client.log), client.log, r.value.0);
      assert ServedFrom(target, address, mount, r.value.0);
    }

    /**
     Provision a claim, whose lock the caller holds.  It succeeds exactly when none of its calls is
     refused and no poll times out, and otherwise returns the error of the call where it stopped.
     On success the persistent volume names the export just seen ACTIVE and its file system, which
     is ACTIVE at the same time unless someone deleted it while Provision was running.  As long as
     nothing of the claim's is deleted, a failure is a call that failed, a poll that timed out, or
     the mount target or its address; and a success has created exactly what was missing.
     */
    method Provision(options: VolumeOptions, ad: string) returns (r: Result<PersistentVolume, Error>, h: Handle, ghost said: seq<Record>)
      requires Valid() && options.pvc.Some? && options.pvc.value.uid !in client.world.claims
      modifies client, config`compartmentOCID
      ensures Valid() && old(client.log) <= client.log && options.pvc.value.uid !in client.world.claims
      ensures client.world.compartment == old(client.world).compartment
      ensures client.calls == old(client.calls) + said && Ours(said, options.pvc.value.uid, ad, |old(client.log)|)
      ensures said == [] ==> r == Failure(Plain(NoMountTargetId)) && client.world == old(client.world)
      ensures said != [] ==> if r.Success? then Goes(said) else Fails(said, r.error)
      ensures said != [] && LeftAlone(options.pvc.value.uid, ad) && r.Failure? ==> Excused(said[|said| - 1])
      ensures LeftAlone(options.pvc.value.uid, ad) && r.Success? ==>
        && FssRecovery.CreatedTheMissing(old(client.world), client.log[|old(client.log)|..], options.pvc.value.uid, ad, h)
        && h.exportId in client.world.cloud.exports && OwnPath(old(client.world), client.world, h)
      ensures r.Success? ==> r.value.annotations == map[OCI_VOLUME_ID := h.fs, OCI_EXPORT_ID := h.exportId]
      ensures r.Success? ==> client.Issued(h) && h.uid == options.pvc.value.uid && h.ad == ad
      ensures var annotations, parameters := options.pvc.value.annotations, options.parameters;
        if ANNOTATION_MOUNT_TARGET_ID in annotations && annotations[ANNOTATION_MOUNT_TARGET_ID] != "" then
          said != [] && forall k | 0 <= k < |said| && said[k].answer.MountAnswer? :: said[k].answer.id == annotations[ANNOTATION_MOUNT_TARGET_ID]
        else if MNT_TARGET_ID in parameters && parameters[MNT_TARGET_ID] != "" then
          said != [] && forall k | 0 <= k < |said| && said[k].answer.MountAnswer? :: said[k].answer.id == parameters[MNT_TARGET_ID]
        else said == []
      ensures said != [] ==> said[0].answer.MountAnswer?
      ensures said != [] && r.Failure? ==> var a := said[|said| - 1].answer;
        && (a.MountAnswer? && a.mount.Success? && a.mount.value.life.MountCreating? ==> r.error == Plain(PollTimedOut))
        && (a.MountAnswer? && a.mount.Success? && a.mount.value.life.MountActive? ==> r.error == Plain(if a.mount.value.ips == [] then NoPrivateIps else NoExportSet))
        && (a.MountAnswer? && a.mount.Success? && !a.mount.value.life.MountCreating? && !a.mount.value.life.MountActive? ==> r.error == Plain(BadLifecycleState))
        && (a.MountAnswer? && a.mount.Failure? ==> r.error == a.mount.error)
        && (a.AddressAnswer? ==> a.address == Failure(r.error) || (a.address == Success(None) && r.error == Plain(NoIpAddress)))
        && (a.FsListAnswer? ==> a.items == Failure(r.error) || (a.items.Success? && |a.items.value| > 1 && r.error == Plain(MoreThanOneFileSystem)))
        && (a.FsAnswer? && a.fs.Success? ==> !a.fs.value.life.Active? && r.error == Plain(if a.fs.value.life.Creating? then PollTimedOut else BadLifecycleState))
        && (a.FsAnswer? && a.fs.Failure? ==> r.error == a.fs.error)
        && (a.ExportPageAnswer? ==> a.page == Failure(r.error))
        && (a.ExportAnswer? && a.exported.Success? ==>
              !a.exported.value.life.Active? && r.error == Plain(if a.exported.value.life.Creating? then PollTimedOut else BadLifecycleState))
        && (a.ExportAnswer? && a.exported.Failure? ==> r.error == a.exported.error)
        && (a.FsCreateAnswer? || a.ExportCreateAnswer? ==> a.created == Failure(r.error))
      ensures r.Success? ==> exists target, address :: ServedFrom(target, address, said[0].answer.id, h)
      ensures r.Success? ==> BothThere(h) && var fs, exported := client.world.cloud.fss[h.fs], client.world.cloud.exports[h.exportId];
        && fs.ad == ad && fs.name == GetPrefix(environmentPrefix) + options.pvc.value.uid
        && (if old(config.compartmentOCID) != "" then fs.compartment == old(config.compartmentOCID) else config.metadata == Some(fs.compartment))
        && r.value.source == Nfs(h.server, exported.path, forall m | m in options.pvc.value.accessModes :: m == ReadOnlyMany)
      ensures r.Success? ==> r.value.name == h.fs && r.value.labels == map[LABEL_ZONE_REGION := region]
      ensures r.Success? ==>
        && r.value.accessModes == options.pvc.value.accessModes
        && r.value.reclaimPolicy == options.reclaimPolicy && r.value.mountOptions == options.mountOptions
        && r.value.capacity == if options.pvc.value.storage.Some? then options.pvc.value.storage.value else 0.0
    {
      hide Init, Inv, Run, GetPrefix, RetiresFs, Step, Serves, Truthful, Goes, Fails, Ours, Excused, OwnPath, GetMountTargetID, OnlyMount, FirstLive, ServedFrom, Configuration.Effective,
        FssRecovery.Healthy, FssRecovery.UndeletedRun, FssRecovery.CreatedTheMissing;
      h := *;
      said := [];
      var pvc := options.pvc.value;
      OursNowhere(pvc.uid, ad, |client.log|);
      ItsCompartment();
      var name := DisplayName(GetPrefix(environmentPrefix), pvc.uid);
      var mount := GetMountTargetID(options);
      if mount == "" {
        NothingAsked(mount);
        MountTargetAsked(options, said);
        return Failure(Plain(NoMountTargetId)), h, said;
      }
      var attempt;
      attempt, said := AttemptToTheEnd(pvc.uid, ad, mount, name);
      OursAreAsked(said, pvc.uid, ad, |old(client.log)|);
      MountTargetAsked(options, said);
      if attempt.Failure? {
        StoppedBy(said, attempt.error);
        return Failure(attempt.error), h, said;
      }
      h := attempt.value.0;
      ghost var target, address :| ServedFrom(target, address, mount, h);
      var readOnly := IsReadOnly(pvc.accessModes);
      assert ServedFrom(target, address, mount, h);
      r := Success(PersistentVolume(
        h.fs,
        map[OCI_VOLUME_ID := h.fs, OCI_EXPORT_ID := h.exportId],
        map[LABEL_ZONE_REGION := region],
        options.reclaimPolicy,
        pvc.accessModes,
        if pvc.storage.Some? then pvc.storage.value else 0.0,
        Nfs(h.server, attempt.value.1.path, readOnly),
        options.mountOptions));
    }

    /**
     Delete a persistent volume that Provision issued: its export, and then its file system unless
     the export's deletion was refused; the error is that of the call where it stopped.  After a nil
     result the file system is live exactly when the service denied having it although it was, and
     the export only if it denied having that.
     */
    method Delete(volume: PersistentVolume, h: Handle) returns (error: Option<Error>, ghost said: seq<Record>)
      requires Valid()
      requires Lookup(volume.annotations, OCI_EXPORT_ID) != "" && Lookup(volume.annotations, OCI_VOLUME_ID) != "" ==>
        Names(volume, h) && h in client.world.volumes && h !in client.world.teardowns
      modifies client
      ensures Valid() && old(client.log) <= client.log && client.calls == old(client.calls) + said
      ensures old(client.world).volumes <= client.world.volumes
      ensures h !in old(client.world).teardowns ==> h !in client.world.teardowns
      ensures said == [] ==> client.world == old(client.world)
      ensures if OCI_EXPORT_ID !in volume.annotations || volume.annotations[OCI_EXPORT_ID] == "" then
          said == [] && error == Some(Plain(MissingAnnotation(OCI_EXPORT_ID)))
        else if OCI_VOLUME_ID !in volume.annotations || volume.annotations[OCI_VOLUME_ID] == "" then
          said == [] && error == Some(Plain(MissingAnnotation(OCI_VOLUME_ID)))
        else
          && Deletes(said, h) && error == Refusal(said[|said| - 1])
          && (forall k | 0 <= k < |said| :: said[k].Dropped? && said[k].volume == h && said[k].step == if k == 0 then DropExport else DropFs)
          && (|said| == 2 ==> said[0].error.None? || IsNotFound(said[0].error))
          && (error.None? <==> |said| == 2 && (said[1].error.None? || IsNotFound(said[1].error)))
          && (error.Some? ==> error == said[|said| - 1].error && !IsNotFound(error))
      ensures error.None? ==>
        && |said| == 2
        && (LiveFsIn(client.world.cloud, h.fs) <==> Denied(client.origin, client.log, said[1]))
        && (LiveExportIn(client.world.cloud, h.exportId) ==> Denied(client.origin, client.log, said[0]))
    {
      hide Init, Inv, Run, GetPrefix, Truthful, Holds, Denied;
      said := [];
      var exportID := Lookup(volume.annotations, OCI_EXPORT_ID);
      if exportID == "" {
        return Some(Plain(MissingAnnotation(OCI_EXPORT_ID))), said;
      }
      var filesystemID := Lookup(volume.annotations, OCI_VOLUME_ID);
      if filesystemID == "" {
        return Some(Plain(MissingAnnotation(OCI_VOLUME_ID))), said;
      }
      client.BeginTeardown(h);
      var exportError, dropped := client.DeleteExport(h, exportID);
      said := [dropped];
      if exportError.Some? && !IsNotFound(exportError) {
        return exportError, said;
      }
      var fsError, gone := client.DeleteFileSystem(h, filesystemID);
      said := [dropped, gone];
      assert client.calls == old(client.calls) + said;
      if fsError.Some? && !IsNotFound(fsError) {
        return fsError, said;
      }
      TruthfulHolds(client.origin, client.log, old(client.calls), said);
      DeleteLeaves(client.origin, client.log, said, h);
      return None, said;
    }
  }
}
