/**
 The inductive invariant of the file storage machine.  What each attempt believes about the
 service between a listing and the create that relies on it holds in every reachable state,
 whatever the other claims, the teardowns and the service do in between.
 */
module FssInvariant {
  import opened Wrappers
  import opened Ocids
  import opened Naming
  import opened FileStorage

  predicate SameKey(f: FileSystem, g: FileSystem) {
    f.compartment == g.compartment && f.ad == g.ad && f.name == g.name
  }

  predicate RivalFs(fss: map<Ocid, FileSystem>, i: Ocid, j: Ocid) {
    i in fss && j in fss && !fss[i].life.Deleted? && !fss[j].life.Deleted? && SameKey(fss[i], fss[j])
  }

  /** At most one file system that is not DELETED per compartment, availability domain and display name. */
  ghost predicate UniqueFs(fss: map<Ocid, FileSystem>) {
    forall i, j :: RivalFs(fss, i, j) ==> i == j
  }

  predicate RivalExports(exports: map<Ocid, Export>, i: Ocid, j: Ocid) {
    && i in exports && j in exports && exports[i].life.Live() && exports[j].life.Live()
    && Joins(exports[j], exports[i].fs, exports[i].exportSet)
  }

  /** At most one CREATING or ACTIVE export per file system and export set. */
  ghost predicate UniqueExports(exports: map<Ocid, Export>) {
    forall i, j :: RivalExports(exports, i, j) ==> i == j
  }

  ghost predicate WellFormed(c: Cloud) {
    && "" !in c.fss && "" !in c.exports
    && (forall e :: e in c.exports ==> c.exports[e].fs in c.fss)
  }

  ghost predicate OwnFs(w: World, uid: string, ad: string, fs: Ocid) {
    fs in w.cloud.fss && Keyed(w, w.cloud.fss[fs], ad, uid)
  }

  /** An own file system that has already been observed ACTIVE. */
  ghost predicate ReadyFs(w: World, uid: string, ad: string, fs: Ocid) {
    OwnFs(w, uid, ad, fs) && !w.cloud.fss[fs].life.Creating?
  }

  ghost predicate NoLiveFs(w: World, uid: string, ad: string) {
    forall id :: id in w.cloud.fss && Keyed(w, w.cloud.fss[id], ad, uid) ==> w.cloud.fss[id].life.Deleted?
  }

  ghost predicate NoLiveExport(c: Cloud, fs: Ocid, exportSet: Ocid) {
    forall id :: id in c.exports && Joins(c.exports[id], fs, exportSet) ==> !c.exports[id].life.Live()
  }

  ghost predicate OwnExport(c: Cloud, fs: Ocid, exportSet: Ocid, exportId: Ocid) {
    exportId in c.exports && Joins(c.exports[exportId], fs, exportSet)
  }

  /** What an attempt knows at each program point. */
  ghost predicate PcHolds(w: World, uid: string, ad: string, pc: Pc) {
    match pc
    case AwaitMount => true
    case ResolveIp(_, _) => true
    case FindFs(_, _) => true
    case MakeFs(_, _) => NoLiveFs(w, uid, ad)
    case AwaitFs(_, _, fs) => OwnFs(w, uid, ad, fs)
    case FindExport(_, exportSet, fs, seen, _) =>
      ReadyFs(w, uid, ad, fs) && forall id :: id in seen ==> id in w.cloud.exports && !w.cloud.exports[id].life.Live()
    case MakeExport(_, exportSet, fs) => ReadyFs(w, uid, ad, fs) && NoLiveExport(w.cloud, fs, exportSet)
    case AwaitExport(_, exportSet, fs, exportId) => ReadyFs(w, uid, ad, fs) && OwnExport(w.cloud, fs, exportSet, exportId)
  }

  ghost predicate VolumeHolds(w: World, h: Handle) {
    && ReadyFs(w, h.uid, h.ad, h.fs)
    && OwnExport(w.cloud, h.fs, h.exportSet, h.exportId)
    && !w.cloud.exports[h.exportId].life.Creating?
  }

  ghost predicate Inv(w: World) {
    && UniqueFs(w.cloud.fss)
    && UniqueExports(w.cloud.exports)
    && WellFormed(w.cloud)
    && (forall uid :: uid in w.claims ==> PcHolds(w, uid, w.claims[uid].ad, w.claims[uid].pc))
    && (forall h :: h in w.volumes ==> VolumeHolds(w, h))
    && w.teardowns.Keys <= w.volumes
  }

  /** When the provisioner starts, or starts again: nothing in flight, and volumes issued earlier stand for what is there. */
  ghost predicate Init(w: World) {
    && UniqueFs(w.cloud.fss) && UniqueExports(w.cloud.exports) && WellFormed(w.cloud)
    && w.claims == map[] && w.teardowns == map[]
    && (forall h :: h in w.volumes ==> VolumeHolds(w, h))
  }

  lemma InitHasInv(w: World)
    requires Init(w)
    ensures Inv(w)
  {
  }

  // ----- what an action can change -----

  /** The actions that really create a file system, their responses delivered or lost. */
  predicate MakesFs(w: World, a: Action) {
    && a.Claim? && a.call.CreateFs? && a.uid in w.claims && w.claims[a.uid].pc.MakeFs?
    && a.call.id !in w.cloud.fss && a.call.id != ""
  }

  predicate MakesExport(w: World, a: Action) {
    && a.Claim? && a.call.CreateExport? && a.uid in w.claims && w.claims[a.uid].pc.MakeExport?
    && a.call.id !in w.cloud.exports && a.call.id != ""
  }

  /** An action that may take a file system out of CREATING or ACTIVE: a teardown of a volume naming it, or an outside deletion. */
  predicate RetiresFs(a: Action, fs: Ocid) {
    || (a.Tear? && a.volume.fs == fs && a.tear.DeleteFs? && TakesEffect(a.tear.reply))
    || (a.FsMoves? && a.id == fs && !a.to.Live())
  }

  predicate RetiresExport(a: Action, exportId: Ocid) {
    || (a.Tear? && a.volume.exportId == exportId && a.tear.DeleteExport? && TakesEffect(a.tear.reply))
    || (a.ExportMoves? && a.id == exportId && !a.to.Live())
  }

  /** An attempt's event changes only that attempt, the volumes issued, and the one resource it creates. */
  lemma ClaimFrame(w: World, uid: string, call: Call)
    ensures var w', a := ClaimStep(w, uid, call), Claim(uid, call);
      && w' == w.(cloud := w'.cloud, claims := w'.claims, volumes := w'.volumes)
      && w'.claims - {uid} == w.claims - {uid}
      && (forall h | h in w'.volumes - w.volumes :: h.uid == uid)
      && w.volumes <= w'.volumes
      && w'.cloud == w.cloud.(fss := w'.cloud.fss, exports := w'.cloud.exports)
      && w'.cloud.fss == (if MakesFs(w, a) then w.cloud.fss[call.id := NewFs(w, uid, w.claims[uid].ad)] else w.cloud.fss)
      && w'.cloud.exports == (if MakesExport(w, a) then w.cloud.exports[call.id := NewExport(w.claims[uid].pc)] else w.cloud.exports)
  {
  }

  /** A teardown only ages the resources its persistent volume names. */
  lemma TearFrame(w: World, h: Handle, call: TearCall)
    ensures var w' := TearStep(w, h, call);
      && w' == w.(cloud := w'.cloud, teardowns := w'.teardowns)
      && w'.teardowns.Keys <= w.teardowns.Keys + w.volumes
      && (w'.cloud == w.cloud
          || (h in w.teardowns && w'.cloud == AgeExport(w.cloud, h.exportId, Deleting) && RetiresExport(Tear(h, call), h.exportId))
          || (h in w.teardowns && w'.cloud == AgeFs(w.cloud, h.fs, Deleting) && RetiresFs(Tear(h, call), h.fs)))
  {
  }

  /** Only a claim's own events move its attempt, and volumes once issued are never forgotten. */
  lemma ClaimsAfter(w: World, a: Action, uid: string)
    ensures w.volumes <= Step(w, a).volumes
    ensures !(a.Claim? && a.uid == uid) ==>
      && (uid in Step(w, a).claims <==> uid in w.claims)
      && (uid in w.claims ==> Step(w, a).claims[uid] == w.claims[uid])
      && (forall h | h in Step(w, a).volumes && h.uid == uid :: h in w.volumes)
  {
    hide ClaimStep, TearStep;
    if a.Claim? {
      ClaimFrame(w, a.uid, a.call);
      assert a.uid != uid ==> (uid in w.claims <==> uid in w.claims - {a.uid});
      assert a.uid != uid && uid in w.claims ==> (w.claims - {a.uid})[uid] == w.claims[uid];
    }
    if a.Tear? { TearFrame(w, a.volume, a.tear); }
  }

  /** Only a volume's own Delete call moves its teardown. */
  lemma TeardownsAfter(w: World, a: Action, h: Handle)
    ensures !(a.Tear? && a.volume == h) ==>
      && (h in Step(w, a).teardowns <==> h in w.teardowns)
      && (h in w.teardowns ==> Step(w, a).teardowns[h] == w.teardowns[h])
  {
  }

  lemma FssAfter(w: World, a: Action)
    ensures Step(w, a).prefix == w.prefix && Step(w, a).compartment == w.compartment
    ensures MakesFs(w, a) ==> Step(w, a).cloud.fss == w.cloud.fss[a.call.id := NewFs(w, a.uid, w.claims[a.uid].ad)]
    ensures !MakesFs(w, a) ==> Step(w, a).cloud.fss.Keys == w.cloud.fss.Keys
    ensures forall id | id in w.cloud.fss ::
      var f, f' := w.cloud.fss[id], Step(w, a).cloud.fss[id];
      SameKey(f, f') && f.life.Rank() <= f'.life.Rank() && (f.life.Live() && !f'.life.Live() ==> RetiresFs(a, id))
  {
    hide ClaimStep, TearStep;
    if a.Claim? { ClaimFrame(w, a.uid, a.call); }
    if a.Tear? { TearFrame(w, a.volume, a.tear); }
  }

  lemma ExportsAfter(w: World, a: Action)
    ensures MakesExport(w, a) ==> Step(w, a).cloud.exports == w.cloud.exports[a.call.id := NewExport(w.claims[a.uid].pc)]
    ensures !MakesExport(w, a) ==> Step(w, a).cloud.exports.Keys == w.cloud.exports.Keys
    ensures forall id | id in w.cloud.exports ::
      var e, e' := w.cloud.exports[id], Step(w, a).cloud.exports[id];
      Joins(e', e.fs, e.exportSet) && e'.path == e.path && e.life.Rank() <= e'.life.Rank()
      && (e.life.Live() && !e'.life.Live() ==> RetiresExport(a, id))
  {
    hide ClaimStep, TearStep;
    if a.Claim? { ClaimFrame(w, a.uid, a.call); }
    if a.Tear? { TearFrame(w, a.volume, a.tear); }
  }

  // ----- preservation -----

  /** From c to d, resources keep their identity, none appears or vanishes, and lifecycles move forward. */
  ghost predicate Aged(c: Cloud, d: Cloud) {
    && c.fss.Keys == d.fss.Keys
    && (forall i | i in c.fss :: SameKey(c.fss[i], d.fss[i]) && c.fss[i].life.Rank() <= d.fss[i].life.Rank())
    && c.exports.Keys == d.exports.Keys
    && (forall i | i in c.exports ::
          Joins(d.exports[i], c.exports[i].fs, c.exports[i].exportSet) && d.exports[i].path == c.exports[i].path
          && c.exports[i].life.Rank() <= d.exports[i].life.Rank())
  }

  lemma AgedKeepsUnique(c: Cloud, d: Cloud)
    requires Aged(c, d) && UniqueFs(c.fss) && UniqueExports(c.exports) && WellFormed(c)
    ensures UniqueFs(d.fss) && UniqueExports(d.exports) && WellFormed(d)
  {
    forall i, j | RivalFs(d.fss, i, j)
      ensures i == j
    {
      assert RivalFs(c.fss, i, j);
    }
    forall i, j | RivalExports(d.exports, i, j)
      ensures i == j
    {
      assert RivalExports(c.exports, i, j);
    }
  }

  lemma AgedKeepsPc(w: World, d: Cloud, uid: string, ad: string, pc: Pc)
    requires Aged(w.cloud, d) && PcHolds(w, uid, ad, pc)
    ensures PcHolds(w.(cloud := d), uid, ad, pc)
  {
  }

  /** Ageing, whoever causes it, breaks no attempt's knowledge. */
  lemma AgedKeepsInv(w: World, d: Cloud)
    requires Inv(w) && Aged(w.cloud, d)
    ensures Inv(w.(cloud := d))
  {
    var w' := w.(cloud := d);
    AgedKeepsUnique(w.cloud, d);
    forall uid | uid in w.claims
      ensures PcHolds(w', uid, w.claims[uid].ad, w.claims[uid].pc)
    {
      AgedKeepsPc(w, d, uid, w.claims[uid].ad, w.claims[uid].pc);
    }
    forall h | h in w.volumes
      ensures VolumeHolds(w', h)
    {
      assert VolumeHolds(w, h);
    }
  }

  /** Starting an attempt or moving it on, with the service unchanged, needs only its new knowledge. */
  lemma JoinKeepsInv(w: World, uid: string, attempt: Attempt)
    requires Inv(w) && PcHolds(w, uid, attempt.ad, attempt.pc)
    ensures Inv(w.(claims := w.claims[uid := attempt]))
  {
  }

  lemma GotoKeepsInv(w: World, uid: string, pc: Pc)
    requires Inv(w) && uid in w.claims
    requires PcHolds(w, uid, w.claims[uid].ad, pc)
    ensures Inv(Goto(w, uid, pc))
  {
  }

  lemma EndKeepsInv(w: World, uid: string)
    requires Inv(w)
    ensures Inv(EndAttempt(w, uid))
  {
  }

  function AddFs(w: World, id: Ocid, f: FileSystem): World {
    w.(cloud := w.cloud.(fss := w.cloud.fss[id := f]))
  }

  function AddExport(w: World, id: Ocid, e: Export): World {
    w.(cloud := w.cloud.(exports := w.cloud.exports[id := e]))
  }

  /** A new file system disturbs only an attempt that was about to create the same one. */
  lemma AddFsKeepsPc(w: World, id: Ocid, f: FileSystem, uid: string, ad: string, pc: Pc)
    requires id !in w.cloud.fss && PcHolds(w, uid, ad, pc)
    requires !Keyed(w, f, ad, uid)
    ensures PcHolds(AddFs(w, id, f), uid, ad, pc)
  {
  }

  /** A new export disturbs only an attempt on the same file system. */
  lemma AddExportKeepsPc(w: World, id: Ocid, e: Export, uid: string, ad: string, pc: Pc)
    requires id !in w.cloud.exports && PcHolds(w, uid, ad, pc)
    requires e.fs in w.cloud.fss && !Keyed(w, w.cloud.fss[e.fs], ad, uid)
    ensures PcHolds(AddExport(w, id, e), uid, ad, pc)
  {
  }

  lemma AddFsKeepsUnique(w: World, id: Ocid, f: FileSystem, uid: string, ad: string)
    requires UniqueFs(w.cloud.fss) && id !in w.cloud.fss
    requires Keyed(w, f, ad, uid) && NoLiveFs(w, uid, ad)
    ensures UniqueFs(AddFs(w, id, f).cloud.fss)
  {
    forall i, j | RivalFs(AddFs(w, id, f).cloud.fss, i, j)
      ensures i == j
    {
      if i != id && j != id { assert RivalFs(w.cloud.fss, i, j); }
    }
  }

  lemma AddExportKeepsUnique(w: World, id: Ocid, e: Export)
    requires UniqueExports(w.cloud.exports) && id !in w.cloud.exports && NoLiveExport(w.cloud, e.fs, e.exportSet)
    ensures UniqueExports(AddExport(w, id, e).cloud.exports)
  {
    forall i, j | RivalExports(AddExport(w, id, e).cloud.exports, i, j)
      ensures i == j
    {
      if i != id && j != id { assert RivalExports(w.cloud.exports, i, j); }
    }
  }

  /** The uid in a file system's name is the only one whose attempts look for it. */
  lemma KeyedByOne(w: World, f: FileSystem, ad: string, uid: string, ad': string, uid': string)
    requires Keyed(w, f, ad, uid) && Keyed(w, f, ad', uid')
    ensures uid == uid' && ad == ad'
  {
    DisplayNameInjective(w.prefix, uid, uid');
  }

  lemma AddFsKeepsInv(w: World, uid: string, id: Ocid)
    requires Inv(w) && uid in w.claims && w.claims[uid].pc.MakeFs? && id !in w.cloud.fss && id != ""
    ensures Inv(EndAttempt(AddFs(w, id, NewFs(w, uid, w.claims[uid].ad)), uid))
  {
    var ad := w.claims[uid].ad;
    var f := NewFs(w, uid, ad);
    var w' := EndAttempt(AddFs(w, id, f), uid);
    assert PcHolds(w, uid, ad, w.claims[uid].pc);
    AddFsKeepsUnique(w, id, f, uid, ad);
    forall u | u in w'.claims
      ensures PcHolds(w', u, w'.claims[u].ad, w'.claims[u].pc)
    {
      if Keyed(w, f, w.claims[u].ad, u) { KeyedByOne(w, f, ad, uid, w.claims[u].ad, u); }
      AddFsKeepsPc(w, id, f, u, w.claims[u].ad, w.claims[u].pc);
    }
    forall h | h in w'.volumes ensures VolumeHolds(w', h) { assert VolumeHolds(w, h); }
  }

  lemma AddExportKeepsInv(w: World, uid: string, id: Ocid)
    requires Inv(w) && uid in w.claims && w.claims[uid].pc.MakeExport? && id !in w.cloud.exports && id != ""
    ensures Inv(EndAttempt(AddExport(w, id, NewExport(w.claims[uid].pc)), uid))
  {
    var ad, pc := w.claims[uid].ad, w.claims[uid].pc;
    var e := NewExport(pc);
    var w' := EndAttempt(AddExport(w, id, e), uid);
    assert PcHolds(w, uid, ad, pc);
    AddExportKeepsUnique(w, id, e);
    forall u | u in w'.claims
      ensures PcHolds(w', u, w'.claims[u].ad, w'.claims[u].pc)
    {
      if Keyed(w, w.cloud.fss[e.fs], w.claims[u].ad, u) { KeyedByOne(w, w.cloud.fss[e.fs], ad, uid, w.claims[u].ad, u); }
      AddExportKeepsPc(w, id, e, u, w.claims[u].ad, w.claims[u].pc);
    }
    forall h | h in w'.volumes ensures VolumeHolds(w', h) { assert VolumeHolds(w, h); }
  }

  lemma CreateFsKeepsInv(w: World, uid: string, pc: Pc, id: Ocid, lost: bool)
    requires Inv(w) && uid in w.claims && w.claims[uid].pc == pc && pc.MakeFs?
    ensures Inv(CreateFsStep(w, uid, pc, id, lost))
  {
    if id !in w.cloud.fss && id != "" {
      AddFsKeepsInv(w, uid, id);
      if !lost {
        var ended := EndAttempt(AddFs(w, id, NewFs(w, uid, w.claims[uid].ad)), uid);
        var attempt := w.claims[uid].(pc := AwaitFs(pc.ip, pc.exportSet, id));
        JoinKeepsInv(ended, uid, attempt);
        assert CreateFsStep(w, uid, pc, id, lost) == ended.(claims := ended.claims[uid := attempt]);
      }
    }
  }

  lemma CreateExportKeepsInv(w: World, uid: string, pc: Pc, id: Ocid, lost: bool)
    requires Inv(w) && uid in w.claims && w.claims[uid].pc == pc && pc.MakeExport?
    ensures Inv(CreateExportStep(w, uid, pc, id, lost))
  {
    if id !in w.cloud.exports && id != "" {
      AddExportKeepsInv(w, uid, id);
      if !lost {
        var ended := EndAttempt(AddExport(w, id, NewExport(pc)), uid);
        var attempt := w.claims[uid].(pc := AwaitExport(pc.ip, pc.exportSet, pc.fs, id));
        assert PcHolds(w, uid, w.claims[uid].ad, pc);
        JoinKeepsInv(ended, uid, attempt);
        assert CreateExportStep(w, uid, pc, id, lost) == ended.(claims := ended.claims[uid := attempt]);
      }
    }
  }

  lemma ListExportsKeepsInv(w: World, uid: string, pc: Pc, items: seq<Ocid>, more: Option<nat>)
    requires Inv(w) && uid in w.claims && w.claims[uid].pc == pc && pc.FindExport?
    ensures Inv(ListExportsStep(w, uid, pc, items, more))
  {
    if ExportPage(w.cloud, pc.fs, pc.exportSet, pc.seen, pc.pages, items, more) {
      assert PcHolds(w, uid, w.claims[uid].ad, pc);
      var page := Summaries(w.cloud, items);
      var found := FirstLive(page);
      if found.Some? {
        var k :| 0 <= k < |page| && page[k].id == found.value && page[k].life.Live();
        assert items[k] in items;
        GotoKeepsInv(w, uid, AwaitExport(pc.ip, pc.exportSet, pc.fs, found.value));
      } else {
        forall id | id in items
          ensures id in w.cloud.exports && !w.cloud.exports[id].life.Live()
        {
          var k :| 0 <= k < |items| && items[k] == id;
          assert !page[k].life.Live();
        }
        if more.None? {
          assert NoLiveExport(w.cloud, pc.fs, pc.exportSet);
          GotoKeepsInv(w, uid, MakeExport(pc.ip, pc.exportSet, pc.fs));
        } else {
          GotoKeepsInv(w, uid, pc.(seen := pc.seen + (set id | id in items), pages := more));
        }
      }
    }
  }

  lemma PollExportKeepsInv(w: World, uid: string, pc: Pc)
    requires Inv(w) && uid in w.claims && w.claims[uid].pc == pc && pc.AwaitExport?
    ensures Inv(PollExportStep(w, uid, pc))
  {
  }

  lemma ListFsKeepsInv(w: World, uid: string, pc: Pc, items: seq<Ocid>)
    requires Inv(w) && uid in w.claims && w.claims[uid].pc == pc && pc.FindFs?
    ensures Inv(ListFsStep(w, uid, pc, items))
  {
    var ad := w.claims[uid].ad;
    if FsListing(w, ad, uid, items) {
      if |items| == 0 {
        assert NoLiveFs(w, uid, ad);
        GotoKeepsInv(w, uid, MakeFs(pc.ip, pc.exportSet));
      } else if |items| == 1 {
        assert items[0] in items;
        GotoKeepsInv(w, uid, AwaitFs(pc.ip, pc.exportSet, items[0]));
      } else {
        EndKeepsInv(w, uid);
      }
    }
  }

  lemma ClaimKeepsInv(w: World, uid: string, call: Call)
    requires Inv(w)
    ensures Inv(ClaimStep(w, uid, call))
  {
    if call.Begin? {
      if uid !in w.claims {
        JoinKeepsInv(w, uid, Attempt(call.ad, call.mount, AwaitMount));
      }
    } else if uid in w.claims {
      var pc := w.claims[uid].pc;
      assert PcHolds(w, uid, w.claims[uid].ad, pc);
      EndKeepsInv(w, uid);
      match call {
        case PollMount =>
          var id := w.claims[uid].mount;
          if pc.AwaitMount? && id in w.cloud.mounts && Usable(w.cloud.mounts[id]) {
            var m := w.cloud.mounts[id];
            GotoKeepsInv(w, uid, ResolveIp(m.ips, m.exportSet.value));
          }
        case GetIp(ipId) =>
          if pc.ResolveIp? && ipId in pc.ips && ipId in w.cloud.addresses && w.cloud.addresses[ipId].Some? {
            GotoKeepsInv(w, uid, FindFs(w.cloud.addresses[ipId].value, pc.exportSet));
          }
        case ListFs(items) => if pc.FindFs? { ListFsKeepsInv(w, uid, pc, items); }
        case CreateFs(id, lost) => if pc.MakeFs? { CreateFsKeepsInv(w, uid, pc, id, lost); }
        case PollFs =>
          if pc.AwaitFs? && pc.fs in w.cloud.fss && w.cloud.fss[pc.fs].life.Active? {
            GotoKeepsInv(w, uid, FindExport(pc.ip, pc.exportSet, pc.fs, {}, None));
          }
        case ListExports(items, more) => if pc.FindExport? { ListExportsKeepsInv(w, uid, pc, items, more); }
        case CreateExport(id, lost) => if pc.MakeExport? { CreateExportKeepsInv(w, uid, pc, id, lost); }
        case PollExport => if pc.AwaitExport? { PollExportKeepsInv(w, uid, pc); }
        case Abandon =>
        case Begin(_, _) =>
      }
    }
  }

  /** Only the teardowns change. */
  lemma TeardownsKeepInv(w: World, teardowns: map<Handle, Teardown>)
    requires Inv(w) && teardowns.Keys <= w.volumes
    ensures Inv(w.(teardowns := teardowns))
  {
  }

  lemma DeleteKeepsInv(w: World, aged: Cloud, teardowns: map<Handle, Teardown>)
    requires Inv(w) && Aged(w.cloud, aged) && teardowns.Keys <= w.volumes
    ensures Inv(w.(cloud := aged, teardowns := teardowns))
  {
    AgedKeepsInv(w, aged);
    TeardownsKeepInv(w.(cloud := aged), teardowns);
  }

  lemma TearKeepsInv(w: World, h: Handle, call: TearCall)
    requires Inv(w)
    ensures Inv(TearStep(w, h, call))
  {
    hide TearStep;
    TearFrame(w, h, call);
    DeleteKeepsInv(w, TearStep(w, h, call).cloud, TearStep(w, h, call).teardowns);
  }

  /** Every action keeps the invariant. */
  lemma StepKeepsInv(w: World, a: Action)
    requires Inv(w)
    ensures Inv(Step(w, a))
  {
    hide ClaimStep, TearStep;
    match a
    case Claim(uid, call) => ClaimKeepsInv(w, uid, call);
    case Tear(h, call) => TearKeepsInv(w, h, call);
    case FsMoves(id, to) => AgedKeepsInv(w, AgeFs(w.cloud, id, to));
    case ExportMoves(id, to) => AgedKeepsInv(w, AgeExport(w.cloud, id, to));
    case MountIs(_, _) => AgedKeepsInv(w, Step(w, a).cloud);
    case AddressIs(_, _) => AgedKeepsInv(w, Step(w, a).cloud);
  }

  /** So every state of every run has it. */
  lemma {:induction false} RunKeepsInv(w: World, actions: seq<Action>)
    requires Inv(w)
    ensures Inv(Run(w, actions))
  {
    if actions != [] {
      RunKeepsInv(w, actions[..|actions| - 1]);
      StepKeepsInv(Run(w, actions[..|actions| - 1]), actions[|actions| - 1]);
    }
  }
}
