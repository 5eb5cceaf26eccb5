/**
 What holds in every run of the file storage machine: any number of claims, each retried after
 any failure, interleaved call by call with each other, with teardowns and with the service.
 */
module FssSafety {
  import opened Wrappers
  import opened Ocids
  import opened Naming
  import opened FileStorage
  import opened FssInvariant

  /**
   In every run, file systems that are not DELETED and exports that are CREATING or ACTIVE are
   told apart by what the plugin looks them up by.
   */
  lemma NeverTwo(w0: World, actions: seq<Action>)
    requires Init(w0)
    ensures var c := Run(w0, actions).cloud;
      && (forall i, j | i in c.fss && j in c.fss && !c.fss[i].life.Deleted? && !c.fss[j].life.Deleted? ::
            i == j <==> SameKey(c.fss[i], c.fss[j]))
      && (forall i, j | i in c.exports && j in c.exports && c.exports[i].life.Live() && c.exports[j].life.Live() ::
            i == j <==> Joins(c.exports[j], c.exports[i].fs, c.exports[i].exportSet))
  {
    InitHasInv(w0);
    RunKeepsInv(w0, actions);
    var c := Run(w0, actions).cloud;
    forall i, j | i in c.fss && j in c.fss && !c.fss[i].life.Deleted? && !c.fss[j].life.Deleted?
      ensures i == j <==> SameKey(c.fss[i], c.fss[j])
    {
      assert SameKey(c.fss[i], c.fss[j]) ==> RivalFs(c.fss, i, j);
    }
    forall i, j | i in c.exports && j in c.exports && c.exports[i].life.Live() && c.exports[j].life.Live()
      ensures i == j <==> Joins(c.exports[j], c.exports[i].fs, c.exports[i].exportSet)
    {
      assert Joins(c.exports[j], c.exports[i].fs, c.exports[i].exportSet) ==> RivalExports(c.exports, i, j);
    }
  }

  // ----- claims do not interfere -----

  /** Resources are attributed to claims by display name. */
  ghost predicate NamedFor(w: World, f: FileSystem, uid: string) {
    f.name == DisplayName(w.prefix, uid)
  }

  ghost function FsSlice(w: World, uid: string): map<Ocid, FileSystem> {
    map id | id in w.cloud.fss && NamedFor(w, w.cloud.fss[id], uid) :: w.cloud.fss[id]
  }

  ghost function ExportSlice(w: World, uid: string): map<Ocid, Export> {
    map id | id in w.cloud.exports && w.cloud.exports[id].fs in FsSlice(w, uid) :: w.cloud.exports[id]
  }

  /** Whether an action can be about a claim's resources: its own attempt, a teardown of its volumes, or the service moving them. */
  ghost predicate Concerns(w: World, a: Action, uid: string) {
    match a
    case Claim(u, _) => u == uid
    case Tear(h, _) => h.uid == uid
    case FsMoves(id, _) => id in FsSlice(w, uid)
    case ExportMoves(id, _) => id in ExportSlice(w, uid)
    case MountIs(_, _) => false
    case AddressIs(_, _) => false
  }

  /** What a run that never concerns a claim leaves exactly as it was. */
  ghost predicate SameSlice(w: World, w': World, uid: string) {
    && FsSlice(w', uid) == FsSlice(w, uid)
    && ExportSlice(w', uid) == ExportSlice(w, uid)
    && (uid in w'.claims <==> uid in w.claims)
    && (uid in w.claims ==> w'.claims[uid] == w.claims[uid])
    && (forall h: Handle | h.uid == uid :: h in w'.volumes <==> h in w.volumes)
  }

  lemma CloudSame(w: World, w': World, uid: string)
    requires w'.prefix == w.prefix && w'.cloud.fss == w.cloud.fss && w'.cloud.exports == w.cloud.exports
    ensures FsSlice(w', uid) == FsSlice(w, uid) && ExportSlice(w', uid) == ExportSlice(w, uid)
  {
  }

  lemma FsChangeElsewhere(w: World, w': World, id: Ocid, uid: string)
    requires WellFormed(w.cloud)
    requires w'.prefix == w.prefix && w'.cloud.exports == w.cloud.exports
    requires id in w'.cloud.fss && w'.cloud.fss == w.cloud.fss[id := w'.cloud.fss[id]]
    requires !NamedFor(w, w'.cloud.fss[id], uid)
    requires id in w.cloud.fss ==> w.cloud.fss[id].name == w'.cloud.fss[id].name
    ensures FsSlice(w', uid) == FsSlice(w, uid) && ExportSlice(w', uid) == ExportSlice(w, uid)
  {
  }

  lemma ExportChangeElsewhere(w: World, w': World, id: Ocid, uid: string)
    requires w'.prefix == w.prefix && w'.cloud.fss == w.cloud.fss
    requires id in w'.cloud.exports && w'.cloud.exports == w.cloud.exports[id := w'.cloud.exports[id]]
    requires w'.cloud.exports[id].fs !in FsSlice(w, uid)
    requires id in w.cloud.exports ==> w.cloud.exports[id].fs == w'.cloud.exports[id].fs
    ensures FsSlice(w', uid) == FsSlice(w, uid) && ExportSlice(w', uid) == ExportSlice(w, uid)
  {
  }

  lemma AgeElsewhere(w: World, fs: Ocid, exportId: Ocid, to: Life, uid: string)
    requires WellFormed(w.cloud)
    ensures fs !in FsSlice(w, uid) ==>
      var w' := w.(cloud := AgeFs(w.cloud, fs, to)); FsSlice(w', uid) == FsSlice(w, uid) && ExportSlice(w', uid) == ExportSlice(w, uid)
    ensures exportId !in ExportSlice(w, uid) ==>
      var w' := w.(cloud := AgeExport(w.cloud, exportId, to)); FsSlice(w', uid) == FsSlice(w, uid) && ExportSlice(w', uid) == ExportSlice(w, uid)
  {
    if fs !in FsSlice(w, uid) && AgeFs(w.cloud, fs, to) != w.cloud {
      FsChangeElsewhere(w, w.(cloud := AgeFs(w.cloud, fs, to)), fs, uid);
    }
    if exportId !in ExportSlice(w, uid) && AgeExport(w.cloud, exportId, to) != w.cloud {
      ExportChangeElsewhere(w, w.(cloud := AgeExport(w.cloud, exportId, to)), exportId, uid);
    }
  }

  lemma ClaimElsewhere(w: World, u: string, call: Call, uid: string)
    requires Inv(w) && u != uid
    ensures SameSlice(w, ClaimStep(w, u, call), uid)
  {
    var w', a := ClaimStep(w, u, call), Claim(u, call);
    ClaimFrame(w, u, call);
    hide ClaimStep;
    assert uid in w.claims <==> uid in w.claims - {u};
    assert uid in w'.claims <==> uid in w'.claims - {u};
    if MakesFs(w, a) {
      if NamedFor(w, w'.cloud.fss[call.id], uid) { DisplayNameInjective(w.prefix, u, uid); }
      FsChangeElsewhere(w, w', call.id, uid);
    } else if MakesExport(w, a) {
      assert PcHolds(w, u, w.claims[u].ad, w.claims[u].pc);
      if w.claims[u].pc.fs in FsSlice(w, uid) { DisplayNameInjective(w.prefix, u, uid); }
      ExportChangeElsewhere(w, w', call.id, uid);
    } else {
      CloudSame(w, w', uid);
    }
  }

  lemma TearElsewhere(w: World, h: Handle, call: TearCall, uid: string)
    requires Inv(w) && h.uid != uid
    ensures SameSlice(w, TearStep(w, h, call), uid)
  {
    var w' := TearStep(w, h, call);
    TearFrame(w, h, call);
    hide TearStep;
    if h in w.teardowns {
      assert VolumeHolds(w, h);
      if h.fs in FsSlice(w, uid) { DisplayNameInjective(w.prefix, h.uid, uid); }
      AgeElsewhere(w, h.fs, h.exportId, Deleting, uid);
    }
    CloudSame(w.(cloud := w'.cloud), w', uid);
  }

  /** One action that does not concern a claim changes nothing of that claim's. */
  lemma StepElsewhere(w: World, a: Action, uid: string)
    requires Inv(w) && !Concerns(w, a, uid)
    ensures SameSlice(w, Step(w, a), uid)
  {
    match a
    case Claim(u, call) => ClaimElsewhere(w, u, call, uid);
    case Tear(h, call) => TearElsewhere(w, h, call, uid);
    case FsMoves(id, to) => AgeElsewhere(w, id, "", to, uid);
    case ExportMoves(id, to) => AgeElsewhere(w, "", id, to, uid);
    case MountIs(_, _) => CloudSame(w, Step(w, a), uid);
    case AddressIs(_, _) => CloudSame(w, Step(w, a), uid);
  }

  ghost predicate NeverConcerns(w: World, actions: seq<Action>, uid: string) {
    forall k | 0 <= k < |actions| :: !Concerns(Run(w, actions[..k]), actions[k], uid)
  }

  /**
   Whatever other claims' attempts and teardowns do, in any number and order, they neither
   create, adopt, change nor delete anything of this claim's.
   */
  lemma {:induction false} ClaimsDoNotInterfere(w: World, actions: seq<Action>, uid: string)
    requires Inv(w) && NeverConcerns(w, actions, uid)
    ensures SameSlice(w, Run(w, actions), uid)
  {
    if actions != [] {
      var n := |actions| - 1;
      forall k | 0 <= k < n
        ensures !Concerns(Run(w, actions[..n][..k]), actions[..n][k], uid)
      {
        assert actions[..n][..k] == actions[..k];
      }
      ClaimsDoNotInterfere(w, actions[..n], uid);
      RunKeepsInv(w, actions[..n]);
      StepElsewhere(Run(w, actions[..n]), actions[n], uid);
    }
  }

  // ----- identity over whole runs -----

  /**
   Two persistent volumes ever issued for one claim name the same file system exactly when
   they were provisioned in the same availability domain, and the same export exactly when the
   export set was the same too, as long as none of the four resources has been deleted.
   */
  lemma IdentityIsStable(w0: World, actions: seq<Action>, h1: Handle, h2: Handle)
    requires Init(w0)
    requires h1 in Run(w0, actions).volumes && h2 in Run(w0, actions).volumes && h1.uid == h2.uid
    ensures var c := Run(w0, actions).cloud;
      && h1.fs in c.fss && h2.fs in c.fss && h1.exportId in c.exports && h2.exportId in c.exports
      && (!c.fss[h1.fs].life.Deleted? && !c.fss[h2.fs].life.Deleted? ==>
            (h1.fs == h2.fs <==> h1.ad == h2.ad)
            && (c.exports[h1.exportId].life.Live() && c.exports[h2.exportId].life.Live() ==>
                  (h1.exportId == h2.exportId <==> h1.ad == h2.ad && h1.exportSet == h2.exportSet)))
  {
    InitHasInv(w0);
    RunKeepsInv(w0, actions);
    var w := Run(w0, actions);
    assert VolumeHolds(w, h1) && VolumeHolds(w, h2);
    assert h1.ad == h2.ad && !w.cloud.fss[h1.fs].life.Deleted? && !w.cloud.fss[h2.fs].life.Deleted? ==> RivalFs(w.cloud.fss, h1.fs, h2.fs);
    assert h1.fs == h2.fs && h1.exportSet == h2.exportSet && w.cloud.exports[h1.exportId].life.Live() && w.cloud.exports[h2.exportId].life.Live()
      ==> RivalExports(w.cloud.exports, h1.exportId, h2.exportId);
  }

  ghost function OwnedFs(w: World, uid: string, ad: string): set<Ocid> {
    set id | id in w.cloud.fss && Keyed(w, w.cloud.fss[id], ad, uid)
  }

  ghost function OwnedExports(w: World, fs: Ocid, exportSet: Ocid): set<Ocid> {
    set id | id in w.cloud.exports && Joins(w.cloud.exports[id], fs, exportSet)
  }

  /** An action that really creates a file system for a claim in an availability domain, its response delivered or lost. */
  ghost predicate CreatesFs(w: World, a: Action, uid: string, ad: string) {
    MakesFs(w, a) && a.uid == uid && w.claims[uid].ad == ad
  }

  ghost predicate CreatesExport(w: World, a: Action, fs: Ocid, exportSet: Ocid) {
    MakesExport(w, a) && Joins(NewExport(w.claims[a.uid].pc), fs, exportSet)
  }

  ghost function FsCreates(w: World, actions: seq<Action>, uid: string, ad: string): nat {
    if actions == [] then 0
    else
      var n := |actions| - 1;
      FsCreates(w, actions[..n], uid, ad) + if CreatesFs(Run(w, actions[..n]), actions[n], uid, ad) then 1 else 0
  }

  ghost function ExportCreates(w: World, actions: seq<Action>, fs: Ocid, exportSet: Ocid): nat {
    if actions == [] then 0
    else
      var n := |actions| - 1;
      ExportCreates(w, actions[..n], fs, exportSet) + if CreatesExport(Run(w, actions[..n]), actions[n], fs, exportSet) then 1 else 0
  }

  lemma OwnedFsStep(w: World, a: Action, uid: string, ad: string)
    ensures |OwnedFs(Step(w, a), uid, ad)| == |OwnedFs(w, uid, ad)| + if CreatesFs(w, a, uid, ad) then 1 else 0
  {
    hide Step;
    FssAfter(w, a);
    if MakesFs(w, a) && Keyed(w, NewFs(w, a.uid, w.claims[a.uid].ad), ad, uid) {
      DisplayNameInjective(w.prefix, a.uid, uid);
      assert OwnedFs(Step(w, a), uid, ad) == OwnedFs(w, uid, ad) + {a.call.id};
    } else {
      assert OwnedFs(Step(w, a), uid, ad) == OwnedFs(w, uid, ad);
    }
  }

  lemma OwnedExportsStep(w: World, a: Action, fs: Ocid, exportSet: Ocid)
    ensures |OwnedExports(Step(w, a), fs, exportSet)| == |OwnedExports(w, fs, exportSet)| + if CreatesExport(w, a, fs, exportSet) then 1 else 0
  {
    hide Step;
    ExportsAfter(w, a);
    if CreatesExport(w, a, fs, exportSet) {
      assert OwnedExports(Step(w, a), fs, exportSet) == OwnedExports(w, fs, exportSet) + {a.call.id};
    } else {
      assert OwnedExports(Step(w, a), fs, exportSet) == OwnedExports(w, fs, exportSet);
    }
  }

  lemma {:induction false} CreatesAreCounted(w: World, actions: seq<Action>, uid: string, ad: string, fs: Ocid, exportSet: Ocid)
    ensures |OwnedFs(Run(w, actions), uid, ad)| == |OwnedFs(w, uid, ad)| + FsCreates(w, actions, uid, ad)
    ensures |OwnedExports(Run(w, actions), fs, exportSet)| == |OwnedExports(w, fs, exportSet)| + ExportCreates(w, actions, fs, exportSet)
  {
    if actions != [] {
      var n := |actions| - 1;
      CreatesAreCounted(w, actions[..n], uid, ad, fs, exportSet);
      OwnedFsStep(Run(w, actions[..n]), actions[n], uid, ad);
      OwnedExportsStep(Run(w, actions[..n]), actions[n], fs, exportSet);
    }
  }

  lemma AtMostOne(s: set<Ocid>)
    requires forall i, j :: i in s && j in s ==> i == j
    ensures |s| <= 1
  {
    if s != {} {
      var x :| x in s;
      assert s == {x};
    }
  }

  /**
   Over a whole run, however often it is retried, a claim creates at most one file system per
   availability domain beyond those since DELETED, and each file system gets at most one export
   per export set beyond those since deleted.  With nothing deleted, both totals are at most one.
   */
  lemma CreatesAreBounded(w0: World, actions: seq<Action>, uid: string, ad: string, fs: Ocid, exportSet: Ocid)
    requires Init(w0)
    ensures var w := Run(w0, actions);
      && FsCreates(w0, actions, uid, ad) + |OwnedFs(w0, uid, ad)|
           <= 1 + |set id | id in OwnedFs(w, uid, ad) && w.cloud.fss[id].life.Deleted?|
      && ExportCreates(w0, actions, fs, exportSet) + |OwnedExports(w0, fs, exportSet)|
           <= 1 + |set id | id in OwnedExports(w, fs, exportSet) && !w.cloud.exports[id].life.Live()|
  {
    InitHasInv(w0);
    RunKeepsInv(w0, actions);
    CreatesAreCounted(w0, actions, uid, ad, fs, exportSet);
    var w := Run(w0, actions);
    var ownFs, ownExports := OwnedFs(w, uid, ad), OwnedExports(w, fs, exportSet);
    var gone := set id | id in ownFs && w.cloud.fss[id].life.Deleted?;
    var retired := set id | id in ownExports && !w.cloud.exports[id].life.Live();
    forall i, j | i in ownFs - gone && j in ownFs - gone ensures i == j { assert RivalFs(w.cloud.fss, i, j); }
    forall i, j | i in ownExports - retired && j in ownExports - retired ensures i == j { assert RivalExports(w.cloud.exports, i, j); }
    AtMostOne(ownFs - gone);
    AtMostOne(ownExports - retired);
    assert ownFs == (ownFs - gone) + gone && ownExports == (ownExports - retired) + retired;
  }

  // ----- success -----

  /**
   At the step that makes a Provision succeed, the export is ACTIVE and joins the claim's file
   system to the mount target's export set; the file system is
   ACTIVE at that same moment unless it has been deleted in the meantime.
   */
  lemma SuccessIsActiveTogether(w0: World, actions: seq<Action>, a: Action, h: Handle)
    requires Init(w0)
    requires h !in Run(w0, actions).volumes && h in Run(w0, actions + [a]).volumes
    ensures var w := Run(w0, actions + [a]);
      && OwnFs(w, h.uid, h.ad, h.fs)
      && OwnExport(w.cloud, h.fs, h.exportSet, h.exportId)
      && w.cloud.exports[h.exportId].life.Active?
      && (w.cloud.fss[h.fs].life.Active? <==> w.cloud.fss[h.fs].life.Live())
  {
    InitHasInv(w0);
    RunAppend(w0, actions, a);
    RunKeepsInv(w0, actions + [a]);
    IssuedActive(Run(w0, actions), a, h);
    hide Run, Step, Init;
    assert VolumeHolds(Run(w0, actions + [a]), h);
  }

  /** The export of a volume just issued is ACTIVE. */
  lemma IssuedActive(w: World, a: Action, h: Handle)
    requires h !in w.volumes && h in Step(w, a).volumes
    ensures h.exportId in Step(w, a).cloud.exports && Step(w, a).cloud.exports[h.exportId].life.Active?
  {
  }

  /** Exports keep what they join and their path, and only move forward; a new one has the plugin's path. */
  lemma {:induction false} ExportsAreKept(w: World, actions: seq<Action>)
    ensures var c, d := w.cloud, Run(w, actions).cloud;
      && c.exports.Keys <= d.exports.Keys
      && (forall e | e in c.exports ::
            Joins(d.exports[e], c.exports[e].fs, c.exports[e].exportSet) && c.exports[e].life.Rank() <= d.exports[e].life.Rank())
      && (forall e | e in d.exports :: d.exports[e].path == if e in c.exports then c.exports[e].path else "/" + d.exports[e].fs)
  {
    if actions != [] {
      hide Step;
      var n := |actions| - 1;
      ExportsAreKept(w, actions[..n]);
      ExportsAfter(Run(w, actions[..n]), actions[n]);
    }
  }

  lemma {:induction false} ExportUntilRetired(w: World, actions: seq<Action>, e: Ocid)
    requires e in w.cloud.exports && w.cloud.exports[e].life.Live()
    requires forall k | 0 <= k < |actions| :: !RetiresExport(actions[k], e)
    ensures e in Run(w, actions).cloud.exports && Run(w, actions).cloud.exports[e].life.Live()
  {
    if actions != [] {
      hide Step;
      var n := |actions| - 1;
      ExportUntilRetired(w, actions[..n], e);
      ExportsAfter(Run(w, actions[..n]), actions[n]);
    }
  }

  /** The live exports between a volume's file system and its export set. */
  ghost predicate Serving(c: Cloud, e: Ocid, fs: Ocid, exportSet: Ocid) {
    e in c.exports && c.exports[e].life.Live() && Joins(c.exports[e], fs, exportSet)
  }

  /** Whatever export was there beforehand is the one every volume uses, and its path stays what it was. */
  lemma AdoptsWhatIsThere(w: World, actions: seq<Action>, h: Handle, e: Ocid)
    requires Inv(w) && Serving(w.cloud, e, h.fs, h.exportSet)
    requires h in Run(w, actions).volumes && Serving(Run(w, actions).cloud, h.exportId, h.fs, h.exportSet)
    requires forall k | 0 <= k < |actions| :: !RetiresExport(actions[k], e)
    ensures h.exportId == e && Run(w, actions).cloud.exports[e].path == w.cloud.exports[e].path
  {
    RunKeepsInv(w, actions);
    ExportsAreKept(w, actions);
    ExportUntilRetired(w, actions, e);
    assert RivalExports(Run(w, actions).cloud.exports, e, h.exportId);
  }

  /**
   From any reachable state, as long as the exports then live between a volume's file system and its
   export set are not retired, the volume's path is the one the plugin asks for exactly when none of
   those had another: the search compares file system and export set, and not the path.
   */
  lemma IssuedPath(w: World, actions: seq<Action>, h: Handle)
    requires Inv(w)
    requires h in Run(w, actions).volumes && Serving(Run(w, actions).cloud, h.exportId, h.fs, h.exportSet)
    requires forall e, k | Serving(w.cloud, e, h.fs, h.exportSet) && 0 <= k < |actions| :: !RetiresExport(actions[k], e)
    ensures Run(w, actions).cloud.exports[h.exportId].path == "/" + h.fs
      <==> forall e | Serving(w.cloud, e, h.fs, h.exportSet) :: w.cloud.exports[e].path == "/" + h.fs
  {
    hide RetiresExport, Run, Step, Inv;
    ExportsAreKept(w, actions);
    if e :| Serving(w.cloud, e, h.fs, h.exportSet) {
      AdoptsWhatIsThere(w, actions, h, e);
      OneServing(w, e, h.fs, h.exportSet);
    } else {
      assert h.exportId in w.cloud.exports ==> Serving(w.cloud, h.exportId, h.fs, h.exportSet);
    }
  }

  lemma OneServing(w: World, e: Ocid, fs: Ocid, exportSet: Ocid)
    requires Inv(w) && Serving(w.cloud, e, fs, exportSet)
    ensures forall f | Serving(w.cloud, f, fs, exportSet) :: f == e
  {
    forall f | Serving(w.cloud, f, fs, exportSet) ensures f == e { assert RivalExports(w.cloud.exports, e, f); }
  }

  /** A file system stays live as long as nothing retires it. */
  lemma {:induction false} LiveUntilRetired(w: World, actions: seq<Action>, fs: Ocid)
    requires fs in w.cloud.fss && w.cloud.fss[fs].life.Live()
    requires forall k | 0 <= k < |actions| :: !RetiresFs(actions[k], fs)
    ensures fs in Run(w, actions).cloud.fss && Run(w, actions).cloud.fss[fs].life.Live()
  {
    if actions != [] {
      hide Step;
      var n := |actions| - 1;
      LiveUntilRetired(w, actions[..n], fs);
      FssAfter(Run(w, actions[..n]), actions[n]);
    }
  }

  /** With no deletion of the file system since it was found or made, both resources are ACTIVE together when Provision returns. */
  lemma SuccessWithoutDeletion(w0: World, early: seq<Action>, late: seq<Action>, a: Action, h: Handle)
    requires Init(w0)
    requires h !in Run(w0, early + late).volumes && h in Run(w0, early + late + [a]).volumes
    requires h.fs in Run(w0, early).cloud.fss && Run(w0, early).cloud.fss[h.fs].life.Live()
    requires forall k | 0 <= k < |late| :: !RetiresFs(late[k], h.fs)
    requires !RetiresFs(a, h.fs)
    ensures var c := Run(w0, early + late + [a]).cloud;
      && h.fs in c.fss && c.fss[h.fs].life.Active?
      && h.exportId in c.exports && c.exports[h.exportId].life.Active?
  {
    hide Step, Run, Init, NamedFor;
    SuccessIsActiveTogether(w0, early + late, a, h);
    RunConcat(w0, early, late + [a]);
    assert early + late + [a] == early + (late + [a]);
    LiveUntilRetired(Run(w0, early), late + [a], h.fs);
  }

  // ----- nothing is created before validation -----

  /** The states in which an attempt is already past its checks. */
  predicate PastChecks(pc: Pc) {
    !pc.AwaitMount? && !pc.ResolveIp?
  }

  /** The attempt in flight after `actions` began at b and has been in flight since. */
  ghost predicate InFlightSince(w0: World, actions: seq<Action>, uid: string, b: int) {
    && 0 <= b < |actions| && actions[b].Claim? && actions[b].uid == uid && actions[b].call.Begin?
    && uid !in Run(w0, actions[..b]).claims
    && forall k :: b < k <= |actions| ==> uid in Run(w0, actions[..k]).claims
  }

  /** At m the attempt read its mount target in a usable state, with these addresses and this export set. */
  ghost predicate MountRead(w0: World, actions: seq<Action>, uid: string, b: int, m: int, ips: seq<Ocid>, exportSet: Ocid)
    requires 0 <= b < |actions| && actions[b].Claim? && actions[b].call.Begin?
  {
    && b < m < |actions| && actions[m] == Claim(uid, PollMount)
    && var c := Run(w0, actions[..m]).cloud;
       var id := actions[b].call.mount;
    && id in c.mounts && c.mounts[id] == MountTarget(MountActive, ips, Some(exportSet)) && ips != []
  }

  /** At r the attempt resolved one of those addresses. */
  ghost predicate AddressRead(w0: World, actions: seq<Action>, uid: string, r: int, ips: seq<Ocid>, ip: string) {
    && 0 <= r < |actions| && actions[r].Claim? && actions[r].uid == uid && actions[r].call.GetIp?
    && var ipId, addresses := actions[r].call.ipId, Run(w0, actions[..r]).cloud.addresses;
    && ipId in ips && ipId in addresses && addresses[ipId] == Some(ip)
  }

  /** What the history of an attempt must contain at each program point. */
  ghost predicate History(w0: World, actions: seq<Action>, uid: string, b: int, m: int, r: int, ips: seq<Ocid>) {
    var w := Run(w0, actions);
    && InFlightSince(w0, actions, uid, b)
    && uid in w.claims && w.claims[uid].mount == actions[b].call.mount && w.claims[uid].ad == actions[b].call.ad
    && var pc := w.claims[uid].pc;
    && (pc.ResolveIp? ==> MountRead(w0, actions, uid, b, m, pc.ips, pc.exportSet))
    && (PastChecks(pc) ==> MountRead(w0, actions, uid, b, m, ips, pc.exportSet) && m < r && AddressRead(w0, actions, uid, r, ips, pc.ip))
  }

  lemma HistoryGrows(w0: World, actions: seq<Action>, a: Action, uid: string, b: int, m: int, r: int, ips: seq<Ocid>)
    requires History(w0, actions, uid, b, m, r, ips)
    requires uid in Run(w0, actions + [a]).claims
    ensures InFlightSince(w0, actions + [a], uid, b)
    ensures forall id, es :: MountRead(w0, actions, uid, b, m, id, es) ==> MountRead(w0, actions + [a], uid, b, m, id, es)
    ensures forall ip :: AddressRead(w0, actions, uid, r, ips, ip) ==> AddressRead(w0, actions + [a], uid, r, ips, ip)
  {
    var grown := actions + [a];
    forall k | 0 <= k <= |actions|
      ensures grown[..k] == actions[..k]
    {
    }
    assert grown[..|actions|] == actions && grown[..|grown|] == grown;
    assert actions[..|actions|] == actions;
    forall k | b < k <= |grown|
      ensures uid in Run(w0, grown[..k]).claims
    {
      if k <= |actions| { assert grown[..k] == actions[..k]; }
    }
  }

  /** One event moves an attempt at most one check further, or leaves it with the address and export set it checked. */
  ghost predicate ChecksInOrder(w: World, w': World, a: Action, uid: string)
    requires uid in w.claims && uid in w'.claims
  {
    var x, y := w.claims[uid], w'.claims[uid];
    && y.ad == x.ad && y.mount == x.mount
    && (|| y.pc == x.pc
        || (&& x.pc.AwaitMount? && y.pc.ResolveIp? && a == Claim(uid, PollMount) && x.mount in w.cloud.mounts
            && y.pc.ips != [] && w.cloud.mounts[x.mount] == MountTarget(MountActive, y.pc.ips, Some(y.pc.exportSet)))
        || (&& x.pc.ResolveIp? && PastChecks(y.pc) && a.Claim? && a.uid == uid && a.call.GetIp? && y.pc.exportSet == x.pc.exportSet
            && a.call.ipId in x.pc.ips && a.call.ipId in w.cloud.addresses && w.cloud.addresses[a.call.ipId] == Some(y.pc.ip))
        || (PastChecks(x.pc) && PastChecks(y.pc) && y.pc.ip == x.pc.ip && y.pc.exportSet == x.pc.exportSet))
  }

  lemma ClaimChecksInOrder(w: World, uid: string, call: Call)
    requires uid in w.claims && uid in ClaimStep(w, uid, call).claims
    ensures ChecksInOrder(w, ClaimStep(w, uid, call), Claim(uid, call), uid)
  {
  }

  lemma StepChecksInOrder(w: World, a: Action, uid: string)
    requires uid in w.claims && uid in Step(w, a).claims
    ensures ChecksInOrder(w, Step(w, a), a, uid)
  {
    hide ClaimStep, TearStep;
    if a.Claim? && a.uid == uid {
      ClaimChecksInOrder(w, uid, a.call);
    } else {
      ClaimsAfter(w, a, uid);
    }
  }

  lemma Begins(w: World, a: Action, uid: string)
    requires uid !in w.claims && uid in Step(w, a).claims
    ensures a.Claim? && a.uid == uid && a.call.Begin? && Step(w, a).claims[uid] == Attempt(a.call.ad, a.call.mount, AwaitMount)
  {
  }

  lemma HistoryStep(w0: World, before: seq<Action>, a: Action, uid: string, b: int, m: int, r: int, ips: seq<Ocid>)
      returns (m': int, r': int, ips': seq<Ocid>)
    requires History(w0, before, uid, b, m, r, ips)
    requires uid in Run(w0, before + [a]).claims
    ensures History(w0, before + [a], uid, b, m', r', ips')
  {
    hide Step;
    var w := Run(w0, before);
    RunAppend(w0, before, a);
    m', r', ips' := m, r, ips;
    HistoryGrows(w0, before, a, uid, b, m, r, ips);
    StepChecksInOrder(w, a, uid);
    assert (before + [a])[..|before|] == before;
    if w.claims[uid].pc.AwaitMount? {
      m' := |before|;
    } else if w.claims[uid].pc.ResolveIp? {
      r', ips' := |before|, w.claims[uid].pc.ips;
    }
  }

  /** The history of the attempt in flight. */
  lemma {:induction false} Historical(w0: World, actions: seq<Action>, uid: string) returns (b: int, m: int, r: int, ips: seq<Ocid>)
    requires Init(w0) && uid in Run(w0, actions).claims
    ensures History(w0, actions, uid, b, m, r, ips)
  {
    hide Step;
    var n := |actions| - 1;
    assert actions == actions[..n] + [actions[n]] && actions[..|actions|] == actions;
    if uid in Run(w0, actions[..n]).claims {
      b, m, r, ips := Historical(w0, actions[..n], uid);
      m, r, ips := HistoryStep(w0, actions[..n], actions[n], uid, b, m, r, ips);
    } else {
      Begins(Run(w0, actions[..n]), actions[n], uid);
      b, m, r, ips := n, 0, 0, [];
    }
  }

  /**
   Before an attempt changes anything in the service, it has itself observed its mount target
   ACTIVE, with addresses and an export set, and then resolved one of those addresses.  So an
   attempt that fails a check leaves the service unchanged.
   */
  lemma NoCreateBeforeValidation(w0: World, actions: seq<Action>, uid: string, call: Call)
      returns (b: int, m: int, r: int, ips: seq<Ocid>)
    requires Init(w0)
    requires Step(Run(w0, actions), Claim(uid, call)).cloud != Run(w0, actions).cloud
    ensures call.CreateFs? || call.CreateExport?
    ensures var w := Run(w0, actions);
      && uid in w.claims && PastChecks(w.claims[uid].pc)
      && InFlightSince(w0, actions, uid, b)
      && m < r && MountRead(w0, actions, uid, b, m, ips, w.claims[uid].pc.exportSet)
      && AddressRead(w0, actions, uid, r, ips, w.claims[uid].pc.ip)
  {
    b, m, r, ips := Historical(w0, actions, uid);
  }

  /** A volume is only ever issued for an export set and a server address that its own attempt had validated. */
  lemma IssuedAfterValidation(w0: World, actions: seq<Action>, a: Action, h: Handle)
      returns (b: int, m: int, r: int, ips: seq<Ocid>)
    requires Init(w0)
    requires h !in Run(w0, actions).volumes && h in Run(w0, actions + [a]).volumes
    ensures InFlightSince(w0, actions, h.uid, b) && actions[b].call.ad == h.ad
    ensures m < r && MountRead(w0, actions, h.uid, b, m, ips, h.exportSet) && AddressRead(w0, actions, h.uid, r, ips, h.server)
  {
    RunAppend(w0, actions, a);
    IssuedByPoll(Run(w0, actions), a, h);
    hide Step;
    b, m, r, ips := Historical(w0, actions, h.uid);
  }

  lemma IssuedByPoll(w: World, a: Action, h: Handle)
    requires h !in w.volumes && h in Step(w, a).volumes
    ensures h.uid in w.claims && w.claims[h.uid].ad == h.ad
    ensures w.claims[h.uid].pc == AwaitExport(h.server, h.exportSet, h.fs, h.exportId)
  {
  }
}
