/**
 Recovery: there is no compensation in the file system plugin, so what failed attempts leave
 behind must be adopted by the next one.  As long as every file system of the claim's is live, no
 answer of the service about the claim's own resources can make an attempt give up, and one that
 ends has created exactly what was missing.  Both are exact: otherwise some answer does make an
 attempt give up, and none can succeed at all while a file system is DELETING.
 */
module FssRecovery {
  import opened Wrappers
  import opened Ocids
  import opened FileStorage
  import opened FssInvariant
  import opened FssSafety
  import opened FssTeardown

  /** Every file system the claim's attempts can find is CREATING or ACTIVE. */
  ghost predicate Healthy(w: World, uid: string, ad: string) {
    forall id | OwnFs(w, uid, ad, id) :: w.cloud.fss[id].life.Live()
  }

  /** An event that deletes nothing of the claim's. */
  ghost predicate Undeleted(w: World, a: Action, uid: string, ad: string) {
    && (forall id | OwnFs(w, uid, ad, id) :: !RetiresFs(a, id))
    && (forall e | e in w.cloud.exports && OwnFs(w, uid, ad, w.cloud.exports[e].fs) :: !RetiresExport(a, e))
  }

  ghost predicate UndeletedRun(w: World, actions: seq<Action>, uid: string, ad: string) {
    forall k | 0 <= k < |actions| :: Undeleted(Run(w, actions[..k]), actions[k], uid, ad)
  }

  /** A claim's own call, unless it is a start, a surrender or a lost create. */
  predicate Delivered(call: Call) {
    !call.Begin? && !call.Abandon? && (call.CreateFs? || call.CreateExport? ==> !call.lost)
  }

  /** The claim's attempt reads about its mount target, or one of its addresses, what makes it give up. */
  predicate NetworkRefuses(w: World, a: Action, uid: string) {
    && a.Claim? && a.uid == uid && uid in w.claims
    && var x := w.claims[uid];
    || (&& a.call.PollMount? && x.pc.AwaitMount? && x.mount in w.cloud.mounts
        && !w.cloud.mounts[x.mount].life.MountCreating? && !Usable(w.cloud.mounts[x.mount]))
    || (&& a.call.GetIp? && x.pc.ResolveIp? && a.call.ipId in x.pc.ips && a.call.ipId in w.cloud.addresses
        && w.cloud.addresses[a.call.ipId].None?)
  }

  /** It reads about a file system or export what makes it give up: several of its name, or one going away. */
  predicate ResourceRefuses(w: World, a: Action, uid: string) {
    && a.Claim? && a.uid == uid && uid in w.claims
    && var x := w.claims[uid];
    || (a.call.ListFs? && x.pc.FindFs? && FsListing(w, x.ad, uid, a.call.items) && |a.call.items| > 1)
    || (a.call.PollFs? && x.pc.AwaitFs? && x.pc.fs in w.cloud.fss && !w.cloud.fss[x.pc.fs].life.Live())
    || (a.call.PollExport? && x.pc.AwaitExport? && x.pc.exportId in w.cloud.exports && !w.cloud.exports[x.pc.exportId].life.Live())
  }

  /** The attempt succeeds: it sees its export ACTIVE. */
  predicate Issues(w: World, a: Action, uid: string) {
    && a == Claim(uid, PollExport) && uid in w.claims
    && var pc := w.claims[uid].pc;
    pc.AwaitExport? && pc.exportId in w.cloud.exports && w.cloud.exports[pc.exportId].life.Active?
  }

  predicate Ends(w: World, a: Action, uid: string) {
    uid in w.claims && uid !in Step(w, a).claims
  }

  /** There are no other ways for an attempt to end. */
  lemma EndsExactly(w: World, a: Action, uid: string)
    requires Inv(w) && a.Claim? && a.uid == uid && Delivered(a.call)
    ensures Ends(w, a, uid) <==> Issues(w, a, uid) || NetworkRefuses(w, a, uid) || ResourceRefuses(w, a, uid)
    ensures Issues(w, a, uid) ==> HandleOf(uid, w.claims[uid]) in Step(w, a).volumes
  {
    assert uid in w.claims ==> PcHolds(w, uid, w.claims[uid].ad, w.claims[uid].pc);
  }

  /**
   A cooperative event: the claim's own calls succeed and their responses arrive, its mount target
   and address are usable, it neither gives up of itself nor starts over, and nobody deletes the
   claim's resources.  Other claims may do anything.
   */
  ghost predicate Cooperative(w: World, a: Action, uid: string, ad: string) {
    && (a.Claim? && a.uid == uid ==> Delivered(a.call) && !NetworkRefuses(w, a, uid))
    && Undeleted(w, a, uid, ad)
  }

  ghost predicate CooperativeRun(w: World, actions: seq<Action>, uid: string, ad: string) {
    forall k | 0 <= k < |actions| :: Cooperative(Run(w, actions[..k]), actions[k], uid, ad)
  }

  lemma HealthyAfter(v: World, a: Action, uid: string, ad: string)
    requires Healthy(v, uid, ad) && Undeleted(v, a, uid, ad)
    ensures Healthy(Step(v, a), uid, ad)
  {
    hide Step;
    FssAfter(v, a);
  }

  lemma UndeletedPrefix(w: World, actions: seq<Action>, uid: string, ad: string)
    requires actions != [] && UndeletedRun(w, actions, uid, ad)
    ensures var n := |actions| - 1; UndeletedRun(w, actions[..n], uid, ad) && Undeleted(Run(w, actions[..n]), actions[n], uid, ad)
  {
    hide Run, Undeleted;
    var n := |actions| - 1;
    forall k | 0 <= k < n
      ensures Undeleted(Run(w, actions[..n][..k]), actions[..n][k], uid, ad)
    {
      assert actions[..n][..k] == actions[..k];
    }
  }

  lemma UndeletedAt(w: World, actions: seq<Action>, uid: string, ad: string, k: nat)
    requires UndeletedRun(w, actions, uid, ad) && k < |actions|
    ensures Undeleted(Run(w, actions[..k]), actions[k], uid, ad)
  {
  }

  /** Failed attempts of any kind leave nothing the next attempt cannot use. */
  lemma {:induction false} HealthyUnlessDeleted(w: World, actions: seq<Action>, uid: string, ad: string)
    requires Healthy(w, uid, ad) && UndeletedRun(w, actions, uid, ad)
    ensures Healthy(Run(w, actions), uid, ad)
  {
    if actions == [] {
      assert Run(w, actions) == w;
    } else {
      hide Step, Run, Healthy, Undeleted, UndeletedRun;
      var n := |actions| - 1;
      RunLast(w, actions);
      UndeletedPrefix(w, actions, uid, ad);
      HealthyUnlessDeleted(w, actions[..n], uid, ad);
      HealthyAfter(Run(w, actions[..n]), actions[n], uid, ad);
    }
  }

  // ----- nothing is refused -----

  /** Whatever the claim's attempt has found or can find in the availability domain is live. */
  ghost predicate OnTrack(v: World, uid: string, ad: string) {
    && Inv(v) && Healthy(v, uid, ad)
    && (In(v, uid, ad) && v.claims[uid].pc.AwaitExport? ==> LiveExportIn(v.cloud, v.claims[uid].pc.exportId))
  }

  predicate In(v: World, uid: string, ad: string) {
    uid in v.claims && v.claims[uid].ad == ad
  }

  /** Being healthy rules out every answer about file systems that would be refused. */
  lemma NothingToRefuse(v: World, a: Action, uid: string, ad: string)
    requires OnTrack(v, uid, ad) && (uid in v.claims ==> In(v, uid, ad))
    ensures !ResourceRefuses(v, a, uid)
  {
    if a.Claim? && a.uid == uid && uid in v.claims {
      var pc := v.claims[uid].pc;
      assert PcHolds(v, uid, ad, pc);
      if a.call.ListFs? && FsListing(v, ad, uid, a.call.items) && |a.call.items| > 1 {
        var i, j := a.call.items[0], a.call.items[1];
        assert i in a.call.items && j in a.call.items;
        assert OwnFs(v, uid, ad, i) && OwnFs(v, uid, ad, j);
        assert RivalFs(v.cloud.fss, i, j);
      }
    }
  }

  /** What a search of a page finds is there and live. */
  lemma FoundIsLive(c: Cloud, items: seq<Ocid>)
    requires forall id :: id in items ==> id in c.exports
    ensures FirstLive(Summaries(c, items)).Some? ==> LiveExportIn(c, FirstLive(Summaries(c, items)).value)
  {
    var page := Summaries(c, items);
    if FirstLive(page).Some? {
      var k :| 0 <= k < |page| && page[k].id == FirstLive(page).value && page[k].life.Live();
      assert items[k] in items;
    }
  }

  lemma OwnCallKeepsExport(v: World, uid: string, call: Call, ad: string)
    requires In(v, uid, ad) && v.claims[uid].pc.AwaitExport? ==> LiveExportIn(v.cloud, v.claims[uid].pc.exportId)
    ensures var v' := ClaimStep(v, uid, call);
      && (uid in v.claims && uid in v'.claims ==> v'.claims[uid].ad == v.claims[uid].ad)
      && (In(v', uid, ad) && v'.claims[uid].pc.AwaitExport? ==> LiveExportIn(v'.cloud, v'.claims[uid].pc.exportId))
  {
    if uid in v.claims {
      var pc := v.claims[uid].pc;
      if call.ListExports? && pc.FindExport? && ExportPage(v.cloud, pc.fs, pc.exportSet, pc.seen, pc.pages, call.items, call.more) {
        FoundIsLive(v.cloud, call.items);
      }
    }
  }

  lemma OnTrackStep(v: World, a: Action, uid: string, ad: string)
    requires OnTrack(v, uid, ad) && Undeleted(v, a, uid, ad)
    ensures OnTrack(Step(v, a), uid, ad)
  {
    StepKeepsInv(v, a);
    HealthyAfter(v, a, uid, ad);
    if a.Claim? && a.uid == uid {
      OwnCallKeepsExport(v, uid, a.call, ad);
      hide ClaimStep, Inv, Healthy;
    } else {
      hide Step, Healthy;
      ClaimsAfter(v, a, uid);
      ExportsAfter(v, a);
      assert uid in v.claims ==> PcHolds(v, uid, v.claims[uid].ad, v.claims[uid].pc);
    }
  }

  /** As long as nothing of the claim's is deleted, whatever happens. */
  lemma {:induction false} OnTrackRun(v: World, actions: seq<Action>, uid: string, ad: string)
    requires OnTrack(v, uid, ad) && UndeletedRun(v, actions, uid, ad)
    ensures OnTrack(Run(v, actions), uid, ad)
  {
    if actions == [] {
      assert Run(v, actions) == v;
    } else {
      hide Step, Run, OnTrack, Undeleted, UndeletedRun;
      var n := |actions| - 1;
      RunLast(v, actions);
      UndeletedPrefix(v, actions, uid, ad);
      OnTrackRun(v, actions[..n], uid, ad);
      OnTrackStep(Run(v, actions[..n]), actions[n], uid, ad);
    }
  }

  /** Nothing about the claim's own resources is refused, and the attempt only ends in success. */
  predicate GoesWell(v: World, a: Action, uid: string) {
    !ResourceRefuses(v, a, uid) && (Ends(v, a, uid) ==> Issues(v, a, uid))
  }

  lemma CooperativeStep(v: World, a: Action, uid: string, ad: string)
    requires OnTrack(v, uid, ad) && Cooperative(v, a, uid, ad) && (uid in v.claims ==> In(v, uid, ad))
    ensures GoesWell(v, a, uid) && (uid in Step(v, a).claims ==> In(Step(v, a), uid, ad))
  {
    NothingToRefuse(v, a, uid, ad);
    if a.Claim? && a.uid == uid {
      EndsExactly(v, a, uid);
      OwnCallKeepsExport(v, uid, a.call, ad);
      assert uid in Step(v, a).claims ==> uid in v.claims;
      hide ClaimStep, Inv, Healthy;
    } else {
      hide Step, Healthy;
      ClaimsAfter(v, a, uid);
    }
  }

  lemma CooperativePrefix(w: World, actions: seq<Action>, uid: string, ad: string)
    requires actions != [] && CooperativeRun(w, actions, uid, ad)
    ensures var n := |actions| - 1; CooperativeRun(w, actions[..n], uid, ad) && Cooperative(Run(w, actions[..n]), actions[n], uid, ad)
  {
    hide Run, Cooperative;
    var n := |actions| - 1;
    forall k | 0 <= k < n
      ensures Cooperative(Run(w, actions[..n][..k]), actions[..n][k], uid, ad)
    {
      assert actions[..n][..k] == actions[..k];
    }
  }

  lemma GoesWellOnce(v: World, actions: seq<Action>, uid: string)
    requires actions != []
    requires var n := |actions| - 1;
      && (forall k | 0 <= k < n :: GoesWell(Run(v, actions[..n][..k]), actions[..n][k], uid))
      && GoesWell(Run(v, actions[..n]), actions[n], uid)
    ensures forall k | 0 <= k < |actions| :: GoesWell(Run(v, actions[..k]), actions[k], uid)
  {
    hide Run, GoesWell;
    var n := |actions| - 1;
    forall k | 0 <= k < n
      ensures GoesWell(Run(v, actions[..k]), actions[k], uid)
    {
      assert actions[..n][..k] == actions[..k];
      assert GoesWell(Run(v, actions[..n][..k]), actions[..n][k], uid);
    }
  }

  /** Along a cooperative run every event goes well. */
  lemma {:induction false} NeverRefused(v: World, actions: seq<Action>, uid: string, ad: string)
    requires OnTrack(v, uid, ad) && CooperativeRun(v, actions, uid, ad) && (uid in v.claims ==> In(v, uid, ad))
    ensures OnTrack(Run(v, actions), uid, ad) && (uid in Run(v, actions).claims ==> In(Run(v, actions), uid, ad))
    ensures forall k | 0 <= k < |actions| :: GoesWell(Run(v, actions[..k]), actions[k], uid)
  {
    if actions == [] {
      assert Run(v, actions) == v;
    } else {
      hide Step, Run, OnTrack, Undeleted, CooperativeRun, GoesWell;
      var n := |actions| - 1;
      RunLast(v, actions);
      CooperativePrefix(v, actions, uid, ad);
      NeverRefused(v, actions[..n], uid, ad);
      OnTrackStep(Run(v, actions[..n]), actions[n], uid, ad);
      CooperativeStep(Run(v, actions[..n]), actions[n], uid, ad);
      GoesWellOnce(v, actions, uid);
    }
  }

  // ----- exactly the missing is created -----

  ghost function LiveOwned(w: World, fs: Ocid, exportSet: Ocid): set<Ocid> {
    set e | e in OwnedExports(w, fs, exportSet) && w.cloud.exports[e].life.Live()
  }

  /** One create for each of the volume's two resources that the claim did not have, and no other. */
  ghost predicate CreatedTheMissing(w: World, actions: seq<Action>, uid: string, ad: string, h: Handle) {
    && FsCreates(w, actions, uid, ad) == (if OwnedFs(w, uid, ad) == {} then 1 else 0)
    && ExportCreates(w, actions, h.fs, h.exportSet) == (if LiveOwned(w, h.fs, h.exportSet) == {} then 1 else 0)
  }

  lemma DeadExportsStep(v: World, a: Action, uid: string, ad: string, fs: Ocid, exportSet: Ocid)
    requires WellFormed(v.cloud) && Undeleted(v, a, uid, ad) && OwnFs(Step(v, a), uid, ad, fs)
    ensures OwnedExports(Step(v, a), fs, exportSet) - LiveOwned(Step(v, a), fs, exportSet) == OwnedExports(v, fs, exportSet) - LiveOwned(v, fs, exportSet)
  {
    hide Step;
    FssAfter(v, a);
    ExportsAfter(v, a);
    assert fs in v.cloud.fss ==> OwnFs(v, uid, ad, fs);
  }

  /** With nothing deleted, the claim's dead exports are those it had from the start. */
  lemma {:induction false} DeadExportsStay(w: World, actions: seq<Action>, uid: string, ad: string, fs: Ocid, exportSet: Ocid)
    requires Inv(w) && UndeletedRun(w, actions, uid, ad)
    requires OwnFs(Run(w, actions), uid, ad, fs)
    ensures var v := Run(w, actions);
      OwnedExports(v, fs, exportSet) - LiveOwned(v, fs, exportSet) == OwnedExports(w, fs, exportSet) - LiveOwned(w, fs, exportSet)
  {
    if actions == [] {
      assert Run(w, actions) == w;
    } else {
      hide Step, Run, Undeleted, UndeletedRun, OwnedExports, LiveOwned;
      var n := |actions| - 1;
      RunLast(w, actions);
      UndeletedPrefix(w, actions, uid, ad);
      RunKeepsInv(w, actions[..n]);
      var v, a := Run(w, actions[..n]), actions[n];
      DeadExportsStep(v, a, uid, ad, fs, exportSet);
      FssAfter(v, a);
      if fs in v.cloud.fss {
        DeadExportsStay(w, actions[..n], uid, ad, fs, exportSet);
      } else {
        FsStays(w, actions[..n], fs);
        NoFsNoExports(v, fs, exportSet);
        NoFsNoExports(w, fs, exportSet);
      }
    }
  }

  lemma NoFsNoExports(w: World, fs: Ocid, exportSet: Ocid)
    requires Inv(w) && fs !in w.cloud.fss
    ensures OwnedExports(w, fs, exportSet) == LiveOwned(w, fs, exportSet) == {}
  {
  }

  lemma {:induction false} FsStays(w: World, actions: seq<Action>, fs: Ocid)
    ensures fs in w.cloud.fss ==> fs in Run(w, actions).cloud.fss && w.cloud.fss[fs].life.Rank() <= Run(w, actions).cloud.fss[fs].life.Rank()
  {
    if actions != [] {
      hide Step;
      var n := |actions| - 1;
      FsStays(w, actions[..n], fs);
      FssAfter(Run(w, actions[..n]), actions[n]);
    }
  }

  lemma AtMostOneOwned(w: World, uid: string, ad: string, fs: Ocid, exportSet: Ocid)
    requires Inv(w)
    ensures Healthy(w, uid, ad) ==> |OwnedFs(w, uid, ad)| <= 1
    ensures |LiveOwned(w, fs, exportSet)| <= 1
  {
    var owned, live := OwnedFs(w, uid, ad), LiveOwned(w, fs, exportSet);
    if Healthy(w, uid, ad) {
      forall i, j | i in owned && j in owned ensures i == j {
        assert OwnFs(w, uid, ad, i) && OwnFs(w, uid, ad, j);
        assert RivalFs(w.cloud.fss, i, j);
      }
      AtMostOne(owned);
    }
    forall i, j | i in live && j in live ensures i == j { assert RivalExports(w.cloud.exports, i, j); }
    AtMostOne(live);
  }

  lemma Singleton(s: set<Ocid>, x: Ocid)
    requires x in s && |s| <= 1
    ensures |s| == 1
  {
  }

  lemma SplitCount(all: set<Ocid>, part: set<Ocid>)
    requires part <= all
    ensures |all| == |part| + |all - part|
  {
    assert all == part + (all - part);
  }

  /** A run that ends with a live volume of a claim nothing of whose was deleted has created exactly what was missing. */
  lemma CountsTheMissing(w: World, actions: seq<Action>, h: Handle)
    requires Inv(w) && Healthy(w, h.uid, h.ad) && UndeletedRun(w, actions, h.uid, h.ad)
    requires h in Run(w, actions).volumes && LiveExportIn(Run(w, actions).cloud, h.exportId)
    ensures CreatedTheMissing(w, actions, h.uid, h.ad, h)
  {
    var v, uid, ad := Run(w, actions), h.uid, h.ad;
    RunKeepsInv(w, actions);
    assert VolumeHolds(v, h);
    assert h.fs in OwnedFs(v, uid, ad) && h.exportId in LiveOwned(v, h.fs, h.exportSet);
    hide Run, Inv, UndeletedRun, Healthy, OwnedFs, LiveOwned;
    HealthyUnlessDeleted(w, actions, uid, ad);
    AtMostOneOwned(w, uid, ad, h.fs, h.exportSet);
    AtMostOneOwned(v, uid, ad, h.fs, h.exportSet);
    Singleton(OwnedFs(v, uid, ad), h.fs);
    Singleton(LiveOwned(v, h.fs, h.exportSet), h.exportId);
    CreatesAreCounted(w, actions, uid, ad, h.fs, h.exportSet);
    DeadExportsStay(w, actions, uid, ad, h.fs, h.exportSet);
    LiveAreOwned(v, h.fs, h.exportSet);
    LiveAreOwned(w, h.fs, h.exportSet);
    SplitCount(OwnedExports(v, h.fs, h.exportSet), LiveOwned(v, h.fs, h.exportSet));
    SplitCount(OwnedExports(w, h.fs, h.exportSet), LiveOwned(w, h.fs, h.exportSet));
  }

  lemma LiveAreOwned(w: World, fs: Ocid, exportSet: Ocid)
    ensures LiveOwned(w, fs, exportSet) <= OwnedExports(w, fs, exportSet)
  {
  }

  /** A live export of the claim's is live for as long as nothing of the claim's is deleted. */
  lemma {:induction false} ExportUntilDeleted(w: World, actions: seq<Action>, uid: string, ad: string, e: Ocid)
    requires LiveExportIn(w.cloud, e) && OwnFs(w, uid, ad, w.cloud.exports[e].fs) && UndeletedRun(w, actions, uid, ad)
    ensures var v := Run(w, actions); LiveExportIn(v.cloud, e) && OwnFs(v, uid, ad, v.cloud.exports[e].fs)
    ensures w.volumes <= Run(w, actions).volumes
  {
    if actions == [] {
      assert Run(w, actions) == w;
    } else {
      hide Step, Run, UndeletedRun;
      var n := |actions| - 1;
      RunLast(w, actions);
      UndeletedPrefix(w, actions, uid, ad);
      ExportUntilDeleted(w, actions[..n], uid, ad, e);
      FssAfter(Run(w, actions[..n]), actions[n]);
      ExportsAfter(Run(w, actions[..n]), actions[n]);
      ClaimsAfter(Run(w, actions[..n]), actions[n], uid);
    }
  }

  lemma RunRest(w: World, actions: seq<Action>, n: nat)
    requires n <= |actions|
    ensures Run(w, actions) == Run(Run(w, actions[..n]), actions[n..])
    ensures forall k | n <= k <= |actions| :: Run(w, actions[..k]) == Run(Run(w, actions[..n]), actions[n..][..k - n])
  {
    hide Run;
    assert actions == actions[..n] + actions[n..];
    RunConcat(w, actions[..n], actions[n..]);
    forall k | n <= k <= |actions|
      ensures Run(w, actions[..k]) == Run(Run(w, actions[..n]), actions[n..][..k - n])
    {
      assert actions[..k] == actions[..n] + actions[n..][..k - n];
      RunConcat(w, actions[..n], actions[n..][..k - n]);
    }
  }

  lemma UndeletedRest(w: World, actions: seq<Action>, uid: string, ad: string, n: nat)
    requires UndeletedRun(w, actions, uid, ad) && n <= |actions|
    ensures UndeletedRun(Run(w, actions[..n]), actions[n..], uid, ad)
  {
    hide Run, Undeleted;
    RunRest(w, actions, n);
    forall k | 0 <= k < |actions| - n
      ensures Undeleted(Run(Run(w, actions[..n]), actions[n..][..k]), actions[n..][k], uid, ad)
    {
      assert Undeleted(Run(w, actions[..n + k]), actions[n + k], uid, ad);
    }
  }

  lemma CooperativeIsUndeleted(w: World, actions: seq<Action>, uid: string, ad: string)
    requires CooperativeRun(w, actions, uid, ad)
    ensures UndeletedRun(w, actions, uid, ad)
  {
    hide Run, Undeleted;
  }

  /** A volume issued along the way is still live at the end. */
  lemma IssuedLasts(v: World, actions: seq<Action>, uid: string, ad: string, k: nat)
    requires Inv(v) && UndeletedRun(v, actions, uid, ad) && k < |actions|
    requires Issues(Run(v, actions[..k]), actions[k], uid) && Run(v, actions[..k]).claims[uid].ad == ad
    ensures var h := HandleOf(uid, Run(v, actions[..k]).claims[uid]);
      h in Run(v, actions).volumes && LiveExportIn(Run(v, actions).cloud, h.exportId)
  {
    var u := Run(v, actions[..k]);
    var h := HandleOf(uid, u.claims[uid]);
    RunKeepsInv(v, actions[..k]);
    EndsExactly(u, actions[k], uid);
    assert PcHolds(u, uid, ad, u.claims[uid].pc);
    assert actions[..k + 1] == actions[..k] + [actions[k]];
    RunAppend(v, actions[..k], actions[k]);
    var after := Step(u, actions[k]);
    assert LiveExportIn(after.cloud, h.exportId) && OwnFs(after, uid, ad, after.cloud.exports[h.exportId].fs);
    hide Step, Run, Inv, UndeletedRun;
    UndeletedRest(v, actions, uid, ad, k + 1);
    RunRest(v, actions, k + 1);
    ExportUntilDeleted(after, actions[k + 1..], uid, ad, h.exportId);
  }

  /**
   Recovery.  From any reachable state with no attempt in flight and no file system of the claim's
   going away, an attempt whose own calls succeed is never refused by anything the service says
   about the claim's resources, whatever the other claims do, and ends only in success, having
   created exactly those of its volume's resources that were missing.
   */
  lemma Recovery(w0: World, past: seq<Action>, uid: string, ad: string, mount: Ocid, actions: seq<Action>)
    requires Init(w0)
    requires var w := Run(w0, past); uid !in w.claims && Healthy(w, uid, ad)
    requires CooperativeRun(Step(Run(w0, past), Claim(uid, Begin(ad, mount))), actions, uid, ad)
    ensures var v := Step(Run(w0, past), Claim(uid, Begin(ad, mount)));
      && v.cloud == Run(w0, past).cloud
      && (forall k | 0 <= k < |actions| :: GoesWell(Run(v, actions[..k]), actions[k], uid))
      && (forall k | 0 <= k < |actions| && Issues(Run(v, actions[..k]), actions[k], uid) ::
            var h := HandleOf(uid, Run(v, actions[..k]).claims[uid]);
            h.ad == ad && h in Run(v, actions).volumes && CreatedTheMissing(v, actions, uid, ad, h))
  {
    var w, begin := Run(w0, past), Claim(uid, Begin(ad, mount));
    var v := Step(w, begin);
    InitHasInv(w0);
    RunKeepsInv(w0, past);
    StepKeepsInv(w, begin);
    assert OnTrack(v, uid, ad) && In(v, uid, ad);
    hide Step, Run, Inv, Healthy, Init, CooperativeRun, GoesWell, Issues, CreatedTheMissing;
    NeverRefused(v, actions, uid, ad);
    CooperativeIsUndeleted(v, actions, uid, ad);
    forall k | 0 <= k < |actions| && Issues(Run(v, actions[..k]), actions[k], uid)
      ensures var h := HandleOf(uid, Run(v, actions[..k]).claims[uid]);
        h.ad == ad && h in Run(v, actions).volumes && CreatedTheMissing(v, actions, uid, ad, h)
    {
      OnTrackUntil(v, actions, uid, ad, k);
      IssuedLasts(v, actions, uid, ad, k);
      CountsTheMissing(v, actions, HandleOf(uid, Run(v, actions[..k]).claims[uid]));
    }
  }

  lemma OnTrackUntil(v: World, actions: seq<Action>, uid: string, ad: string, k: nat)
    requires OnTrack(v, uid, ad) && CooperativeRun(v, actions, uid, ad) && k <= |actions| && (uid in v.claims ==> In(v, uid, ad))
    ensures uid in Run(v, actions[..k]).claims ==> In(Run(v, actions[..k]), uid, ad)
  {
    hide Run, OnTrack, Cooperative;
    forall i | 0 <= i < k
      ensures Cooperative(Run(v, actions[..k][..i]), actions[..k][i], uid, ad)
    {
      assert actions[..k][..i] == actions[..i];
    }
    NeverRefused(v, actions[..k], uid, ad);
  }

  // ----- an attempt can always be finished -----

  /** The mount target the attempt uses is ready and all its addresses resolve. */
  ghost predicate NetworkReady(w: World, attempt: Attempt) {
    && attempt.mount in w.cloud.mounts && Usable(w.cloud.mounts[attempt.mount])
    && (forall ip | ip in w.cloud.mounts[attempt.mount].ips :: ip in w.cloud.addresses && w.cloud.addresses[ip].Some?)
    && (attempt.pc.ResolveIp? ==> attempt.pc.ips != [] && attempt.pc.ips[0] in w.cloud.addresses && w.cloud.addresses[attempt.pc.ips[0]].Some?)
  }

  /** No file system of the claim's is on its way out; one that is gone for good does no harm. */
  ghost predicate NoneDeleting(w: World, uid: string, ad: string) {
    forall id | OwnFs(w, uid, ad, id) :: !w.cloud.fss[id].life.Deleting?
  }

  predicate HasFs(pc: Pc) {
    pc.AwaitFs? || pc.FindExport? || pc.MakeExport? || pc.AwaitExport?
  }

  /** Nothing the attempt has found, or may still find, is going away. */
  ghost predicate Clear(v: World, uid: string, attempt: Attempt) {
    && NoneDeleting(v, uid, attempt.ad)
    && (HasFs(attempt.pc) ==> LiveFsIn(v.cloud, attempt.pc.fs))
    && (attempt.pc.AwaitExport? ==> LiveExportIn(v.cloud, attempt.pc.exportId))
  }

  function Remaining(pc: Pc): nat {
    match pc
    case AwaitMount => 8
    case ResolveIp(_, _) => 7
    case FindFs(_, _) => 6
    case MakeFs(_, _) => 5
    case AwaitFs(_, _, _) => 4
    case FindExport(_, _, _, _, _) => 3
    case MakeExport(_, _, _) => 2
    case AwaitExport(_, _, _, _) => 1
  }

  lemma {:induction false} Longest(keys: set<string>) returns (n: nat)
    ensures forall k | k in keys :: |k| <= n
  {
    if keys == {} {
      n := 0;
    } else {
      var k :| k in keys;
      n := Longest(keys - {k});
      if n < |k| { n := |k|; }
    }
  }

  /** There is always an unused identifier. */
  lemma Fresh(keys: set<string>) returns (id: string)
    ensures id !in keys && id != ""
  {
    var n := Longest(keys);
    id := seq(n + 1, _ => 'x');
  }

  /** A set as a listing. */
  lemma {:induction false} AsListing(s: set<Ocid>) returns (items: seq<Ocid>)
    ensures s == set id | id in items
    ensures NoDuplicates(items) && |items| == |s|
  {
    if s == {} {
      items := [];
    } else {
      var x :| x in s;
      var rest := AsListing(s - {x});
      items := [x] + rest;
      assert forall id :: id in rest <==> id in s - {x};
      forall id ensures id in items <==> id in s { }
    }
  }

  /** The export set the attempt will use: the one it has read, or else its mount target's. */
  function Target(v: World, attempt: Attempt): Ocid
    requires attempt.mount in v.cloud.mounts && Usable(v.cloud.mounts[attempt.mount])
  {
    if attempt.pc.AwaitMount? then v.cloud.mounts[attempt.mount].exportSet.value else attempt.pc.exportSet
  }

  /** The attempt's own call has brought it closer to its end, with the network as it was, or to success. */
  ghost predicate Closer(v: World, call: Call, uid: string)
    requires uid in v.claims && NetworkReady(v, v.claims[uid])
  {
    var x, v' := v.claims[uid], ClaimStep(v, uid, call);
    && v'.cloud.mounts == v.cloud.mounts && v'.cloud.addresses == v.cloud.addresses
    && if uid in v'.claims then
         var y := v'.claims[uid];
         && y.ad == x.ad && y.mount == x.mount && Remaining(y.pc) < Remaining(x.pc) && NetworkReady(v', y) && Target(v', y) == Target(v, x)
         && (HasFs(y.pc) ==> LiveFsIn(v'.cloud, y.pc.fs)) && (y.pc.AwaitExport? ==> LiveExportIn(v'.cloud, y.pc.exportId))
       else Issues(v, Claim(uid, call), uid)
  }

  /** An event that deletes nothing. */
  predicate DeletesNothing(a: Action) {
    !a.Tear? && (a.FsMoves? || a.ExportMoves? ==> a.to.Live())
  }

  /** An event of the attempt's own that arrives, or one of the service's that deletes nothing. */
  predicate Helpful(a: Action, uid: string) {
    DeletesNothing(a) && (a.Claim? ==> a.uid == uid && Delivered(a.call))
  }

  /** The run's last event makes the attempt succeed. */
  ghost predicate Succeeds(v: World, actions: seq<Action>, uid: string, ad: string) {
    && actions != []
    && var u := Run(v, actions[..|actions| - 1]);
    Issues(u, actions[|actions| - 1], uid) && u.claims[uid].ad == ad
  }

  lemma RunOne(v: World, a: Action)
    ensures Run(v, [a]) == Step(v, a)
  {
  }

  /** The claim's next call, made when the service is ready for it. */
  lemma NextCall(v: World, uid: string) returns (call: Call)
    requires Inv(v) && uid in v.claims && Clear(v, uid, v.claims[uid]) && NetworkReady(v, v.claims[uid])
    requires var pc := v.claims[uid].pc;
      && (pc.AwaitFs? ==> v.cloud.fss[pc.fs].life.Active?)
      && (pc.AwaitExport? ==> v.cloud.exports[pc.exportId].life.Active?)
    ensures Delivered(call) && Closer(v, call, uid)
  {
    hide Closer, Inv, NetworkReady, NoneDeleting;
    var pc := v.claims[uid].pc;
    if pc.FindFs? {
      call := NextListFs(v, uid);
    } else if pc.FindExport? {
      call := NextListExports(v, uid);
    } else if pc.MakeFs? || pc.MakeExport? {
      call := NextCreate(v, uid);
    } else {
      call := NextPoll(v, uid);
    }
  }

  lemma NextPoll(v: World, uid: string) returns (call: Call)
    requires uid in v.claims && NetworkReady(v, v.claims[uid])
    requires var pc := v.claims[uid].pc;
      && (pc.AwaitMount? || pc.ResolveIp? || pc.AwaitFs? || pc.AwaitExport?)
      && (pc.AwaitFs? ==> pc.fs in v.cloud.fss && v.cloud.fss[pc.fs].life.Active?)
      && (pc.AwaitExport? ==> pc.exportId in v.cloud.exports && v.cloud.exports[pc.exportId].life.Active?)
    ensures Delivered(call) && Closer(v, call, uid)
  {
    var pc := v.claims[uid].pc;
    call := if pc.AwaitMount? then PollMount else if pc.ResolveIp? then GetIp(pc.ips[0]) else if pc.AwaitFs? then PollFs else PollExport;
  }

  lemma NextCreate(v: World, uid: string) returns (call: Call)
    requires uid in v.claims && (v.claims[uid].pc.MakeFs? || v.claims[uid].pc.MakeExport?)
    requires NetworkReady(v, v.claims[uid]) && (HasFs(v.claims[uid].pc) ==> LiveFsIn(v.cloud, v.claims[uid].pc.fs))
    ensures Delivered(call) && Closer(v, call, uid)
  {
    if v.claims[uid].pc.MakeFs? {
      var id := Fresh(v.cloud.fss.Keys);
      call := CreateFs(id, false);
    } else {
      var id := Fresh(v.cloud.exports.Keys);
      call := CreateExport(id, false);
    }
  }

  lemma NextListFs(v: World, uid: string) returns (call: Call)
    requires Inv(v) && uid in v.claims && v.claims[uid].pc.FindFs?
    requires NoneDeleting(v, uid, v.claims[uid].ad) && NetworkReady(v, v.claims[uid])
    ensures call.ListFs? && Closer(v, call, uid)
  {
    var ad := v.claims[uid].ad;
    var owned := set id | id in v.cloud.fss && Keyed(v, v.cloud.fss[id], ad, uid) && !v.cloud.fss[id].life.Deleted?;
    forall i, j | i in owned && j in owned ensures i == j { assert RivalFs(v.cloud.fss, i, j); }
    hide Inv;
    AtMostOne(owned);
    var items := AsListing(owned);
    assert forall id :: id in items <==> id in owned;
    assert FsListing(v, ad, uid, items);
    if |items| == 1 { assert OwnFs(v, uid, ad, items[0]) by { assert items[0] in items; } }
    call := ListFs(items);
  }

  lemma NextListExports(v: World, uid: string) returns (call: Call)
    requires uid in v.claims && v.claims[uid].pc.FindExport?
    requires LiveFsIn(v.cloud, v.claims[uid].pc.fs) && NetworkReady(v, v.claims[uid])
    ensures call.ListExports? && Closer(v, call, uid)
  {
    var pc := v.claims[uid].pc;
    var owned := OwnedExports(v, pc.fs, pc.exportSet);
    var items := AsListing(owned);
    assert forall id :: id in items <==> id in owned;
    assert ExportPage(v.cloud, pc.fs, pc.exportSet, pc.seen, pc.pages, items, None);
    FoundIsLive(v.cloud, items);
    call := ListExports(items, None);
  }

  /** The service makes the awaited resource ACTIVE. */
  lemma Await(v: World, uid: string) returns (a: Action)
    requires uid in v.claims && Clear(v, uid, v.claims[uid])
    ensures !a.Claim? && DeletesNothing(a)
    ensures var v' := Step(v, a);
      && v'.claims == v.claims && v'.cloud.mounts == v.cloud.mounts && v'.cloud.addresses == v.cloud.addresses
      && Clear(v', uid, v.claims[uid])
      && var pc := v.claims[uid].pc;
      && (pc.AwaitFs? ==> v'.cloud.fss[pc.fs].life.Active?)
      && (pc.AwaitExport? ==> v'.cloud.exports[pc.exportId].life.Active?)
  {
    var pc := v.claims[uid].pc;
    a := if pc.AwaitFs? then FsMoves(pc.fs, Active) else if pc.AwaitExport? then ExportMoves(pc.exportId, Active) else FsMoves("", Active);
  }

  lemma StillNoneDeleting(v: World, a: Action, uid: string, ad: string)
    requires NoneDeleting(v, uid, ad) && DeletesNothing(a)
    ensures NoneDeleting(Step(v, a), uid, ad)
  {
    hide Step;
    FssAfter(v, a);
  }

  /** One round: the service gets ready, and the attempt makes its next call. */
  lemma OneRound(v: World, uid: string) returns (ready: Action, call: Call)
    requires Inv(v) && uid in v.claims && Clear(v, uid, v.claims[uid]) && NetworkReady(v, v.claims[uid])
    ensures var v1, a := Step(v, ready), Claim(uid, call);
      && Helpful(ready, uid) && Helpful(a, uid)
      && v1.claims == v.claims && NetworkReady(v1, v1.claims[uid]) && Target(v1, v1.claims[uid]) == Target(v, v.claims[uid])
      && Inv(v1) && Inv(Step(v1, a)) && Step(v1, a) == ClaimStep(v1, uid, call)
      && (HasFs(v1.claims[uid].pc) ==> LiveFsIn(v1.cloud, v1.claims[uid].pc.fs))
      && Closer(v1, call, uid) && NoneDeleting(Step(v1, a), uid, v.claims[uid].ad)
  {
    hide Inv, ClaimStep, Closer;
    ready := Await(v, uid);
    var v1 := Step(v, ready);
    StepKeepsInv(v, ready);
    call := NextCall(v1, uid);
    StepKeepsInv(v1, Claim(uid, call));
    StillNoneDeleting(v1, Claim(uid, call), uid, v.claims[uid].ad);
  }

  /**
   With its mount target ready and nothing it has found going away, an attempt can be carried
   through to success from wherever it stands, by calls that succeed and a service that makes each
   resource ACTIVE before it is polled.
   */
  lemma {:induction false} CanFinish(v: World, uid: string) returns (actions: seq<Action>)
    requires Inv(v) && uid in v.claims && Clear(v, uid, v.claims[uid]) && NetworkReady(v, v.claims[uid])
    ensures forall k | 0 <= k < |actions| :: Helpful(actions[k], uid)
    ensures Succeeds(v, actions, uid, v.claims[uid].ad)
    ensures var u := Run(v, actions[..|actions| - 1]);
      u.claims[uid].pc.exportSet == Target(v, v.claims[uid]) && LiveFsIn(u.cloud, u.claims[uid].pc.fs)
    decreases Remaining(v.claims[uid].pc)
  {
    hide NetworkReady, Step, Inv, ClaimStep, NoneDeleting;
    var ready, call := OneRound(v, uid);
    var v1, a := Step(v, ready), Claim(uid, call);
    var v2 := Step(v1, a);
    RunOne(v, ready);
    RunOne(v1, a);
    RunConcat(v, [ready], [a]);
    actions := [ready] + [a];
    assert actions[..1] == [ready];
    if uid in v2.claims {
      var rest := CanFinish(v2, uid);
      RunConcat(v, actions, rest[..|rest| - 1]);
      var all := actions + rest;
      assert all[..|all| - 1] == actions + rest[..|rest| - 1];
      actions := all;
    }
  }

  // ----- what recovery cannot get past -----

  /** While a file system of the claim's is DELETING, an attempt gets no further than waiting for one that is going away. */
  ghost predicate Blocked(w: World, uid: string, ad: string, fs: Ocid) {
    && OwnFs(w, uid, ad, fs) && w.cloud.fss[fs].life.Deleting?
    && (uid in w.claims && w.claims[uid].ad == ad ==>
          var pc := w.claims[uid].pc;
          || pc.AwaitMount? || pc.ResolveIp? || pc.FindFs?
          || (pc.AwaitFs? && pc.fs in w.cloud.fss && !w.cloud.fss[pc.fs].life.Live()))
  }

  lemma OwnCallBlocked(w: World, uid: string, call: Call, ad: string, fs: Ocid)
    requires Blocked(w, uid, ad, fs)
    ensures var w' := ClaimStep(w, uid, call);
      Blocked(w', uid, ad, fs) && forall h | h in w'.volumes && h.uid == uid && h.ad == ad :: h in w.volumes
  {
    if uid in w.claims && w.claims[uid].ad == ad && call.ListFs? && FsListing(w, ad, uid, call.items) {
      assert fs in call.items;
    }
  }

  lemma OthersBlocked(w: World, a: Action, uid: string, ad: string, fs: Ocid)
    requires Blocked(w, uid, ad, fs) && !(a.Claim? && a.uid == uid)
    requires fs in Step(w, a).cloud.fss && !Step(w, a).cloud.fss[fs].life.Deleted?
    ensures var w' := Step(w, a);
      Blocked(w', uid, ad, fs) && forall h | h in w'.volumes && h.uid == uid && h.ad == ad :: h in w.volumes
  {
    hide Step;
    FssAfter(w, a);
    ClaimsAfter(w, a, uid);
  }

  /**
   The lookup goes by name and never by lifecycle, so as long as a file system of the claim's is
   DELETING, no attempt begun in its availability domain since then succeeds, however many there are
   and whatever else happens.
   */
  lemma {:induction false} StuckWhileDeleting(w: World, actions: seq<Action>, uid: string, ad: string, fs: Ocid)
    requires Blocked(w, uid, ad, fs)
    requires fs in Run(w, actions).cloud.fss && Run(w, actions).cloud.fss[fs].life.Deleting?
    ensures Blocked(Run(w, actions), uid, ad, fs)
    ensures forall h | h in Run(w, actions).volumes && h.uid == uid && h.ad == ad :: h in w.volumes
  {
    if actions != [] {
      hide Step;
      var n := |actions| - 1;
      var v, a := Run(w, actions[..n]), actions[n];
      FsStays(w, actions[..n], fs);
      FssAfter(v, a);
      StuckWhileDeleting(w, actions[..n], uid, ad, fs);
      if a.Claim? && a.uid == uid {
        StepIsClaimStep(v, uid, a.call);
        OwnCallBlocked(v, uid, a.call, ad, fs);
      } else {
        OthersBlocked(v, a, uid, ad, fs);
      }
    }
  }

  lemma StepIsClaimStep(w: World, uid: string, call: Call)
    ensures Step(w, Claim(uid, call)) == ClaimStep(w, uid, call)
  {
  }

  lemma OneStaysDeleting(w: World, a: Action, fs: Ocid)
    requires fs in w.cloud.fss && w.cloud.fss[fs].life.Deleting? && DeletesNothing(a)
    ensures fs in Step(w, a).cloud.fss && Step(w, a).cloud.fss[fs].life.Deleting?
  {
    hide ClaimStep;
    if a.Claim? { ClaimFrame(w, a.uid, a.call); }
  }

  /** A file system that is DELETING stays so until somebody finishes deleting it. */
  lemma {:induction false} StaysDeleting(w: World, actions: seq<Action>, fs: Ocid)
    requires fs in w.cloud.fss && w.cloud.fss[fs].life.Deleting?
    requires forall k | 0 <= k < |actions| :: DeletesNothing(actions[k])
    ensures fs in Run(w, actions).cloud.fss && Run(w, actions).cloud.fss[fs].life.Deleting?
  {
    if actions != [] {
      hide Step, DeletesNothing;
      var n := |actions| - 1;
      StaysDeleting(w, actions[..n], fs);
      OneStaysDeleting(Run(w, actions[..n]), actions[n], fs);
    }
  }

  /** The attempt begun now can be carried to success without anything being deleted. */
  ghost predicate CanSucceed(w: World, uid: string, ad: string, mount: Ocid) {
    exists actions :: (forall k | 0 <= k < |actions| :: Helpful(actions[k], uid)) && Succeeds(Started(w, uid, ad, mount), actions, uid, ad)
  }

  function Started(w: World, uid: string, ad: string, mount: Ocid): World {
    Step(w, Claim(uid, Begin(ad, mount)))
  }

  /**
   Exactly when a claim can be provisioned, its mount target being ready: when none of its file
   systems in that availability domain is DELETING.
   */
  lemma SuccessExactly(w: World, uid: string, ad: string, mount: Ocid)
    requires Inv(w) && uid !in w.claims && NetworkReady(w, Attempt(ad, mount, AwaitMount))
    ensures CanSucceed(w, uid, ad, mount) <==> NoneDeleting(w, uid, ad)
  {
    var v := Started(w, uid, ad, mount);
    StepKeepsInv(w, Claim(uid, Begin(ad, mount)));
    if NoneDeleting(w, uid, ad) {
      assert Clear(v, uid, v.claims[uid]) && NetworkReady(v, v.claims[uid]);
      hide Run, Inv, NetworkReady, Clear, Helpful, Succeeds;
      var actions := CanFinish(v, uid);
    } else {
      var fs :| OwnFs(w, uid, ad, fs) && w.cloud.fss[fs].life.Deleting?;
      assert Blocked(v, uid, ad, fs);
      hide Step, Run, Inv, NetworkReady, Blocked;
      forall actions: seq<Action> | forall k | 0 <= k < |actions| :: Helpful(actions[k], uid)
        ensures !Succeeds(v, actions, uid, ad)
      {
        if actions != [] { NoSuccessWhileDeleting(v, actions, uid, ad, fs); }
      }
    }
  }

  lemma NoSuccessWhileDeleting(v: World, actions: seq<Action>, uid: string, ad: string, fs: Ocid)
    requires Blocked(v, uid, ad, fs) && actions != []
    requires forall k | 0 <= k < |actions| :: Helpful(actions[k], uid)
    ensures !Succeeds(v, actions, uid, ad)
  {
    hide Run;
    var n := |actions| - 1;
    StaysDeleting(v, actions[..n], fs);
    StuckWhileDeleting(v, actions[..n], uid, ad, fs);
  }

  // ----- exactly when some answer is refused -----

  /** No cooperative continuation of the attempt is ever refused, or ends but in success. */
  ghost predicate Unrefusable(v: World, uid: string, ad: string) {
    forall actions, k :: CooperativeRun(v, actions, uid, ad) && 0 <= k < |actions| ==> GoesWell(Run(v, actions[..k]), actions[k], uid)
  }

  /** A cooperative run that ends in an answer being refused. */
  ghost predicate RefusedAfter(v: World, actions: seq<Action>, uid: string, ad: string) {
    && actions != [] && CooperativeRun(v, actions, uid, ad)
    && ResourceRefuses(Run(v, actions[..|actions| - 1]), actions[|actions| - 1], uid)
  }

  lemma CooperativeOnce(v: World, actions: seq<Action>, call: Call, uid: string, ad: string)
    requires CooperativeRun(v, actions, uid, ad)
    requires Delivered(call) && !NetworkRefuses(Run(v, actions), Claim(uid, call), uid)
    ensures CooperativeRun(v, actions + [Claim(uid, call)], uid, ad)
    ensures Run(v, actions + [Claim(uid, call)]) == ClaimStep(Run(v, actions), uid, call)
    ensures (actions + [Claim(uid, call)])[..|actions|] == actions
  {
    var a := Claim(uid, call);
    assert Cooperative(Run(v, actions), a, uid, ad);
    RunAppend(v, actions, a);
    hide Run, Cooperative;
    forall k | 0 <= k < |actions| + 1
      ensures Cooperative(Run(v, (actions + [a])[..k]), (actions + [a])[k], uid, ad)
    {
      assert (actions + [a])[..k] == if k < |actions| then actions[..k] else actions;
    }
  }

  /** What a listing shows, when it shows this file system. */
  lemma ShowsIt(v: World, uid: string, ad: string, fs: Ocid) returns (items: seq<Ocid>)
    requires Inv(v) && OwnFs(v, uid, ad, fs)
    ensures FsListing(v, ad, uid, items) && items != [] && (|items| == 1 ==> items[0] == fs)
  {
    var others := set id | id in v.cloud.fss && Keyed(v, v.cloud.fss[id], ad, uid) && !v.cloud.fss[id].life.Deleted?;
    items := AsListing(others + {fs});
    assert forall id :: id in items <==> id in others + {fs};
    assert fs in items;
  }

  /** Up to the listing, through a ready mount target. */
  lemma UpToListing(v: World, uid: string, ad: string) returns (actions: seq<Action>)
    requires uid in v.claims && v.claims[uid].ad == ad && v.claims[uid].pc.AwaitMount? && NetworkReady(v, v.claims[uid])
    ensures CooperativeRun(v, actions, uid, ad)
    ensures var u := Run(v, actions); u == v.(claims := u.claims) && uid in u.claims && u.claims[uid].ad == ad && u.claims[uid].pc.FindFs?
  {
    var ips := v.cloud.mounts[v.claims[uid].mount].ips;
    assert Run(v, []) == v;
    CooperativeOnce(v, [], PollMount, uid, ad);
    var one := [] + [Claim(uid, PollMount)];
    CooperativeOnce(v, one, GetIp(ips[0]), uid, ad);
    actions := one + [Claim(uid, GetIp(ips[0]))];
  }

  /** Whatever file system of the claim's is not live, some answer about it makes the attempt give up. */
  lemma CanBeRefused(v: World, uid: string, ad: string, fs: Ocid) returns (actions: seq<Action>)
    requires Inv(v) && uid in v.claims && v.claims[uid].ad == ad && v.claims[uid].pc.AwaitMount? && NetworkReady(v, v.claims[uid])
    requires OwnFs(v, uid, ad, fs) && !v.cloud.fss[fs].life.Live()
    ensures RefusedAfter(v, actions, uid, ad)
  {
    var found := UpToListing(v, uid, ad);
    var u := Run(v, found);
    assert Inv(u) by { RunKeepsInv(v, found); }
    assert OwnFs(u, uid, ad, fs);
    var items := ShowsIt(u, uid, ad, fs);
    hide Run, CooperativeRun, Inv, NetworkReady;
    CooperativeOnce(v, found, ListFs(items), uid, ad);
    actions := found + [Claim(uid, ListFs(items))];
    if |items| == 1 {
      CooperativeOnce(v, actions, PollFs, uid, ad);
      actions := actions + [Claim(uid, PollFs)];
    }
  }

  /**
   Exactly when no answer about the claim's resources can make an attempt give up, whatever else
   happens: when all its file systems in that availability domain are CREATING or ACTIVE.
   */
  lemma RefusalExactly(w: World, uid: string, ad: string, mount: Ocid)
    requires Inv(w) && uid !in w.claims && NetworkReady(w, Attempt(ad, mount, AwaitMount))
    ensures Unrefusable(Started(w, uid, ad, mount), uid, ad) <==> Healthy(w, uid, ad)
  {
    var v := Started(w, uid, ad, mount);
    StepKeepsInv(w, Claim(uid, Begin(ad, mount)));
    if Healthy(w, uid, ad) {
      assert OnTrack(v, uid, ad) && In(v, uid, ad);
      hide Run, OnTrack, CooperativeRun, GoesWell;
      forall actions, k | CooperativeRun(v, actions, uid, ad) && 0 <= k < |actions|
        ensures GoesWell(Run(v, actions[..k]), actions[k], uid)
      {
        NeverRefused(v, actions, uid, ad);
      }
    } else {
      var fs :| OwnFs(w, uid, ad, fs) && !w.cloud.fss[fs].life.Live();
      assert OwnFs(v, uid, ad, fs) && NetworkReady(v, v.claims[uid]);
      hide Run, Inv, NetworkReady, CooperativeRun, ResourceRefuses;
      var actions := CanBeRefused(v, uid, ad, fs);
      assert !GoesWell(Run(v, actions[..|actions| - 1]), actions[|actions| - 1], uid);
    }
  }

  // ----- where identity ends -----

  ghost predicate BothLive(w: World, h: Handle) {
    h in w.volumes && LiveFsIn(w.cloud, h.fs) && LiveExportIn(w.cloud, h.exportId)
  }

  lemma {:induction false} StaysLive(w: World, actions: seq<Action>, fs: Ocid, exportId: Ocid)
    requires forall k | 0 <= k < |actions| :: DeletesNothing(actions[k])
    ensures LiveFsIn(w.cloud, fs) ==> LiveFsIn(Run(w, actions).cloud, fs)
    ensures LiveExportIn(w.cloud, exportId) ==> LiveExportIn(Run(w, actions).cloud, exportId)
    ensures w.volumes <= Run(w, actions).volumes
  {
    if actions != [] {
      hide Step;
      var n := |actions| - 1;
      StaysLive(w, actions[..n], fs, exportId);
      FssAfter(Run(w, actions[..n]), actions[n]);
      ExportsAfter(Run(w, actions[..n]), actions[n]);
      ClaimsAfter(Run(w, actions[..n]), actions[n], "");
    }
  }

  /** What a run that succeeds has issued. */
  lemma SuccessIssues(v: World, actions: seq<Action>, uid: string, ad: string) returns (h: Handle)
    requires Inv(v) && Succeeds(v, actions, uid, ad)
    requires var u := Run(v, actions[..|actions| - 1]); LiveFsIn(u.cloud, u.claims[uid].pc.fs)
    ensures BothLive(Run(v, actions), h) && h.uid == uid && h.ad == ad
    ensures h.exportSet == Run(v, actions[..|actions| - 1]).claims[uid].pc.exportSet
  {
    var n := |actions| - 1;
    h := HandleOf(uid, Run(v, actions[..n]).claims[uid]);
    RunKeepsInv(v, actions[..n]);
    EndsExactly(Run(v, actions[..n]), actions[n], uid);
    RunLast(v, actions);
  }

  /** A claim none of whose file systems is DELETING can be provisioned, through any ready mount target, deleting nothing. */
  lemma CanProvision(w: World, uid: string, ad: string, mount: Ocid) returns (actions: seq<Action>, h: Handle)
    requires Inv(w) && uid !in w.claims && NoneDeleting(w, uid, ad) && NetworkReady(w, Attempt(ad, mount, AwaitMount))
    ensures forall k | 0 <= k < |actions| :: DeletesNothing(actions[k])
    ensures BothLive(Run(w, actions), h)
    ensures h.uid == uid && h.ad == ad && Some(h.exportSet) == w.cloud.mounts[mount].exportSet
  {
    var begin, v := Claim(uid, Begin(ad, mount)), Started(w, uid, ad, mount);
    StepKeepsInv(w, begin);
    assert Clear(v, uid, v.claims[uid]) && NetworkReady(v, v.claims[uid]) && Target(v, v.claims[uid]) == w.cloud.mounts[mount].exportSet.value;
    hide Inv, Step, Run, NetworkReady, Clear, Succeeds;
    var rest := CanFinish(v, uid);
    h := SuccessIssues(v, rest, uid, ad);
    actions := [begin] + rest;
    RunOne(w, begin);
    RunConcat(w, [begin], rest);
  }

  /**
   Uniqueness is per availability domain and per export set.  From any reachable state in which a
   claim has a live volume, provisioning it once more can succeed with both volumes live at once;
   the second shares the first's file system exactly when the availability domain is the same, and
   its export exactly when the mount target's export set is the same as well.
   */
  lemma RetryElsewhere(w0: World, past: seq<Action>, h: Handle, ad: string, mount: Ocid) returns (actions: seq<Action>, second: Handle)
    requires Init(w0)
    requires var w := Run(w0, past);
      && BothLive(w, h) && h.uid !in w.claims && NoneDeleting(w, h.uid, ad)
      && NetworkReady(w, Attempt(ad, mount, AwaitMount))
    ensures var w, v := Run(w0, past), Run(w0, past + actions);
      && BothLive(v, h) && BothLive(v, second)
      && second.uid == h.uid && second.ad == ad && Some(second.exportSet) == w.cloud.mounts[mount].exportSet
      && (second.fs == h.fs <==> ad == h.ad)
      && (second.exportId == h.exportId <==> ad == h.ad && second.exportSet == h.exportSet)
  {
    hide Inv, NoneDeleting, Step, Run, Init;
    InitHasInv(w0);
    RunKeepsInv(w0, past);
    actions, second := CanProvision(Run(w0, past), h.uid, ad, mount);
    RunConcat(w0, past, actions);
    StaysLive(Run(w0, past), actions, h.fs, h.exportId);
    IdentityIsStable(w0, past + actions, h, second);
  }
}
