/** Deleting a persistent volume: order of the two deletes, what a nil result means, and convergence under retry. */
module FssTeardown {
  import opened Ocids
  import opened FileStorage
  import opened FssInvariant
  import opened FssSafety

  predicate LiveFsIn(c: Cloud, id: Ocid) {
    id in c.fss && c.fss[id].life.Live()
  }

  predicate LiveExportIn(c: Cloud, id: Ocid) {
    id in c.exports && c.exports[id].life.Live()
  }

  /** Not found was answered about a resource that was CREATING or ACTIVE. */
  predicate Untrue(reply: Reply, live: bool) {
    reply.NotFound? && live
  }

  // ----- order -----

  /** At k this volume's DeleteExport was accepted or answered not found, and the same Delete call is still in flight. */
  ghost predicate ExportDropped(w0: World, actions: seq<Action>, h: Handle, k: int) {
    && 0 <= k < |actions| && actions[k].Tear? && actions[k].volume == h && actions[k].tear.DeleteExport?
    && !actions[k].tear.reply.Refused?
    && h in Run(w0, actions[..k]).teardowns && Run(w0, actions[..k]).teardowns[h] == DropExport
    && forall n :: k < n <= |actions| ==> h in Run(w0, actions[..n]).teardowns && Run(w0, actions[..n]).teardowns[h] == DropFs
  }

  lemma TeardownFrame(w: World, a: Action, h: Handle)
    requires h in Step(w, a).teardowns && Step(w, a).teardowns[h] == DropFs
    ensures h in w.teardowns
    ensures w.teardowns[h] == DropFs || (a.Tear? && a.volume == h && a.tear.DeleteExport? && !a.tear.reply.Refused?)
  {
  }

  /** A Delete call that has reached its second step got there through its own DeleteExport. */
  lemma {:induction false} ExportBeforeFs(w0: World, actions: seq<Action>, h: Handle) returns (k: int)
    requires Init(w0)
    requires h in Run(w0, actions).teardowns && Run(w0, actions).teardowns[h] == DropFs
    ensures ExportDropped(w0, actions, h, k)
  {
    var n := |actions| - 1;
    var w, a := Run(w0, actions[..n]), actions[n];
    assert actions[..|actions|] == actions;
    TeardownFrame(w, a, h);
    hide Step;
    if w.teardowns[h] == DropFs {
      k := ExportBeforeFs(w0, actions[..n], h);
      assert actions[..n][..k] == actions[..k];
      forall i | k < i <= |actions|
        ensures h in Run(w0, actions[..i]).teardowns && Run(w0, actions[..i]).teardowns[h] == DropFs
      {
        if i <= n { assert actions[..n][..i] == actions[..i]; }
      }
    } else {
      k := n;
    }
  }

  lemma {:induction false} DeadStaysDead(w: World, actions: seq<Action>, fs: Ocid, exportId: Ocid)
    ensures fs in w.cloud.fss && !w.cloud.fss[fs].life.Live() ==> fs in Run(w, actions).cloud.fss && !LiveFsIn(Run(w, actions).cloud, fs)
    ensures exportId in w.cloud.exports && !w.cloud.exports[exportId].life.Live() ==>
      exportId in Run(w, actions).cloud.exports && !LiveExportIn(Run(w, actions).cloud, exportId)
  {
    if actions != [] {
      hide Step;
      var n := |actions| - 1;
      DeadStaysDead(w, actions[..n], fs, exportId);
      FssAfter(Run(w, actions[..n]), actions[n]);
      ExportsAfter(Run(w, actions[..n]), actions[n]);
    }
  }

  /** One delete that the caller takes as done leaves its resource live exactly when the answer was an untrue not-found. */
  lemma DropOutcome(w: World, h: Handle, reply: Reply)
    requires Inv(w) && h in w.teardowns && !reply.Refused?
    ensures w.teardowns[h] == DropExport ==>
      var w' := Step(w, Tear(h, DeleteExport(reply)));
      h.exportId in w'.cloud.exports && (LiveExportIn(w'.cloud, h.exportId) <==> Untrue(reply, LiveExportIn(w.cloud, h.exportId)))
    ensures w.teardowns[h] == DropFs ==>
      var w' := Step(w, Tear(h, DeleteFs(reply)));
      h.fs in w'.cloud.fss && h !in w'.teardowns && (LiveFsIn(w'.cloud, h.fs) <==> Untrue(reply, LiveFsIn(w.cloud, h.fs)))
  {
  }

  /** What the two deletes of one Delete call, made at i and at j, leave live. */
  lemma BothDropped(w0: World, actions: seq<Action>, h: Handle, i: int, j: int)
    requires Init(w0) && 0 <= i < j < |actions|
    requires actions[i].Tear? && actions[i].volume == h && actions[i].tear.DeleteExport? && !actions[i].tear.reply.Refused?
    requires h in Run(w0, actions[..i]).teardowns && Run(w0, actions[..i]).teardowns[h] == DropExport
    requires actions[j].Tear? && actions[j].volume == h && actions[j].tear.DeleteFs? && !actions[j].tear.reply.Refused?
    requires h in Run(w0, actions[..j]).teardowns && Run(w0, actions[..j]).teardowns[h] == DropFs
    ensures var wi, wj, w' := Run(w0, actions[..i]), Run(w0, actions[..j]), Run(w0, actions[..j + 1]);
      && h !in w'.teardowns
      && (LiveFsIn(w'.cloud, h.fs) <==> Untrue(actions[j].tear.reply, LiveFsIn(wj.cloud, h.fs)))
      && (LiveExportIn(w'.cloud, h.exportId) ==> Untrue(actions[i].tear.reply, LiveExportIn(wi.cloud, h.exportId)))
  {
    hide Step, Run, Init, Inv;
    var rest := actions[i + 1..j + 1];
    InitHasInv(w0);
    RunKeepsInv(w0, actions[..i]);
    RunKeepsInv(w0, actions[..j]);
    DropOutcome(Run(w0, actions[..i]), h, actions[i].tear.reply);
    DropOutcome(Run(w0, actions[..j]), h, actions[j].tear.reply);
    RunAppend(w0, actions[..i], actions[i]);
    RunAppend(w0, actions[..j], actions[j]);
    RunConcat(w0, actions[..i] + [actions[i]], rest);
    assert actions[..i] + [actions[i]] + rest == actions[..j + 1] == actions[..j] + [actions[j]];
    DeadStaysDead(Run(w0, actions[..i] + [actions[i]]), rest, h.fs, h.exportId);
  }

  /**
   When Delete returns nil, the file system is live exactly when the service had just answered
   not-found about it although it was, and the export only if the service had done so about it.
   DeleteFileSystem was only issued after the same call's DeleteExport was accepted or answered not
   found.
   */
  lemma NilMeansGone(w0: World, actions: seq<Action>, h: Handle, reply: Reply) returns (k: int)
    requires Init(w0)
    requires h in Run(w0, actions).teardowns && Run(w0, actions).teardowns[h] == DropFs && !reply.Refused?
    ensures ExportDropped(w0, actions, h, k)
    ensures var w, w', wk := Run(w0, actions), Run(w0, actions + [Tear(h, DeleteFs(reply))]), Run(w0, actions[..k]);
      && h !in w'.teardowns
      && (LiveFsIn(w'.cloud, h.fs) <==> Untrue(reply, LiveFsIn(w.cloud, h.fs)))
      && (LiveExportIn(w'.cloud, h.exportId) ==> Untrue(actions[k].tear.reply, LiveExportIn(wk.cloud, h.exportId)))
  {
    hide Step, Run;
    k := ExportBeforeFs(w0, actions, h);
    var all := actions + [Tear(h, DeleteFs(reply))];
    assert all[..k] == actions[..k] && all[..|actions|] == actions && all[..|actions| + 1] == all;
    BothDropped(w0, all, h, k, |actions|);
  }

  // ----- convergence -----

  /** What is live of a claim's. */
  ghost function LiveFs(w: World, uid: string): set<Ocid> {
    set id | id in FsSlice(w, uid) && w.cloud.fss[id].life.Live()
  }

  ghost function LiveExports(w: World, uid: string): set<Ocid> {
    set id | id in ExportSlice(w, uid) && w.cloud.exports[id].life.Live()
  }

  /** The service finishing what it has started, deleting nothing of its own accord. */
  predicate KeepsLive(w: World, a: Action) {
    || a.MountIs? || a.AddressIs?
    || (a.FsMoves? && (LiveFsIn(w.cloud, a.id) ==> a.to.Live()))
    || (a.ExportMoves? && (LiveExportIn(w.cloud, a.id) ==> a.to.Live()))
  }

  /** An event of some Delete call for the volume, one of the service's that deletes nothing, or anything at all that does not concern the claim. */
  ghost predicate TearsAtMost(w: World, a: Action, h: Handle) {
    (a.Tear? && a.volume == h) || KeepsLive(w, a) || !Concerns(w, a, h.uid)
  }

  /** Any number of Delete calls for one volume, failing wherever they like, among whatever the other claims do. */
  ghost predicate OnlyTears(w: World, actions: seq<Action>, h: Handle) {
    forall k | 0 <= k < |actions| :: TearsAtMost(Run(w, actions[..k]), actions[k], h)
  }

  lemma LiveSetsStep(w: World, a: Action, h: Handle)
    requires Inv(w) && TearsAtMost(w, a, h)
    ensures LiveFs(w, h.uid) - {h.fs} <= LiveFs(Step(w, a), h.uid) <= LiveFs(w, h.uid)
    ensures LiveExports(w, h.uid) - {h.exportId} <= LiveExports(Step(w, a), h.uid) <= LiveExports(w, h.uid)
  {
    hide Step, Inv;
    if !Concerns(w, a, h.uid) {
      StepElsewhere(w, a, h.uid);
      SameSliceSameLive(w, Step(w, a), h.uid);
    } else {
      OwnTears(w, a, h);
    }
  }

  lemma SameSliceSameLive(w: World, w': World, uid: string)
    requires SameSlice(w, w', uid)
    ensures LiveFs(w', uid) == LiveFs(w, uid) && LiveExports(w', uid) == LiveExports(w, uid)
  {
    forall id | id in FsSlice(w, uid) ensures w'.cloud.fss[id] == w.cloud.fss[id] { assert FsSlice(w', uid)[id] == FsSlice(w, uid)[id]; }
    forall e | e in ExportSlice(w, uid) ensures w'.cloud.exports[e] == w.cloud.exports[e] { assert ExportSlice(w', uid)[e] == ExportSlice(w, uid)[e]; }
  }

  lemma OwnTears(w: World, a: Action, h: Handle)
    requires (a.Tear? && a.volume == h) || KeepsLive(w, a)
    ensures LiveFs(w, h.uid) - {h.fs} <= LiveFs(Step(w, a), h.uid) <= LiveFs(w, h.uid)
    ensures LiveExports(w, h.uid) - {h.exportId} <= LiveExports(Step(w, a), h.uid) <= LiveExports(w, h.uid)
  {
    hide Step, LiveExports;
    FssAfter(w, a);
    assert forall id :: id in FsSlice(Step(w, a), h.uid) <==> id in FsSlice(w, h.uid);
    OwnTearsExports(w, a, h);
  }

  lemma OwnTearsExports(w: World, a: Action, h: Handle)
    requires (a.Tear? && a.volume == h) || KeepsLive(w, a)
    requires forall id :: id in FsSlice(Step(w, a), h.uid) <==> id in FsSlice(w, h.uid)
    ensures LiveExports(w, h.uid) - {h.exportId} <= LiveExports(Step(w, a), h.uid) <= LiveExports(w, h.uid)
  {
    hide Step, FsSlice;
    ExportsAfter(w, a);
  }

  /** Between them, the Delete calls for one volume touch nothing of the claim's but its two resources. */
  lemma {:induction false} LiveSetsRun(w: World, actions: seq<Action>, h: Handle)
    requires Inv(w) && OnlyTears(w, actions, h)
    ensures LiveFs(w, h.uid) - {h.fs} <= LiveFs(Run(w, actions), h.uid) <= LiveFs(w, h.uid)
    ensures LiveExports(w, h.uid) - {h.exportId} <= LiveExports(Run(w, actions), h.uid) <= LiveExports(w, h.uid)
  {
    if actions != [] {
      hide Step, Inv, TearsAtMost;
      var n := |actions| - 1;
      forall k | 0 <= k < n
        ensures TearsAtMost(Run(w, actions[..n][..k]), actions[..n][k], h)
      {
        assert actions[..n][..k] == actions[..k];
      }
      LiveSetsRun(w, actions[..n], h);
      RunKeepsInv(w, actions[..n]);
      LiveSetsStep(Run(w, actions[..n]), actions[n], h);
    }
  }

  /** At i a Delete call drops the export, and the service does not lie about it. */
  ghost predicate DropsExportAt(w: World, actions: seq<Action>, h: Handle, i: int) {
    && 0 <= i < |actions| && actions[i].Tear? && actions[i].volume == h && actions[i].tear.DeleteExport?
    && var v := Run(w, actions[..i]);
    && h in v.teardowns && v.teardowns[h] == DropExport
    && !actions[i].tear.reply.Refused? && !Untrue(actions[i].tear.reply, LiveExportIn(v.cloud, h.exportId))
  }

  ghost predicate DropsFsAt(w: World, actions: seq<Action>, h: Handle, j: int) {
    && 0 <= j < |actions| && actions[j].Tear? && actions[j].volume == h && actions[j].tear.DeleteFs?
    && var v := Run(w, actions[..j]);
    && h in v.teardowns && v.teardowns[h] == DropFs
    && !actions[j].tear.reply.Refused? && !Untrue(actions[j].tear.reply, LiveFsIn(v.cloud, h.fs))
  }

  lemma DroppedIsGone(w: World, actions: seq<Action>, h: Handle, i: int)
    requires Inv(w) && h in w.volumes && 0 <= i < |actions|
    ensures DropsExportAt(w, actions, h, i) ==> h.exportId !in LiveExports(Run(w, actions), h.uid)
    ensures DropsFsAt(w, actions, h, i) ==> h.fs !in LiveFs(Run(w, actions), h.uid)
  {
    hide Step, Run, Inv;
    var rest := actions[i + 1..];
    RunAppend(w, actions[..i], actions[i]);
    RunConcat(w, actions[..i] + [actions[i]], rest);
    assert actions[..i] + [actions[i]] + rest == actions;
    if DropsExportAt(w, actions, h, i) || DropsFsAt(w, actions, h, i) {
      RunKeepsInv(w, actions[..i]);
      DropOutcome(Run(w, actions[..i]), h, actions[i].tear.reply);
      DeadStaysDead(Run(w, actions[..i] + [actions[i]]), rest, h.fs, h.exportId);
    }
  }

  /** A Delete call that meets no failure. */
  function CleanDelete(h: Handle): seq<Action> {
    [Tear(h, BeginTear), Tear(h, DeleteExport(Accepted)), Tear(h, DeleteFs(Accepted))]
  }

  lemma CleanDeleteDrops(w: World, h: Handle)
    requires h in w.volumes && h !in w.teardowns
    ensures DropsExportAt(w, CleanDelete(h), h, 1) && DropsFsAt(w, CleanDelete(h), h, 2)
  {
    var a0, a1, a2 := Tear(h, BeginTear), Tear(h, DeleteExport(Accepted)), Tear(h, DeleteFs(Accepted));
    RunAppend(w, [], a0);
    RunAppend(w, [a0], a1);
    assert CleanDelete(h)[..1] == [] + [a0] && CleanDelete(h)[..2] == [a0] + [a1];
  }

  lemma CleanDeleteRun(w: World, h: Handle)
    requires Inv(w) && h in w.volumes && h !in w.teardowns
    ensures var v := Run(w, CleanDelete(h));
      LiveFs(v, h.uid) == LiveFs(w, h.uid) - {h.fs} && LiveExports(v, h.uid) == LiveExports(w, h.uid) - {h.exportId}
  {
    hide Run, Inv, LiveFs, LiveExports;
    CleanDeleteDrops(w, h);
    DroppedIsGone(w, CleanDelete(h), h, 1);
    DroppedIsGone(w, CleanDelete(h), h, 2);
    LiveSetsRun(w, CleanDelete(h), h);
  }

  /**
   However many Delete calls for a volume fail, wherever they fail, and whatever other claims do
   meanwhile, once both of its deletes have been truthfully answered what is live of the claim's is
   what a single clean Delete would have left, and no further Delete call changes it.
   */
  lemma DeleteConverges(w: World, actions: seq<Action>, h: Handle, i: int, j: int)
    requires Inv(w) && h in w.volumes && h !in w.teardowns
    requires OnlyTears(w, actions, h)
    requires DropsExportAt(w, actions, h, i) && DropsFsAt(w, actions, h, j)
    ensures var v, clean := Run(w, actions), Run(w, CleanDelete(h));
      && LiveFs(v, h.uid) == LiveFs(clean, h.uid) == LiveFs(w, h.uid) - {h.fs}
      && LiveExports(v, h.uid) == LiveExports(clean, h.uid) == LiveExports(w, h.uid) - {h.exportId}
  {
    hide Run, Inv, LiveFs, LiveExports, OnlyTears;
    CleanDeleteRun(w, h);
    DroppedIsGone(w, actions, h, i);
    DroppedIsGone(w, actions, h, j);
    LiveSetsRun(w, actions, h);
  }

  // ----- what a deleted volume leaves behind -----

  predicate LiveExportOf(c: Cloud, e: Ocid, fs: Ocid) {
    LiveExportIn(c, e) && c.exports[e].fs == fs
  }

  /** Resources keep their names and joins for good. */
  lemma {:induction false} NamesAreKept(w: World, actions: seq<Action>)
    ensures var v := Run(w, actions);
      && v.prefix == w.prefix && v.compartment == w.compartment
      && (forall id | id in w.cloud.fss :: id in v.cloud.fss && SameKey(w.cloud.fss[id], v.cloud.fss[id]))
      && (forall e | e in w.cloud.exports :: e in v.cloud.exports && Joins(v.cloud.exports[e], w.cloud.exports[e].fs, w.cloud.exports[e].exportSet))
  {
    if actions != [] {
      hide Step;
      var n := |actions| - 1;
      NamesAreKept(w, actions[..n]);
      FssAfter(Run(w, actions[..n]), actions[n]);
      ExportsAfter(Run(w, actions[..n]), actions[n]);
    }
  }

  /**
   Deleting a volume undoes its Provision: from the file system and export being live to neither
   being so, with all else of the claim's that is live as it was.  Nothing live is left that the
   claim's retries in that availability domain and export set could adopt; what is left of the file
   system's exports is exactly those in other export sets.
   */
  lemma DeleteUndoesProvision(w: World, actions: seq<Action>, h: Handle, i: int, j: int)
    requires Inv(w) && h in w.volumes && h !in w.teardowns
    requires LiveFsIn(w.cloud, h.fs) && LiveExportIn(w.cloud, h.exportId)
    requires OnlyTears(w, actions, h)
    requires DropsExportAt(w, actions, h, i) && DropsFsAt(w, actions, h, j)
    ensures var v := Run(w, actions);
      && LiveFs(v, h.uid) == LiveFs(w, h.uid) - {h.fs} && LiveExports(v, h.uid) == LiveExports(w, h.uid) - {h.exportId}
      && (forall id | LiveFsIn(v.cloud, id) :: !Keyed(v, v.cloud.fss[id], h.ad, h.uid))
      && (forall e | LiveExportIn(v.cloud, e) :: !Joins(v.cloud.exports[e], h.fs, h.exportSet))
      && (forall e :: LiveExportOf(v.cloud, e, h.fs) <==> LiveExportOf(w.cloud, e, h.fs) && w.cloud.exports[e].exportSet != h.exportSet)
  {
    hide Step, Run, OnlyTears, DropsExportAt, DropsFsAt, Inv, LiveFs, LiveExports;
    DeleteConverges(w, actions, h, i, j);
    NamesAreKept(w, actions);
    Withdrawn(w, Run(w, actions), h);
  }

  /** A claim's live resources in one availability domain and export set are its live volume's. */
  lemma OnlyOneToAdopt(w: World, h: Handle)
    requires Inv(w) && h in w.volumes && LiveFsIn(w.cloud, h.fs) && LiveExportIn(w.cloud, h.exportId)
    ensures h.fs in FsSlice(w, h.uid)
    ensures forall id | LiveFsIn(w.cloud, id) && Keyed(w, w.cloud.fss[id], h.ad, h.uid) :: id == h.fs
    ensures forall e | LiveExportIn(w.cloud, e) && Joins(w.cloud.exports[e], h.fs, h.exportSet) :: e == h.exportId
    ensures Joins(w.cloud.exports[h.exportId], h.fs, h.exportSet)
  {
    assert VolumeHolds(w, h);
    forall id | LiveFsIn(w.cloud, id) && Keyed(w, w.cloud.fss[id], h.ad, h.uid) ensures id == h.fs { assert RivalFs(w.cloud.fss, id, h.fs); }
    forall e | LiveExportIn(w.cloud, e) && Joins(w.cloud.exports[e], h.fs, h.exportSet) ensures e == h.exportId {
      assert RivalExports(w.cloud.exports, e, h.exportId);
    }
  }

  lemma Withdrawn(w: World, v: World, h: Handle)
    requires Inv(w) && h in w.volumes && LiveFsIn(w.cloud, h.fs) && LiveExportIn(w.cloud, h.exportId)
    requires LiveFs(v, h.uid) == LiveFs(w, h.uid) - {h.fs} && LiveExports(v, h.uid) == LiveExports(w, h.uid) - {h.exportId}
    requires v.prefix == w.prefix && v.compartment == w.compartment
    requires forall id | id in w.cloud.fss :: id in v.cloud.fss && SameKey(w.cloud.fss[id], v.cloud.fss[id])
    requires forall e | e in w.cloud.exports :: e in v.cloud.exports && Joins(v.cloud.exports[e], w.cloud.exports[e].fs, w.cloud.exports[e].exportSet)
    ensures forall id | LiveFsIn(v.cloud, id) :: !Keyed(v, v.cloud.fss[id], h.ad, h.uid)
    ensures forall e | LiveExportIn(v.cloud, e) :: !Joins(v.cloud.exports[e], h.fs, h.exportSet)
    ensures forall e :: LiveExportOf(v.cloud, e, h.fs) <==> LiveExportOf(w.cloud, e, h.fs) && w.cloud.exports[e].exportSet != h.exportSet
  {
    OnlyOneToAdopt(w, h);
    hide Inv;
    assert h.fs in FsSlice(v, h.uid);
    forall id | LiveFsIn(v.cloud, id) && NamedFor(v, v.cloud.fss[id], h.uid)
      ensures LiveFsIn(w.cloud, id) && id != h.fs
    {
      assert id in LiveFs(v, h.uid);
    }
    forall e | LiveExportIn(v.cloud, e) && v.cloud.exports[e].fs == h.fs
      ensures LiveExportIn(w.cloud, e) && e != h.exportId
    {
      assert e in LiveExports(v, h.uid);
    }
    forall e | LiveExportIn(w.cloud, e) && w.cloud.exports[e].fs == h.fs && e != h.exportId
      ensures LiveExportIn(v.cloud, e)
    {
      assert e in LiveExports(w, h.uid) - {h.exportId};
    }
  }
}
