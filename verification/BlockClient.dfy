/**
 The block storage service and its clock.  Every call lets time pass and lets everybody else act;
 a call whose context has expired is not sent, and one whose context expires on the way fails
 whether or not it took effect.  Every call is put on record with what came of it.
 */
module BlockClients {
  import opened Wrappers
  import opened Ocids
  import opened Errors

  datatype VolumeLife = Provisioning | Restoring | Available | Terminating | Terminated | Faulty {
    /** The volume exists and nobody has begun to terminate it. */
    predicate Live() {
      !Terminating? && !Terminated?
    }
  }

  datatype VolumeDetails = VolumeDetails(ad: string, compartment: Ocid, name: string, sizeInMBs: int, backup: Option<string>)

  /**
   `maker` is the Provision call that asked for the volume, when it was one of ours; `abandoned` is
   set when the service itself gave up creating the volume and terminated it.
   */
  datatype Volume = Volume(details: VolumeDetails, life: VolumeLife, maker: Option<nat>, abandoned: bool)

  predicate Creating(life: VolumeLife) {
    life.Provisioning? || life.Restoring?
  }

  /** What the service does to a volume by itself: finish or give up creating it, lose it, finish terminating it. */
  predicate ServiceMoves(before: VolumeLife, after: VolumeLife) {
    || (Creating(before) && !Creating(after))
    || (before.Available? && after.Faulty?)
    || (before.Terminating? && after.Terminated?)
  }

  /** Deadlines are absolute; a child context never outlives its parent. */
  function WithTimeout(parent: Option<nat>, now: nat, timeout: nat): (deadline: nat)
    ensures deadline <= now + timeout
    ensures parent.Some? ==> deadline <= parent.value
    ensures parent.None? || now + timeout <= parent.value ==> deadline == now + timeout
  {
    if parent.Some? && parent.value < now + timeout then parent.value else now + timeout
  }

  /**
   What can have happened to the volumes between two moments: others create and delete theirs;
   one of ours is only moved by the service, unless it is among those we asked to delete.
   */
  ghost predicate Drifted(before: map<Ocid, Volume>, after: map<Ocid, Volume>, deleted: set<Ocid>) {
    && before.Keys <= after.Keys
    && (forall id | id in before ::
          after[id].details == before[id].details && after[id].maker == before[id].maker
          && (after[id].life.Live() ==> before[id].life.Live())
          && (before[id].maker.Some? ==> Reached(before[id], after[id]) || (id in deleted && !after[id].life.Live())))
    && (forall id | id in after && id !in before :: after[id].maker.None?)
  }

  /** Any number of service moves. */
  predicate Reached(before: Volume, after: Volume) {
    && (before.life == after.life || ServiceMoves(before.life, after.life))
    && (after.abandoned <==> before.abandoned || (Creating(before.life) && !after.life.Live()))
  }

  lemma DriftedNowhere(volumes: map<Ocid, Volume>)
    ensures Drifted(volumes, volumes, {})
  {
  }

  lemma DriftedTwice(a: map<Ocid, Volume>, b: map<Ocid, Volume>, c: map<Ocid, Volume>)
    requires Drifted(a, b, {}) && Drifted(b, c, {})
    ensures Drifted(a, c, {})
  {
  }

  /** Drifting makes no volume of ours. */
  lemma DriftedMakers(before: map<Ocid, Volume>, after: map<Ocid, Volume>, maker: nat)
    requires Drifted(before, after, {})
    ensures forall id | id in after && after[id].maker == Some(maker) :: id in before && before[id].maker == Some(maker)
  {
  }

  /** A volume made on the way, and what becomes of it. */
  lemma DriftedThenMade(before: map<Ocid, Volume>, middle: map<Ocid, Volume>, after: map<Ocid, Volume>, id: Ocid, made: Volume)
    requires Drifted(before, middle, {}) && id !in middle && Drifted(middle[id := made], after, {})
    requires made.maker.Some? && Creating(made.life) && !made.abandoned
    ensures id !in before && id in after && Drifted(before, after - {id}, {})
    ensures after[id].details == made.details && after[id].maker == made.maker && (after[id].life.Live() <==> !after[id].abandoned)
  {
    assert Drifted(middle, after - {id}, {});
    DriftedTwice(before, middle, after - {id});
  }

  /** A volume deleted on the way. */
  lemma DriftedThenDeleted(before: map<Ocid, Volume>, middle: map<Ocid, Volume>, after: map<Ocid, Volume>, id: Ocid)
    requires Drifted(before, middle, {}) && id in middle && Drifted(middle[id := middle[id].(life := Terminating)], after, {})
    ensures Drifted(before, after, {id}) && id in after && !after[id].life.Live()
  {
    var deleted := middle[id := middle[id].(life := Terminating)];
    forall i | i in before
      ensures after[i].details == before[i].details && after[i].maker == before[i].maker
      ensures after[i].life.Live() ==> before[i].life.Live()
      ensures before[i].maker.Some? ==> Reached(before[i], after[i]) || (i == id && !after[i].life.Live())
    {
      assert i in middle && i in deleted;
    }
  }

  lemma DeadStaysDead(before: map<Ocid, Volume>, after: map<Ocid, Volume>, id: Ocid)
    requires Drifted(before, after, {}) && id in before && !before[id].life.Live()
    ensures id in after && !after[id].life.Live()
  {
  }

  /**
   One call, made at `sent` under a deadline and over at `answered`.  `made` is the volume that a create brought about,
   whether or not its response arrived; `held` is what the service held when it answered a read or
   dealt with a delete; a delete is `carriedOut` when it terminated its volume.
   */
  datatype Record =
    | Created(details: VolumeDetails, maker: nat, deadline: nat, sent: nat, answered: nat, made: Option<Ocid>, created: Result<Ocid, Error>)
    | Got(id: Ocid, deadline: nat, sent: nat, answered: nat, held: map<Ocid, Volume>, life: Result<VolumeLife, Error>)
    | Dropped(id: Ocid, deadline: nat, sent: nat, answered: nat, held: map<Ocid, Volume>, carriedOut: bool,
              error: Option<Error>, status: Option<int>)

  predicate LiveIn(volumes: map<Ocid, Volume>, id: Ocid) {
    id in volumes && volumes[id].life.Live()
  }

  class BlockClient {
    var volumes: map<Ocid, Volume>
    var now: nat
    ghost var calls: seq<Record>

    constructor (volumes: map<Ocid, Volume>)
      ensures this.volumes == volumes && calls == []
    {
      this.volumes := volumes;
      now := *;
      calls := [];
    }

    ghost predicate MadeBy(maker: nat, id: Ocid)
      reads this
    {
      id in volumes && volumes[id].maker == Some(maker)
    }

    ghost predicate NothingBy(maker: nat)
      reads this
    {
      forall id | id in volumes :: volumes[id].maker != Some(maker)
    }

    /** Somebody else, or the service, does one thing. */
    method Disturb()
      modifies this`volumes
      ensures Drifted(old(volumes), volumes, {})
    {
      var id: Ocid, life: VolumeLife, details: VolumeDetails :| true;
      if id !in volumes {
        volumes := volumes[id := Volume(details, life, None, false)];
      } else if ServiceMoves(volumes[id].life, life) {
        var abandoned := volumes[id].abandoned || (Creating(volumes[id].life) && !life.Live());
        volumes := volumes[id := volumes[id].(life := life, abandoned := abandoned)];
      } else if volumes[id].maker.None? && !life.Live() {
        volumes := volumes[id := volumes[id].(life := life)];
      }
    }

    /** Time passes and everybody else acts. */
    method Drift()
      modifies this`volumes, this`now
      ensures now >= old(now) && Drifted(old(volumes), volumes, {})
    {
      var later: nat := *;
      if later > now { now := later; }
      var steps: nat := *;
      DriftedNowhere(volumes);
      hide Drifted;
      while steps > 0
        invariant now >= old(now) && Drifted(old(volumes), volumes, {})
      {
        label Before:
        Disturb();
        DriftedTwice(old(volumes), old@Before(volumes), volumes);
        steps := steps - 1;
      }
    }

    /** Sleeping until some moment, which passes at the latest while asleep. */
    method SleepUntil(moment: nat)
      modifies this`volumes, this`now
      ensures now >= old(now) && now >= moment && Drifted(old(volumes), volumes, {})
    {
      Drift();
      if now < moment { now := moment; }
    }

    method CreateVolume(ctx: nat, details: VolumeDetails, maker: nat) returns (r: Result<Ocid, Error>, ghost rec: Record)
      requires NothingBy(maker)
      modifies this
      ensures now >= old(now) && calls == old(calls) + [rec]
      ensures rec.Created? && rec == Created(details, maker, ctx, old(now), now, rec.made, r)
      ensures forall id :: MadeBy(maker, id) <==> rec.made == Some(id)
      ensures Drifted(old(volumes), if rec.made.Some? then volumes - {rec.made.value} else volumes, {})
      ensures rec.made.Some? ==> rec.made.value !in old(volumes) && rec.made.value in volumes && volumes[rec.made.value].details == details
      ensures rec.made.Some? ==> (volumes[rec.made.value].life.Live() <==> !volumes[rec.made.value].abandoned)
      ensures old(now) >= ctx ==> rec.made.None? && r.Failure?
      ensures r.Success? ==> rec.made == Some(r.value) && now < ctx
    {
      hide Drifted;
      var e: Error :| true;
      DriftedNowhere(volumes);
      if now >= ctx {
        rec := Created(details, maker, ctx, old(now), now, None, Failure(e));
        calls := calls + [rec];
        return Failure(e), rec;
      }
      Drift();
      DriftedMakers(old(volumes), volumes, maker);
      label Sent:
      var effect: bool, id: Ocid, life: VolumeLife :| true;
      if !effect || id in volumes {
        Drift();
        DriftedTwice(old(volumes), old@Sent(volumes), volumes);
        DriftedMakers(old@Sent(volumes), volumes, maker);
        rec := Created(details, maker, ctx, old(now), now, None, Failure(e));
        calls := calls + [rec];
        return Failure(e), rec;
      }
      var volume := Volume(details, if life.Restoring? then life else Provisioning, Some(maker), false);
      volumes := volumes[id := volume];
      label Made:
      Drift();
      DriftedThenMade(old(volumes), old@Sent(volumes), volumes, id, volume);
      DriftedMakers(old@Made(volumes), volumes, maker);
      var arrives: bool :| true;
      r := if arrives && now < ctx then Success(id) else Failure(e);
      rec := Created(details, maker, ctx, old(now), now, Some(id), r);
      calls := calls + [rec];
    }

    /** The life the volume has at the moment of the answer. */
    method GetVolume(ctx: nat, id: Ocid) returns (r: Result<VolumeLife, Error>, ghost rec: Record)
      modifies this
      ensures now >= old(now) && Drifted(old(volumes), volumes, {}) && calls == old(calls) + [rec]
      ensures rec == Got(id, ctx, old(now), now, volumes, r)
      ensures old(now) >= ctx ==> r.Failure?
      ensures r.Success? ==> now < ctx && id in volumes && volumes[id].life == r.value
    {
      var e: Error, answers: bool :| true;
      if now < ctx {
        Drift();
        r := if answers && now < ctx && id in volumes then Success(volumes[id].life) else Failure(e);
      } else {
        r := Failure(e);
      }
      rec := Got(id, ctx, old(now), now, volumes, r);
      calls := calls + [rec];
    }

    method DeleteVolume(ctx: nat, id: Ocid) returns (error: Option<Error>, status: Option<int>, ghost rec: Record)
      modifies this
      ensures now >= old(now) && calls == old(calls) + [rec]
      ensures rec.Dropped? && rec == Dropped(id, ctx, old(now), now, rec.held, rec.carriedOut, error, status)
      ensures old(now) >= ctx ==> !rec.carriedOut && error.Some? && status.None?
      ensures Drifted(old(volumes), volumes, if rec.carriedOut then {id} else {}) && Drifted(rec.held, volumes, {})
      ensures !rec.carriedOut ==> Drifted(old(volumes), rec.held, {})
      ensures rec.carriedOut ==> id in rec.held && !LiveIn(rec.held, id) && id in volumes && !LiveIn(volumes, id)
      ensures error.None? && status != Some(404) ==> id in rec.held && !LiveIn(rec.held, id)
    {
      var e: Error, carriesOut: bool, arrives: bool, code: Option<int> :| true;
      hide Drifted;
      DriftedNowhere(volumes);
      ghost var carriedOut := false;
      if now >= ctx {
        rec := Dropped(id, ctx, old(now), now, volumes, false, Some(e), None);
        calls := calls + [rec];
        return Some(e), None, rec;
      }
      Drift();
      label Sent:
      if carriesOut && id in volumes && volumes[id].life.Live() {
        volumes := volumes[id := volumes[id].(life := Terminating)];
        carriedOut := true;
      }
      var gone := id in volumes && !volumes[id].life.Live();
      label Answered:
      ghost var held := volumes;
      Drift();
      if gone { DeadStaysDead(held, volumes, id); }
      if carriedOut {
        DriftedThenDeleted(old(volumes), old@Sent(volumes), volumes, id);
      } else {
        DriftedTwice(old(volumes), old@Sent(volumes), volumes);
      }
      error, status := if gone && arrives && now < ctx then None else Some(e), code;
      rec := Dropped(id, ctx, old(now), now, held, carriedOut, error, status);
      calls := calls + [rec];
    }
  }
}
