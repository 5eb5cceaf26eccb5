/** The block volume plugin (pkg/provisioner/block/block.go). */
module BlockPlugin {
  import opened Wrappers
  import opened Ocids
  import opened Naming
  import opened Errors
  import opened Polling
  import opened Kubernetes
  import opened Sizes
  import opened Client
  import opened BlockClients

  const OCI_VOLUME_ID := "ociVolumeID"
  const OCI_VOLUME_BACKUP_ID := "volume.beta.kubernetes.io/oci-volume-source"
  const FS_TYPE := "fsType"

  function ResolveFSType(options: VolumeOptions): string {
    if FS_TYPE in options.parameters then options.parameters[FS_TYPE] else "ext4"
  }

  function ClassifyVolume(r: Result<VolumeLife, Error>): Seen<VolumeLife> {
    match r
    case Failure(e) => CallFailed(e)
    case Success(life) =>
      match life
      case Available => Ready(life)
      case Faulty => Hopeless
      case Terminated => Hopeless
      case Terminating => Hopeless
      case Provisioning => Undecided
      case Restoring => Undecided
  }

  /** What became of the volume one Provision call asked for. */
  datatype Fate =
    | NothingMade
    | Handed(id: Ocid)
    | Compensated(id: Ocid)
    | ResponseLost(id: Ocid)
    | CompensationFailed(id: Ocid)
    | RegionUnknown(id: Ocid)
    | Deleted(id: Ocid)
  {
    /** The three ways Provision can fail and leave a volume behind. */
    predicate Leaks() {
      ResponseLost? || CompensationFailed? || RegionUnknown?
    }
  }

  /** How often the wait asks for the volume. */
  const INTERVAL_SECONDS: nat := 5

  // ----- what a call's record says -----

  function SawLife(rec: Record): Seen<VolumeLife> {
    if rec.Got? then ClassifyVolume(rec.life) else Hopeless
  }

  /** The reads between a Provision's create and its compensating delete, if it made one. */
  function Polls(said: seq<Record>): seq<Record> {
    if |said| <= 1 then [] else if said[|said| - 1].Dropped? then said[1..|said| - 1] else said[1..]
  }

  /** Where the last read of the volume is on record: just before the compensating delete, or at the end. */
  function LastRead(said: seq<Record>): int {
    if said != [] && said[|said| - 1].Dropped? then |said| - 2 else |said| - 1
  }

  /** How the wait for the volume ended. */
  function Waited(said: seq<Record>): Result<VolumeLife, PollError> {
    PollOutcome(Saw(Polls(said), SawLife))
  }

  /** A read of the volume under the caller's deadline: it succeeds only if answered before its own. */
  predicate ReadOf(rec: Record, id: Ocid, deadline: nat) {
    && rec.Got? && rec.id == id && rec.deadline == WithTimeout(Some(deadline), rec.sent, TIMEOUT_SECONDS) && rec.sent <= rec.answered
    && (rec.life.Success? ==> rec.answered < rec.deadline && id in rec.held && rec.held[id].life == rec.life.value)
  }

  /**
   The k-th read after the first waited for the ticker's k-th tick, at the earliest; both the ticker
   and the timer start when the first read has been answered.  A timer of 0 never closes.
   */
  predicate Ticked(polls: seq<Record>, k: nat, timeout: nat)
    requires 0 < k < |polls|
  {
    polls[k].sent >= polls[0].answered + INTERVAL_SECONDS * k && (timeout == 0 || INTERVAL_SECONDS * k <= timeout)
  }

  /** The last read was made once the timer had closed. */
  predicate Closed(polls: seq<Record>, timeout: nat) {
    timeout > 0 && |polls| >= 2 && polls[|polls| - 1].sent >= polls[0].answered + timeout
  }

  /** The calls of one run of the polling loop, one after the other, and how it ended. */
  ghost predicate Looped(polls: seq<Record>, id: Ocid, begun: nat, deadline: nat, timeout: nat, r: Result<VolumeLife, PollError>) {
    && polls != [] && polls[0].sent == begun
    && (forall k | 0 <= k < |polls| :: ReadOf(polls[k], id, deadline))
    && (forall k | 0 < k < |polls| :: polls[k - 1].answered <= polls[k].sent)
    && (forall k | 0 < k < |polls| :: Ticked(polls, k, timeout) || (k == |polls| - 1 && Closed(polls, timeout)))
    && Polled(Saw(polls, SawLife), r)
    && (r == Failure(TimedOut) ==> Closed(polls, timeout))
  }

  /** A run of the loop that has not been settled yet. */
  ghost predicate Unsettled(polls: seq<Record>, id: Ocid, begun: nat, deadline: nat, timeout: nat) {
    && (polls != [] ==> polls[0].sent == begun)
    && (forall k | 0 <= k < |polls| :: ReadOf(polls[k], id, deadline) && SawLife(polls[k]).Undecided?)
    && (forall k | 0 < k < |polls| :: polls[k - 1].answered <= polls[k].sent && Ticked(polls, k, timeout))
  }

  /** Whether the next read is made in time: the first one at once, then at a tick, or once the timer has closed. */
  predicate Due(polls: seq<Record>, sent: nat, begun: nat, timeout: nat, closed: bool) {
    if polls == [] then sent == begun && !closed
    else
      && polls[|polls| - 1].answered <= sent
      && if closed then timeout > 0 && sent >= polls[0].answered + timeout
         else sent >= polls[0].answered + INTERVAL_SECONDS * |polls| && (timeout == 0 || INTERVAL_SECONDS * |polls| <= timeout)
  }

  lemma StartsUnsettled(id: Ocid, begun: nat, deadline: nat, timeout: nat)
    ensures Unsettled([], id, begun, deadline, timeout)
  {
  }

  /** One more read goes on with the loop or ends it. */
  lemma ReadOnce(polls: seq<Record>, rec: Record, id: Ocid, begun: nat, deadline: nat, timeout: nat, closed: bool)
    requires Unsettled(polls, id, begun, deadline, timeout) && ReadOf(rec, id, deadline) && Due(polls, rec.sent, begun, timeout, closed)
    ensures SawLife(rec).Undecided? && !closed ==> Unsettled(polls + [rec], id, begun, deadline, timeout)
    ensures !SawLife(rec).Undecided? || closed ==> Looped(polls + [rec], id, begun, deadline, timeout, Ending(SawLife(rec)))
  {
    var all := polls + [rec];
    assert forall k | 0 < k < |polls| :: Ticked(polls, k, timeout) ==> Ticked(all, k, timeout);
    if !SawLife(rec).Undecided? || closed {
      PolledOnce(polls, rec, SawLife);
    }
    hide Polled, Saw, ReadOf, PollOutcome, SawLife;
    if polls != [] { assert if closed then Closed(all, timeout) else Ticked(all, |polls|, timeout); }
  }

  /** When the wait was over. */
  function WaitEnd(said: seq<Record>): nat {
    if Polls(said) == [] then 0 else Polls(said)[|Polls(said)| - 1].answered
  }

  /** A delete made as soon as the wait was over, carried out only if that was in time. */
  predicate Compensates(rec: Record, id: Ocid, deadline: nat, waitEnd: nat) {
    && rec.Dropped? && rec.id == id && rec.deadline == WithTimeout(Some(deadline), rec.sent, TIMEOUT_SECONDS)
    && rec.sent == waitEnd && rec.sent <= rec.answered && (rec.carriedOut ==> rec.sent < rec.deadline)
  }

  /**
   The calls of one Provision, from `start` on: a create under the client's timeout; if it succeeded,
   one run of the polling loop on the volume; and if that failed, one delete of it.  Every call is
   made after the one before it was answered, none has a later deadline than the create's, and none
   made after its deadline succeeds or has an effect.
   */
  ghost predicate Conversed(said: seq<Record>, details: VolumeDetails, maker: nat, start: nat, timeout: nat) {
    && said != [] && said[0].Created? && said[0].details == details && said[0].maker == maker
    && said[0].sent == start && said[0].deadline == start + TIMEOUT_SECONDS && start <= said[0].answered
    && (said[0].created.Failure? ==> |said| == 1)
    && (said[0].created.Success? ==>
          && said[0].made == Some(said[0].created.value) && said[0].answered < said[0].deadline
          && Looped(Polls(said), said[0].created.value, said[0].answered, said[0].deadline, timeout, Waited(said))
          && (Waited(said).Failure? <==> said[|said| - 1].Dropped?)
          && (Waited(said).Failure? ==> Compensates(said[|said| - 1], said[0].created.value, said[0].deadline, WaitEnd(said))))
  }

  /** One Provision call, whether the region could be found out, and the Delete calls made for its volume since. */
  datatype History = History(said: seq<Record>, regionKnown: bool, deletes: seq<Record>)

  predicate CarriedOut(deletes: seq<Record>) {
    exists k :: 0 <= k < |deletes| && deletes[k].Dropped? && deletes[k].carriedOut
  }

  function FateOf(h: History): Fate {
    if h.said == [] || !h.said[0].Created? || h.said[0].made.None? then NothingMade
    else
      var id, last := h.said[0].made.value, h.said[|h.said| - 1];
      if h.said[0].created.Failure? then ResponseLost(id)
      else if last.Dropped? then if last.carriedOut then Compensated(id) else CompensationFailed(id)
      else if !h.regionKnown then RegionUnknown(id)
      else if CarriedOut(h.deletes) then Deleted(id)
      else Handed(id)
  }

  ghost function FatesOf(histories: map<nat, History>): map<nat, Fate> {
    map call | call in histories :: FateOf(histories[call])
  }

  lemma FatesUpdated(histories: map<nat, History>, call: nat, h: History)
    ensures FatesOf(histories[call := h]) == FatesOf(histories)[call := FateOf(h)]
  {
  }

  function FromWait(e: PollError): Error {
    match e
    case WentBad => Plain(BadLifecycleState)
    case CallErred(_) => Plain(CallError)
    case TimedOut => Plain(PollTimedOut)
  }

  /** What a Provision that got as far as its create returns: the volume's identifier, or the error. */
  function Verdict(said: seq<Record>, region: Result<string, Error>): Result<Ocid, Error>
    requires said != [] && said[0].Created?
  {
    if said[0].created.Failure? then said[0].created
    else if Waited(said).Failure? then Failure(FromWait(Waited(said).error))
    else if region.Failure? then Failure(region.error)
    else said[0].created
  }

  /**
   The three leaks, in terms of the calls: the create took effect but its response was lost; the
   wait failed and the delete that followed was not carried out; the region could not be found out
   once the volume had been seen AVAILABLE.
   */
  lemma LeaksExactly(h: History, details: VolumeDetails, maker: nat, start: nat, timeout: nat)
    requires Conversed(h.said, details, maker, start, timeout)
    ensures FateOf(h).Leaks() <==>
      || (h.said[0].created.Failure? && h.said[0].made.Some?)
      || (h.said[0].created.Success? && Waited(h.said).Failure? && !h.said[|h.said| - 1].carriedOut)
      || (h.said[0].created.Success? && Waited(h.said).Success? && !h.regionKnown)
  {
  }

  /** The volume of a fate that had seen it AVAILABLE: nobody but its owner terminates it. */
  predicate Settled(fate: Fate) {
    fate.Handed? || fate.RegionUnknown?
  }

  /**
   Every volume ever made for one of our calls is the one that call's fate names, and unless the
   service itself gave it up it is live exactly when its persistent volume is in someone's hands or
   it is one of the three kinds of leak.
   */
  ghost predicate Accounted(volumes: map<Ocid, Volume>, fates: map<nat, Fate>, calls: nat) {
    && (forall call :: call in fates <==> 0 <= call < calls)
    && (forall id | id in volumes && volumes[id].maker.Some? ::
          var call := volumes[id].maker.value;
          call in fates && !fates[call].NothingMade? && fates[call].id == id
          && (volumes[id].life.Live() <==> (fates[call].Handed? || fates[call].Leaks()) && !volumes[id].abandoned))
    && (forall call | call in fates && !fates[call].NothingMade? :: Recorded(volumes, call, fates[call]))
  }

  /** A fate's volume is there under its call's name; one that had been seen AVAILABLE is still live. */
  ghost predicate Recorded(volumes: map<Ocid, Volume>, call: nat, fate: Fate)
    requires !fate.NothingMade?
  {
    && fate.id in volumes && volumes[fate.id].maker == Some(call)
    && (Settled(fate) ==> volumes[fate.id].life.Available? || volumes[fate.id].life.Faulty?)
    && (Settled(fate) ==> !volumes[fate.id].abandoned)
  }

  /** How one call can change the volumes. */
  ghost predicate Outcome(before: map<Ocid, Volume>, after: map<Ocid, Volume>, call: nat, fate: Fate) {
    if fate.NothingMade? then Drifted(before, after, {})
    else
      && Drifted(before, after - {fate.id}, {})
      && fate.id !in before && fate.id in after && after[fate.id].maker == Some(call)
      && (after[fate.id].life.Live() <==> (fate.Handed? || fate.Leaks()) && !after[fate.id].abandoned)
      && (Settled(fate) ==> after[fate.id].life.Available? || after[fate.id].life.Faulty?)
      && (Settled(fate) ==> !after[fate.id].abandoned)
  }

  lemma DriftKeepsAccount(before: map<Ocid, Volume>, after: map<Ocid, Volume>, fates: map<nat, Fate>, calls: nat)
    requires Accounted(before, fates, calls) && Drifted(before, after, {})
    ensures Accounted(after, fates, calls)
  {
  }

  lemma OutcomeKeepsAccount(before: map<Ocid, Volume>, after: map<Ocid, Volume>, fates: map<nat, Fate>, calls: nat, fate: Fate)
    requires Accounted(before, fates, calls) && Outcome(before, after, calls, fate)
    ensures Accounted(after, fates[calls := fate], calls + 1)
  {
    var rest := if fate.NothingMade? then after else after - {fate.id};
    DriftKeepsAccount(before, rest, fates, calls);
    forall id | id in after && after[id].maker.Some?
      ensures var call, all := after[id].maker.value, fates[calls := fate];
        call in all && !all[call].NothingMade? && all[call].id == id && (after[id].life.Live() <==> (all[call].Handed? || all[call].Leaks()) && !after[id].abandoned)
    {
      if id in rest { assert rest[id] == after[id]; }
    }
    forall call | call in fates && !fates[call].NothingMade?
      ensures Recorded(after, call, fates[call])
    {
      assert Recorded(rest, call, fates[call]);
    }
  }

  /** Drifting on after the call's own volume is settled or given up. */
  lemma OutcomeDrifts(before: map<Ocid, Volume>, middle: map<Ocid, Volume>, after: map<Ocid, Volume>, id: Ocid, deleted: set<Ocid>)
    requires id in middle && Drifted(before, middle - {id}, {}) && Drifted(middle, after, deleted) && deleted <= {id}
    requires middle[id].maker.Some? && (middle[id].life.Live() <==> !middle[id].abandoned)
    ensures id in after && after[id].maker == middle[id].maker && after[id].details == middle[id].details
    ensures deleted == {} ==> (after[id].life.Live() <==> !after[id].abandoned)
    ensures Drifted(before, after - {id}, {})
  {
  }

  /** A create just made under the client's timeout. */
  predicate Makes(make: Record, start: nat) {
    && make.Created? && make.sent == start && make.deadline == start + TIMEOUT_SECONDS && start <= make.answered
    && (make.created.Success? ==> make.made == Some(make.created.value) && make.answered < make.deadline)
  }

  lemma ConversedAlone(make: Record, start: nat, timeout: nat)
    requires Makes(make, start) && make.created.Failure?
    ensures Conversed([make], make.details, make.maker, start, timeout)
  {
  }

  lemma ConversedToTheEnd(make: Record, polls: seq<Record>, start: nat, timeout: nat, r: Result<VolumeLife, PollError>)
    requires Makes(make, start) && make.created.Success?
    requires Looped(polls, make.created.value, make.answered, make.deadline, timeout, r) && r.Success?
    ensures Conversed([make] + polls, make.details, make.maker, start, timeout) && Waited([make] + polls) == r
    ensures !([make] + polls)[|polls|].Dropped?
  {
    hide PollOutcome, Ticked, Closed;
    var said := [make] + polls;
    assert !polls[|polls| - 1].Dropped?;
    assert Polls(said) == polls;
  }

  lemma ConversedThenDropped(make: Record, polls: seq<Record>, drop: Record, start: nat, timeout: nat, r: Result<VolumeLife, PollError>)
    requires Makes(make, start) && make.created.Success?
    requires Looped(polls, make.created.value, make.answered, make.deadline, timeout, r) && r.Failure?
    requires Compensates(drop, make.created.value, make.deadline, polls[|polls| - 1].answered)
    ensures var said := [make] + polls + [drop];
      Conversed(said, make.details, make.maker, start, timeout) && Waited(said) == r && said[|said| - 1] == drop && Polls(said) == polls
  {
    hide PollOutcome, Ticked, Closed;
    var said := [make] + polls + [drop];
    assert Polls(said) == polls;
  }

  class BlockProvisioner {
    const client: BlockClient
    const config: Configuration
    const roundingEnabled: bool
    const minVolumeSize: real
    const timeout: nat
    const environmentPrefix: string
    const shortRegion: Option<string>
    var calls: nat
    ghost var histories: map<nat, History>

    /** What became of each call's volume, according to the calls made. */
    ghost function Fates(): map<nat, Fate>
      reads this`histories
    {
      FatesOf(histories)
    }

    ghost predicate Valid()
      reads this, client, config
    {
      Accounted(client.volumes, Fates(), calls) && config.Effective().Some?
    }

    /** A process that starts, or starts again, with what earlier calls have left. */
    constructor (client: BlockClient, config: Configuration, roundingEnabled: bool, minVolumeSize: real, timeout: nat,
                 environmentPrefix: string, shortRegion: Option<string>, calls: nat, ghost histories: map<nat, History>)
      requires Accounted(client.volumes, FatesOf(histories), calls) && config.Effective().Some?
      ensures Valid() && this.calls == calls && this.histories == histories
      ensures this.client == client && this.config == config && this.timeout == timeout
    {
      this.client, this.config, this.roundingEnabled, this.minVolumeSize := client, config, roundingEnabled, minVolumeSize;
      this.timeout, this.environmentPrefix, this.shortRegion := timeout, environmentPrefix, shortRegion;
      this.calls, this.histories := calls, histories;
    }

    /**
     Poll until the volume is AVAILABLE: at once, then at every tick, and once more when the timer
     closes.  Every call runs under the caller's deadline or the client's timeout, whichever is
     earlier, so even with no timer the loop ends once the caller's deadline has passed.
     */
    method WaitForVolumeAvailable(ctx: nat, id: Ocid, timeout: nat) returns (r: Result<VolumeLife, PollError>, ghost said: seq<Record>)
      modifies client
      ensures client.now >= old(client.now) && Drifted(old(client.volumes), client.volumes, {})
      ensures client.calls == old(client.calls) + said && Looped(said, id, old(client.now), ctx, timeout, r)
      ensures client.now == said[|said| - 1].answered && forall k | 0 <= k < |said| :: Drifted(old(client.volumes), said[k].held, {})
      ensures forall k | 0 <= k < |said| - 1 :: said[k].life == Success(Provisioning) || said[k].life == Success(Restoring)
      ensures match said[|said| - 1].life
        case Failure(e) => r == Failure(CallErred(e))
        case Success(life) =>
          && (life.Available? ==> r == Success(life))
          && (life.Faulty? || life.Terminating? || life.Terminated? ==> r == Failure(WentBad))
          && (life.Provisioning? || life.Restoring? ==> r == Failure(TimedOut))
      ensures r.Success? ==> client.now < ctx && id in client.volumes && client.volumes[id].life.Available?
    {
      hide Looped, Unsettled;
      assert Drifted(client.volumes, client.volumes, {});
      StartsUnsettled(id, client.now, ctx, timeout);
      hide Drifted, Polled, Saw;
      said := [];
      var start, timer, ticks, closed := client.now, client.now, 0, false;
      while true
        invariant client.now >= start && Drifted(old(client.volumes), client.volumes, {})
        invariant client.calls == old(client.calls) + said && Unsettled(said, id, start, ctx, timeout) && ticks == |said|
        invariant Due(said, client.now, start, timeout, closed) && (said != [] ==> said[0].answered == timer)
        invariant forall k | 0 <= k < |said| :: said[k].Got? && Drifted(old(client.volumes), said[k].held, {})
        invariant forall k | 0 <= k < |said| :: said[k].life == Success(Provisioning) || said[k].life == Success(Restoring)
        decreases (if timeout == 0 then ctx else timeout) + 2 * INTERVAL_SECONDS - INTERVAL_SECONDS * ticks
      {
        var pollCtx := WithTimeout(Some(ctx), client.now, TIMEOUT_SECONDS);
        label Polling:
        var answer, rec := client.GetVolume(pollCtx, id);
        DriftedTwice(old(client.volumes), old@Polling(client.volumes), client.volumes);
        ReadOnce(said, rec, id, start, ctx, timeout, closed);
        said := said + [rec];
        if answer.Failure? {
          return Failure(CallErred(answer.error)), said;
        }
        match answer.value {
          case Available => return Success(answer.value), said;
          case Faulty => return Failure(WentBad), said;
          case Terminated => return Failure(WentBad), said;
          case Terminating => return Failure(WentBad), said;
          case Provisioning =>
          case Restoring =>
        }
        if closed {
          return Failure(TimedOut), said;
        }
        if ticks == 0 { timer := client.now; }
        ticks := ticks + 1;
        var tick: bool :| true;
        label Waiting:
        if timeout == 0 || (tick && INTERVAL_SECONDS * ticks <= timeout) {
          client.SleepUntil(timer + INTERVAL_SECONDS * ticks);
        } else {
          client.SleepUntil(timer + timeout);
          closed := true;
        }
        DriftedTwice(old(client.volumes), old@Waiting(client.volumes), client.volumes);
      }
    }

    /** Create a volume and wait for it, deleting it again if the wait fails. */
    method MakeVolume(details: VolumeDetails, call: nat, ghost regionKnown: bool) returns (r: Result<Ocid, Error>, ghost said: seq<Record>)
      requires client.NothingBy(call)
      modifies client
      ensures client.now >= old(client.now) && client.calls == old(client.calls) + said
      ensures Conversed(said, details, call, old(client.now), timeout)
      ensures Outcome(old(client.volumes), client.volumes, call, FateOf(History(said, regionKnown, [])))
      ensures r == Verdict(said, Success(""))
      ensures var fate := FateOf(History(said, regionKnown, [])); fate.NothingMade? || client.volumes[fate.id].details == details
    {
      hide Drifted, Conversed, Looped, Waited, Polls;
      var ctx := WithTimeout(None, client.now, TIMEOUT_SECONDS);
      var created, make := client.CreateVolume(ctx, details, call);
      if created.Failure? {
        said := [make];
        ConversedAlone(make, old(client.now), timeout);
        return Failure(created.error), said;
      }
      label Created:
      var ready, polls := WaitForVolumeAvailable(ctx, created.value, timeout);
      OutcomeDrifts(old(client.volumes), old@Created(client.volumes), client.volumes, created.value, {});
      if ready.Failure? {
        label Waited:
        var deleteCtx := WithTimeout(Some(ctx), client.now, TIMEOUT_SECONDS);
        var _, _, drop := client.DeleteVolume(deleteCtx, created.value);
        said := [make] + polls + [drop];
        OutcomeDrifts(old(client.volumes), old@Waited(client.volumes), client.volumes, created.value,
          if drop.carriedOut then {created.value} else {});
        ConversedThenDropped(make, polls, drop, old(client.now), timeout, ready);
        return Failure(FromWait(ready.error)), said;
      }
      said := [make] + polls;
      ConversedToTheEnd(make, polls, old(client.now), timeout, ready);
      return Success(created.value), said;
    }

    /** The capacity the claim gets: its request, or the minimum when both rounding flags are on and it is the larger. */
    function Capacity(options: VolumeOptions, request: real): (c: real)
      ensures VolumeRoundingEnabled(options.parameters) && roundingEnabled ==> c == Max(request, minVolumeSize)
      ensures !(VolumeRoundingEnabled(options.parameters) && roundingEnabled) ==> c == request
    {
      if VolumeRoundingEnabled(options.parameters) && roundingEnabled && minVolumeSize > request then minVolumeSize else request
    }

    /** Whether a claim can be provisioned at all. */
    predicate Provisionable(pvc: PersistentVolumeClaim) {
      pvc.storage.Some? && forall m | m in pvc.accessModes :: m == ReadWriteOnce
    }

    /** The volume a claim calls for. */
    ghost function Planned(options: VolumeOptions, ad: string, compartment: Ocid): VolumeDetails
      requires options.pvc.Some? && options.pvc.value.storage.Some?
      requires IsInt64(Value(minVolumeSize)) && IsInt64(Value(options.pvc.value.storage.value))
    {
      var pvc := options.pvc.value;
      VolumeDetails(
        ad,
        compartment,
        DisplayName(GetPrefix(environmentPrefix), pvc.name),
        SizeInMBs(Capacity(options, pvc.storage.value)),
        if OCI_VOLUME_BACKUP_ID in pvc.annotations then Some(pvc.annotations[OCI_VOLUME_BACKUP_ID]) else None)
    }

    /** The size is the least whole number of MiB that holds the capacity returned with it. */
    lemma PlannedSize(options: VolumeOptions, ad: string, compartment: Ocid)
      requires options.pvc.Some? && options.pvc.value.storage.Some?
      requires IsInt64(Value(minVolumeSize)) && IsInt64(Value(options.pvc.value.storage.value))
      ensures var size, capacity := Planned(options, ad, compartment).sizeInMBs, Capacity(options, options.pvc.value.storage.value);
        0.0 <= capacity <= (MAX64 - MIB + 1) as real ==> (size * MIB) as real >= capacity && forall n: int | (n * MIB) as real >= capacity :: n >= size
    {
      var capacity := Capacity(options, options.pvc.value.storage.value);
      if Sizable(capacity) { SizeIsLeast(capacity); }
    }

    method PlanVolume(options: VolumeOptions, ad: string) returns (r: Result<(VolumeDetails, real), Error>)
      requires config.Effective().Some? && options.pvc.Some?
      requires IsInt64(Value(minVolumeSize)) && (options.pvc.value.storage.Some? ==> IsInt64(Value(options.pvc.value.storage.value)))
      modifies config`compartmentOCID
      ensures config.Effective() == old(config.Effective())
      ensures r.Success? <==> options.pvc.value.storage.Some? && forall m | m in options.pvc.value.accessModes :: m == ReadWriteOnce
      ensures r.Failure? ==> r.error == Plain(if exists m :: m in options.pvc.value.accessModes && m != ReadWriteOnce then InvalidAccessMode else NoVolumeSize)
      ensures r.Success? ==> r.value.0 == Planned(options, ad, config.Effective().value) && r.value.1 == Capacity(options, options.pvc.value.storage.value)
      ensures r.Success? ==> var request, details, capacity := options.pvc.value.storage.value, r.value.0, r.value.1;
        && capacity == (if VolumeRoundingEnabled(options.parameters) && roundingEnabled && minVolumeSize > request then minVolumeSize else request)
        && (0.0 <= capacity <= (MAX64 - MIB + 1) as real ==> (details.sizeInMBs * MIB) as real >= capacity && forall n: int | (n * MIB) as real >= capacity :: n >= details.sizeInMBs)
        && details.ad == ad && details.name == GetPrefix(environmentPrefix) + options.pvc.value.name
        && (if old(config.compartmentOCID) != "" then details.compartment == old(config.compartmentOCID) else config.metadata == Some(details.compartment))
        && details.backup == (if OCI_VOLUME_BACKUP_ID in options.pvc.value.annotations then Some(options.pvc.value.annotations[OCI_VOLUME_BACKUP_ID]) else None)
    {
      hide GetPrefix, RoundUpSize, VolumeRoundingEnabled;
      var pvc := options.pvc.value;
      for i := 0 to |pvc.accessModes|
        invariant forall k | 0 <= k < i :: pvc.accessModes[k] == ReadWriteOnce
      {
        if pvc.accessModes[i] != ReadWriteOnce {
          assert pvc.accessModes[i] in pvc.accessModes;
          return Failure(Plain(InvalidAccessMode));
        }
      }
      if pvc.storage.None? {
        return Failure(Plain(NoVolumeSize));
      }
      var capacity := pvc.storage.value;
      var volSizeMB := RoundUpSize(Value(capacity), MIB);
      if VolumeRoundingEnabled(options.parameters) {
        if roundingEnabled && minVolumeSize > capacity {
          volSizeMB := RoundUpSize(Value(minVolumeSize), MIB);
          capacity := minVolumeSize;
        }
      }
      var compartment := config.CompartmentOCID();
      var backup := if OCI_VOLUME_BACKUP_ID in pvc.annotations then Some(pvc.annotations[OCI_VOLUME_BACKUP_ID]) else None;
      var name := DisplayName(GetPrefix(environmentPrefix), pvc.name);
      PlannedSize(options, ad, compartment.value);
      r := Success((VolumeDetails(ad, compartment.value, name, volSizeMB, backup), capacity));
    }

    /** The region, looked up only once the volume is there: the environment's, else the instance's own. */
    function Region(metadata: Result<string, Error>): Result<string, Error> {
      if shortRegion.Some? then Success(shortRegion.value) else metadata
    }

    /** The persistent volume for a claim's volume. */
    ghost predicate Publishes(pv: PersistentVolume, options: VolumeOptions, ad: string, id: Ocid, region: string)
      requires options.pvc.Some? && options.pvc.value.storage.Some?
    {
      && pv.name == id && pv.annotations == map[OCI_VOLUME_ID := id]
      && pv.labels == map[LABEL_ZONE_REGION := region, LABEL_ZONE_FAILURE_DOMAIN := ad]
      && pv.capacity == Capacity(options, options.pvc.value.storage.value)
      && pv.source == Flex(OCI_PROVISIONER_NAME, ResolveFSType(options))
      && pv.accessModes == options.pvc.value.accessModes
      && pv.reclaimPolicy == options.reclaimPolicy && pv.mountOptions == options.mountOptions
    }

    method Publish(options: VolumeOptions, ad: string, id: Ocid, capacity: real, metadata: Result<string, Error>)
        returns (r: Result<PersistentVolume, Error>)
      requires options.pvc.Some? && options.pvc.value.storage.Some?
      requires capacity == Capacity(options, options.pvc.value.storage.value)
      ensures if Region(metadata).Failure? then r == Failure(Region(metadata).error)
        else r.Success? && Publishes(r.value, options, ad, id, Region(metadata).value)
      ensures if shortRegion.None? && metadata.Failure? then r == Failure(metadata.error)
        else r == Success(PersistentVolume(
          id,
          map[OCI_VOLUME_ID := id],
          map[LABEL_ZONE_REGION := if shortRegion.Some? then shortRegion.value else metadata.value, LABEL_ZONE_FAILURE_DOMAIN := ad],
          options.reclaimPolicy,
          options.pvc.value.accessModes,
          capacity,
          Flex(OCI_PROVISIONER_NAME, if FS_TYPE in options.parameters then options.parameters[FS_TYPE] else "ext4"),
          options.mountOptions))
    {
      var region;
      if shortRegion.Some? {
        region := shortRegion.value;
      } else {
        if metadata.Failure? {
          return Failure(metadata.error);
        }
        region := metadata.value;
      }
      r := Success(PersistentVolume(
        id,
        map[OCI_VOLUME_ID := id],
        map[LABEL_ZONE_REGION := region, LABEL_ZONE_FAILURE_DOMAIN := ad],
        options.reclaimPolicy,
        options.pvc.value.accessModes,
        capacity,
        Flex(OCI_PROVISIONER_NAME, ResolveFSType(options)),
        options.mountOptions));
    }

    /** What a Provision asks of the service and returns, from the claim, the moment it began and the answers. */
    ghost predicate Answered(options: VolumeOptions, ad: string, compartment: Ocid, call: nat, start: nat, metadata: Result<string, Error>,
                             said: seq<Record>, r: Result<PersistentVolume, Error>)
      requires options.pvc.Some?
      requires IsInt64(Value(minVolumeSize)) && (options.pvc.value.storage.Some? ==> IsInt64(Value(options.pvc.value.storage.value)))
    {
      && (said == [] <==> !Provisionable(options.pvc.value))
      && (said == [] ==> r == Failure(Plain(if exists m :: m in options.pvc.value.accessModes && m != ReadWriteOnce then InvalidAccessMode else NoVolumeSize)))
      && (said != [] ==>
            && Conversed(said, Planned(options, ad, compartment), call, start, timeout)
            && var verdict := Verdict(said, Region(metadata));
            if verdict.Failure? then r == Failure(verdict.error)
            else r.Success? && Publishes(r.value, options, ad, verdict.value, Region(metadata).value))
    }

    /** What became of the volume: the one the claim calls for, handed out exactly when a persistent volume is returned. */
    ghost predicate Settles(options: VolumeOptions, ad: string, compartment: Ocid, fate: Fate, volumes: map<Ocid, Volume>, r: Result<PersistentVolume, Error>)
      requires options.pvc.Some?
      requires IsInt64(Value(minVolumeSize)) && (options.pvc.value.storage.Some? ==> IsInt64(Value(options.pvc.value.storage.value)))
    {
      && (!fate.NothingMade? ==>
            Provisionable(options.pvc.value) && fate.id in volumes && volumes[fate.id].details == Planned(options, ad, compartment))
      && (r.Success? ==> fate.Handed? && r.value.annotations == map[OCI_VOLUME_ID := fate.id])
      && (r.Failure? ==> fate.NothingMade? || fate.Compensated? || fate.Leaks())
    }

    /** One Provision call, with the calls it made of the service. */
    method ProvisionOnce(options: VolumeOptions, ad: string, call: nat, metadata: Result<string, Error>)
        returns (r: Result<PersistentVolume, Error>, ghost said: seq<Record>)
      requires config.Effective().Some? && client.NothingBy(call) && options.pvc.Some?
      requires IsInt64(Value(minVolumeSize)) && (options.pvc.value.storage.Some? ==> IsInt64(Value(options.pvc.value.storage.value)))
      modifies client, config`compartmentOCID
      ensures config.Effective() == old(config.Effective()) && client.calls == old(client.calls) + said
      ensures Outcome(old(client.volumes), client.volumes, call, FateOf(History(said, Region(metadata).Success?, [])))
      ensures said == [] ==> client.volumes == old(client.volumes)
      ensures Answered(options, ad, config.Effective().value, call, old(client.now), metadata, said, r)
      ensures Settles(options, ad, config.Effective().value, FateOf(History(said, Region(metadata).Success?, [])), client.volumes, r)
    {
      NothingHappened(client.volumes, call);
      hide Drifted, Outcome, Planned, Capacity, Conversed, Waited;
      said := [];
      var plan := PlanVolume(options, ad);
      if plan.Failure? {
        return Failure(plan.error), said;
      }
      var made;
      made, said := MakeVolume(plan.value.0, call, Region(metadata).Success?);
      ConversedStarts(said, plan.value.0, call, old(client.now), timeout);
      VerdictFate(said, Region(metadata), plan.value.0, call, old(client.now), timeout);
      if made.Failure? {
        return Failure(made.error), said;
      }
      r := Publish(options, ad, made.value, plan.value.1, metadata);
    }

    /**
     Provision a claim.  The calls it makes of the service, and what it returns upon their answers, are
     those of Conversed and Verdict.  Whatever happens, at most one volume comes to be, the one the
     claim calls for, and unless the service itself gives it up it is live exactly if its persistent
     volume is returned or in one of the three cases of LeaksExactly.
     */
    method Provision(options: VolumeOptions, ad: string, metadata: Result<string, Error>)
        returns (r: Result<PersistentVolume, Error>, ghost said: seq<Record>)
      requires Valid() && options.pvc.Some?
      requires IsInt64(Value(minVolumeSize)) && (options.pvc.value.storage.Some? ==> IsInt64(Value(options.pvc.value.storage.value)))
      modifies this`calls, this`histories, client, config`compartmentOCID
      ensures Valid() && config.Effective() == old(config.Effective())
      ensures calls == old(calls) + 1 && histories == old(histories)[old(calls) := History(said, Region(metadata).Success?, [])]
      ensures client.calls == old(client.calls) + said
      ensures Outcome(old(client.volumes), client.volumes, old(calls), FateOf(histories[old(calls)]))
      ensures said == [] ==> client.volumes == old(client.volumes)
      ensures Answered(options, ad, config.Effective().value, old(calls), old(client.now), metadata, said, r)
      ensures said == [] <==> options.pvc.value.storage.None? || exists m :: m in options.pvc.value.accessModes && m != ReadWriteOnce
      ensures said == [] ==> r == Failure(Plain(if exists m :: m in options.pvc.value.accessModes && m != ReadWriteOnce then InvalidAccessMode else NoVolumeSize))
      ensures said != [] ==> said[0].Created? && var pvc, details := options.pvc.value, said[0].details;
        && details.ad == ad && details.name == GetPrefix(environmentPrefix) + pvc.name
        && (if old(config.compartmentOCID) != "" then details.compartment == old(config.compartmentOCID) else config.metadata == Some(details.compartment))
        && details.backup == (if OCI_VOLUME_BACKUP_ID in pvc.annotations then Some(pvc.annotations[OCI_VOLUME_BACKUP_ID]) else None)
        && var capacity := if VolumeRoundingEnabled(options.parameters) && roundingEnabled && minVolumeSize > pvc.storage.value then minVolumeSize else pvc.storage.value;
        && (0.0 <= capacity <= (MAX64 - MIB + 1) as real ==> (details.sizeInMBs * MIB) as real >= capacity && forall n: int | (n * MIB) as real >= capacity :: n >= details.sizeInMBs)
        && (r.Success? ==> r.value.capacity == capacity)
      ensures said != [] && said[0].created.Failure? ==> r == Failure(said[0].created.error)
      ensures said != [] && said[0].created.Success? ==> var dropped := said[|said| - 1].Dropped?; var n := if dropped then |said| - 2 else |said| - 1;
        && 1 <= n && said[n].Got? && (dropped <==> said[n].life != Success(Available))
        && (said[n].life.Failure? ==> r == Failure(Plain(CallError)))
        && (said[n].life == Success(Provisioning) || said[n].life == Success(Restoring) ==> r == Failure(Plain(PollTimedOut)))
        && (said[n].life == Success(Faulty) || said[n].life == Success(Terminating) || said[n].life == Success(Terminated) ==> r == Failure(Plain(BadLifecycleState)))
        && (said[n].life == Success(Available) && shortRegion.None? && metadata.Failure? ==> r == Failure(metadata.error))
        && (said[n].life == Success(Available) && (shortRegion.Some? || metadata.Success?) ==> r.Success?)
      ensures r.Success? ==> said[0].created == Success(r.value.name) && r.value.annotations == map[OCI_VOLUME_ID := r.value.name]
      ensures r.Success? ==> shortRegion.Some? || metadata.Success?
      ensures r.Success? ==> var region := if shortRegion.Some? then shortRegion.value else metadata.value;
        r.value.labels == map[LABEL_ZONE_REGION := region, LABEL_ZONE_FAILURE_DOMAIN := ad]
      ensures r.Success? ==> r.value.source == Flex(OCI_PROVISIONER_NAME, if FS_TYPE in options.parameters then options.parameters[FS_TYPE] else "ext4")
      ensures r.Success? ==>
        && r.value.accessModes == options.pvc.value.accessModes
        && r.value.reclaimPolicy == options.reclaimPolicy && r.value.mountOptions == options.mountOptions
      ensures Settles(options, ad, config.Effective().value, FateOf(histories[old(calls)]), client.volumes, r)
    {
      hide Drifted, Accounted, Outcome, FateOf, FatesOf, Settles, Value, IsInt64, Conversed, Waited, SizeInMBs, GetPrefix;
      UnusedCall(client.volumes, Fates(), calls);
      ghost var compartment := config.Effective().value;
      r, said := ProvisionOnce(options, ad, calls, metadata);
      if said != [] {
        ghost var plan := Planned(options, ad, compartment);
        PlannedSize(options, ad, compartment);
        ConversedStarts(said, plan, calls, old(client.now), timeout);
        if said[0].created.Success? { WaitedLast(said, plan, calls, old(client.now), timeout); }
      }
      ghost var history := History(said, Region(metadata).Success?, []);
      OutcomeKeepsAccount(old(client.volumes), client.volumes, Fates(), calls, FateOf(history));
      FatesUpdated(histories, calls, history);
      histories := histories[calls := history];
      calls := calls + 1;
    }

    /**
     Delete a volume this provisioner handed out, by one call.  Both not-found answers count as done.
     Afterwards the volume is live exactly if it was when the service dealt with the call, so after a
     nil result exactly if the service denied having it untruly.
     */
    method Delete(volume: PersistentVolume, ghost call: nat) returns (error: Option<Error>, ghost said: seq<Record>)
      requires Valid()
      requires OCI_VOLUME_ID in volume.annotations ==>
        call in histories && (FateOf(histories[call]).Handed? || FateOf(histories[call]).Deleted?)
        && FateOf(histories[call]).id == volume.annotations[OCI_VOLUME_ID]
      modifies this`histories, client
      ensures Valid() && client.now >= old(client.now) && client.calls == old(client.calls) + said
      ensures OCI_VOLUME_ID !in volume.annotations ==>
        error == Some(Plain(MissingAnnotation(OCI_VOLUME_ID))) && client.volumes == old(client.volumes) && histories == old(histories) && said == []
      ensures OCI_VOLUME_ID in volume.annotations ==> var id := volume.annotations[OCI_VOLUME_ID];
        && |said| == 1 && said[0].Dropped? && said[0].id == id && said[0].deadline == old(client.now) + TIMEOUT_SECONDS
        && (error.None? <==> said[0].error.None? || said[0].status == Some(404) || IsNotFound(said[0].error))
        && (error.Some? ==> error == said[0].error)
        && histories == old(histories)[call := old(histories)[call].(deletes := old(histories)[call].deletes + said)]
        && Drifted(old(client.volumes), client.volumes, if said[0].carriedOut then {id} else {})
        && (LiveIn(client.volumes, id) <==> LiveIn(said[0].held, id))
        && FateOf(histories[call]) == (if said[0].carriedOut then Fate.Deleted(id) else FateOf(old(histories)[call]))
        && (LiveIn(client.volumes, id) <==> FateOf(histories[call]).Handed?)
        && (error.None? ==> (LiveIn(client.volumes, id) <==> Denied(said[0])))
    {
      said := [];
      if OCI_VOLUME_ID !in volume.annotations {
        return Some(Plain(MissingAnnotation(OCI_VOLUME_ID))), said;
      }
      var id := volume.annotations[OCI_VOLUME_ID];
      var ctx := WithTimeout(None, client.now, TIMEOUT_SECONDS);
      var err, status, rec := client.DeleteVolume(ctx, id);
      said := [rec];
      ghost var history := histories[call].(deletes := histories[call].deletes + said);
      DeletionKeepsAccount(old(client.volumes), client.volumes, Fates(), calls, call, rec);
      hide Drifted, Accounted, Recorded;
      OneMoreDelete(histories[call], rec);
      FatesUpdated(histories, call, history);
      if !rec.carriedOut { assert Fates()[call := FateOf(history)] == Fates(); }
      histories := histories[call := history];
      if status == Some(404) {
        return None, said;
      }
      if IsNotFound(err) {
        return None, said;
      }
      return err, said;
    }
  }

  /** An untrue not-found: the volume was live when the service denied having it. */
  predicate Denied(rec: Record) {
    rec.Dropped? && LiveIn(rec.held, rec.id) && (rec.status == Some(404) || IsNotFound(rec.error))
  }

  lemma ConversedStarts(said: seq<Record>, details: VolumeDetails, maker: nat, start: nat, timeout: nat)
    requires Conversed(said, details, maker, start, timeout)
    ensures said != [] && said[0].Created? && said[0].details == details
  {
  }

  /** A Provision returns a volume exactly when it is handed out, and its identifier is that volume's. */
  lemma VerdictFate(said: seq<Record>, region: Result<string, Error>, details: VolumeDetails, maker: nat, start: nat, timeout: nat)
    requires Conversed(said, details, maker, start, timeout)
    ensures var fate, verdict := FateOf(History(said, region.Success?, [])), Verdict(said, region);
      && (verdict.Success? <==> fate.Handed?) && (verdict.Success? ==> verdict.value == fate.id)
      && (verdict.Failure? ==> fate.NothingMade? || fate.Compensated? || fate.Leaks())
  {
    hide PollOutcome;
  }

  lemma OneMoreDelete(h: History, rec: Record)
    requires rec.Dropped? && (FateOf(h).Handed? || FateOf(h).Deleted?)
    ensures FateOf(h.(deletes := h.deletes + [rec])) == if rec.carriedOut then Deleted(FateOf(h).id) else FateOf(h)
  {
    var all := h.deletes + [rec];
    assert all[|h.deletes|] == rec;
    if CarriedOut(h.deletes) {
      var k :| 0 <= k < |h.deletes| && h.deletes[k].Dropped? && h.deletes[k].carriedOut;
      assert all[k] == h.deletes[k];
    }
  }

  lemma UnusedCall(volumes: map<Ocid, Volume>, fates: map<nat, Fate>, calls: nat)
    requires Accounted(volumes, fates, calls)
    ensures forall id | id in volumes :: volumes[id].maker != Some(calls)
  {
  }

  lemma NothingHappened(volumes: map<Ocid, Volume>, call: nat)
    ensures Outcome(volumes, volumes, call, NothingMade)
  {
  }

  lemma DeletionKeepsAccount(before: map<Ocid, Volume>, after: map<Ocid, Volume>, fates: map<nat, Fate>, calls: nat, call: nat, rec: Record)
    requires Accounted(before, fates, calls) && call in fates && (fates[call].Handed? || fates[call].Deleted?)
    requires rec.Dropped? && rec.id == fates[call].id
    requires Drifted(before, after, if rec.carriedOut then {rec.id} else {}) && Drifted(rec.held, after, {})
    requires if rec.carriedOut then rec.id in rec.held && !LiveIn(rec.held, rec.id) && !LiveIn(after, rec.id) else Drifted(before, rec.held, {})
    ensures Accounted(after, if rec.carriedOut then fates[call := Deleted(rec.id)] else fates, calls)
    ensures LiveIn(after, rec.id) <==> LiveIn(rec.held, rec.id)
    ensures LiveIn(after, rec.id) <==> fates[call].Handed? && !rec.carriedOut
  {
    forall c | c in fates && !fates[c].NothingMade? && c != call
      ensures Recorded(after, c, fates[c])
    {
      assert Recorded(before, c, fates[c]);
    }
    assert Recorded(before, call, fates[call]);
    if !rec.carriedOut {
      DriftKeepsAccount(before, after, fates, calls);
      DriftKeepsAccount(before, rec.held, fates, calls);
      assert Recorded(after, call, fates[call]) && Recorded(rec.held, call, fates[call]);
    }
  }

  /** How a run of the loop ended is what its last read says; the reads before it saw the volume being created. */
  lemma LoopedLast(polls: seq<Record>, id: Ocid, begun: nat, deadline: nat, timeout: nat, r: Result<VolumeLife, PollError>)
    requires Looped(polls, id, begun, deadline, timeout, r)
    ensures polls != [] && forall k | 0 <= k < |polls| :: polls[k].Got? && polls[k].id == id
    ensures forall k | 0 <= k < |polls| - 1 :: polls[k].life == Success(Provisioning) || polls[k].life == Success(Restoring)
    ensures match polls[|polls| - 1].life
      case Failure(e) => r == Failure(CallErred(e))
      case Success(life) =>
        && (life.Available? ==> r == Success(life))
        && (life.Faulty? || life.Terminating? || life.Terminated? ==> r == Failure(WentBad))
        && (life.Provisioning? || life.Restoring? ==> r == Failure(TimedOut))
  {
    hide Ticked, Closed, PollOutcome;
    var seen := Saw(polls, SawLife);
    OutcomeIsFirstDecisive(seen);
    forall k | 0 <= k < |polls| - 1
      ensures SawLife(polls[k]).Undecided?
    {
      assert seen[k].Undecided?;
    }
    if !seen[|polls| - 1].Undecided? {
      assert FirstDecisive(seen, |polls| - 1);
    }
  }

  /** The same for the calls of a Provision whose create succeeded. */
  lemma WaitedLast(said: seq<Record>, details: VolumeDetails, maker: nat, start: nat, timeout: nat)
    requires Conversed(said, details, maker, start, timeout) && said[0].created.Success?
    ensures var n := LastRead(said);
      && 1 <= n && (forall k | 1 <= k <= n :: said[k].Got? && said[k].id == said[0].created.value)
      && (forall k | 1 <= k < n :: said[k].life == Success(Provisioning) || said[k].life == Success(Restoring))
      && (said[|said| - 1].Dropped? <==> said[n].life != Success(Available))
      && match said[n].life
         case Failure(e) => Waited(said) == Failure(CallErred(e))
         case Success(life) =>
           && (life.Available? ==> Waited(said) == Success(life))
           && (life.Faulty? || life.Terminating? || life.Terminated? ==> Waited(said) == Failure(WentBad))
           && (life.Provisioning? || life.Restoring? ==> Waited(said) == Failure(TimedOut))
  {
    hide Looped, Waited, Compensates;
    var polls := Polls(said);
    LoopedLast(polls, said[0].created.value, said[0].answered, said[0].deadline, timeout, Waited(said));
    forall k | 1 <= k <= |polls|
      ensures said[k] == polls[k - 1]
    {
    }
  }

  // ----- the wait and the create's deadline -----

  /** The calls of a Provision whose wait failed, and those of one whose wait timed out. */
  ghost predicate FailedWait(said: seq<Record>, details: VolumeDetails, maker: nat, start: nat, timeout: nat) {
    Conversed(said, details, maker, start, timeout) && said[0].created.Success? && Waited(said).Failure?
  }

  ghost predicate TimedOutWait(said: seq<Record>, details: VolumeDetails, maker: nat, start: nat, timeout: nat) {
    FailedWait(said, details, maker, start, timeout) && Waited(said) == Failure(TimedOut)
  }

  ghost predicate CanTimeOut(timeout: nat) {
    exists said, details, maker, start :: TimedOutWait(said, details, maker, start, timeout)
  }

  /** A timeout's last read still had an answer, so it was over before the create's deadline, and so is the wait. */
  lemma TimedOutInTime(said: seq<Record>, details: VolumeDetails, maker: nat, start: nat, timeout: nat)
    requires TimedOutWait(said, details, maker, start, timeout)
    ensures 0 < timeout && start + timeout <= WaitEnd(said) < said[0].deadline
  {
    OutcomeIsFirstDecisive(Saw(Polls(said), SawLife));
    var polls := Polls(said);
    assert SawLife(polls[|polls| - 1]).Undecided? by { assert Saw(polls, SawLife)[|polls| - 1].Undecided?; }
  }

  /**
   A wait can time out exactly when its timer can close before the create's deadline.  A timer of 0
   never closes, and with one as long as the client's timeout the last read is never sent.
   */
  lemma TimesOutExactly(timeout: nat)
    ensures CanTimeOut(timeout) <==> 0 < timeout < TIMEOUT_SECONDS
  {
    forall said, details, maker, start | TimedOutWait(said, details, maker, start, timeout)
      ensures 0 < timeout < TIMEOUT_SECONDS
    {
      TimedOutInTime(said, details, maker, start, timeout);
    }
    if 0 < timeout < TIMEOUT_SECONDS {
      var said, details := TimedOutCalls(timeout);
      assert TimedOutWait(said, details, 0, 0, timeout);
    }
  }

  /** The details and the calls of a Provision at time 0 for a volume "v" that is never more than PROVISIONING. */
  const DETAILS := VolumeDetails("ad", "compartment", "name", 1, None)

  const HELD := map["v" := Volume(DETAILS, Provisioning, Some(0), false)]

  function Pending(sent: nat, answered: nat): Record {
    Got("v", WithTimeout(Some(TIMEOUT_SECONDS), sent, TIMEOUT_SECONDS), sent, answered, HELD, Success(Provisioning))
  }

  /** One poll at once, one at the first tick that takes until the timer closes, if it does not close before, and one then. */
  lemma TimedOutCalls(timeout: nat) returns (said: seq<Record>, details: VolumeDetails)
    requires 0 < timeout < TIMEOUT_SECONDS
    ensures TimedOutWait(said, details, 0, 0, timeout)
  {
    details := DETAILS;
    var made := Created(details, 0, TIMEOUT_SECONDS, 0, 0, Some("v"), Success("v"));
    var polls := if timeout <= INTERVAL_SECONDS then [Pending(0, 0), Pending(timeout, timeout)]
                 else [Pending(0, 0), Pending(INTERVAL_SECONDS, timeout), Pending(timeout, timeout)];
    var drop := Dropped("v", TIMEOUT_SECONDS, timeout, timeout, HELD, false, Some(Plain(CallError)), None);
    OutcomeIsFirstDecisive(Saw(polls, SawLife));
    ConversedThenDropped(made, polls, drop, 0, timeout, Failure(TimedOut));
    said := [made] + polls + [drop];
  }

  /**
   A volume still undecided at the create's deadline is always left behind: the next read is not
   sent, which fails the wait, and neither is the delete that is to compensate.
   */
  lemma LateReadLeaks(h: History, details: VolumeDetails, maker: nat, start: nat, timeout: nat, k: nat)
    requires Conversed(h.said, details, maker, start, timeout) && h.said[0].created.Success?
    requires k < |Polls(h.said)| && Polls(h.said)[k].sent >= h.said[0].deadline
    ensures Waited(h.said).Failure? && Waited(h.said).error.CallErred? && Verdict(h.said, Success("")) == Failure(Plain(CallError))
    ensures var last := h.said[|h.said| - 1]; last.Dropped? && last.sent >= last.deadline && !last.carriedOut
    ensures FateOf(h) == CompensationFailed(h.said[0].created.value)
  {
    var polls := Polls(h.said);
    assert SawLife(polls[k]).CallFailed?;
    assert !Saw(polls, SawLife)[k].Undecided?;
    OutcomeIsFirstDecisive(Saw(polls, SawLife));
    assert FirstDecisive(Saw(polls, SawLife), k);
  }

  /**
   After a wait that failed, the compensating delete is sent exactly when the wait was over before the
   create's deadline, and that is exactly when the service could carry it out.
   */
  lemma CompensationExactly(said: seq<Record>, details: VolumeDetails, maker: nat, start: nat, timeout: nat)
    requires FailedWait(said, details, maker, start, timeout)
    ensures var n := |said| - 1;
      && (said[n].sent < said[n].deadline <==> WaitEnd(said) < said[0].deadline)
      && (Conversed(said[n := said[n].(carriedOut := true)], details, maker, start, timeout) <==> WaitEnd(said) < said[0].deadline)
      && Conversed(said[n := said[n].(carriedOut := false)], details, maker, start, timeout)
  {
    CarriedOrNot(said, details, maker, start, timeout, true);
    CarriedOrNot(said, details, maker, start, timeout, false);
  }

  lemma CarriedOrNot(said: seq<Record>, details: VolumeDetails, maker: nat, start: nat, timeout: nat, carriedOut: bool)
    requires FailedWait(said, details, maker, start, timeout)
    ensures var n := |said| - 1;
      Conversed(said[n := said[n].(carriedOut := carriedOut)], details, maker, start, timeout) <==> carriedOut ==> WaitEnd(said) < said[0].deadline
  {
    hide Looped, PollOutcome;
    var n := |said| - 1;
    var other := said[n := said[n].(carriedOut := carriedOut)];
    assert |said| >= 2;
    assert Polls(other) == Polls(said);
    assert other[0] == said[0];
  }

  /**
   A run with both timeouts as configured, three minutes: the second read takes almost until the
   deadline and settles nothing, the third comes too late, and the volume is left live.
   */
  lemma UndecidedAtTheDeadlineLeaks() returns (said: seq<Record>, details: VolumeDetails, after: map<Ocid, Volume>)
    ensures FailedWait(said, details, 0, 0, TIMEOUT_SECONDS) && Verdict(said, Success("")) == Failure(Plain(CallError))
    ensures var fate := FateOf(History(said, true, []));
      fate.CompensationFailed? && Outcome(map[], after, 0, fate) && LiveIn(after, fate.id)
  {
    details, after := DETAILS, HELD;
    var made := Created(details, 0, TIMEOUT_SECONDS, 0, 0, Some("v"), Success("v"));
    var late := Got("v", TIMEOUT_SECONDS, TIMEOUT_SECONDS, TIMEOUT_SECONDS, HELD, Failure(Plain(CallError)));
    var polls := [Pending(0, 0), Pending(INTERVAL_SECONDS, TIMEOUT_SECONDS - 1), late];
    var drop := Dropped("v", TIMEOUT_SECONDS, TIMEOUT_SECONDS, TIMEOUT_SECONDS, HELD, false, Some(Plain(CallError)), None);
    OutcomeIsFirstDecisive(Saw(polls, SawLife));
    assert FirstDecisive(Saw(polls, SawLife), 2);
    ConversedThenDropped(made, polls, drop, 0, TIMEOUT_SECONDS, Failure(CallErred(Plain(CallError))));
    said := [made] + polls + [drop];
  }

  // ----- counting -----

  /** The live volumes that came from our calls. */
  ghost function LiveOnes(volumes: map<Ocid, Volume>): set<Ocid> {
    set id | id in volumes && volumes[id].maker.Some? && volumes[id].life.Live()
  }

  /** The calls whose volume is in someone's hands or leaked, and was not given up by the service. */
  ghost function Standing(volumes: map<Ocid, Volume>, fates: map<nat, Fate>): set<nat> {
    set call | call in fates && (fates[call].Handed? || fates[call].Leaks())
                 && fates[call].id in volumes && !volumes[fates[call].id].abandoned
  }

  lemma {:induction false} OneEach(calls: set<nat>, ids: set<Ocid>, fates: map<nat, Fate>)
    requires forall call | call in calls :: call in fates && !fates[call].NothingMade? && fates[call].id in ids
    requires forall id | id in ids :: exists call :: call in calls && fates[call].id == id
    requires forall c, d | c in calls && d in calls && fates[c].id == fates[d].id :: c == d
    ensures |calls| == |ids|
  {
    if calls == {} {
      assert ids == {};
    } else {
      var call :| call in calls;
      forall id | id in ids - {fates[call].id}
        ensures exists c :: c in calls - {call} && fates[c].id == id
      {
        var c :| c in calls && fates[c].id == id;
        assert c in calls - {call};
      }
      OneEach(calls - {call}, ids - {fates[call].id}, fates);
    }
  }

  /**
   No volume serves two calls, and there are exactly as many live volumes of ours as calls whose
   volume was handed out, or leaked, and has been neither deleted since nor given up by the service.
   */
  lemma LiveVolumesAreCounted(volumes: map<Ocid, Volume>, fates: map<nat, Fate>, calls: nat)
    requires Accounted(volumes, fates, calls)
    ensures forall c, d | c in fates && d in fates && !fates[c].NothingMade? && !fates[d].NothingMade? && fates[c].id == fates[d].id :: c == d
    ensures LiveOnes(volumes) == set call | call in Standing(volumes, fates) :: fates[call].id
    ensures |LiveOnes(volumes)| == |Standing(volumes, fates)|
  {
    var live, standing := LiveOnes(volumes), Standing(volumes, fates);
    forall call | call in fates && !fates[call].NothingMade?
      ensures fates[call].id in volumes && volumes[fates[call].id].maker == Some(call)
    {
      assert Recorded(volumes, call, fates[call]);
    }
    forall id | id in live
      ensures exists call :: call in standing && fates[call].id == id
    {
      assert volumes[id].maker.value in standing;
    }
    OneEach(standing, live, fates);
  }
}
