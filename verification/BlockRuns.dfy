/**
 Any number of block volume attempts at once: the calls of each Provision, and the Deletes of what
 was handed out, interleaved one by one with each other, with the service and with everybody else.
 Nobody looks anything up, so there is nothing to agree on, and the account of who owns which volume
 is exact in every state of every run.
 */
module BlockRuns {
  import opened Wrappers
  import opened Ocids
  import opened BlockClients
  import opened BlockPlugin

  /** Where an attempt stands: about to create, polling its volume, or about to delete it again. */
  datatype Phase = Asking | Waiting(id: Ocid) | GivingUp(id: Ocid)

  datatype World = World(volumes: map<Ocid, Volume>, attempts: map<nat, Phase>, fates: map<nat, Fate>, next: nat)

  datatype Action =
    | Begin
    | CreateFails(call: nat)
    | Create(call: nat, id: Ocid, details: VolumeDetails, restoring: bool, arrives: bool)
    | Ready(call: nat, regionKnown: bool)
    | WaitFails(call: nat)
    | Compensate(call: nat, carriedOut: bool)
    | Remove(call: nat, carriedOut: bool)
    | ServiceMove(id: Ocid, life: VolumeLife)
    | Outside(id: Ocid, details: VolumeDetails, life: VolumeLife)

  /** The attempt is over. */
  function Settle(w: World, call: nat, fate: Fate): World {
    w.(attempts := w.attempts - {call}, fates := w.fates[call := fate])
  }

  function Terminate(volumes: map<Ocid, Volume>, id: Ocid): map<Ocid, Volume>
    requires id in volumes
  {
    volumes[id := volumes[id].(life := Terminating)]
  }

  function CreateStep(w: World, call: nat, id: Ocid, details: VolumeDetails, restoring: bool, arrives: bool): World {
    if id in w.volumes then w
    else
      var volume := Volume(details, if restoring then Restoring else Provisioning, Some(call), false);
      var w' := w.(volumes := w.volumes[id := volume]);
      if arrives then w'.(attempts := w.attempts[call := Waiting(id)]) else Settle(w', call, ResponseLost(id))
  }

  /** A delete of the volume, which has an effect only if it is live and the request is carried out. */
  function DeleteStep(w: World, call: nat, id: Ocid, carriedOut: bool, done: Fate, failed: Fate): World {
    if carriedOut && LiveIn(w.volumes, id) then Settle(w.(volumes := Terminate(w.volumes, id)), call, done)
    else Settle(w, call, failed)
  }

  /** An action that cannot happen in a state leaves it unchanged. */
  function Step(w: World, a: Action): World {
    match a
    case Begin => w.(attempts := w.attempts[w.next := Asking], next := w.next + 1)
    case CreateFails(call) =>
      if call in w.attempts && w.attempts[call].Asking? then Settle(w, call, NothingMade) else w
    case Create(call, id, details, restoring, arrives) =>
      if call in w.attempts && w.attempts[call].Asking? then CreateStep(w, call, id, details, restoring, arrives) else w
    case Ready(call, regionKnown) =>
      if call in w.attempts && w.attempts[call].Waiting? && w.attempts[call].id in w.volumes && w.volumes[w.attempts[call].id].life.Available?
      then Settle(w, call, if regionKnown then Handed(w.attempts[call].id) else RegionUnknown(w.attempts[call].id))
      else w
    case WaitFails(call) =>
      if call in w.attempts && w.attempts[call].Waiting? then w.(attempts := w.attempts[call := GivingUp(w.attempts[call].id)]) else w
    case Compensate(call, carriedOut) =>
      if call in w.attempts && w.attempts[call].GivingUp?
      then var id := w.attempts[call].id; DeleteStep(w, call, id, carriedOut, Compensated(id), CompensationFailed(id))
      else w
    case Remove(call, carriedOut) =>
      if call !in w.attempts && call in w.fates && w.fates[call].Handed?
      then var id := w.fates[call].id; DeleteStep(w, call, id, carriedOut, Deleted(id), Handed(id))
      else w
    case ServiceMove(id, life) =>
      if id in w.volumes && ServiceMoves(w.volumes[id].life, life)
      then w.(volumes := w.volumes[id := w.volumes[id].(
        life := life, abandoned := w.volumes[id].abandoned || (Creating(w.volumes[id].life) && !life.Live()))])
      else w
    case Outside(id, details, life) =>
      if id !in w.volumes then w.(volumes := w.volumes[id := Volume(details, life, None, false)])
      else if w.volumes[id].maker.None? && !life.Live() then w.(volumes := w.volumes[id := w.volumes[id].(life := life)])
      else w
  }

  function Run(w: World, actions: seq<Action>): World {
    if actions == [] then w else Step(Run(w, actions[..|actions| - 1]), actions[|actions| - 1])
  }

  /** The volume an attempt is dealing with, or has left behind. */
  function Owned(w: World, call: nat): Option<Ocid> {
    if call in w.attempts then if w.attempts[call].Asking? then None else Some(w.attempts[call].id)
    else if call in w.fates && !w.fates[call].NothingMade? then Some(w.fates[call].id)
    else None
  }

  /** Whether nobody has taken the volume away: the attempt is still at it, it is in someone's hands, or it has leaked. */
  predicate Entitled(w: World, call: nat) {
    call in w.attempts || (call in w.fates && (w.fates[call].Handed? || w.fates[call].Leaks()))
  }

  ghost predicate Backed(w: World, call: nat) {
    Owned(w, call).Some? ==>
      var id := Owned(w, call).value;
      && id in w.volumes && w.volumes[id].maker == Some(call)
      && (call in w.fates && Settled(w.fates[call]) ==> (w.volumes[id].life.Available? || w.volumes[id].life.Faulty?) && !w.volumes[id].abandoned)
  }

  ghost predicate Kept(w: World, id: Ocid)
    requires id in w.volumes
  {
    w.volumes[id].maker.Some? ==>
      var call := w.volumes[id].maker.value;
      Owned(w, call) == Some(id) && (w.volumes[id].life.Live() <==> Entitled(w, call) && !w.volumes[id].abandoned)
  }

  /**
   Every call is either in flight or settled; every volume made for a call is that call's own, and
   is live exactly if the call is entitled to it and the service has not given it up.
   */
  ghost predicate Books(w: World) {
    && (forall call: nat :: call < w.next <==> call in w.attempts || call in w.fates)
    && (forall call | call in w.attempts :: call !in w.fates)
    && (forall id | id in w.volumes :: Kept(w, id))
    && (forall call: nat | call < w.next :: Backed(w, call))
  }

  /** Nothing about any other call or volume changes. */
  ghost predicate OnlyOne(w: World, w': World, call: nat, id: Ocid) {
    && w'.next == w.next
    && (forall c | c != call :: (c in w'.attempts <==> c in w.attempts) && (c in w'.fates <==> c in w.fates)
                               && (c in w.attempts ==> w'.attempts[c] == w.attempts[c]) && (c in w.fates ==> w'.fates[c] == w.fates[c]))
    && (forall i | i != id :: (i in w'.volumes <==> i in w.volumes) && (i in w.volumes ==> w'.volumes[i] == w.volumes[i]))
  }

  /** An event of one call keeps the books if it keeps them for that call and its volume. */
  lemma OneKeepsBooks(w: World, w': World, call: nat, id: Ocid)
    requires Books(w) && OnlyOne(w, w', call, id) && call < w.next
    requires call in w'.attempts <==> call !in w'.fates
    requires Owned(w, call).Some? ==> Owned(w, call) == Some(id)
    requires Owned(w', call).Some? ==> Owned(w', call) == Some(id)
    requires id in w.volumes ==> w.volumes[id].maker == Some(call)
    requires (id in w'.volumes ==> Kept(w', id)) && Backed(w', call)
    ensures Books(w')
  {
    forall i | i in w'.volumes
      ensures Kept(w', i)
    {
      if i != id { assert Kept(w, i); }
    }
    forall c: nat | c < w'.next
      ensures Backed(w', c)
    {
      if c != call { assert Backed(w, c); }
    }
  }

  lemma AttemptKeepsBooks(w: World, a: Action, call: nat)
    requires Books(w) && call in w.attempts
    requires a == CreateFails(call) || (a.Ready? && a.call == call) || a == WaitFails(call)
    ensures Books(Step(w, a))
  {
    assert Backed(w, call);
    if w.attempts[call].Asking? {
      SettledKeepsBooks(w, Step(w, a), call);
    } else {
      assert Kept(w, w.attempts[call].id);
      OneKeepsBooks(w, Step(w, a), call, w.attempts[call].id);
    }
  }

  lemma SettledKeepsBooks(w: World, w': World, call: nat)
    requires Books(w) && call in w.attempts && w.attempts[call].Asking? && (w' == w || w' == Settle(w, call, NothingMade))
    ensures Books(w')
  {
    forall id | id in w'.volumes ensures Kept(w', id) { assert Kept(w, id); }
    forall c: nat | c < w'.next ensures Backed(w', c) { assert Backed(w, c); }
  }

  lemma CreateKeepsBooks(w: World, a: Action)
    requires Books(w) && a.Create? && a.call in w.attempts && w.attempts[a.call].Asking? && a.id !in w.volumes
    ensures Books(Step(w, a))
  {
    assert Backed(w, a.call);
    OneKeepsBooks(w, Step(w, a), a.call, a.id);
  }

  lemma DeleteKeepsBooks(w: World, a: Action, call: nat)
    requires Books(w) && call < w.next && Owned(w, call).Some?
    requires (a.Compensate? && a.call == call && call in w.attempts) || (a.Remove? && a.call == call && call !in w.attempts)
    ensures Books(Step(w, a))
  {
    var id := Owned(w, call).value;
    assert Backed(w, call) && Kept(w, id);
    OneKeepsBooks(w, Step(w, a), call, id);
  }

  lemma OthersKeepBooks(w: World, a: Action)
    requires Books(w) && (a.Begin? || a.ServiceMove? || a.Outside?)
    ensures Books(Step(w, a))
  {
    var w' := Step(w, a);
    forall id | id in w'.volumes
      ensures Kept(w', id)
    {
      if id in w.volumes { assert Kept(w, id); }
    }
    forall call: nat | call < w'.next
      ensures Backed(w', call)
    {
      if call < w.next { assert Backed(w, call); }
    }
  }

  lemma StepKeepsBooks(w: World, a: Action)
    requires Books(w)
    ensures Books(Step(w, a))
  {
    if Step(w, a) != w {
      match a
      case CreateFails(call) => AttemptKeepsBooks(w, a, call);
      case Create(_, _, _, _, _) => CreateKeepsBooks(w, a);
      case Ready(call, _) => AttemptKeepsBooks(w, a, call);
      case WaitFails(call) => AttemptKeepsBooks(w, a, call);
      case Compensate(call, _) => DeleteKeepsBooks(w, a, call);
      case Remove(call, _) => DeleteKeepsBooks(w, a, call);
      case _ => OthersKeepBooks(w, a);
    }
  }

  /** However many attempts there are and however their calls interleave. */
  lemma {:induction false} RunKeepsBooks(w: World, actions: seq<Action>)
    requires Books(w)
    ensures Books(Run(w, actions))
  {
    if actions != [] {
      RunKeepsBooks(w, actions[..|actions| - 1]);
      StepKeepsBooks(Run(w, actions[..|actions| - 1]), actions[|actions| - 1]);
    }
  }

  /** The calls whose volume is live. */
  ghost function Holding(w: World): set<nat> {
    set call | 0 <= call < w.next && Entitled(w, call) && Owned(w, call).Some?
                 && Owned(w, call).value in w.volumes && !w.volumes[Owned(w, call).value].abandoned
  }

  lemma {:induction false} OneForOne(w: World, calls: set<nat>, ids: set<Ocid>)
    requires forall call | call in calls :: Owned(w, call).Some? && Owned(w, call).value in ids
    requires forall id | id in ids :: exists call :: call in calls && Owned(w, call) == Some(id)
    requires forall c, d | c in calls && d in calls && Owned(w, c) == Owned(w, d) :: c == d
    ensures |calls| == |ids|
  {
    if calls == {} {
      assert ids == {};
    } else {
      var call :| call in calls;
      var id := Owned(w, call).value;
      forall other | other in ids - {id}
        ensures exists c :: c in calls - {call} && Owned(w, c) == Some(other)
      {
        var c :| c in calls && Owned(w, c) == Some(other);
        assert c in calls - {call};
      }
      OneForOne(w, calls - {call}, ids - {id});
    }
  }

  /**
   In every state of every run there are exactly as many live volumes of ours as calls that are in
   flight with a volume, whose volume was handed out and not deleted, or whose volume leaked, those
   that the service gave up aside; and no volume belongs to two calls.
   */
  lemma RunsAreCounted(w0: World, actions: seq<Action>)
    requires Books(w0)
    ensures var w := Run(w0, actions);
      && LiveOnes(w.volumes) == (set call | call in Holding(w) :: Owned(w, call).value)
      && |LiveOnes(w.volumes)| == |Holding(w)|
      && forall c, d | Owned(w, c).Some? && Owned(w, c) == Owned(w, d) :: c == d
  {
    RunKeepsBooks(w0, actions);
    var w := Run(w0, actions);
    hide Run, Step;
    forall c, d | Owned(w, c).Some? && Owned(w, c) == Owned(w, d)
      ensures c == d
    {
      assert Backed(w, c) && Backed(w, d);
    }
    forall call | call in Holding(w)
      ensures Owned(w, call).value in LiveOnes(w.volumes)
    {
      assert Backed(w, call) && Kept(w, Owned(w, call).value);
    }
    forall id | id in LiveOnes(w.volumes)
      ensures exists call :: call in Holding(w) && Owned(w, call) == Some(id)
    {
      assert Kept(w, id);
      assert w.volumes[id].maker.value in Holding(w);
    }
    OneForOne(w, Holding(w), LiveOnes(w.volumes));
  }

  /** With no attempt in flight the books are the account that a process can start from. */
  lemma BooksAtRest(w: World)
    requires Books(w) && w.attempts == map[]
    ensures Accounted(w.volumes, w.fates, w.next)
  {
    forall id | id in w.volumes && w.volumes[id].maker.Some?
      ensures var call := w.volumes[id].maker.value;
        call in w.fates && !w.fates[call].NothingMade? && w.fates[call].id == id
        && (w.volumes[id].life.Live() <==> (w.fates[call].Handed? || w.fates[call].Leaks()) && !w.volumes[id].abandoned)
    {
      assert Kept(w, id);
    }
    forall call | call in w.fates && !w.fates[call].NothingMade?
      ensures Recorded(w.volumes, call, w.fates[call])
    {
      assert Backed(w, call);
    }
  }
}
