/**
 What wait.PollImmediate promises about one run of a polling loop, as a function of what its
 condition saw: the first decisive observation settles it, and undecided ones only cause
 another poll.
 */
module Polling {
  import opened Wrappers
  import opened Errors

  /** What one call of a polling condition saw. */
  datatype Seen<+T> = Ready(value: T) | Hopeless | CallFailed(error: Error) | Undecided

  datatype PollError = WentBad | CallErred(error: Error) | TimedOut

  function PollOutcome<T>(seen: seq<Seen<T>>): (r: Result<T, PollError>)
  {
    if seen == [] then Failure(TimedOut)
    else
      match seen[0]
      case Ready(value) => Success(value)
      case Hopeless => Failure(WentBad)
      case CallFailed(e) => Failure(CallErred(e))
      case Undecided => PollOutcome(seen[1..])
  }

  ghost predicate FirstDecisive<T>(seen: seq<Seen<T>>, k: int) {
    0 <= k < |seen| && !seen[k].Undecided? && forall i | 0 <= i < k :: seen[i].Undecided?
  }

  /** The outcome is the first decisive observation's, and a timeout exactly when there was none. */
  lemma {:induction false} OutcomeIsFirstDecisive<T>(seen: seq<Seen<T>>)
    ensures forall k | FirstDecisive(seen, k) ::
      PollOutcome(seen) ==
        match seen[k]
        case Ready(value) => Success(value)
        case Hopeless => Failure(WentBad)
        case CallFailed(e) => Failure(CallErred(e))
        case Undecided => Failure(TimedOut)
    ensures PollOutcome(seen) == Failure(TimedOut) <==> forall k | 0 <= k < |seen| :: seen[k].Undecided?
  {
    if seen != [] && seen[0].Undecided? {
      OutcomeIsFirstDecisive(seen[1..]);
      forall k | FirstDecisive(seen, k)
        ensures k > 0 && FirstDecisive(seen[1..], k - 1)
      {
      }
      assert forall k | 0 <= k < |seen| - 1 :: seen[1..][k] == seen[k + 1];
      if PollOutcome(seen) == Failure(TimedOut) {
        forall k | 0 <= k < |seen| ensures seen[k].Undecided? {
          if k > 0 { assert seen[1..][k - 1].Undecided?; }
        }
      }
    } else if seen != [] {
      assert FirstDecisive(seen, 0);
    }
  }

  /** Undecided observations change nothing; polling stops at the first other one. */
  lemma {:induction false} PollOneMore<T>(seen: seq<Seen<T>>, next: Seen<T>)
    requires forall k | 0 <= k < |seen| :: seen[k].Undecided?
    ensures PollOutcome(seen + [next]) == PollOutcome([next])
  {
    if seen == [] {
      assert seen + [next] == [next];
    } else {
      assert (seen + [next])[1..] == seen[1..] + [next];
      PollOneMore(seen[1..], next);
    }
  }

  /**
   One run of the loop: at least one check, no check after a decisive one, and a timeout only
   after the immediate check and at least the one made when the timer closes.
   */
  ghost predicate Polled<T(!new)>(seen: seq<Seen<T>>, r: Result<T, PollError>) {
    && seen != []
    && r == PollOutcome(seen)
    && (forall k | 0 <= k < |seen| - 1 :: seen[k].Undecided?)
    && (r == Failure(TimedOut) ==> |seen| >= 2)
  }

  /** What a loop saw in the records of its calls. */
  function Saw<R, T>(said: seq<R>, read: R -> Seen<T>): (seen: seq<Seen<T>>)
    ensures |seen| == |said| && forall k | 0 <= k < |said| :: seen[k] == read(said[k])
  {
    seq(|said|, k requires 0 <= k < |said| => read(said[k]))
  }

  lemma SawOnce<R, T>(said: seq<R>, rec: R, read: R -> Seen<T>)
    ensures Saw(said + [rec], read) == Saw(said, read) + [read(rec)]
  {
  }

  /** How a polling loop ends with its last observation. */
  function Ending<T>(last: Seen<T>): Result<T, PollError> {
    match last
    case Ready(value) => Success(value)
    case Hopeless => Failure(WentBad)
    case CallFailed(e) => Failure(CallErred(e))
    case Undecided => Failure(TimedOut)
  }

  /** After polls that settled nothing, the next one ends the loop, or may be where it times out. */
  lemma PolledOnce<R, T(!new)>(said: seq<R>, rec: R, read: R -> Seen<T>)
    requires forall k | 0 <= k < |said| :: read(said[k]).Undecided?
    requires !read(rec).Undecided? || said != []
    ensures Polled(Saw(said + [rec], read), Ending(read(rec)))
  {
    SawOnce(said, rec, read);
    PollOneMore(Saw(said, read), read(rec));
  }
}
