/** Errors, and the classifier both Delete methods rely on (pkg/provisioner/errors.go). */
module Errors {
  import opened Wrappers

  const STATUS_NOT_FOUND := 404

  /** A Go error: the package's sentinel, an answer of the service, an error wrapped with context, or any other. */
  datatype Error =
    | SentinelNotFound
    | Service(status: int)
    | Wrapped(cause: Error)
    | Plain(problem: Problem)

  datatype Problem =
    | CallError
    | PollTimedOut
    | BadLifecycleState
    | NoMountTargetId
    | NoPrivateIps
    | NoExportSet
    | NoIpAddress
    | MoreThanOneFileSystem
    | MissingAnnotation(key: string)
    | InvalidAccessMode
    | NoVolumeSize
    | NoZoneLabels
    | NoSuchAvailabilityDomain
    | IgnoredIdentity

  function Cause(e: Error): Error {
    match e
    case Wrapped(cause) => Cause(cause)
    case _ => e
  }

  function IsNotFound(error: Option<Error>): (r: bool) {
    match error
    case None => false
    case Some(e) => Cause(e).SentinelNotFound? || (Cause(e).Service? && Cause(e).status == STATUS_NOT_FOUND)
  }

  function Wrap(e: Error, times: nat): Error {
    if times == 0 then e else Wrapped(Wrap(e, times - 1))
  }

  /** Adding context, however often, never changes whether an error means not found. */
  lemma {:induction false} WrappingKeepsNotFound(e: Error, times: nat)
    ensures IsNotFound(Some(Wrap(e, times))) <==> IsNotFound(Some(e))
  {
    if times > 0 { WrappingKeepsNotFound(e, times - 1); }
  }

  /** Every error unwraps to one that is not a wrapping, and that one decides. */
  lemma {:induction false} RootDecides(e: Error) returns (root: Error, times: nat)
    ensures !root.Wrapped? && e == Wrap(root, times)
    ensures IsNotFound(Some(e)) <==> root == SentinelNotFound || root == Service(404)
  {
    match e {
      case Wrapped(cause) =>
        root, times := RootDecides(cause);
        times := times + 1;
      case _ => root, times := e, 0;
    }
  }
}
