/**
 What the file system plugin makes of the answers it gets (pkg/provisioner/fss/fss.go): which of
 them make it give up and with which error, what a polling loop and a paged search make of theirs,
 and what a failure can mean when nothing of the claim's has been deleted.
 */
module FssProtocol {
  import opened Wrappers
  import opened Ocids
  import opened Errors
  import opened Polling
  import opened FileStorage
  import opened FssInvariant
  import opened FssSafety
  import opened FssTeardown
  import opened FssClients
  import FssRecovery

  // ----- what one poll means -----

  function ClassifyFs(r: Result<FileSystem, Error>): Seen<FileSystem> {
    match r
    case Failure(e) => CallFailed(e)
    case Success(fs) =>
      match fs.life
      case Active => Ready(fs)
      case Deleting => Hopeless
      case Deleted => Hopeless
      case Creating => Undecided
  }

  function ClassifyExport(r: Result<Export, Error>): Seen<Export> {
    match r
    case Failure(e) => CallFailed(e)
    case Success(x) =>
      match x.life
      case Active => Ready(x)
      case Deleting => Hopeless
      case Deleted => Hopeless
      case Creating => Undecided
  }

  function ClassifyMount(r: Result<MountTarget, Error>): Seen<MountTarget> {
    match r
    case Failure(e) => CallFailed(e)
    case Success(m) =>
      match m.life
      case MountActive => Ready(m)
      case MountFailed => Hopeless
      case MountDeleting => Hopeless
      case MountDeleted => Hopeless
      case MountCreating => Undecided
  }

  function SawMount(rec: Record): Seen<MountTarget> {
    if rec.Asked? && rec.answer.MountAnswer? then ClassifyMount(rec.answer.mount) else Hopeless
  }

  function SawFs(rec: Record): Seen<FileSystem> {
    if rec.Asked? && rec.answer.FsAnswer? then ClassifyFs(rec.answer.fs) else Hopeless
  }

  function SawExport(rec: Record): Seen<Export> {
    if rec.Asked? && rec.answer.ExportAnswer? then ClassifyExport(rec.answer.exported) else Hopeless
  }

  function FromPoll(e: PollError): Error {
    match e
    case WentBad => Plain(BadLifecycleState)
    case CallErred(error) => error
    case TimedOut => Plain(PollTimedOut)
  }

  // ----- the paged search -----

  function Flatten(pages: seq<seq<ExportSummary>>): seq<ExportSummary> {
    if pages == [] then [] else pages[0] + Flatten(pages[1..])
  }

  lemma {:induction false} FirstLiveConcat(a: seq<ExportSummary>, b: seq<ExportSummary>)
    ensures FirstLive(a + b) == if FirstLive(a).Some? then FirstLive(a) else FirstLive(b)
  {
    if a == [] {
      assert a + b == b;
    } else {
      assert (a + b)[1..] == a[1..] + b;
      FirstLiveConcat(a[1..], b);
    }
  }

  lemma {:induction false} FlattenSnoc(pages: seq<seq<ExportSummary>>, page: seq<ExportSummary>)
    ensures Flatten(pages + [page]) == Flatten(pages) + page
  {
    if pages == [] {
      assert pages + [page] == [page] && Flatten([page]) == page;
    } else {
      assert (pages + [page])[1..] == pages[1..] + [page];
      FlattenSnoc(pages[1..], page);
    }
  }

  /** Searching page by page, stopping at the first page with a live item. */
  function SearchPages(pages: seq<seq<ExportSummary>>): Option<Ocid> {
    if pages == [] then None
    else if FirstLive(pages[0]).Some? then FirstLive(pages[0])
    else SearchPages(pages[1..])
  }

  /** The search finds the first live item of all pages together, so how items are split into pages does not matter. */
  lemma {:induction false} PagingIsInvisible(pages: seq<seq<ExportSummary>>, others: seq<seq<ExportSummary>>)
    ensures SearchPages(pages) == FirstLive(Flatten(pages))
    ensures Flatten(pages) == Flatten(others) ==> SearchPages(pages) == SearchPages(others)
  {
    PagedSearch(pages);
    PagedSearch(others);
  }

  lemma {:induction false} PagedSearch(pages: seq<seq<ExportSummary>>)
    ensures SearchPages(pages) == FirstLive(Flatten(pages))
  {
    if pages != [] {
      FirstLiveConcat(pages[0], Flatten(pages[1..]));
      PagedSearch(pages[1..]);
    }
  }

  function PageOf(rec: Record): seq<ExportSummary> {
    if rec.Asked? && rec.answer.ExportPageAnswer? && rec.answer.page.Success? then rec.answer.page.value.0 else []
  }

  /** The pages a search has read. */
  function PagesOf(said: seq<Record>): (pages: seq<seq<ExportSummary>>)
    ensures |pages| == |said| && forall k | 0 <= k < |said| :: pages[k] == PageOf(said[k])
  {
    seq(|said|, k requires 0 <= k < |said| => PageOf(said[k]))
  }

  lemma NoPages()
    ensures FirstLive(Flatten(PagesOf([]))) == None
  {
  }

  /** One more page without a live item, or with the first one. */
  lemma NextPage(said: seq<Record>, rec: Record)
    requires FirstLive(Flatten(PagesOf(said))) == None
    ensures SearchPages(PagesOf(said + [rec])) == FirstLive(Flatten(PagesOf(said + [rec]))) == FirstLive(PageOf(rec))
  {
    FlattenSnoc(PagesOf(said), PageOf(rec));
    FirstLiveConcat(Flatten(PagesOf(said)), PageOf(rec));
    PagedSearch(PagesOf(said + [rec]));
    assert PagesOf(said + [rec]) == PagesOf(said) + [PageOf(rec)];
  }

  // ----- answers that end a call of the plugin -----

  /** The error that an answer makes the plugin return; None when it goes on. */
  function Refusal(rec: Record): Option<Error> {
    match rec
    case Dropped(_, _, error, _) => if IsNotFound(error) then None else error
    case Asked(_, _, answer, _) =>
      match answer
      case MountAnswer(_, mount) => RefusalOfMount(mount)
      case AddressAnswer(_, address) =>
        if address.Failure? then Some(address.error) else if address.value.None? then Some(Plain(NoIpAddress)) else None
      case FsListAnswer(items) =>
        if items.Failure? then Some(items.error) else if |items.value| > 1 then Some(Plain(MoreThanOneFileSystem)) else None
      case FsCreateAnswer(created) => if created.Failure? then Some(created.error) else None
      case FsAnswer(_, fs) =>
        if fs.Failure? then Some(fs.error) else if !fs.value.life.Live() then Some(Plain(BadLifecycleState)) else None
      case ExportPageAnswer(page) => if page.Failure? then Some(page.error) else None
      case ExportCreateAnswer(created) => if created.Failure? then Some(created.error) else None
      case ExportAnswer(_, exported) =>
        if exported.Failure? then Some(exported.error) else if !exported.value.life.Live() then Some(Plain(BadLifecycleState)) else None
  }

  function RefusalOfMount(mount: Result<MountTarget, Error>): Option<Error> {
    if mount.Failure? then Some(mount.error)
    else if mount.value.life.MountCreating? then None
    else if !mount.value.life.MountActive? then Some(Plain(BadLifecycleState))
    else if mount.value.ips == [] then Some(Plain(NoPrivateIps))
    else if mount.value.exportSet.None? then Some(Plain(NoExportSet))
    else None
  }

  /** An answer that only causes another poll. */
  predicate Waiting(rec: Record) {
    && rec.Asked?
    && match rec.answer
       case MountAnswer(_, mount) => mount.Success? && mount.value.life.MountCreating?
       case FsAnswer(_, fs) => fs.Success? && fs.value.life.Creating?
       case ExportAnswer(_, exported) => exported.Success? && exported.value.life.Creating?
       case _ => false
  }

  /** None of the calls was refused. */
  ghost predicate Goes(said: seq<Record>) {
    forall k | 0 <= k < |said| :: Refusal(said[k]).None?
  }

  /** All but the last of the calls went well, and it is why this error is returned: it was refused, or it is where a poll timed out. */
  ghost predicate Fails(said: seq<Record>, e: Error) {
    && said != [] && Goes(said[..|said| - 1])
    && var last := said[|said| - 1];
    || Refusal(last) == Some(e)
    || (e == Plain(PollTimedOut) && |said| >= 2 && Waiting(said[|said| - 2]) && Waiting(last))
  }

  lemma GoesThenGoes(a: seq<Record>, b: seq<Record>)
    requires Goes(a)
    ensures Goes(b) ==> Goes(a + b)
    ensures forall e :: Fails(b, e) ==> Fails(a + b, e)
  {
    forall e | Fails(b, e)
      ensures Fails(a + b, e)
    {
      var n := |a + b| - 1;
      assert (a + b)[..n] == a + b[..|b| - 1];
      assert (a + b)[n] == b[|b| - 1];
      if |b| >= 2 { assert (a + b)[n - 1] == b[|b| - 2]; }
    }
  }

  lemma FailsHere(a: seq<Record>, rec: Record)
    requires Goes(a)
    ensures Refusal(rec).Some? ==> Fails(a + [rec], Refusal(rec).value)
    ensures Refusal(rec).None? ==> Goes(a + [rec])
    ensures a != [] && Waiting(a[|a| - 1]) && Waiting(rec) ==> Fails(a + [rec], Plain(PollTimedOut))
  {
    assert (a + [rec])[..|a|] == a;
  }

  /** An answer is not refused iff the call succeeded and what it read either is as needed or can still become so. */
  lemma NotRefusedExactly(rec: Record)
    requires rec.Asked?
    ensures var a := rec.answer;
      Refusal(rec).None? <==>
        && (a.MountAnswer? ==>
              && a.mount.Success? && (a.mount.value.life.MountCreating? || a.mount.value.life.MountActive?)
              && (a.mount.value.life.MountActive? ==> a.mount.value.ips != [] && a.mount.value.exportSet.Some?))
        && (a.AddressAnswer? ==> a.address.Success? && a.address.value.Some?)
        && (a.FsListAnswer? ==> a.items.Success? && |a.items.value| <= 1)
        && (a.FsAnswer? ==> a.fs.Success? && (a.fs.value.life.Creating? || a.fs.value.life.Active?))
        && (a.ExportPageAnswer? ==> a.page.Success?)
        && (a.ExportAnswer? ==> a.exported.Success? && (a.exported.value.life.Creating? || a.exported.value.life.Active?))
        && (a.FsCreateAnswer? || a.ExportCreateAnswer? ==> a.created.Success?)
  {
  }

  /** The machine agrees: a read of the service is refused iff it ends the attempt without issuing a volume. */
  lemma RefusedIsEnded(w: World, rec: Record, call: Call)
    requires rec.Asked? && rec.uid in w.claims && w.claims[rec.uid] == rec.attempt && Answers(w, rec.uid, rec.attempt, rec.answer)
    requires match rec.answer
      case MountAnswer(_, mount) => mount.Success? && rec.attempt.pc.AwaitMount? && call == PollMount
      case AddressAnswer(id, address) => address.Success? && call == GetIp(id)
      case FsListAnswer(items) => items.Success? && call == ListFs(items.value)
      case FsAnswer(_, fs) => fs.Success? && call == PollFs
      case ExportAnswer(_, exported) => exported.Success? && call == PollExport
      case _ => false
    ensures var after := Step(w, Claim(rec.uid, call));
      && (Refusal(rec).Some? <==> rec.uid !in after.claims && after.volumes == w.volumes && !(rec.answer.ExportAnswer? && rec.answer.exported.value.life.Active?))
      && (Waiting(rec) ==> after == w)
  {
  }

  /** What the call where an attempt stopped has to do with the error it returns. */
  lemma StoppedBy(said: seq<Record>, e: Error)
    requires Fails(said, e) && said[|said| - 1].Asked?
    ensures var a := said[|said| - 1].answer;
      && (a.MountAnswer? && a.mount.Success? && a.mount.value.life.MountCreating? ==> e == Plain(PollTimedOut))
      && (a.MountAnswer? && a.mount.Success? && a.mount.value.life.MountActive? ==> e == Plain(if a.mount.value.ips == [] then NoPrivateIps else NoExportSet))
      && (a.MountAnswer? && a.mount.Success? && !a.mount.value.life.MountCreating? && !a.mount.value.life.MountActive? ==> e == Plain(BadLifecycleState))
      && (a.MountAnswer? && a.mount.Failure? ==> e == a.mount.error)
      && (a.AddressAnswer? ==> a.address == Failure(e) || (a.address == Success(None) && e == Plain(NoIpAddress)))
      && (a.FsListAnswer? ==> a.items == Failure(e) || (a.items.Success? && |a.items.value| > 1 && e == Plain(MoreThanOneFileSystem)))
      && (a.FsAnswer? && a.fs.Success? ==> !a.fs.value.life.Active? && e == Plain(if a.fs.value.life.Creating? then PollTimedOut else BadLifecycleState))
      && (a.FsAnswer? && a.fs.Failure? ==> e == a.fs.error)
      && (a.ExportPageAnswer? ==> a.page == Failure(e))
      && (a.ExportAnswer? && a.exported.Success? ==>
            !a.exported.value.life.Active? && e == Plain(if a.exported.value.life.Creating? then PollTimedOut else BadLifecycleState))
      && (a.ExportAnswer? && a.exported.Failure? ==> e == a.exported.error)
      && (a.FsCreateAnswer? || a.ExportCreateAnswer? ==> a.created == Failure(e))
  {
  }

  lemma PollsNowhere<T>(read: Record -> Seen<T>)
    ensures Unsettled([], read)
  {
  }

  lemma GoesNowhere()
    ensures Goes([])
  {
  }

  /** Polls that have not settled anything. */
  ghost predicate Unsettled<T>(said: seq<Record>, read: Record -> Seen<T>) {
    forall k | 0 <= k < |said| :: Waiting(said[k]) && read(said[k]).Undecided?
  }

  /** A loop reads an answer the way the plugin takes it. */
  predicate ReadsAs<T>(rec: Record, seen: Seen<T>) {
    && (seen.CallFailed? ==> Refusal(rec) == Some(seen.error))
    && (seen.Hopeless? ==> Refusal(rec) == Some(Plain(BadLifecycleState)))
    && (seen.Undecided? <==> Waiting(rec))
  }

  /** One more poll: it goes on if the answer settles nothing, and may then time out unless it is the first. */
  lemma PollOn<T(!new)>(said: seq<Record>, rec: Record, read: Record -> Seen<T>)
    requires Unsettled(said, read) && ReadsAs(rec, read(rec))
    ensures Waiting(rec) ==> Unsettled(said + [rec], read)
    ensures Refusal(rec).Some? ==> Fails(said + [rec], Refusal(rec).value)
    ensures Refusal(rec).None? ==> Goes(said + [rec])
    ensures var r := Ending(read(rec));
      !Waiting(rec) || said != [] ==> Polled(Saw(said + [rec], read), r) && (r.Failure? ==> Fails(said + [rec], FromPoll(r.error)))
  {
    assert Goes(said) by { UnsettledGoes(said, read); }
    FailsHere(said, rec);
    if !Waiting(rec) || said != [] {
      hide Fails, Goes, Refusal, Waiting;
      PolledOnce(said, rec, read);
    }
  }

  lemma UnsettledGoes<T>(said: seq<Record>, read: Record -> Seen<T>)
    requires Unsettled(said, read)
    ensures Goes(said)
  {
  }

  lemma PageReadsAs(rec: Record)
    requires rec.Asked? && rec.answer.ExportPageAnswer?
    ensures Refusal(rec) == if rec.answer.page.Failure? then Some(rec.answer.page.error) else None
  {
  }

  // The calls of the three loops that poll.

  predicate MountReads(said: seq<Record>, uid: string, attempt: Attempt, id: Ocid) {
    forall k | 0 <= k < |said| :: IsAsked(said[k], uid, attempt) && said[k].answer.MountAnswer? && said[k].answer.id == id
  }

  predicate FsReads(said: seq<Record>, uid: string, attempt: Attempt, id: Ocid) {
    forall k | 0 <= k < |said| :: IsAsked(said[k], uid, attempt) && said[k].answer.FsAnswer? && said[k].answer.id == id
  }

  predicate ExportReads(said: seq<Record>, uid: string, attempt: Attempt, id: Ocid) {
    forall k | 0 <= k < |said| :: IsAsked(said[k], uid, attempt) && said[k].answer.ExportAnswer? && said[k].answer.id == id
  }

  /** The only mount target asked about is that one. */
  predicate OnlyMount(said: seq<Record>, mount: Ocid) {
    forall k | 0 <= k < |said| :: said[k].Asked? && said[k].answer.MountAnswer? ==> said[k].answer.id == mount
  }

  predicate PageReads(said: seq<Record>) {
    forall k | 0 <= k < |said| :: said[k].Asked? && said[k].answer.ExportPageAnswer?
  }

  lemma NothingAsked(mount: Ocid)
    ensures OnlyMount([], mount)
  {
  }

  lemma PagesAskNoMount(said: seq<Record>)
    requires PageReads(said)
    ensures forall mount :: OnlyMount(said, mount)
  {
  }

  predicate IsAsked(rec: Record, uid: string, attempt: Attempt) {
    rec.Asked? && rec.uid == uid && rec.attempt == attempt
  }

  lemma ReadsAsMount(rec: Record)
    requires rec.Asked? && rec.answer.MountAnswer?
    ensures ReadsAs(rec, SawMount(rec)) && Refusal(rec) == RefusalOfMount(rec.answer.mount)
  {
  }

  lemma ReadsAsFs(rec: Record)
    requires rec.Asked? && rec.answer.FsAnswer?
    ensures ReadsAs(rec, SawFs(rec)) && (SawFs(rec).Ready? ==> Refusal(rec).None?)
  {
  }

  lemma ReadsAsExport(rec: Record)
    requires rec.Asked? && rec.answer.ExportAnswer?
    ensures ReadsAs(rec, SawExport(rec)) && (SawExport(rec).Ready? ==> Refusal(rec).None?)
  {
  }

  /** Calls of one claim's attempt in one availability domain, made no earlier than some moment. */
  ghost predicate Ours(said: seq<Record>, uid: string, ad: string, since: nat) {
    forall k | 0 <= k < |said| :: said[k].Asked? && said[k].uid == uid && said[k].attempt.ad == ad && since <= said[k].at
  }

  /** Calls that went well, and those that came after them. */
  lemma Continues(a: seq<Record>, b: seq<Record>, uid: string, ad: string, since: nat, later: nat)
    requires Goes(a) && Ours(a, uid, ad, since) && Ours(b, uid, ad, later) && since <= later
    ensures Ours(a + b, uid, ad, since)
    ensures forall mount :: OnlyMount(a, mount) && OnlyMount(b, mount) ==> OnlyMount(a + b, mount)
    ensures Goes(b) ==> Goes(a + b)
    ensures forall e :: Fails(b, e) ==> Fails(a + b, e)
  {
    GoesThenGoes(a, b);
  }

  lemma Once(rec: Record, uid: string, ad: string, since: nat)
    requires rec.Asked? && rec.uid == uid && rec.attempt.ad == ad && since <= rec.at
    ensures Ours([rec], uid, ad, since)
    ensures forall mount :: !rec.answer.MountAnswer? ==> OnlyMount([rec], mount)
    ensures if Refusal(rec).Some? then Fails([rec], Refusal(rec).value) else Goes([rec])
  {
  }

  lemma OursOnceMore(said: seq<Record>, rec: Record, uid: string, ad: string, since: nat)
    requires Ours(said, uid, ad, since) && rec.Asked? && rec.uid == uid && rec.attempt.ad == ad && since <= rec.at
    ensures Ours(said + [rec], uid, ad, since)
  {
  }

  lemma OursEarlier(said: seq<Record>, uid: string, ad: string, since: nat, later: nat)
    requires Ours(said, uid, ad, later) && since <= later
    ensures Ours(said, uid, ad, since)
  {
  }

  lemma OursAreAsked(said: seq<Record>, uid: string, ad: string, since: nat)
    requires Ours(said, uid, ad, since)
    ensures forall k | 0 <= k < |said| :: said[k].Asked?
  {
  }

  lemma OursNowhere(uid: string, ad: string, since: nat)
    ensures Ours([], uid, ad, since)
  {
  }

  lemma TruthfulHolds(origin: World, log: seq<Action>, before: seq<Record>, said: seq<Record>)
    requires Truthful(origin, log, before + said)
    ensures forall k | 0 <= k < |said| :: Holds(origin, log, said[k])
  {
    hide Holds;
    forall k | 0 <= k < |said| ensures Holds(origin, log, said[k]) { assert (before + said)[|before| + k] == said[k]; }
  }

  // ----- what a failure means -----

  /** A call that failed, a poll still waiting, or the mount target or its address. */
  predicate Excused(rec: Record) {
    || Waiting(rec)
    || (&& rec.Asked?
        && match rec.answer
           case MountAnswer(_, _) => true
           case AddressAnswer(_, _) => true
           case FsListAnswer(items) => items.Failure?
           case FsCreateAnswer(created) => created.Failure?
           case FsAnswer(_, fs) => fs.Failure?
           case ExportPageAnswer(page) => page.Failure?
           case ExportCreateAnswer(created) => created.Failure?
           case ExportAnswer(_, exported) => exported.Failure?)
  }

  /** With nothing of the claim's deleted, no answer about its own resources is refused. */
  lemma RefusalIsExcused(origin: World, early: seq<Action>, log: seq<Action>, rec: Record, uid: string, ad: string)
    requires Init(origin) && early <= log && Holds(origin, log, rec)
    requires rec.Asked? && rec.uid == uid && rec.attempt.ad == ad && |early| <= rec.at
    requires FssRecovery.OnTrack(Run(origin, early), uid, ad)
    requires FssRecovery.UndeletedRun(Run(origin, early), log[|early|..], uid, ad)
    ensures Refusal(rec).Some? ==> Excused(rec)
  {
    hide Run, Answers, Refusal, Excused, FssRecovery.UndeletedRun, FssRecovery.OnTrack;
    OnTrackThere(origin, early, log, rec.at, uid, ad);
    AnswerIsExcused(Run(origin, log[..rec.at]), rec, uid, ad);
  }

  lemma AnswerIsExcused(w: World, rec: Record, uid: string, ad: string)
    requires FssRecovery.OnTrack(w, uid, ad) && FssRecovery.In(w, uid, ad)
    requires rec.Asked? && rec.uid == uid && rec.attempt == w.claims[uid] && Answers(w, uid, rec.attempt, rec.answer)
    ensures Refusal(rec).Some? ==> Excused(rec)
  {
    var answer := rec.answer;
    var call := if answer.FsListAnswer? && answer.items.Success? then ListFs(answer.items.value) else if answer.FsAnswer? then PollFs else PollExport;
    FssRecovery.NothingToRefuse(w, Claim(uid, call), uid, ad);
    hide FssRecovery.OnTrack;
  }

  /** A failing attempt of a claim nothing of whose is deleted has an excuse. */
  lemma FailureExcused(origin: World, early: seq<Action>, log: seq<Action>, before: seq<Record>, said: seq<Record>, uid: string, ad: string, e: Error)
    requires Init(origin) && early <= log && Truthful(origin, log, before + said)
    requires Ours(said, uid, ad, |early|) && Fails(said, e) && uid !in Run(origin, early).claims
    ensures FssRecovery.Healthy(Run(origin, early), uid, ad) && FssRecovery.UndeletedRun(Run(origin, early), log[|early|..], uid, ad) ==>
      Excused(said[|said| - 1])
  {
    hide Holds, Run, Refusal, FssRecovery.Healthy, FssRecovery.UndeletedRun;
    var n := |said| - 1;
    TruthfulHolds(origin, log, before, said);
    if FssRecovery.Healthy(Run(origin, early), uid, ad) && FssRecovery.UndeletedRun(Run(origin, early), log[|early|..], uid, ad) {
      InitHasInv(origin);
      RunKeepsInv(origin, early);
      RefusalIsExcused(origin, early, log, said[n], uid, ad);
    }
  }

  /** A succeeding one has created exactly what was missing. */
  lemma SuccessCounts(origin: World, early: seq<Action>, log: seq<Action>, h: Handle)
    requires Init(origin) && early <= log && h in Run(origin, log).volumes && LiveExportIn(Run(origin, log).cloud, h.exportId)
    ensures FssRecovery.Healthy(Run(origin, early), h.uid, h.ad) && FssRecovery.UndeletedRun(Run(origin, early), log[|early|..], h.uid, h.ad) ==>
      && FssRecovery.CreatedTheMissing(Run(origin, early), log[|early|..], h.uid, h.ad, h)
      && OwnPath(Run(origin, early), Run(origin, log), h)
  {
    hide Run, Init, FssRecovery.Healthy, FssRecovery.UndeletedRun, FssRecovery.CreatedTheMissing, OwnPath;
    if FssRecovery.Healthy(Run(origin, early), h.uid, h.ad) && FssRecovery.UndeletedRun(Run(origin, early), log[|early|..], h.uid, h.ad) {
      SuccessMeans(origin, early, log, h);
    }
  }

  lemma OnTrackThere(origin: World, early: seq<Action>, log: seq<Action>, n: nat, uid: string, ad: string)
    requires early <= log && |early| <= n <= |log|
    requires FssRecovery.OnTrack(Run(origin, early), uid, ad)
    requires FssRecovery.UndeletedRun(Run(origin, early), log[|early|..], uid, ad)
    ensures FssRecovery.OnTrack(Run(origin, log[..n]), uid, ad)
  {
    hide Run, FssRecovery.OnTrack, FssRecovery.Undeleted;
    var v, rest := Run(origin, early), log[|early|..];
    var m := n - |early|;
    forall k | 0 <= k < m
      ensures FssRecovery.Undeleted(Run(v, rest[..m][..k]), rest[..m][k], uid, ad)
    {
      assert rest[..m][..k] == rest[..k];
    }
    FssRecovery.OnTrackRun(v, rest[..m], uid, ad);
    assert log[..n] == early + rest[..m];
    RunConcat(origin, early, rest[..m]);
  }

  // ----- what an attempt leaves behind -----

  /** From one state of a client's log to a later one, a file system nobody retires stays ACTIVE. */
  lemma ActiveSince(origin: World, early: seq<Action>, late: seq<Action>, fs: Ocid)
    requires early <= late
    requires fs in Run(origin, early).cloud.fss && Run(origin, early).cloud.fss[fs].life.Active?
    requires forall k | |early| <= k < |late| :: !RetiresFs(late[k], fs)
    ensures fs in Run(origin, late).cloud.fss && Run(origin, late).cloud.fss[fs].life.Active?
  {
    hide Step;
    var rest := late[|early|..];
    assert late == early + rest;
    RunConcat(origin, early, rest);
    LiveUntilRetired(Run(origin, early), rest, fs);
    NotYoung(Run(origin, early), rest, fs);
  }

  lemma {:induction false} NotYoung(w: World, actions: seq<Action>, fs: Ocid)
    requires fs in w.cloud.fss && !w.cloud.fss[fs].life.Creating?
    ensures fs in Run(w, actions).cloud.fss && !Run(w, actions).cloud.fss[fs].life.Creating?
  {
    if actions != [] {
      hide Step;
      var n := |actions| - 1;
      NotYoung(w, actions[..n], fs);
      FssAfter(Run(w, actions[..n]), actions[n]);
    }
  }

  lemma IssuedHolds(w: World, h: Handle)
    requires Inv(w) && h in w.volumes
    ensures OwnFs(w, h.uid, h.ad, h.fs) && OwnExport(w.cloud, h.fs, h.exportSet, h.exportId)
  {
  }

  /** What a volume issued after its file system was seen ACTIVE names: both resources ACTIVE unless the file system was retired since. */
  lemma IssuedResources(origin: World, found: seq<Action>, log: seq<Action>, h: Handle)
    requires Init(origin) && found <= log && h in Run(origin, log).volumes
    requires h.fs in Run(origin, found).cloud.fss && Run(origin, found).cloud.fss[h.fs].life.Active?
    ensures var w, c := Run(origin, log), Run(origin, log).cloud;
      && OwnFs(w, h.uid, h.ad, h.fs) && OwnExport(c, h.fs, h.exportSet, h.exportId)
      && (c.fss[h.fs].life.Active? || exists k :: |found| <= k < |log| && RetiresFs(log[k], h.fs))
  {
    hide Run, Init, Inv;
    InitHasInv(origin);
    RunKeepsInv(origin, log);
    IssuedHolds(Run(origin, log), h);
    if forall k | |found| <= k < |log| :: !RetiresFs(log[k], h.fs) {
      ActiveSince(origin, found, log, h.fs);
    }
  }

  /** At `target` the mount target was ACTIVE in that export set, and at `address` one of the addresses it then had was `server`. */
  ghost predicate Serves(origin: World, target: seq<Action>, address: seq<Action>, mount: Ocid, exportSet: Ocid, server: string) {
    var mounts, addresses := Run(origin, target).cloud.mounts, Run(origin, address).cloud.addresses;
    && mount in mounts && mounts[mount].life.MountActive? && mounts[mount].exportSet == Some(exportSet)
    && exists ip :: ip in mounts[mount].ips && ip in addresses && addresses[ip] == Some(server)
  }

  /** With nothing of the claim's deleted, what its volume cost, and whose its path is. */
  lemma SuccessMeans(origin: World, early: seq<Action>, log: seq<Action>, h: Handle)
    requires Init(origin) && early <= log && h in Run(origin, log).volumes && LiveExportIn(Run(origin, log).cloud, h.exportId)
    requires FssRecovery.Healthy(Run(origin, early), h.uid, h.ad)
    requires FssRecovery.UndeletedRun(Run(origin, early), log[|early|..], h.uid, h.ad)
    ensures FssRecovery.CreatedTheMissing(Run(origin, early), log[|early|..], h.uid, h.ad, h)
    ensures OwnPath(Run(origin, early), Run(origin, log), h)
  {
    hide Run, Init, FssRecovery.Healthy, FssRecovery.UndeletedRun, FssRecovery.CreatedTheMissing;
    var w, rest := Run(origin, early), log[|early|..];
    assert log == early + rest;
    RunConcat(origin, early, rest);
    InitHasInv(origin);
    RunKeepsInv(origin, early);
    RunKeepsInv(origin, log);
    FssRecovery.CountsTheMissing(w, rest, h);
    assert VolumeHolds(Run(origin, log), h);
    hide Inv;
    forall e, k | Serving(w.cloud, e, h.fs, h.exportSet) && 0 <= k < |rest|
      ensures !RetiresExport(rest[k], e)
    {
      OursUntil(w, rest, h, e, k);
    }
    IssuedPath(w, rest, h);
  }

  /** The volume's path is the plugin's own exactly when no export that was already serving had another. */
  ghost predicate OwnPath(w: World, v: World, h: Handle)
    requires h.exportId in v.cloud.exports
  {
    v.cloud.exports[h.exportId].path == "/" + h.fs <==> forall e | Serving(w.cloud, e, h.fs, h.exportSet) :: w.cloud.exports[e].path == "/" + h.fs
  }

  lemma OursUntil(w: World, rest: seq<Action>, h: Handle, e: Ocid, k: nat)
    requires Inv(w) && Serving(w.cloud, e, h.fs, h.exportSet) && k < |rest| && h in Run(w, rest).volumes && Inv(Run(w, rest))
    requires FssRecovery.UndeletedRun(w, rest, h.uid, h.ad)
    ensures !RetiresExport(rest[k], e)
  {
    hide Run, FssRecovery.UndeletedRun;
    assert VolumeHolds(Run(w, rest), h);
    NamesAreKept(w, rest);
    assert OwnFs(w, h.uid, h.ad, h.fs);
    NamesAreKept(w, rest[..k]);
    assert FssRecovery.Undeleted(Run(w, rest[..k]), rest[k], h.uid, h.ad) by { FssRecovery.UndeletedAt(w, rest, h.uid, h.ad, k); }
  }
}
