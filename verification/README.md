# OCI volume provisioner: the provisioning protocol

A model of how the volume provisioner creates and destroys cloud resources through an unreliable
service, with proofs. Two plugins do the work, driven by a controller that retries whatever failed:

* the **file system plugin** (`pkg/provisioner/fss`) has no compensation. Its correctness rests on
  each attempt adopting what earlier attempts left behind, through a lookup and a create that are
  separate calls;
* the **block plugin** (`pkg/provisioner/block`) never looks anything up. It creates, polls and
  deletes again under nested deadlines, and what can be proved is exact accounting;
* the **core wrapper** (`pkg/provisioner/core`) fixes the availability domain, stamps the persistent
  volume and gates Delete on the stamp.

## How it is built

`FileStorage.dfy` is one state machine: the service's resources, the Provision attempt in flight for
each claim, the Delete in flight for each persistent volume, and one atomic action per API call or
service event. A run is any sequence of actions, so every interleaving of any number of claims,
retries, lost responses and aborted attempts is a run. `FssInvariant.dfy` has the inductive
invariant, `FssSafety.dfy`, `FssTeardown.dfy` and `FssRecovery.dfy` the results about whole runs.

`FssClient.dfy` is the service as the plugin sees it: an object whose `world` is always a reachable
state of the machine, and whose every call first lets everybody else act any number of times. It
keeps a record of every call with its answer and the moment it was answered, and its validity says
that the record is true. `FssProtocol.dfy` says what the plugin makes of answers, and `FssPlugin.dfy`
is the plugin itself, method by method and loop by loop, against that client. Its contracts are
stated over the calls it put on record: which it made, where it stopped and why, and what that means
for the service, so the plugin's own code inherits what is proved about the machine's runs.
`BlockClient.dfy` and `BlockPlugin.dfy` do the same for block volumes with a clock in place of a
log; what became of a volume is a function of the calls on record. `BlockRuns.dfy` is the account over
any interleaving of block attempts, whose states at rest are what a process can start from. `Zones.dfy` and
`OciProvisioner.dfy` are the wrapper. The plugin interface is the datatype `Core.Plugin` over the
two plugin classes.

## What is assumed

* At most one Provision attempt per claim and one Delete per persistent volume is in flight (the
  controller's lock); any number of claims run in parallel.
* ListFileSystems filters exactly by compartment, availability domain and name, and its single
  response is complete except that DELETED file systems may or may not be in it. The pages of
  ListExports are finite in number and, by the last one, have shown every matching export that is
  not DELETED at that moment; exports may change between pages.
* Lifecycles only move forward. Nobody else creates file systems or exports while the provisioner
  runs; whatever exists at the outset is arbitrary except that it already satisfies uniqueness.
  Outside deletions are allowed everywhere, and each theorem that needs them absent says so.
* A call that takes effect does so before the attempt that made it ends.
* A not-found answer may be untrue, since the service gives it to unauthorised callers as well; the
  theorems carry that case (`Untrue`, `Denied`).
* PollImmediate makes one check at once, starts its ticker and timer when that is answered, and makes at
  least one more before it times out, the last when the timer closes; a timeout of 0 never closes. A
  call under an expired context is not sent.
* A process may start from any state that earlier ones can have left, with nothing in flight.
* The naming prefix and the compartment do not change.

## Where the code is not what it says, or not what one would expect

* The comment at `pkg/provisioner/fss/fss.go:231` says that an existing export is found by file
  system, export set and path. The path is not compared: `FssSafety.AdoptsWhatIsThere` says that
  whatever export is there is the one used, and `FssSafety.IssuedPath` exactly when a volume's path
  is then the plugin's own.
* Uniqueness is per availability domain and per export set: `FssRecovery.RetryElsewhere` makes a
  second live volume for one claim.
* The lookup by display name ignores lifecycles. A claim can be provisioned exactly when no file
  system of its name is DELETING (`FssRecovery.SuccessExactly`). Even then an attempt may be refused:
  a DELETED file system that is still listed makes it give up, either alone, as one that will never be
  ACTIVE, or beside a live one, as one too many. No answer can be refused exactly when every file
  system of the claim's name is CREATING or ACTIVE (`FssRecovery.RefusalExactly`).
* The block plugin's poll and its compensating delete inherit the create's deadline. The wait can time
  out exactly when its own timer can close before that deadline (`BlockPlugin.TimesOutExactly`), so
  never with the three minutes configured for both, and never with a timer of 0, which does not close.
  A volume still undecided at the deadline is always left behind: the next read is not sent and fails
  the wait, and then neither is the delete (`BlockPlugin.LateReadLeaks`, with a run in
  `BlockPlugin.UndecidedAtTheDeadlineLeaks`). After any failed wait the delete is sent exactly when the
  wait was over before the deadline (`BlockPlugin.CompensationExactly`).
* Rounding up is not a ceiling for negative or overflowing numerators (`Sizes.RoundsUpExactly`).
* The file system plugin names by claim UID, the block plugin by claim name.
* Looking an availability domain up by its label can find another one (`Zones.LabelMayFindAnother`).

## Model

| member | source | states |
|---|---|---|
| FssInvariant.StepKeepsInv | pkg/provisioner/fss/fss.go:186-284 | every event of every attempt, teardown and the service keeps the invariant: what each attempt believes between a listing and the create relying on it stays true whatever the others do |
| FssInvariant.RunKeepsInv | pkg/provisioner/fss/fss.go:186-284 | so every state of every run has it |
| FssInvariant.ListExportsKeepsInv | pkg/provisioner/fss/fss.go:231-257 | reading one page of exports at a time, while lifecycles move between pages, ends with the knowledge that no live export of the file system is in the export set, or with one that was live when read |
| FssInvariant.AddFsKeepsInv | pkg/provisioner/fss/fss.go:215-226 | creating a file system keeps uniqueness and disturbs no other attempt's knowledge, because prefix plus UID tells claims apart |
| FssInvariant.AddExportKeepsInv | pkg/provisioner/fss/fss.go:268-281 | the same for creating an export |
| FssInvariant.ClaimFrame | pkg/provisioner/fss/fss.go:307-381 | one event of an attempt changes only that attempt, the volumes issued for its claim, and the one resource it creates |
| FssInvariant.TearFrame | pkg/provisioner/fss/fss.go:404-443 | one event of a Delete ages only the two resources the persistent volume names |
| FssSafety.NeverTwo | pkg/provisioner/fss/fss.go:186-284 | in every run two file systems that are not DELETED are equal iff compartment, availability domain and name are; two CREATING or ACTIVE exports are equal iff file system and export set are |
| FssSafety.ClaimsDoNotInterfere | pkg/provisioner/fss/fss.go:309-443 | a run none of whose actions concerns a claim leaves its file systems, exports, attempt and volumes exactly as they were |
| FssSafety.StepElsewhere | pkg/provisioner/fss/fss.go:309-443 | the same for one action |
| FssSafety.IdentityIsStable | pkg/provisioner/fss/fss.go:206-284 | over a whole run two volumes issued for one claim share the file system iff the availability domain is the same, and the export iff the export set is too, while undeleted |
| FssSafety.CreatesAreCounted | pkg/provisioner/fss/fss.go:206-284 | the effective creates of a run, lost responses included, are exactly the growth of what the claim owns |
| FssSafety.CreatesAreBounded | pkg/provisioner/fss/fss.go:206-284 | however often a claim is retried, effective creates total at most one file system and one export beyond those since deleted |
| FssSafety.SuccessIsActiveTogether | pkg/provisioner/fss/fss.go:324-397 | at the step that makes Provision succeed the export is ACTIVE and joins the claim's own file system to the mount target's export set, and the file system is ACTIVE iff it has not been deleted meanwhile |
| FssSafety.SuccessWithoutDeletion | pkg/provisioner/fss/fss.go:324-397 | with no deletion since the file system was found or made, both are ACTIVE at the same time at return |
| FssSafety.AdoptsWhatIsThere | pkg/provisioner/fss/fss.go:231-266 | the live export already between a file system and an export set, unless retired, is the one every volume there uses, under the path it had |
| FssSafety.IssuedPath | pkg/provisioner/fss/fss.go:231-272 | from any reachable state, unless those exports are retired, a volume's path is the plugin's own iff no live export already joining that file system to that export set has another |
| FssSafety.NoCreateBeforeValidation | pkg/provisioner/fss/fss.go:315-367 | whatever changes the service in an attempt is a create, and comes after that attempt itself read its mount target ACTIVE with addresses and an export set and then resolved one of those addresses |
| FssSafety.IssuedAfterValidation | pkg/provisioner/fss/fss.go:315-397 | a volume is only issued for an export set and server address its own attempt had validated |
| FssTeardown.ExportBeforeFs | pkg/provisioner/fss/fss.go:421-432 | a Delete that has reached DeleteFileSystem got there through its own DeleteExport, accepted or answered not found |
| FssTeardown.BothDropped | pkg/provisioner/fss/fss.go:421-443 | what the two deletes of one call, wherever in the run they were made, leave live: the file system iff its not-found was untrue, the export only if its was |
| FssTeardown.NilMeansGone | pkg/provisioner/fss/fss.go:421-443 | after a nil result the file system is live iff the service had just untruly answered not found about it, and the export is live only if it had done so about that |
| FssTeardown.DeleteConverges | pkg/provisioner/fss/fss.go:404-443 | any number of Deletes failing anywhere, among anything other claims do, once both deletes were truthfully answered leave live of the claim's what one clean Delete would, and further ones change nothing |
| FssTeardown.DeleteUndoesProvision | pkg/provisioner/fss/fss.go:404-443 | among anything other claims do, deleting a live volume removes exactly its two resources from what is live of the claim's, leaves nothing live that the claim could adopt there, and of the file system's exports exactly those in other export sets |
| FssRecovery.EndsExactly | pkg/provisioner/fss/fss.go:307-381 | the ways a delivered call ends an attempt, read off the machine: it sees the export ACTIVE, or its answer is one the plugin gives up on |
| FssRecovery.Recovery | pkg/provisioner/fss/fss.go:206-284 | from any reachable state with every file system of the claim's live and nothing of it deleted, an attempt whose own calls succeed is never refused an answer about its resources and ends only in success, having created exactly what was missing, whatever other claims do |
| FssRecovery.RefusalExactly | pkg/provisioner/fss/fss.go:186-284 | some answer about the claim's resources can make an attempt give up iff some file system of its name is not CREATING or ACTIVE beforehand |
| FssRecovery.SuccessExactly | pkg/provisioner/fss/fss.go:186-284 | with nothing being deleted, an attempt can be carried to success iff no file system of its name is DELETING beforehand |
| FssRecovery.CountsTheMissing | pkg/provisioner/fss/fss.go:206-284 | any run without deletions that ends with a live volume has created one file system iff there was none and one export iff there was no live one |
| FssRecovery.HealthyUnlessDeleted | pkg/provisioner/fss/fss.go:206-284 | failed attempts of any kind never lead out of the states recovery starts from |
| FssRecovery.CanFinish | pkg/provisioner/fss/fss.go:307-397 | an attempt that has found nothing on its way out can be carried to success from wherever it stands, for the export set it has read |
| FssRecovery.StuckWhileDeleting | pkg/provisioner/fss/fss.go:186-213 | while a file system of the claim's name is DELETING no attempt in its availability domain succeeds, in any run |
| FssRecovery.RetryElsewhere | pkg/provisioner/fss/fss.go:206-284 | provisioning a claim again can leave two live volumes, sharing the file system iff the availability domain is the same and the export iff the export set is too |
| FssProtocol.RefusalIsExcused | pkg/provisioner/fss/fss.go:186-284 | with nothing of the claim's deleted, no answer on record about its own resources is one the plugin gives up on |
| FssProtocol.NotRefusedExactly | pkg/provisioner/fss/fss.go:88-401 | the plugin goes on iff the call succeeded and what it read is as needed or can still become so |
| FssProtocol.StoppedBy | pkg/provisioner/fss/fss.go:88-401 | the error of a failed attempt, answer by answer: a failed call's own, or what the state, listing or mount target read last amounts to |
| FssProtocol.RefusedIsEnded | pkg/provisioner/fss/fss.go:88-257 | a truthful answer to a read is one the plugin gives up on iff the machine's step on it ends the attempt without success, and one that only leads to another poll leaves the machine as it was |
| FssPlugin.FilesystemProvisioner.AwaitFileSystem | pkg/provisioner/fss/fss.go:88-120 | its calls are reads of that file system, all but the last answered CREATING; the last answer decides: ACTIVE is returned, DELETING and DELETED are hopeless, a failed call is its own error, and CREATING, not before a second read, a timeout |
| FssPlugin.FilesystemProvisioner.AwaitMountTarget | pkg/provisioner/fss/fss.go:122-153 | the same for mount targets |
| FssPlugin.FilesystemProvisioner.AwaitExport | pkg/provisioner/fss/fss.go:155-184 | the same for exports; the poll that sees it ACTIVE issues the volume |
| FssPlugin.FilesystemProvisioner.FindExport | pkg/provisioner/fss/fss.go:233-257 | returns the first CREATING or ACTIVE item of the concatenation of the pages in the answers on record: every page before the last has none, the result is the first on the last one, None only when that has none either and no page follows, and an error only, and its own, when the last page failed; ends because the pages to come get fewer |
| FssPlugin.PagingIsInvisible | pkg/provisioner/fss/fss.go:233-257 | two ways of splitting the same items into pages give the same result |
| FssPlugin.FilesystemProvisioner.GetFileSystemByDisplayName | pkg/provisioner/fss/fss.go:186-204 | one listing: its only item is adopted, an empty one leads to the create, and the error is the failed call's own or that there are several |
| FssPlugin.FilesystemProvisioner.GetOrCreateFileSystem | pkg/provisioner/fss/fss.go:206-229 | on success the attempt holds an ACTIVE file system of its own name, the one item listed or, when none was, the one created; on failure the error is that of the last call |
| FssPlugin.FilesystemProvisioner.GetOrCreateExport | pkg/provisioner/fss/fss.go:259-284 | on success the volume for that file system and export set has been issued and its export is ACTIVE; on failure the error is that of the last call |
| FssPlugin.FilesystemProvisioner.ResolveMountTarget | pkg/provisioner/fss/fss.go:324-358 | the export set is that of the mount target in the last read, which saw it ACTIVE, and the server the address in the answer about one of the addresses it had then |
| FssPlugin.IsReadOnly | pkg/provisioner/fss/fss.go:298-305 | read-only iff every requested mode is ReadOnlyMany |
| FssPlugin.FilesystemProvisioner.Provision | pkg/provisioner/fss/fss.go:307-401 | the only mount target read is the one in the claim's annotation, or in the class's parameter when the annotation is missing or empty, and no call is made iff both are; otherwise it succeeds iff no answer is refused and no poll times out, and else returns the error of the call where it stopped, given answer by answer; with nothing of the claim's deleted it fails only by a failed call, a timeout, the mount target or its address, and a success has created exactly the missing; on success the PV names a file system of that compartment, availability domain and prefix plus UID, and an export just seen ACTIVE that joins it to that mount target's export set, with that export's path and one of that target's addresses, both ACTIVE together unless the file system was deleted meanwhile |
| FssPlugin.FilesystemProvisioner.Delete | pkg/provisioner/fss/fss.go:404-443 | refuses without a call when an annotation is missing or empty; otherwise deletes the export and, iff that was accepted or answered not found, the file system; nil iff both deletes were made and each was accepted or answered not found, and otherwise the last call's own error, which is not a not-found; after nil the file system is live iff its denial on record was untrue, and the export only if its was; a failed Delete leaves the volume deletable |
| Polling.OutcomeIsFirstDecisive | vendor/k8s.io/apimachinery/pkg/util/wait/wait.go:240-265 | a run of polls ends with the first decisive observation, and times out iff there was none |
| Naming.DisplayNameInjective | pkg/provisioner/fss/fss.go:309 | for a fixed prefix two claims share a display name only if they are the same |
| Naming.DisplayNameCollision | pkg/provisioner/fss/fss.go:309 | two prefixes can make claims collide iff one extends the other by exactly what opens the first UID |
| Naming.Surrounded | pkg/provisioner/utils.go:25-31 | every value of the environment variable is a text with no space at either end, between spaces |
| Naming.PrefixOf | pkg/provisioner/utils.go:25-31 | the prefix is that text, with a hyphen added unless it is empty or ends in one |
| Naming.GetPrefix | pkg/provisioner/utils.go:25-31 | so it is empty, or ends in a hyphen and starts with no space |
| Naming.GetPrefixIdempotent | pkg/provisioner/utils.go:25-31 | a value that is a prefix already is left alone |
| Errors.RootDecides | pkg/provisioner/errors.go:28-40 | an error reads as not found iff what it ultimately wraps is the sentinel or a 404 of the service |
| Errors.WrappingKeepsNotFound | pkg/provisioner/errors.go:33-39 | adding context never changes that |
| Client.Configuration.CompartmentOCID | pkg/oci/client/client.go:116-126 | the configured compartment wins over the instance's own, and every later call gives the same, so list and create agree on it |
| BlockPlugin.BlockProvisioner.Provision | pkg/provisioner/block/block.go:146-250 | no call is made iff some mode is not ReadWriteOnce or no size is requested; the volume asked for has the availability domain, compartment, prefix plus claim name and backup of the claim, and the least whole number of MiB that holds the capacity published, the minimum when both rounding flags hold and it is the larger, else the request; a failed create's error is returned, otherwise the last read decides, as to the compensating delete as well, and then the environment's region or the metadata's; the calls are one after the other and none has a later deadline than the create's; at most one volume comes to be, and unless the service gave it up it is live iff it is returned or leaked |
| BlockPlugin.LeaksExactly | pkg/provisioner/block/block.go:192-220 | the three leaks read off the calls: the create took effect and its response was lost, or the wait failed and the delete was not carried out, or the wait succeeded and the region was not found out |
| BlockPlugin.VerdictFate | pkg/provisioner/block/block.go:192-247 | a volume is returned iff it is handed out, under its own identifier; an error means that there is none, that it was compensated, or a leak |
| BlockPlugin.WaitedLast | pkg/provisioner/block/block.go:103-133 | how a Provision's wait ended is what its last read says, and the compensating delete is made iff that was not AVAILABLE |
| BlockPlugin.TimesOutExactly | pkg/provisioner/block/block.go:103-133 | a wait can time out iff its timer is not 0 and can close before the create's deadline |
| BlockPlugin.TimedOutInTime | pkg/provisioner/block/block.go:189-209 | a wait that times out is over before the create's deadline, so its compensating delete is sent |
| BlockPlugin.LateReadLeaks | pkg/provisioner/block/block.go:103-209 | once a read comes at or after the create's deadline the wait fails by that read, the compensating delete is not sent, and the volume is leaked |
| BlockPlugin.CompensationExactly | pkg/provisioner/block/block.go:189-209 | after a wait that failed, the delete is sent, and can be carried out, iff the wait was over before the create's deadline |
| BlockPlugin.UndecidedAtTheDeadlineLeaks | pkg/provisioner/block/block.go:189-209 | with both timeouts as configured, the calls of a Provision that leaves a live volume behind so |
| BlockPlugin.BlockProvisioner.MakeVolume | pkg/provisioner/block/block.go:189-209 | the create, wait and compensate core of it: its calls with their times, its result and what became of the volume |
| BlockPlugin.BlockProvisioner.WaitForVolumeAvailable | pkg/provisioner/block/block.go:103-133 | its calls are reads of that volume, one per observation: at once, then at ticks of the interval, and last when the timer closes, each under the caller's deadline and answered before it if at all; all but the last saw it PROVISIONING or RESTORING, and the last decides: AVAILABLE succeeds, FAULTY, TERMINATING and TERMINATED are hopeless, a failed read is its own error, and a timeout only by a read made after the timer closed |
| BlockClients.WithTimeout | pkg/provisioner/block/block.go:105-202 | a nested deadline never outlives its parent |
| BlockPlugin.BlockProvisioner.PlanVolume | pkg/provisioner/block/block.go:148-187 | succeeds iff every mode is ReadWriteOnce and a size is requested, the mode's error first; the capacity is the minimum when both rounding flags hold and it is the larger, else the request, and the size the least whole number of MiB that holds that capacity; name, compartment, availability domain and backup are the claim's |
| BlockPlugin.BlockProvisioner.Capacity | pkg/provisioner/block/block.go:154-174 | the larger of request and minimum when both rounding flags hold, the request otherwise |
| BlockPlugin.BlockProvisioner.Publish | pkg/provisioner/block/block.go:211-249 | fails, with the metadata's error, iff the region is neither in the environment nor in the metadata, and otherwise publishes the volume with the environment's region, else the metadata's, and the requested file system type, else ext4 |
| BlockPlugin.BlockProvisioner.Delete | pkg/provisioner/block/block.go:253-280 | one delete of the annotated volume: nil iff it was accepted or answered not found, by status or by error, and otherwise its own error; afterwards the volume is live iff it was when the service dealt with the call, so after nil iff the not-found on record was untrue; accounts stay exact |
| BlockPlugin.OutcomeKeepsAccount | pkg/provisioner/block/block.go:192-247 | over any sequence of Provisions, each of our volumes is live iff handed out or leaked, unless the service gave it up |
| BlockPlugin.DeletionKeepsAccount | pkg/provisioner/block/block.go:253-280 | and over Deletes |
| BlockPlugin.LiveVolumesAreCounted | pkg/provisioner/block/block.go:192-280 | no volume serves two calls, and our live volumes are exactly as many as the calls whose volume is handed out or leaked and was neither deleted nor given up |
| BlockRuns.RunKeepsBooks | pkg/provisioner/block/block.go:146-280 | the same account in every state of every interleaving of any number of Provisions and Deletes, call by call |
| BlockRuns.RunsAreCounted | pkg/provisioner/block/block.go:146-280 | so there our live volumes are exactly as many as the calls in flight with one, or whose volume is handed out or leaked, those the service gave up aside |
| BlockRuns.BooksAtRest | pkg/provisioner/block/block.go:146-280 | with no attempt in flight the books of such a run are the account that Provision and Delete keep |
| Sizes.RoundsUpExactly | pkg/provisioner/block/block.go:99-101 | in wrapping, truncating 64-bit arithmetic rounding up is a ceiling iff the sum does not overflow and is non-negative or the value is one more than a multiple |
| Sizes.SizeIsLeast | pkg/provisioner/block/block.go:154-173 | the MiB count is the least covering the quantity, fractional bytes included |
| Sizes.RoundingCommutesWithMax | pkg/provisioner/block/block.go:168-173 | rounding the larger quantity is taking the larger rounded size |
| Sizes.VolumeRoundingEnabled | pkg/provisioner/block/block.go:135-143 | off iff the parameter is present and parses as false; a malformed value leaves it on |
| Zones.FailureDomain | pkg/provisioner/core/provisioner.go:130-136 | the label is a suffix of the name, and the name itself when it has no colon |
| Zones.AfterFirstColon | pkg/provisioner/core/provisioner.go:130-136 | the label is what follows the first colon, later colons included |
| Zones.FindsFirst | pkg/provisioner/core/utils.go:42-46 | the lookup gives the first listed name with the suffix, and fails iff there is none |
| Zones.HasSuffixExactly | pkg/provisioner/core/utils.go:42 | a name ends as asked iff it is some text followed by that |
| Zones.LabelFindsItsDomain | pkg/provisioner/core/provisioner.go:130-148 | a domain's label finds that domain again iff every other name ending in the label comes after it in the listing |
| Zones.LabelMayFindAnother | pkg/provisioner/core/utils.go:42-46 | a listing in which it finds another |
| Zones.ZonesIgnoreOrder | pkg/provisioner/core/utils.go:72-78 | node order and multiplicity do not matter |
| Zones.RetriesAgree | pkg/provisioner/core/utils.go:59-84 | retries of a claim look the same name up while zones are stable; without a selector it is some node's zone, and there is none iff no node has one |
| Core.OCIProvisioner.FindADByName | pkg/provisioner/core/utils.go:32-47 | succeeds iff the listing for the effective compartment did and some name in it ends as asked, and then with the first such name as listed; otherwise with the listing's error or that there is no such domain |
| Core.OCIProvisioner.ChooseAvailabilityDomain | pkg/provisioner/core/utils.go:51-91 | the name is the selector's standard label, else its compatibility label, else the chooser's pick for the claim's name from the zones of the nodes; the domain is the first listed one that ends in it; the errors are, in order, the failed node list, no zone on any node, the failed listing, no such domain |
| Core.StampedPasses | pkg/provisioner/core/provisioner.go:145-162 | a stamped volume passes the gate and keeps every annotation and label of the plugin's but the zone |
| Core.OCIProvisioner.Provision | pkg/provisioner/core/provisioner.go:139-152 | a failed choice leaves the service alone; otherwise the result is the plugin's own, on the calls it has since put on record with all that the plugin's Provision promises of them: its error unchanged, or its persistent volume stamped, which passes the gate and names what was made or adopted; the stamp is the name selected by the claim or picked from the nodes' zones, the effective compartment, and the label of the availability domain, which is the first listed there that ends in that name and is where the file system or block volume really is |
| Core.OCIProvisioner.Delete | pkg/provisioner/core/provisioner.go:156-165 | a volume without our stamp is refused without a call, one with none as missing it and one with another's as ignored; an error is the last call's own; nil means that every delete was made and accepted or answered not found, and that nothing the volume stands for is live unless a not-found on record was untrue; a failed Delete can be made again |
| Core.OCIProvisioner.Withdraw | vendor/github.com/kubernetes-incubator/external-storage/lib/controller/controller.go:1112-1122 | either the last Delete made every delete and nothing of the volume is live unless a not-found on record was untrue, or all retries were made; every Delete before that was made and refused |
| Core.OCIProvisioner.ProvisionAndWithdraw | vendor/github.com/kubernetes-incubator/external-storage/lib/controller/controller.go:1066-1123 | the controller's withdrawal of a new volume it could not save does that for what Provision made or adopted |

## Left out

- The OCI SDK clients, HTTP, proxy and certificate setup and instance metadata are service steps with arbitrary results.
- The controller library, informers and leader election appear only as the assumption of one attempt per claim, and in `ProvisionAndWithdraw`.
- The random choice of a mount target address is an arbitrary one.
- ChooseZoneForVolume is any function from the zone set and the claim name to a member of the set; for an empty claim name ChooseZoneForVolume picks at random.
- Logging, flags, configuration loading and validation, Ready and NewOCIProvisioner would only add straight-line members.
- mapVolumeIDToName and the second roundUpSize in core are called nowhere.
- Error texts are reduced to one constructor per message; the block plugin's wrapping of a failed read loses that read's own error.
- Block volume attempts that run in parallel are followed in the step machine of `BlockRuns.dfy`; the methods of `BlockProvisioner` follow one attempt of this process at a time, and others drift.
- Quantities are exact reals whose byte value fits in 64 bits; the saturation of larger ones is not modelled.
- Core.OCIProvisioner.ProvisionAndWithdraw: assumes that the claim has no earlier file storage volume, whose own Delete could be in flight at the same time; for a further round use Provision and then Withdraw, which only needs that no other Delete of the volume is in flight.
- FssPlugin.FilesystemProvisioner.Delete: a persistent volume whose annotations name resources that no Provision of this or an earlier process paired is not modelled; nor is one for BlockPlugin.BlockProvisioner.Delete or Core.OCIProvisioner.Delete.
- FssTeardown.DeleteConverges: a call whose effect comes after its attempt has ended is not modelled.
