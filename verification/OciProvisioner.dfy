/**
 The provisioner the controller talks to (pkg/provisioner/core): it fixes the availability domain,
 stamps what a plugin provisions, and only deletes what carries the stamp.
 */
module Core {
  import opened Wrappers
  import opened Errors
  import opened Kubernetes
  import opened Client
  import opened Sizes
  import opened Zones
  import Naming
  import FileStorage
  import FssClients
  import FssProtocol
  import FssRecovery
  import FssTeardown
  import FssPlugin
  import BlockClients
  import BlockPlugin

  const OCI_PROVISIONER_IDENTITY := "ociProvisionerIdentity"
  const OCI_AVAILABILITY_DOMAIN := "ociAvailabilityDomain"
  const OCI_COMPARTMENT := "ociCompartment"

  datatype Plugin =
    | Fss(fss: FssPlugin.FilesystemProvisioner)
    | Block(block: BlockPlugin.BlockProvisioner)

  /** What a persistent volume stands for in the plugin that made it. */
  datatype Receipt = FssReceipt(h: FileStorage.Handle) | BlockReceipt(call: nat)

  /** What a Provision call finds when it begins. */
  datatype Before =
    | FssBefore(world: FileStorage.World, log: seq<FileStorage.Action>, calls: nat)
    | BlockBefore(now: nat, calls: nat, call: nat)

  /** The first call is a read of that mount target, and no other one is read. */
  ghost predicate AsksAbout(said: seq<FssClients.Record>, mount: string) {
    && said != [] && said[0].Asked? && said[0].answer.MountAnswer?
    && forall k | 0 <= k < |said| && said[k].Asked? && said[k].answer.MountAnswer? :: said[k].answer.id == mount
  }

  /**
   What the file system plugin's result says about the calls it has made: it goes on as long as none
   is refused and returns the error of the one where it stops; with nothing of the claim's deleted
   that is never its own resources' doing, and a success has created exactly what was missing.
   */
  ghost predicate FssReports(before: Before, log: seq<FileStorage.Action>, said: seq<FssClients.Record>, options: VolumeOptions, ad: string,
                             made: Result<PersistentVolume, Error>, receipt: Receipt)
    requires before.FssBefore? && options.pvc.Some?
  {
    var uid, annotations, parameters := options.pvc.value.uid, options.pvc.value.annotations, options.parameters;
    && (if FssPlugin.ANNOTATION_MOUNT_TARGET_ID in annotations && annotations[FssPlugin.ANNOTATION_MOUNT_TARGET_ID] != "" then
          AsksAbout(said, annotations[FssPlugin.ANNOTATION_MOUNT_TARGET_ID])
        else if FssPlugin.MNT_TARGET_ID in parameters && parameters[FssPlugin.MNT_TARGET_ID] != "" then
          AsksAbout(said, parameters[FssPlugin.MNT_TARGET_ID])
        else said == [])
    && (said == [] ==> made == Failure(Plain(NoMountTargetId)))
    && (said != [] ==> FssProtocol.Ours(said, uid, ad, |before.log|) && if made.Success? then FssProtocol.Goes(said) else FssProtocol.Fails(said, made.error))
    && (before.log <= log && FssRecovery.Healthy(before.world, uid, ad) && FssRecovery.UndeletedRun(before.world, log[|before.log|..], uid, ad) ==>
          && (said != [] && made.Failure? ==> FssProtocol.Excused(said[|said| - 1]))
          && (made.Success? ==>
                receipt.FssReceipt? && FssRecovery.CreatedTheMissing(before.world, log[|before.log|..], uid, ad, receipt.h)))
  }

  function Stamp(pv: PersistentVolume, chosen: string, compartment: string, ad: string): PersistentVolume {
    pv.(
      annotations := pv.annotations[OCI_PROVISIONER_IDENTITY := OCI_PROVISIONER_IDENTITY][OCI_AVAILABILITY_DOMAIN := chosen][OCI_COMPARTMENT := compartment],
      labels := pv.labels[LABEL_ZONE_FAILURE_DOMAIN := FailureDomain(ad)])
  }

  /** The identity gate: None lets a volume through to the plugin. */
  function Gate(volume: PersistentVolume): Option<Error> {
    if OCI_PROVISIONER_IDENTITY !in volume.annotations then Some(Plain(MissingAnnotation(OCI_PROVISIONER_IDENTITY)))
    else if volume.annotations[OCI_PROVISIONER_IDENTITY] != OCI_PROVISIONER_IDENTITY then Some(Plain(IgnoredIdentity))
    else None
  }

  /**
   A stamped volume passes the gate whatever it was before, keeps every annotation and label of the
   plugin's but the zone, and is exactly what was stamped in all else.
   */
  lemma StampedPasses(pv: PersistentVolume, chosen: string, compartment: string, ad: string)
    ensures var s := Stamp(pv, chosen, compartment, ad);
      && Gate(s).None?
      && (forall key | key in pv.annotations && key !in {OCI_PROVISIONER_IDENTITY, OCI_AVAILABILITY_DOMAIN, OCI_COMPARTMENT} ::
            key in s.annotations && s.annotations[key] == pv.annotations[key])
      && s.annotations.Keys == pv.annotations.Keys + {OCI_PROVISIONER_IDENTITY, OCI_AVAILABILITY_DOMAIN, OCI_COMPARTMENT}
      && s.annotations[OCI_AVAILABILITY_DOMAIN] == chosen && s.annotations[OCI_COMPARTMENT] == compartment
      && s.labels == pv.labels[LABEL_ZONE_FAILURE_DOMAIN := FailureDomain(ad)]
      && s == pv.(annotations := s.annotations, labels := s.labels)
  {
  }

  /** The stamp's keys are none of the plugins' own. */
  lemma StampKeysApart()
    ensures {FssPlugin.OCI_VOLUME_ID, FssPlugin.OCI_EXPORT_ID, BlockPlugin.OCI_VOLUME_ID}
           !! {OCI_PROVISIONER_IDENTITY, OCI_AVAILABILITY_DOMAIN, OCI_COMPARTMENT}
  {
  }

  class OCIProvisioner {
    const config: Configuration
    const plugin: Plugin
    const choose: Chooser

    ghost predicate Valid()
      reads this, config, Reads()
    {
      && PicksAMember(choose)
      && match plugin
         case Fss(p) => p.config == config && p.Valid()
         case Block(p) => p.config == config && p.Valid() && IsInt64(Value(p.minVolumeSize))
    }

    ghost function Reads(): set<object> {
      match plugin
      case Fss(p) => {p, p.client, p.config}
      case Block(p) => {p, p.client, p.config}
    }

    /** What a call may change of the plugin and its service. */
    ghost function Footprint(): set<object> {
      match plugin
      case Fss(p) => {p.client}
      case Block(p) => {p, p.client}
    }

    constructor (config: Configuration, plugin: Plugin, choose: Chooser)
      requires PicksAMember(choose)
      requires plugin.Fss? ==> plugin.fss.config == config && plugin.fss.Valid()
      requires plugin.Block? ==> plugin.block.config == config && plugin.block.Valid() && IsInt64(Value(plugin.block.minVolumeSize))
      ensures Valid() && this.config == config && this.plugin == plugin
    {
      hide Value, PicksAMember, FssPlugin.FilesystemProvisioner.Valid, BlockPlugin.BlockProvisioner.Valid;
      this.config, this.plugin, this.choose := config, plugin, choose;
    }

    /** `service` is what the identity service answers for each compartment. */
    method FindADByName(name: string, service: string -> Result<seq<string>, Error>) returns (r: Result<string, Error>)
      requires config.Effective().Some?
      modifies config`compartmentOCID
      ensures config.Effective() == old(config.Effective())
      ensures config.compartmentOCID == if old(config.compartmentOCID) != "" then old(config.compartmentOCID) else config.metadata.value
      ensures r == Looked(service(config.compartmentOCID), name)
      ensures var listing := service(config.compartmentOCID);
        && (r.Success? <==> listing.Success? && exists k :: 0 <= k < |listing.value| && HasSuffix(listing.value[k], name))
        && (r.Success? ==> exists k :: FirstMatch(listing.value, name, k) && r.value == listing.value[k])
        && (r.Failure? ==> r.error == if listing.Failure? then listing.error else Plain(NoSuchAvailabilityDomain))
    {
      var compartment := config.CompartmentOCID();
      var response := service(compartment.value);
      if response.Failure? {
        return Failure(response.error);
      }
      var names := response.value;
      FindsFirst(names, name);
      for i := 0 to |names|
        invariant forall k | 0 <= k < i :: !HasSuffix(names[k], name)
      {
        if HasSuffix(names[i], name) {
          assert FirstMatch(names, name, i);
          return Success(names[i]);
        }
      }
      return Failure(Plain(NoSuchAvailabilityDomain));
    }

    /** The zones the nodes are labelled with. */
    static method ValidADs(nodes: seq<Node>) returns (validADs: set<string>)
      ensures validADs == ZonesOf(nodes)
    {
      validADs := {};
      for i := 0 to |nodes|
        invariant validADs == ZonesOf(nodes[..i])
      {
        ghost var before, after := nodes[..i], nodes[..i + 1];
        var labels := nodes[i].labels;
        if LABEL_ZONE_FAILURE_DOMAIN in labels {
          validADs := validADs + {labels[LABEL_ZONE_FAILURE_DOMAIN]};
        }
        OneMoreZone(before, nodes[i]);
        assert after == before + [nodes[i]];
      }
      assert nodes[..|nodes|] == nodes;
    }

    /** The name chosen for a claim, and the availability domain it stands for. */
    method ChooseAvailabilityDomain(pvc: PersistentVolumeClaim, nodes: Result<seq<Node>, Error>, service: string -> Result<seq<string>, Error>)
        returns (r: Result<(string, string), Error>)
      requires config.Effective().Some?
      modifies config`compartmentOCID
      ensures config.Effective() == old(config.Effective())
      ensures r == Choice(pvc, nodes, service(config.Effective().value))
      ensures var listing, selector := service(config.Effective().value), if pvc.selector.Some? then pvc.selector.value else map[];
        var zones := if nodes.Failure? then {} else set n | n in nodes.value && LABEL_ZONE_FAILURE_DOMAIN in n.labels :: n.labels[LABEL_ZONE_FAILURE_DOMAIN];
        var selected := LABEL_ZONE_FAILURE_DOMAIN in selector || LABEL_AVAILABILITY_DOMAIN in selector;
        var name := if LABEL_ZONE_FAILURE_DOMAIN in selector then selector[LABEL_ZONE_FAILURE_DOMAIN]
                    else if LABEL_AVAILABILITY_DOMAIN in selector then selector[LABEL_AVAILABILITY_DOMAIN]
                    else choose(zones, pvc.name);
        if !selected && nodes.Failure? then r == Failure(nodes.error)
        else if !selected && zones == {} then r == Failure(Plain(NoZoneLabels))
        else if listing.Failure? then r == Failure(listing.error)
        else if r.Failure? then r.error == Plain(NoSuchAvailabilityDomain) && forall k | 0 <= k < |listing.value| :: !HasSuffix(listing.value[k], name)
        else r.value.0 == name && exists k :: FirstMatch(listing.value, name, k) && r.value.1 == listing.value[k]
    {
      hide Looked, FirstMatch, HasSuffix, ZonesOf;
      ghost var listing := service(config.Effective().value);
      var name: Option<string> := None;
      if pvc.selector.Some? {
        if LABEL_ZONE_FAILURE_DOMAIN in pvc.selector.value {
          name := Some(pvc.selector.value[LABEL_ZONE_FAILURE_DOMAIN]);
        } else if LABEL_AVAILABILITY_DOMAIN in pvc.selector.value {
          name := Some(pvc.selector.value[LABEL_AVAILABILITY_DOMAIN]);
        }
      }
      if name.None? {
        if nodes.Failure? {
          ChoiceMeans(pvc, nodes, listing, Failure(nodes.error));
          return Failure(nodes.error);
        }
        var validADs := ValidADs(nodes.value);
        if |validADs| == 0 {
          ChoiceMeans(pvc, nodes, listing, Failure(Plain(NoZoneLabels)));
          return Failure(Plain(NoZoneLabels));
        }
        name := Some(choose(validADs, pvc.name));
      }
      var ad := FindADByName(name.value, service);
      r := if ad.Failure? then Failure(ad.error) else Success((name.value, ad.value));
      ChoiceMeans(pvc, nodes, listing, r);
    }

    /** A function of the selector, the set of node zones, the claim's name and the listed domains. */
    ghost function Choice(pvc: PersistentVolumeClaim, nodes: Result<seq<Node>, Error>, listing: Result<seq<string>, Error>): Result<(string, string), Error> {
      var zones := if nodes.Success? then Success(ZonesOf(nodes.value)) else Failure(nodes.error);
      var name := ChosenName(pvc, zones, choose);
      if name.Failure? then Failure(name.error)
      else if Looked(listing, name.value).Failure? then Failure(Looked(listing, name.value).error)
      else Success((name.value, Looked(listing, name.value).value))
    }

    /** What the choice comes to: a selected name, the standard label first, or else one of the nodes' zones; and the first domain that ends in it. */
    lemma ChoiceMeans(pvc: PersistentVolumeClaim, nodes: Result<seq<Node>, Error>, listing: Result<seq<string>, Error>, r: Result<(string, string), Error>)
      requires r == Choice(pvc, nodes, listing)
      ensures var selector := if pvc.selector.Some? then pvc.selector.value else map[];
        var zones := if nodes.Failure? then {} else set n | n in nodes.value && LABEL_ZONE_FAILURE_DOMAIN in n.labels :: n.labels[LABEL_ZONE_FAILURE_DOMAIN];
        var selected := LABEL_ZONE_FAILURE_DOMAIN in selector || LABEL_AVAILABILITY_DOMAIN in selector;
        var name := if LABEL_ZONE_FAILURE_DOMAIN in selector then selector[LABEL_ZONE_FAILURE_DOMAIN]
                    else if LABEL_AVAILABILITY_DOMAIN in selector then selector[LABEL_AVAILABILITY_DOMAIN]
                    else choose(zones, pvc.name);
        if !selected && nodes.Failure? then r == Failure(nodes.error)
        else if !selected && zones == {} then r == Failure(Plain(NoZoneLabels))
        else if listing.Failure? then r == Failure(listing.error)
        else if r.Failure? then r.error == Plain(NoSuchAvailabilityDomain) && forall k | 0 <= k < |listing.value| :: !HasSuffix(listing.value[k], name)
        else r.value.0 == name && exists k :: FirstMatch(listing.value, name, k) && r.value.1 == listing.value[k]
    {
      hide Looked, FirstMatch, HasSuffix, ZonesOf;
      if nodes.Success? { ZonesAre(nodes.value); }
      var name := ChosenName(pvc, if nodes.Success? then Success(ZonesOf(nodes.value)) else Failure(nodes.error), choose);
      if name.Success? { LookedExactly(listing, name.value); }
    }

    /** The resource a volume made here names exists in its plugin, and no Delete of it is in flight. */
    ghost predicate Stands(volume: PersistentVolume, receipt: Receipt)
      reads Footprint()
    {
      match plugin
      case Fss(p) =>
        && receipt.FssReceipt? && FssPlugin.Names(volume, receipt.h)
        && receipt.h in p.client.world.volumes && receipt.h !in p.client.world.teardowns
      case Block(p) =>
        && receipt.BlockReceipt? && receipt.call in p.histories
        && var fate := BlockPlugin.FateOf(p.histories[receipt.call]);
        && (fate.Handed? || fate.Deleted?)
        && BlockPlugin.OCI_VOLUME_ID in volume.annotations && fate.id == volume.annotations[BlockPlugin.OCI_VOLUME_ID]
    }

    /** The plugin's service has not changed since the call began. */
    twostate predicate ServiceUntouched()
      reads Footprint()
    {
      match plugin
      case Fss(p) => p.client.world == old(p.client.world) && p.client.calls == old(p.client.calls)
      case Block(p) => p.client.calls == old(p.client.calls) && p.client.volumes == old(p.client.volumes) && p.histories == old(p.histories) && p.calls == old(p.calls)
    }

    /** No attempt for the claim is in flight (the controller's claim lock), and sizes fit in 64 bits. */
    ghost predicate CanProvision(options: VolumeOptions)
      reads Footprint()
    {
      && options.pvc.Some?
      && match plugin
         case Fss(p) => options.pvc.value.uid !in p.client.world.claims
         case Block(p) => options.pvc.value.storage.Some? ==> IsInt64(Value(options.pvc.value.storage.value))
    }

    /** How many calls of the service are on record. */
    ghost function CallCount(): nat
      reads Footprint()
    {
      match plugin
      case Fss(p) => |p.client.calls|
      case Block(p) => |p.client.calls|
    }

    /** Everything provisioned so far. */
    ghost function Receipts(): set<Receipt>
      reads Footprint()
    {
      match plugin
      case Fss(p) => set h | h in p.client.world.volumes :: FssReceipt(h)
      case Block(p) => set call | call in p.histories :: BlockReceipt(call)
    }

    /** The receipt is for what the call that has just ended made, or for file storage adopted. */
    ghost predicate Made(volume: PersistentVolume, receipt: Receipt, uid: string, ad: string, earlier: set<Receipt>)
      reads Footprint()
    {
      match plugin
      case Fss(p) =>
        && receipt in Receipts() && receipt.FssReceipt? && FssPlugin.Names(volume, receipt.h)
        && receipt.h.uid == uid && receipt.h.ad == ad
        && (receipt !in earlier ==> receipt.h !in p.client.world.teardowns)
      case Block(p) =>
        && Stands(volume, receipt) && receipt !in earlier
        && var fate := BlockPlugin.FateOf(p.histories[receipt.call]);
        fate.Handed? && fate.id in p.client.volumes && p.client.volumes[fate.id].details.ad == ad
    }

    /** The availability domain of what was made, as the receipt's file system or the block volume itself shows. */
    ghost predicate Placed(receipt: Receipt, ad: string)
      reads Footprint()
    {
      match plugin
      case Fss(_) => receipt.FssReceipt? && receipt.h.ad == ad
      case Block(p) =>
        && receipt.BlockReceipt? && receipt.call in p.histories
        && var fate := BlockPlugin.FateOf(p.histories[receipt.call]);
        fate.Handed? && fate.id in p.client.volumes && p.client.volumes[fate.id].details.ad == ad
    }

    /** What a claim and its storage class ask for is passed on unchanged. */
    ghost predicate PassedOn(volume: PersistentVolume, options: VolumeOptions)
      requires options.pvc.Some?
    {
      volume.accessModes == options.pvc.value.accessModes && volume.reclaimPolicy == options.reclaimPolicy && volume.mountOptions == options.mountOptions
    }

    ghost function Snapshot(): Before
      reads Footprint()
    {
      match plugin
      case Fss(p) => FssBefore(p.client.world, p.client.log, |p.client.calls|)
      case Block(p) => BlockBefore(p.client.now, |p.client.calls|, p.calls)
    }

    /** The plugin's result, and for a block volume what became of it, follow from the calls it has made since. */
    ghost predicate Reports(before: Before, options: VolumeOptions, ad: string, compartment: string, metadata: Result<string, Error>,
                            made: Result<PersistentVolume, Error>, receipt: Receipt)
      requires options.pvc.Some?
      reads Footprint()
    {
      match plugin
      case Fss(p) =>
        && before.FssBefore? && before.calls <= |p.client.calls|
        && FssReports(before, p.client.log, p.client.calls[before.calls..], options, ad, made, receipt)
      case Block(p) =>
        && before.BlockBefore? && before.calls <= |p.client.calls| && before.call in p.histories
        && var said, history := p.client.calls[before.calls..], p.histories[before.call];
        && IsInt64(Value(p.minVolumeSize)) && (options.pvc.value.storage.Some? ==> IsInt64(Value(options.pvc.value.storage.value)))
        && history == BlockPlugin.History(said, p.Region(metadata).Success?, [])
        && p.Answered(options, ad, compartment, before.call, before.now, metadata, said, made)
        && p.Settles(options, ad, compartment, BlockPlugin.FateOf(history), p.client.volumes, made)
    }

    /** The plugin's own Provision. */
    method PluginProvision(options: VolumeOptions, ad: string, metadata: Result<string, Error>) returns (r: Result<PersistentVolume, Error>, receipt: Receipt)
      requires Valid() && CanProvision(options)
      modifies Footprint(), config`compartmentOCID
      ensures Valid() && config.Effective() == old(config.Effective()) && CallCount() >= old(CallCount())
      ensures Reports(old(Snapshot()), options, ad, old(config.Effective()).value, metadata, r, receipt)
      ensures r.Success? ==> Made(r.value, receipt, options.pvc.value.uid, ad, old(Receipts())) && PassedOn(r.value, options)
      ensures r.Success? ==> r.value.annotations.Keys !! {OCI_PROVISIONER_IDENTITY, OCI_AVAILABILITY_DOMAIN, OCI_COMPARTMENT}
    {
      hide Reports, Made, PassedOn;
      StampKeysApart();
      if plugin.Fss? {
        r, receipt := FssProvision(plugin.fss, options, ad, metadata);
      } else {
        r, receipt := BlockProvision(plugin.block, options, ad, metadata);
      }
    }

    method FssProvision(p: FssPlugin.FilesystemProvisioner, options: VolumeOptions, ad: string, metadata: Result<string, Error>)
        returns (r: Result<PersistentVolume, Error>, receipt: Receipt)
      requires Valid() && CanProvision(options) && plugin == Fss(p)
      modifies Footprint(), config`compartmentOCID
      ensures Valid() && config.Effective() == old(config.Effective()) && CallCount() >= old(CallCount())
      ensures Reports(old(Snapshot()), options, ad, old(config.Effective()).value, metadata, r, receipt)
      ensures r.Success? ==> Made(r.value, receipt, options.pvc.value.uid, ad, old(Receipts())) && PassedOn(r.value, options)
      ensures r.Success? ==> r.value.annotations.Keys == {FssPlugin.OCI_VOLUME_ID, FssPlugin.OCI_EXPORT_ID}
    {
      hide Naming.GetPrefix, FileStorage.Run, Value, FssProtocol.Serves, FssProtocol.Goes, FssProtocol.Ours, FssProtocol.Excused,
        FssProtocol.OwnPath, FssClients.Truthful, FileStorage.Keyed, FssRecovery.Healthy, FssRecovery.UndeletedRun,
        FssRecovery.CreatedTheMissing, FssProtocol.Refusal, FssProtocol.Waiting;
      ghost var n := |p.client.calls|;
      ghost var since := |p.client.log|;
      var pv, h, said := p.Provision(options, ad);
      FssProtocol.OursAreAsked(said, options.pvc.value.uid, ad, since);
      r, receipt := pv, FssReceipt(h);
      assert p.client.calls[n..] == said;
    }

    method BlockProvision(p: BlockPlugin.BlockProvisioner, options: VolumeOptions, ad: string, metadata: Result<string, Error>)
        returns (r: Result<PersistentVolume, Error>, receipt: Receipt)
      requires Valid() && CanProvision(options) && plugin == Block(p)
      modifies Footprint(), config`compartmentOCID
      ensures Valid() && config.Effective() == old(config.Effective()) && CallCount() >= old(CallCount())
      ensures Reports(old(Snapshot()), options, ad, old(config.Effective()).value, metadata, r, receipt)
      ensures r.Success? ==> Made(r.value, receipt, options.pvc.value.uid, ad, old(Receipts())) && PassedOn(r.value, options)
      ensures r.Success? ==> r.value.annotations.Keys == {BlockPlugin.OCI_VOLUME_ID}
    {
      hide Value, BlockPlugin.FateOf, BlockPlugin.Outcome, BlockPlugin.Conversed, BlockClients.Drifted, Naming.GetPrefix, Sizes.SizeInMBs,
        VolumeRoundingEnabled, BlockPlugin.Waited, BlockPlugin.Verdict, BlockPlugin.BlockProvisioner.Answered, BlockPlugin.BlockProvisioner.Region;
      receipt := BlockReceipt(p.calls);
      ghost var n := |p.client.calls|;
      assert p.calls in p.histories <==> p.calls in p.Fates();
      var pv, said := p.Provision(options, ad, metadata);
      r := pv;
      assert p.client.calls[n..] == said;
      if r.Success? {
        assert receipt.call in p.histories;
        assert BlockPlugin.FateOf(p.histories[receipt.call]).Handed?;
        assert p.client.volumes[BlockPlugin.FateOf(p.histories[receipt.call]).id].details.ad == ad;
        assert receipt !in old(Receipts());
      }
    }

    /**
     Choose an availability domain, provision there, and stamp.  A failed choice leaves the service
     alone.  Otherwise the result is the plugin's own, `made`: its error unchanged, or its persistent
     volume stamped, which passes this provisioner's gate.
     */
    method Provision(options: VolumeOptions, nodes: Result<seq<Node>, Error>, service: string -> Result<seq<string>, Error>,
                     metadata: Result<string, Error>)
        returns (r: Result<PersistentVolume, Error>, receipt: Receipt, ghost made: Result<PersistentVolume, Error>)
      requires Valid() && CanProvision(options)
      modifies Footprint(), config`compartmentOCID
      ensures Valid() && CallCount() >= old(CallCount())
      ensures var choice, compartment := Choice(options.pvc.value, nodes, service(old(config.Effective().value))), old(config.Effective().value);
        if choice.Failure? then r == Failure(choice.error) && ServiceUntouched()
        else
          && Reports(old(Snapshot()), options, choice.value.1, compartment, metadata, made, receipt)
          && r == (if made.Failure? then made else Success(Stamp(made.value, choice.value.0, compartment, choice.value.1)))
          && (r.Success? ==>
                && Made(r.value, receipt, options.pvc.value.uid, choice.value.1, old(Receipts()))
                && Stamped(r.value, choice.value.0, compartment, choice.value.1))
      ensures r.Success? ==> Gate(r.value).None? && PassedOn(r.value, options)
      ensures r.Success? ==> {OCI_AVAILABILITY_DOMAIN, OCI_COMPARTMENT} <= r.value.annotations.Keys && LABEL_ZONE_FAILURE_DOMAIN in r.value.labels
      ensures r.Success? ==>
        var chosen, listing := r.value.annotations[OCI_AVAILABILITY_DOMAIN], service(r.value.annotations[OCI_COMPARTMENT]);
        var selector := if options.pvc.value.selector.Some? then options.pvc.value.selector.value else map[];
        && r.value.annotations[OCI_COMPARTMENT] == (if old(config.compartmentOCID) != "" then old(config.compartmentOCID) else config.metadata.value)
        && (if LABEL_ZONE_FAILURE_DOMAIN in selector then chosen == selector[LABEL_ZONE_FAILURE_DOMAIN]
            else if LABEL_AVAILABILITY_DOMAIN in selector then chosen == selector[LABEL_AVAILABILITY_DOMAIN]
            else nodes.Success? && var zones := set n | n in nodes.value && LABEL_ZONE_FAILURE_DOMAIN in n.labels :: n.labels[LABEL_ZONE_FAILURE_DOMAIN];
              zones != {} && chosen == choose(zones, options.pvc.value.name))
        && listing.Success? && exists k :: FirstMatch(listing.value, chosen, k) && Placed(receipt, listing.value[k])
                                           && r.value.labels[LABEL_ZONE_FAILURE_DOMAIN] == FailureDomain(listing.value[k])
    {
      hide Reports, Made, Stamped, Stamp, PassedOn, Placed, FirstMatch, HasSuffix, FailureDomain, Choice, Gate, FssClients.FssClient.Valid, BlockPlugin.Accounted, Naming.GetPrefix, PicksAMember, Value;
      receipt, made := BlockReceipt(0), Failure(Plain(CallError));
      var choice := ChooseAvailabilityDomain(options.pvc.value, nodes, service);
      if choice.Failure? {
        return Failure(choice.error), receipt, made;
      }
      r, receipt, made := ProvisionIn(options, choice.value.0, choice.value.1, metadata);
      if r.Success? {
        MadeIsPlaced(r.value, receipt, options.pvc.value.uid, choice.value.1, old(Receipts()), choice.value.0, old(config.Effective()).value);
      }
    }

    lemma MadeIsPlaced(volume: PersistentVolume, receipt: Receipt, uid: string, ad: string, earlier: set<Receipt>, chosen: string, compartment: string)
      requires Made(volume, receipt, uid, ad, earlier) && Stamped(volume, chosen, compartment, ad)
      ensures Placed(receipt, ad)
      ensures OCI_AVAILABILITY_DOMAIN in volume.annotations && volume.annotations[OCI_AVAILABILITY_DOMAIN] == chosen
      ensures OCI_COMPARTMENT in volume.annotations && volume.annotations[OCI_COMPARTMENT] == compartment
      ensures LABEL_ZONE_FAILURE_DOMAIN in volume.labels && volume.labels[LABEL_ZONE_FAILURE_DOMAIN] == FailureDomain(ad)
    {
      hide FailureDomain, BlockPlugin.FateOf;
      var stamp := map[OCI_PROVISIONER_IDENTITY := OCI_PROVISIONER_IDENTITY, OCI_AVAILABILITY_DOMAIN := chosen, OCI_COMPARTMENT := compartment];
      assert (OCI_AVAILABILITY_DOMAIN, chosen) in stamp.Items && (OCI_COMPARTMENT, compartment) in stamp.Items;
    }

    /** Provision in a given availability domain, and stamp. */
    method ProvisionIn(options: VolumeOptions, chosen: string, ad: string, metadata: Result<string, Error>)
        returns (r: Result<PersistentVolume, Error>, receipt: Receipt, ghost made: Result<PersistentVolume, Error>)
      requires Valid() && CanProvision(options)
      modifies Footprint(), config`compartmentOCID
      ensures Valid() && CallCount() >= old(CallCount())
      ensures Reports(old(Snapshot()), options, ad, old(config.Effective()).value, metadata, made, receipt)
      ensures r == if made.Failure? then made else Success(Stamp(made.value, chosen, old(config.Effective()).value, ad))
      ensures r.Success? ==>
        && Made(r.value, receipt, options.pvc.value.uid, ad, old(Receipts())) && Stamped(r.value, chosen, old(config.Effective()).value, ad)
        && Gate(r.value).None? && PassedOn(r.value, options)
    {
      hide Reports, Made, Stamped, Stamp, PassedOn, Gate, FssClients.FssClient.Valid, BlockPlugin.Accounted, Naming.GetPrefix, PicksAMember, Value;
      r, receipt := PluginProvision(options, ad, metadata);
      made := r;
      if r.Success? {
        var compartment := config.CompartmentOCID();
        StampKeepsMade(r.value, receipt, options, ad, old(Receipts()), chosen, compartment.value);
        r := Success(Stamp(r.value, chosen, compartment.value, ad));
      }
    }

    lemma StampKeepsMade(volume: PersistentVolume, receipt: Receipt, options: VolumeOptions, ad: string, earlier: set<Receipt>, chosen: string, compartment: string)
      requires options.pvc.Some? && Made(volume, receipt, options.pvc.value.uid, ad, earlier)
      requires volume.annotations.Keys !! {OCI_PROVISIONER_IDENTITY, OCI_AVAILABILITY_DOMAIN, OCI_COMPARTMENT}
      ensures var s := Stamp(volume, chosen, compartment, ad);
        && Made(s, receipt, options.pvc.value.uid, ad, earlier) && Stamped(s, chosen, compartment, ad) && Gate(s).None?
        && (PassedOn(s, options) <==> PassedOn(volume, options))
    {
      var s := Stamp(volume, chosen, compartment, ad);
      hide Made;
      StampedPasses(volume, chosen, compartment, ad);
      assert Stamped(s, chosen, compartment, ad) && Gate(s).None?;
      assert PassedOn(s, options) <==> PassedOn(volume, options);
      hide Stamped, Gate, PassedOn, FailureDomain;
      MadeByAnnotations(volume, s, receipt, options.pvc.value.uid, ad, earlier);
    }

    /** Whether a volume stands for a receipt depends only on the plugin's own annotations. */
    lemma MadeByAnnotations(volume: PersistentVolume, s: PersistentVolume, receipt: Receipt, uid: string, ad: string, earlier: set<Receipt>)
      requires Made(volume, receipt, uid, ad, earlier)
      requires forall key | key in volume.annotations :: key in s.annotations && s.annotations[key] == volume.annotations[key]
      ensures Made(s, receipt, uid, ad, earlier)
    {
      hide BlockPlugin.FateOf;
    }

    /** The stamp a persistent volume carries. */
    ghost predicate Stamped(volume: PersistentVolume, chosen: string, compartment: string, ad: string) {
      && map[OCI_PROVISIONER_IDENTITY := OCI_PROVISIONER_IDENTITY, OCI_AVAILABILITY_DOMAIN := chosen, OCI_COMPARTMENT := compartment].Items
           <= volume.annotations.Items
      && (LABEL_ZONE_FAILURE_DOMAIN, FailureDomain(ad)) in volume.labels.Items
    }

    /** Nothing the receipt stands for is live. */
    ghost predicate Gone(receipt: Receipt)
      reads Footprint()
    {
      match plugin
      case Fss(p) =>
        && receipt.FssReceipt?
        && !FssTeardown.LiveFsIn(p.client.world.cloud, receipt.h.fs)
        && !FssTeardown.LiveExportIn(p.client.world.cloud, receipt.h.exportId)
      case Block(p) =>
        && receipt.BlockReceipt? && receipt.call in p.histories
        && var fate := BlockPlugin.FateOf(p.histories[receipt.call]);
        fate.Deleted? && !BlockClients.LiveIn(p.client.volumes, fate.id)
    }

    /** Since the first `n` calls the service has denied having something that the receipt stands for and that was live. */
    ghost predicate DeniedSince(n: nat, receipt: Receipt)
      reads Footprint()
    {
      match plugin
      case Fss(p) =>
        exists k :: n <= k < |p.client.calls| && FssPlugin.Denied(p.client.origin, p.client.log, p.client.calls[k])
          && receipt == FssReceipt(p.client.calls[k].volume)
      case Block(p) =>
        exists k :: n <= k < |p.client.calls| && BlockPlugin.Denied(p.client.calls[k])
          && receipt.BlockReceipt? && receipt.call in p.histories && p.client.calls[k] in p.histories[receipt.call].deletes
    }

    /** Since then every delete that the receipt calls for has been made, the last of them being the last call, and gone well. */
    ghost predicate DeletedSince(n: nat, receipt: Receipt)
      reads Footprint()
    {
      match plugin
      case Fss(p) =>
        && receipt.FssReceipt? && |p.client.calls| == n + 2
        && FssPlugin.Deletes(p.client.calls[n..], receipt.h) && FssPlugin.GoneOrDeleted(p.client.calls[n + 1])
      case Block(p) =>
        && receipt.BlockReceipt? && receipt.call in p.histories && |p.client.calls| == n + 1
        && var rec := p.client.calls[n];
        rec.Dropped? && rec in p.histories[receipt.call].deletes && (rec.error.None? || rec.status == Some(404) || IsNotFound(rec.error))
    }

    /** The calls from the n-th up to the m-th are one Delete for the receipt whose last call was refused. */
    ghost predicate RefusedBetween(n: nat, m: nat, receipt: Receipt)
      reads Footprint()
    {
      match plugin
      case Fss(p) =>
        && receipt.FssReceipt? && n < m <= |p.client.calls|
        && FssPlugin.Deletes(p.client.calls[n..m], receipt.h) && !FssPlugin.GoneOrDeleted(p.client.calls[m - 1])
      case Block(p) =>
        && receipt.BlockReceipt? && receipt.call in p.histories && m == n + 1 <= |p.client.calls|
        && var rec := p.client.calls[n];
        rec.Dropped? && rec in p.histories[receipt.call].deletes && rec.error.Some? && rec.status != Some(404) && !IsNotFound(rec.error)
    }

    /** All calls since then are such a Delete, and this error is what became of the last. */
    ghost predicate RefusedSince(n: nat, error: Error, receipt: Receipt)
      reads Footprint()
    {
      && RefusedBetween(n, CallCount(), receipt)
      && match plugin
         case Fss(p) => var last := p.client.calls[CallCount() - 1]; last.Dropped? && last.error == Some(error)
         case Block(p) => p.client.calls[n].error == Some(error)
    }

    /** The error names an annotation that the volume lacks, or has empty. */
    static predicate LacksAnnotation(volume: PersistentVolume, error: Error) {
      && error.Plain? && error.problem.MissingAnnotation?
      && (error.problem.key !in volume.annotations || volume.annotations[error.problem.key] == "")
    }

    /** The annotations the plugin's Delete insists on. */
    ghost predicate Annotated(volume: PersistentVolume) {
      match plugin
      case Fss(_) => Lookup(volume.annotations, FssPlugin.OCI_VOLUME_ID) != "" && Lookup(volume.annotations, FssPlugin.OCI_EXPORT_ID) != ""
      case Block(_) => BlockPlugin.OCI_VOLUME_ID in volume.annotations
    }

    /**
     Delete a volume that stands for its receipt.  What fails the gate, or lacks the plugin's own
     annotations, is refused without a call.  Otherwise an error is that of the last call; a nil
     result means that every delete has been made and gone well, and that nothing of the volume is
     live unless the service denied having it although it was.  A failed Delete can be made again.
     */
    method Delete(volume: PersistentVolume, receipt: Receipt) returns (error: Option<Error>)
      requires Valid()
      requires Gate(volume).None? && Annotated(volume) ==> Stands(volume, receipt)
      modifies Footprint()
      ensures Valid() && CallCount() >= old(CallCount())
      ensures old(Stands(volume, receipt)) ==> Stands(volume, receipt)
      ensures forall n, m :: old(RefusedBetween(n, m, receipt)) ==> RefusedBetween(n, m, receipt)
      ensures Gate(volume).Some? ==> error == Gate(volume) && ServiceUntouched()
      ensures OCI_PROVISIONER_IDENTITY !in volume.annotations ==> error == Some(Plain(MissingAnnotation(OCI_PROVISIONER_IDENTITY))) && ServiceUntouched()
      ensures OCI_PROVISIONER_IDENTITY in volume.annotations && volume.annotations[OCI_PROVISIONER_IDENTITY] != OCI_PROVISIONER_IDENTITY ==>
        error == Some(Plain(IgnoredIdentity)) && ServiceUntouched()
      ensures Gate(volume).None? && !Annotated(volume) ==> error.Some? && LacksAnnotation(volume, error.value) && ServiceUntouched()
      ensures Gate(volume).None? && Annotated(volume) ==>
        if error.Some? then RefusedSince(old(CallCount()), error.value, receipt)
           else DeletedSince(old(CallCount()), receipt) && (Gone(receipt) || DeniedSince(old(CallCount()), receipt))
    {
      if OCI_PROVISIONER_IDENTITY !in volume.annotations {
        return Some(Plain(MissingAnnotation(OCI_PROVISIONER_IDENTITY)));
      }
      if volume.annotations[OCI_PROVISIONER_IDENTITY] != OCI_PROVISIONER_IDENTITY {
        return Some(Plain(IgnoredIdentity));
      }
      error := PluginDelete(volume, receipt);
    }

    /** The plugin's own Delete. */
    method PluginDelete(volume: PersistentVolume, receipt: Receipt) returns (error: Option<Error>)
      requires Valid()
      requires Annotated(volume) ==> Stands(volume, receipt)
      modifies Footprint()
      ensures Valid() && CallCount() >= old(CallCount())
      ensures old(Stands(volume, receipt)) ==> Stands(volume, receipt)
      ensures forall n, m :: old(RefusedBetween(n, m, receipt)) ==> RefusedBetween(n, m, receipt)
      ensures !Annotated(volume) ==> error.Some? && LacksAnnotation(volume, error.value) && ServiceUntouched()
      ensures Annotated(volume) ==>
        if error.Some? then RefusedSince(old(CallCount()), error.value, receipt)
           else DeletedSince(old(CallCount()), receipt) && (Gone(receipt) || DeniedSince(old(CallCount()), receipt))
    {
      if plugin.Fss? {
        error := FssDelete(plugin.fss, volume, receipt);
      } else {
        error := BlockDelete(plugin.block, volume, receipt);
      }
    }

    method FssDelete(p: FssPlugin.FilesystemProvisioner, volume: PersistentVolume, receipt: Receipt) returns (error: Option<Error>)
      requires Valid() && plugin == Fss(p)
      requires Annotated(volume) ==> Stands(volume, receipt)
      modifies Footprint()
      ensures Valid() && CallCount() >= old(CallCount())
      ensures old(Stands(volume, receipt)) ==> Stands(volume, receipt)
      ensures forall n, m :: old(RefusedBetween(n, m, receipt)) ==> RefusedBetween(n, m, receipt)
      ensures !Annotated(volume) ==> error.Some? && LacksAnnotation(volume, error.value) && ServiceUntouched()
      ensures Annotated(volume) ==>
        if error.Some? then RefusedSince(old(CallCount()), error.value, receipt)
        else DeletedSince(old(CallCount()), receipt) && (Gone(receipt) || DeniedSince(old(CallCount()), receipt))
    {
      hide Naming.GetPrefix, FileStorage.Run, FssProtocol.Refusal, FssPlugin.Denied, FssPlugin.Deletes, FssClients.Truthful, FssTeardown.LiveFsIn, FssTeardown.LiveExportIn;
      var h := if receipt.FssReceipt? then receipt.h else FileStorage.Handle("", "", "", "", "", "");
      ghost var n := |p.client.calls|;
      ghost var said;
      ghost var earlier := p.client.calls;
      error, said := p.Delete(volume, h);
      assert p.client.calls[n..] == said == p.client.calls[n..|p.client.calls|];
      assert forall i, j | 0 <= i < j <= n :: p.client.calls[i..j] == earlier[i..j];
      if Annotated(volume) {
        DeletesOf(said, h);
        assert p.client.calls[|p.client.calls| - 1] == said[|said| - 1] && p.client.calls[n] == said[0];
      }
    }

    method BlockDelete(p: BlockPlugin.BlockProvisioner, volume: PersistentVolume, receipt: Receipt) returns (error: Option<Error>)
      requires Valid() && plugin == Block(p)
      requires Annotated(volume) ==> Stands(volume, receipt)
      modifies Footprint()
      ensures Valid() && CallCount() >= old(CallCount())
      ensures old(Stands(volume, receipt)) ==> Stands(volume, receipt)
      ensures forall n, m :: old(RefusedBetween(n, m, receipt)) ==> RefusedBetween(n, m, receipt)
      ensures !Annotated(volume) ==> error.Some? && LacksAnnotation(volume, error.value) && ServiceUntouched()
      ensures Annotated(volume) ==>
        if error.Some? then RefusedSince(old(CallCount()), error.value, receipt)
        else DeletedSince(old(CallCount()), receipt) && (Gone(receipt) || DeniedSince(old(CallCount()), receipt))
    {
      hide Value, BlockPlugin.FateOf, BlockClients.Drifted, BlockPlugin.Denied, BlockClients.LiveIn;
      ghost var call := if receipt.BlockReceipt? then receipt.call else 0;
      ghost var n := |p.client.calls|;
      ghost var said;
      error, said := p.Delete(volume, call);
      if Annotated(volume) {
        assert p.client.calls[n] == said[0];
        var deletes := p.histories[call].deletes;
        assert deletes[|deletes| - 1] == said[0];
      }
    }

    /**
     Delete a volume a number of times if need be, until a Delete succeeds.  `marks` are the counts of
     calls between the Deletes: either the last succeeded, and nothing of the volume is live unless the
     service denied having it although it was, or all of them were made and each was refused.
     */
    method Withdraw(volume: PersistentVolume, receipt: Receipt, retries: nat) returns (withdrawn: bool, ghost marks: seq<nat>)
      requires Valid() && Gate(volume).None? && Stands(volume, receipt)
      modifies Footprint()
      ensures Valid() && Stands(volume, receipt)
      ensures 1 <= |marks| <= retries + 1 && marks[0] == old(CallCount()) && marks[|marks| - 1] == CallCount()
      ensures withdrawn ==> |marks| >= 2 && Withdrawn(marks[|marks| - 2], receipt)
      ensures !withdrawn ==> |marks| == retries + 1
      ensures forall k | 0 <= k < |marks| - (if withdrawn then 2 else 1) :: RefusedBetween(marks[k], marks[k + 1], receipt)
    {
      hide *;
      withdrawn := false;
      marks := [CallCount()];
      for i := 0 to retries
        invariant Valid() && Stands(volume, receipt) && !withdrawn
        invariant |marks| == i + 1 && marks[0] == old(CallCount()) && marks[i] == CallCount()
        invariant forall k | 0 <= k < i :: RefusedBetween(marks[k], marks[k + 1], receipt)
      {
        StandsIsAnnotated(volume, receipt);
        ghost var n := CallCount();
        var error := Delete(volume, receipt);
        marks := marks + [CallCount()];
        if error.None? {
          WithdrawnNow(n, receipt);
          withdrawn := true;
          return;
        }
        RefusedNow(n, error.value, receipt);
      }
    }

    /** A volume that stands for something names it. */
    lemma StandsIsAnnotated(volume: PersistentVolume, receipt: Receipt)
      requires Valid() && Stands(volume, receipt)
      ensures Annotated(volume)
    {
      if plugin.Fss? {
        var w := plugin.fss.client.world;
        FssProtocol.IssuedHolds(w, receipt.h);
        assert receipt.h.fs != "" && receipt.h.exportId != "";
      }
    }

    lemma RefusedNow(n: nat, error: Error, receipt: Receipt)
      requires RefusedSince(n, error, receipt)
      ensures RefusedBetween(n, CallCount(), receipt)
    {
    }

    /**
     What the controller does with a new persistent volume that it cannot save: withdraw it.
     */
    method ProvisionAndWithdraw(options: VolumeOptions, nodes: Result<seq<Node>, Error>, service: string -> Result<seq<string>, Error>,
                                metadata: Result<string, Error>, retries: nat)
        returns (r: Result<PersistentVolume, Error>, receipt: Receipt, withdrawn: bool, ghost marks: seq<nat>)
      requires Valid() && CanProvision(options)
      requires forall earlier | earlier in Receipts() && earlier.FssReceipt? :: earlier.h.uid != options.pvc.value.uid
      modifies Footprint(), config`compartmentOCID
      ensures Valid()
      ensures r.Failure? ==> !withdrawn
      ensures r.Success? ==> Gate(r.value).None? && Stands(r.value, receipt) && receipt !in old(Receipts())
      ensures r.Success? ==>
        && 1 <= |marks| <= retries + 1 && marks[0] >= old(CallCount()) && marks[|marks| - 1] == CallCount()
        && (withdrawn ==> |marks| >= 2 && Withdrawn(marks[|marks| - 2], receipt))
        && (!withdrawn ==> |marks| == retries + 1)
        && forall k | 0 <= k < |marks| - (if withdrawn then 2 else 1) :: RefusedBetween(marks[k], marks[k + 1], receipt)
    {
      withdrawn, marks := false, [];
      ghost var made;
      r, receipt, made := Provision(options, nodes, service, metadata);
      if r.Success? {
        assert Stands(r.value, receipt);
        hide *;
        withdrawn, marks := Withdraw(r.value, receipt, retries);
      }
    }

    ghost predicate Withdrawn(n: nat, receipt: Receipt)
      reads Footprint()
    {
      DeletedSince(n, receipt) && (Gone(receipt) || DeniedSince(n, receipt))
    }

    lemma WithdrawnNow(n: nat, receipt: Receipt)
      requires DeletedSince(n, receipt) && (Gone(receipt) || DeniedSince(n, receipt))
      ensures Withdrawn(n, receipt)
    {
    }
  }

  /** Both calls of a Delete that went well are about its volume. */
  lemma DeletesOf(said: seq<FssClients.Record>, h: FileStorage.Handle)
    requires FssPlugin.Deletes(said, h)
    ensures 1 <= |said| <= 2 && said[0].Dropped? && said[0].volume == h
    ensures |said| == 2 ==> said[1].Dropped? && said[1].volume == h
  {
  }

  lemma OneMoreZone(nodes: seq<Node>, node: Node)
    ensures ZonesOf(nodes + [node]) == ZonesOf(nodes) +
      (if LABEL_ZONE_FAILURE_DOMAIN in node.labels then {node.labels[LABEL_ZONE_FAILURE_DOMAIN]} else {})
  {
    var all := nodes + [node];
    forall zone
      ensures zone in ZonesOf(all) <==>
        zone in ZonesOf(nodes) || (LABEL_ZONE_FAILURE_DOMAIN in node.labels && zone == node.labels[LABEL_ZONE_FAILURE_DOMAIN])
    {
      if zone in ZonesOf(nodes) {
        var k :| 0 <= k < |nodes| && LABEL_ZONE_FAILURE_DOMAIN in nodes[k].labels && nodes[k].labels[LABEL_ZONE_FAILURE_DOMAIN] == zone;
        assert all[k] == nodes[k];
      }
      assert all[|nodes|] == node;
    }
  }
}
