/** Availability domains: failure domain labels, and what a claim's choice depends on (pkg/provisioner/core). */
module Zones {
  import opened Wrappers
  import opened Errors
  import opened Kubernetes

  const LABEL_AVAILABILITY_DOMAIN := "oci-availability-domain"

  datatype Node = Node(labels: map<string, string>)

  predicate HasSuffix(s: string, suffix: string) {
    |suffix| <= |s| && s[|s| - |suffix|..] == suffix
  }

  lemma HasSuffixExactly(s: string, suffix: string)
    ensures HasSuffix(s, suffix) <==> exists prefix :: s == prefix + suffix
  {
    if HasSuffix(s, suffix) {
      assert s == s[..|s| - |suffix|] + suffix;
    }
  }

  /** Where the first colon is; the length when there is none. */
  function FirstColon(s: string): (n: nat)
    ensures n <= |s| && ':' !in s[..n]
    ensures n < |s| ==> s[n] == ':'
  {
    if s == "" || s[0] == ':' then 0
    else
      var n := FirstColon(s[1..]) + 1;
      assert s[..n] == [s[0]] + s[1..][..n - 1];
      n
  }

  /** The label for an availability domain: what follows its first colon, or all of it when there is none. */
  function FailureDomain(ad: string): (domain: string)
    ensures HasSuffix(ad, domain)
    ensures ':' !in ad ==> domain == ad
  {
    var n := FirstColon(ad);
    if n < |ad| then ad[n + 1..] else ad
  }

  /** Only the first colon counts. */
  lemma AfterFirstColon(tenancy: string, zone: string)
    requires ':' !in tenancy
    ensures FailureDomain(tenancy + ":" + zone) == zone
  {
    var ad := tenancy + ":" + zone;
    var n := FirstColon(ad);
    assert ad[|tenancy|] == ':';
    forall i | 0 <= i < n ensures ad[i] != ':' { assert ad[i] == ad[..n][i]; }
    forall i | 0 <= i < |tenancy| ensures ad[i] != ':' { assert ad[i] == tenancy[i] && tenancy[i] in tenancy; }
  }

  // ----- looking an availability domain up -----

  ghost predicate FirstMatch(names: seq<string>, suffix: string, k: int) {
    0 <= k < |names| && HasSuffix(names[k], suffix) && forall j | 0 <= j < k :: !HasSuffix(names[j], suffix)
  }

  /** The first listed availability domain whose name ends as asked. */
  function FindByName(names: seq<string>, suffix: string): Option<string> {
    if names == [] then None
    else if HasSuffix(names[0], suffix) then Some(names[0])
    else FindByName(names[1..], suffix)
  }

  lemma {:induction false} FindsFirst(names: seq<string>, suffix: string)
    ensures forall k | FirstMatch(names, suffix, k) :: FindByName(names, suffix) == Some(names[k])
    ensures FindByName(names, suffix).None? <==> forall k | 0 <= k < |names| :: !HasSuffix(names[k], suffix)
    ensures FindByName(names, suffix).Some? ==> exists k :: FirstMatch(names, suffix, k)
  {
    if names != [] && !HasSuffix(names[0], suffix) {
      FindsFirst(names[1..], suffix);
      forall k | FirstMatch(names, suffix, k)
        ensures FirstMatch(names[1..], suffix, k - 1)
      {
      }
      assert forall k | 0 <= k < |names| - 1 :: names[1..][k] == names[k + 1];
      if FindByName(names, suffix).Some? {
        var k :| FirstMatch(names[1..], suffix, k);
        assert FirstMatch(names, suffix, k + 1);
      } else {
        forall k | 0 <= k < |names| ensures !HasSuffix(names[k], suffix) {
          if k > 0 { assert !HasSuffix(names[1..][k - 1], suffix); }
        }
      }
    } else if names != [] {
      assert FirstMatch(names, suffix, 0);
    }
  }

  /**
   The label of a listed domain finds that domain again exactly when every other name ending in
   the label comes after it in the listing.
   */
  lemma LabelFindsItsDomain(names: seq<string>, ad: string)
    requires ad in names
    ensures FindByName(names, FailureDomain(ad)) == Some(ad)
      <==> forall j | 0 <= j < |names| && HasSuffix(names[j], FailureDomain(ad)) :: ad in names[..j + 1]
  {
    var domain := FailureDomain(ad);
    FindsFirst(names, domain);
    var first :| FirstMatch(names, domain, first);
    hide FailureDomain, HasSuffix;
    if names[first] == ad {
      forall j | 0 <= j < |names| && HasSuffix(names[j], domain)
        ensures ad in names[..j + 1]
      {
        assert first <= j && names[..j + 1][first] == ad;
      }
    } else {
      assert ad !in names[..first + 1];
    }
  }

  /** A lookup by suffix really can find another domain than the one the label came from. */
  lemma LabelMayFindAnother()
    ensures FailureDomain("x:AD-1") == "AD-1"
    ensures FindByName(["x:PHX-AD-1", "x:AD-1"], FailureDomain("x:AD-1")) == Some("x:PHX-AD-1")
  {
  }

  // ----- choosing one -----

  /** The zone the claim's selector asks for, the standard label first. */
  function Selected(pvc: PersistentVolumeClaim): Option<string> {
    if pvc.selector.None? then None
    else if LABEL_ZONE_FAILURE_DOMAIN in pvc.selector.value then Some(pvc.selector.value[LABEL_ZONE_FAILURE_DOMAIN])
    else if LABEL_AVAILABILITY_DOMAIN in pvc.selector.value then Some(pvc.selector.value[LABEL_AVAILABILITY_DOMAIN])
    else None
  }

  /** The zones the nodes are labelled with. */
  function ZonesOf(nodes: seq<Node>): set<string> {
    set k | 0 <= k < |nodes| && LABEL_ZONE_FAILURE_DOMAIN in nodes[k].labels :: nodes[k].labels[LABEL_ZONE_FAILURE_DOMAIN]
  }

  /** Picks a zone from a non-empty set by the claim's name. */
  type Chooser = (set<string>, string) -> string

  ghost predicate PicksAMember(choose: Chooser) {
    forall zones: set<string>, name: string | zones != {} :: choose(zones, name) in zones
  }

  /** The name to look up, which depends on the nodes only through the set of their zones. */
  function ChosenName(pvc: PersistentVolumeClaim, zones: Result<set<string>, Error>, choose: Chooser): Result<string, Error> {
    if Selected(pvc).Some? then Success(Selected(pvc).value)
    else if zones.Failure? then Failure(zones.error)
    else if zones.value == {} then Failure(Plain(NoZoneLabels))
    else Success(choose(zones.value, pvc.name))
  }

  function Looked(listing: Result<seq<string>, Error>, name: string): Result<string, Error> {
    if listing.Failure? then Failure(listing.error)
    else if FindByName(listing.value, name).Some? then Success(FindByName(listing.value, name).value)
    else Failure(Plain(NoSuchAvailabilityDomain))
  }

  /** What a lookup comes to: the first listed name that ends as asked; or the listing's own error, or that there is no such name. */
  lemma LookedExactly(listing: Result<seq<string>, Error>, name: string)
    ensures listing.Failure? ==> Looked(listing, name) == Failure(listing.error)
    ensures Looked(listing, name).Success? <==> listing.Success? && exists k :: 0 <= k < |listing.value| && HasSuffix(listing.value[k], name)
    ensures listing.Success? && Looked(listing, name).Failure? ==> Looked(listing, name).error == Plain(NoSuchAvailabilityDomain)
    ensures Looked(listing, name).Success? ==> exists k :: FirstMatch(listing.value, name, k) && Looked(listing, name).value == listing.value[k]
  {
    if listing.Success? { FindsFirst(listing.value, name); }
  }

  /** The zones as a set of the labels themselves. */
  lemma ZonesAre(nodes: seq<Node>)
    ensures ZonesOf(nodes) == set n | n in nodes && LABEL_ZONE_FAILURE_DOMAIN in n.labels :: n.labels[LABEL_ZONE_FAILURE_DOMAIN]
  {
    forall k | 0 <= k < |nodes| && LABEL_ZONE_FAILURE_DOMAIN in nodes[k].labels
      ensures nodes[k].labels[LABEL_ZONE_FAILURE_DOMAIN] in set n | n in nodes && LABEL_ZONE_FAILURE_DOMAIN in n.labels :: n.labels[LABEL_ZONE_FAILURE_DOMAIN]
    {
      assert nodes[k] in nodes;
    }
  }

  /** The order in which nodes are listed, and how many share a zone, do not matter. */
  lemma ZonesIgnoreOrder(nodes: seq<Node>, others: seq<Node>)
    requires forall n :: n in nodes <==> n in others
    ensures ZonesOf(nodes) == ZonesOf(others)
  {
    forall zone
      ensures zone in ZonesOf(nodes) <==> zone in ZonesOf(others)
    {
      if zone in ZonesOf(nodes) {
        var k :| 0 <= k < |nodes| && LABEL_ZONE_FAILURE_DOMAIN in nodes[k].labels && nodes[k].labels[LABEL_ZONE_FAILURE_DOMAIN] == zone;
        assert nodes[k] in others;
      }
      if zone in ZonesOf(others) {
        var k :| 0 <= k < |others| && LABEL_ZONE_FAILURE_DOMAIN in others[k].labels && others[k].labels[LABEL_ZONE_FAILURE_DOMAIN] == zone;
        assert others[k] in nodes;
      }
    }
  }

  /**
   A retry of the same claim looks up the same name while the zones are stable, whatever became of the
   nodes; without a selector that name is some node's zone.
   */
  lemma RetriesAgree(pvc: PersistentVolumeClaim, retried: PersistentVolumeClaim, nodes: seq<Node>, others: seq<Node>, choose: Chooser)
    requires pvc.name == retried.name && pvc.selector == retried.selector && PicksAMember(choose)
    requires forall n :: n in nodes <==> n in others
    ensures ChosenName(pvc, Success(ZonesOf(nodes)), choose) == ChosenName(retried, Success(ZonesOf(others)), choose)
    ensures var name := ChosenName(pvc, Success(ZonesOf(nodes)), choose);
      if Selected(pvc).Some? then name == Success(Selected(pvc).value)
      else if name.Failure? then forall n | n in nodes :: LABEL_ZONE_FAILURE_DOMAIN !in n.labels
      else exists n :: n in nodes && LABEL_ZONE_FAILURE_DOMAIN in n.labels && n.labels[LABEL_ZONE_FAILURE_DOMAIN] == name.value
  {
    ZonesIgnoreOrder(nodes, others);
    var zones := ZonesOf(nodes);
    forall n | n in nodes && LABEL_ZONE_FAILURE_DOMAIN in n.labels
      ensures n.labels[LABEL_ZONE_FAILURE_DOMAIN] in zones
    {
      var k :| 0 <= k < |nodes| && nodes[k] == n;
    }
    if zones != {} {
      var k :| 0 <= k < |nodes| && LABEL_ZONE_FAILURE_DOMAIN in nodes[k].labels
        && nodes[k].labels[LABEL_ZONE_FAILURE_DOMAIN] == choose(zones, pvc.name);
      assert nodes[k] in nodes;
    }
  }
}
