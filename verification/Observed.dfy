/** The observed state that one pass works on: a graph of resources with their provider ids, and the scalar ids of older
    versions (pkg/model/model.go, dropMigratedLegacyAliases in pkg/deploy/lbaas/deployer.go). */
module Observed {
  import opened Common
  import opened Model

  const LEGACY_LB := "legacy/lb-service"
  const LEGACY_VIP := "legacy/vip"
  const LEGACY_VS := "legacy/virtual-server"

  function Ids(bucket: Bucket): set<Id> {
    set key | key in bucket && bucket[key].externalID != NO_ID :: bucket[key].externalID
  }

  /** A scalar id is mirrored under its legacy key unless that key is taken. */
  function Mirror(bucket: Bucket, key: string, id: Id, r: Resource): Bucket {
    if id != NO_ID && key !in bucket then bucket[key := r] else bucket
  }

  /** An alias goes when another key holds the same id. */
  function Drop(bucket: Bucket, legacy: string): Bucket {
    if legacy in bucket && bucket[legacy].externalID != NO_ID
       && exists key :: key in bucket && key != legacy && bucket[key].externalID == bucket[legacy].externalID
    then bucket - {legacy} else bucket
  }

  /** Dropping an alias loses no id. */
  lemma DropKeepsIds(bucket: Bucket, legacy: string)
    ensures Ids(Drop(bucket, legacy)) == Ids(bucket)
    ensures forall key | key in Drop(bucket, legacy) :: key in bucket && Drop(bucket, legacy)[key] == bucket[key]
    ensures forall key | key in bucket && key != legacy :: key in Drop(bucket, legacy)
    ensures legacy in Drop(bucket, legacy) && bucket[legacy].externalID != NO_ID ==>
              forall key | key in bucket && key != legacy :: bucket[key].externalID != bucket[legacy].externalID
  {
    if Drop(bucket, legacy) != bucket {
      var other :| other in bucket && other != legacy && bucket[other].externalID == bucket[legacy].externalID;
      forall id | id in Ids(bucket) ensures id in Ids(Drop(bucket, legacy)) {
        var key :| key in bucket && bucket[key].externalID == id;
        var kept := if key == legacy then other else key;
        assert kept in Drop(bucket, legacy) && bucket[kept].externalID == id;
      }
    }
  }

  lemma MirrorKeepsEntries(bucket: Bucket, key: string, id: Id, r: Resource)
    requires r.externalID == id
    ensures forall k | k in bucket :: k in Mirror(bucket, key, id, r) && Mirror(bucket, key, id, r)[k] == bucket[k]
    ensures Ids(bucket) <= Ids(Mirror(bucket, key, id, r)) <= Ids(bucket) + {id}
    ensures id != NO_ID ==> key in Mirror(bucket, key, id, r)
  {
    var m := Mirror(bucket, key, id, r);
    forall i | i in Ids(bucket) ensures i in Ids(m) {
      var k :| k in bucket && bucket[k].externalID == i;
      assert m[k].externalID == i;
    }
  }

  class State {
    var graph: Graph
    var lbID: Id
    var vipID: Id
    var vipAddress: string
    var vsID: Id
    var vsName: string

    constructor (graph: Graph, lbID: Id, vipID: Id, vipAddress: string, vsID: Id, vsName: string)
      ensures this.graph == graph && this.lbID == lbID && this.vipID == vipID && this.vipAddress == vipAddress
      ensures this.vsID == vsID && this.vsName == vsName
    {
      this.graph, this.lbID, this.vipID, this.vipAddress, this.vsID, this.vsName := graph, lbID, vipID, vipAddress, vsID, vsName;
    }

    function Mirrored(): Graph
      reads this
    {
      graph.(lbServices := Mirror(graph.lbServices, LEGACY_LB, lbID, Resource(LEGACY_LB, lbID, "", "", "", NO_OWNER)),
             vips := Mirror(graph.vips, LEGACY_VIP, vipID, Resource(LEGACY_VIP, vipID, "", vipAddress, "", NO_OWNER)),
             virtualServers := Mirror(graph.virtualServers, LEGACY_VS, vsID, Resource(LEGACY_VS, vsID, vsName, "", "", NO_OWNER)))
    }

    /** ObservedState.EnsureGraph */
    method EnsureGraph()
      modifies this`graph
      ensures graph == old(Mirrored())
    {
      if lbID != NO_ID && LEGACY_LB !in graph.lbServices {
        graph := graph.(lbServices := graph.lbServices[LEGACY_LB := Resource(LEGACY_LB, lbID, "", "", "", NO_OWNER)]);
      }
      if vipID != NO_ID && LEGACY_VIP !in graph.vips {
        graph := graph.(vips := graph.vips[LEGACY_VIP := Resource(LEGACY_VIP, vipID, "", vipAddress, "", NO_OWNER)]);
      }
      if vsID != NO_ID && LEGACY_VS !in graph.virtualServers {
        graph := graph.(virtualServers := graph.virtualServers[LEGACY_VS := Resource(LEGACY_VS, vsID, vsName, "", "", NO_OWNER)]);
      }
    }

    method DropMigratedLegacyAliases()
      modifies this`graph
      ensures graph == old(graph).(
                lbServices := Drop(old(graph.lbServices), LEGACY_LB), vips := Drop(old(graph.vips), LEGACY_VIP),
                virtualServers := Drop(old(graph.virtualServers), LEGACY_VS))
    {
      var lbs := DropAlias(graph.lbServices, LEGACY_LB);
      var vips := DropAlias(graph.vips, LEGACY_VIP);
      var vss := DropAlias(graph.virtualServers, LEGACY_VS);
      graph := graph.(lbServices := lbs, vips := vips, virtualServers := vss);
    }
  }

  method DropAlias(bucket: Bucket, legacy: string) returns (r: Bucket)
    ensures r == Drop(bucket, legacy)
  {
    if legacy !in bucket || bucket[legacy].externalID == NO_ID {
      return bucket;
    }
    var left := bucket.Keys;
    while left != {}
      invariant left <= bucket.Keys
      invariant forall key | key in bucket && key !in left && key != legacy :: bucket[key].externalID != bucket[legacy].externalID
      decreases left
    {
      var key :| key in left;
      left := left - {key};
      if key != legacy && bucket[key].externalID == bucket[legacy].externalID {
        return bucket - {legacy};
      }
    }
    return bucket;
  }
}
