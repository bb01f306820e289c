/** The root-service topology document of one cluster and its identity
    normalisation: the legacy "region" name/id pair and the newer "cluster"
    pair name the same cluster, and `Fill` makes the two pairs agree. */
module RootServiceInfo {
  import opened Common

  /** One server of the topology: address, role and SQL port. */
  datatype ObServerInfo = ObServerInfo(Address: string, Role: string, SqlPort: int)

  /** The fields of a root-service document, as a value. */
  datatype Info = Info(
    ObClusterId: int64,
    ObRegionId: int64,
    ObCluster: string,
    ObRegion: string,
    ReadonlyRsList: seq<ObServerInfo>,
    RsList: seq<ObServerInfo>,
    Type: string,
    TimeStamp: int64)

  /** The document after normalisation. The cluster pair wins over the region
      pair; a pair that is empty (name) or not positive (id) on both sides is
      left as it was; the server lists, type and timestamp are not touched. */
  function Filled(v: Info): (r: Info)
    // the name: the cluster name wins, otherwise the region name is copied over
    ensures |v.ObCluster| > 0 ==> r.ObCluster == v.ObCluster && r.ObRegion == v.ObCluster
    ensures |v.ObCluster| == 0 && |v.ObRegion| > 0 ==> r.ObCluster == v.ObRegion && r.ObRegion == v.ObRegion
    ensures |v.ObCluster| == 0 && |v.ObRegion| == 0 ==> r.ObCluster == v.ObCluster && r.ObRegion == v.ObRegion
    // the id: a positive cluster id wins, otherwise a positive region id is copied over
    ensures v.ObClusterId > 0 ==> r.ObClusterId == v.ObClusterId && r.ObRegionId == v.ObClusterId
    ensures v.ObClusterId <= 0 && v.ObRegionId > 0 ==> r.ObClusterId == v.ObRegionId && r.ObRegionId == v.ObRegionId
    ensures v.ObClusterId <= 0 && v.ObRegionId <= 0 ==> r.ObClusterId == v.ObClusterId && r.ObRegionId == v.ObRegionId
    // nothing else changes
    ensures r.RsList == v.RsList && r.ReadonlyRsList == v.ReadonlyRsList
    ensures r.Type == v.Type && r.TimeStamp == v.TimeStamp
  {
    var v1 :=
      if |v.ObCluster| > 0 then v.(ObRegion := v.ObCluster)
      else if |v.ObRegion| > 0 then v.(ObCluster := v.ObRegion)
      else v;
    if v1.ObClusterId > 0 then v1.(ObRegionId := v1.ObClusterId)
    else if v1.ObRegionId > 0 then v1.(ObClusterId := v1.ObRegionId)
    else v1
  }

  /** A document names one coherent identity: whenever either name is given,
      both names agree, and whenever either id is positive, both ids agree. */
  predicate Coherent(v: Info) {
    && (|v.ObCluster| > 0 || |v.ObRegion| > 0 ==> v.ObCluster == v.ObRegion)
    && (v.ObClusterId > 0 || v.ObRegionId > 0 ==> v.ObClusterId == v.ObRegionId)
  }

  /** Normalisation always yields a coherent identity, and leaves a coherent
      document exactly as it was. */
  lemma FilledCoherent(v: Info)
    ensures Coherent(Filled(v))
    ensures Coherent(v) ==> Filled(v) == v
  {
  }

  /** Normalising twice is normalising once. */
  lemma FilledIdempotent(v: Info)
    ensures Filled(Filled(v)) == Filled(v)
  {
    FilledCoherent(v);
    FilledCoherent(Filled(v));
  }

  /** The document as the Go code holds it: a struct that `Fill` updates
      through its pointer receiver. */
  class ObRootServiceInfo {
    var ObClusterId: int64
    var ObRegionId: int64
    var ObCluster: string
    var ObRegion: string
    var ReadonlyRsList: seq<ObServerInfo>
    var RsList: seq<ObServerInfo>
    var Type: string
    var TimeStamp: int64

    /** The fields as a value. */
    function Value(): Info
      reads this
    {
      Info(ObClusterId, ObRegionId, ObCluster, ObRegion, ReadonlyRsList, RsList, Type, TimeStamp)
    }

    constructor (v: Info)
      ensures Value() == v
    {
      ObClusterId, ObRegionId := v.ObClusterId, v.ObRegionId;
      ObCluster, ObRegion := v.ObCluster, v.ObRegion;
      ReadonlyRsList, RsList := v.ReadonlyRsList, v.RsList;
      Type, TimeStamp := v.Type, v.TimeStamp;
    }

    /** Normalises the identity fields in place; it cannot fail. */
    method Fill()
      modifies this
      ensures Value() == Filled(old(Value()))
    {
      if |ObCluster| > 0 {
        ObRegion := ObCluster;
      } else if |ObRegion| > 0 {
        ObCluster := ObRegion;
      }

      if ObClusterId > 0 {
        ObRegionId := ObClusterId;
      } else if ObRegionId > 0 {
        ObClusterId := ObRegionId;
      }
    }
  }

  /** The two unit scenarios of the repository: a document that names only the
      cluster gets the region filled in, and one that names only the region
      gets the cluster filled in. */
  method FillScenarios() returns (fromCluster: Info, fromRegion: Info)
    ensures fromCluster.ObRegion == "helloworld" && fromCluster.ObRegionId == 1
    ensures fromRegion.ObCluster == "helloworld" && fromRegion.ObClusterId == 1
  {
    var a := new ObRootServiceInfo(Info(1, 0, "helloworld", "", [], [], "", 0));
    a.Fill();
    fromCluster := a.Value();
    var b := new ObRootServiceInfo(Info(0, 1, "", "helloworld", [], [], "", 0));
    b.Fill();
    fromRegion := b.Value();
  }
}
