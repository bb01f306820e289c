/** The two proxy-configuration operations: read the optional `VersionOnly`
    flag, gather the distinct cluster names from storage, build the
    configuration, and answer with either the whole document or its version. */
module ObProxyHandler {
  import opened Common
  import opened Codec
  import opened ObProxyConfig
  import opened Response

  /** `CONFIG_URL_FORMAT` without its two `%s`: service address, then this,
      then the cluster name. */
  const ConfigUrlPath := "/services?Action=ObRootServiceInfo&ObCluster="

  /** A stored cluster row, as the storage query returns it. */
  datatype ObClusterRecord = ObClusterRecord(Name: string, ObClusterId: int64, Type: string, RootServiceJson: string)

  /** The query parameters of a request: the first value given for each name. */
  type Query = map<string, string>

  /** `strconv.ParseBool`. */
  function ParseBool(s: string): (r: Result<bool>)
    ensures r == Success(true) <==> s in {"1", "t", "T", "TRUE", "true", "True"}
    ensures r == Success(false) <==> s in {"0", "f", "F", "FALSE", "false", "False"}
    ensures r.Failure? ==> r.error == "strconv.ParseBool: parsing \"" + s + "\": invalid syntax"
  {
    if s in {"1", "t", "T", "TRUE", "true", "True"} then Success(true)
    else if s in {"0", "f", "F", "FALSE", "false", "False"} then Success(false)
    else Failure("strconv.ParseBool: parsing \"" + s + "\": invalid syntax")
  }

  /** `isVersionOnly`: an absent flag means false; a present one must parse. */
  function IsVersionOnly(query: Query): (r: Result<bool>)
    ensures "VersionOnly" !in query ==> r == Success(false)
    ensures "VersionOnly" in query ==> r == ParseBool(query["VersionOnly"])
  {
    if "VersionOnly" in query then ParseBool(query["VersionOnly"]) else Success(false)
  }

  /** The three parsing scenarios of the repository's unit tests. */
  lemma VersionOnlyScenarios()
    ensures IsVersionOnly(map["Action" := "GetObproxyConfig", "VersionOnly" := "true"]) == Success(true)
    ensures IsVersionOnly(map["Action" := "GetObproxyConfig", "VersionOnly" := "abc"]).Failure?
    ensures IsVersionOnly(map["Action" := "GetObproxyConfig"]) == Success(false)
  {
    assert "abc" !in {"1", "t", "T", "TRUE", "true", "True"};
    assert "abc" !in {"0", "f", "F", "FALSE", "false", "False"};
  }

  /** The root-service lookup URL of one cluster. */
  function ClusterUrl(serviceAddress: string, name: string): (url: string)
    ensures serviceAddress + ConfigUrlPath <= url
    ensures url[|serviceAddress| + |ConfigUrlPath|..] == name
  {
    serviceAddress + ConfigUrlPath + name
  }

  function ClusterNames(clusters: seq<ObClusterRecord>): set<string> {
    set c | c in clusters :: c.Name
  }

  predicate Distinct(names: seq<string>) {
    forall i, j :: 0 <= i < j < |names| ==> names[i] != names[j]
  }

  /** The names of a URL list, in order. */
  function UrlNames(urls: seq<RootServiceInfoUrl>): (names: seq<string>)
    ensures |names| == |urls| && forall i :: 0 <= i < |urls| ==> names[i] == urls[i].ObCluster
  {
    seq(|urls|, i requires 0 <= i < |urls| => urls[i].ObCluster)
  }

  /** `names` lists every stored cluster name exactly once, in some order. */
  predicate IsDistinctNameList(clusters: seq<ObClusterRecord>, names: seq<string>) {
    Distinct(names) && (set n | n in names) == ClusterNames(clusters)
  }

  /** `urls` holds exactly one lookup URL per stored cluster name, in some order. */
  predicate IsClusterUrlList(serviceAddress: string, clusters: seq<ObClusterRecord>, urls: seq<RootServiceInfoUrl>) {
    && IsDistinctNameList(clusters, UrlNames(urls))
    && forall i :: 0 <= i < |urls| ==> urls[i].Url == ClusterUrl(serviceAddress, urls[i].ObCluster)
  }

  lemma ElementsOfAppend(names: seq<string>, name: string)
    ensures (set n | n in names + [name]) == (set n | n in names) + {name}
  {
  }

  /** A list without repetitions is as long as the set of its elements: each
      stored name is emitted exactly once. */
  lemma {:induction false} DistinctListSize(names: seq<string>)
    requires Distinct(names)
    ensures |set n | n in names| == |names|
  {
    if |names| > 0 {
      var rest := names[1..];
      DistinctListSize(rest);
      assert (set n | n in names) == {names[0]} + (set n | n in rest);
      assert names[0] !in rest by {
        forall k | 0 <= k < |rest| ensures rest[k] != names[0] {
          assert rest[k] == names[k + 1];
        }
      }
    }
  }

  lemma {:induction false} DistinctMultiplicity(names: seq<string>, x: string)
    requires Distinct(names)
    ensures multiset(names)[x] == if x in names then 1 else 0
  {
    if |names| > 0 {
      var rest := names[1..];
      assert names == [names[0]] + rest;
      assert names[0] !in rest by {
        forall k | 0 <= k < |rest| ensures rest[k] != names[0] {
          assert rest[k] == names[k + 1];
        }
      }
      DistinctMultiplicity(rest, x);
    }
  }

  /** Any two lists a handler may emit for the same stored clusters are
      permutations of each other: only the order is left open. */
  lemma NameListsArePermutations(clusters: seq<ObClusterRecord>, a: seq<string>, b: seq<string>)
    requires IsDistinctNameList(clusters, a) && IsDistinctNameList(clusters, b)
    ensures multiset(a) == multiset(b)
    ensures |a| == |b| == |ClusterNames(clusters)|
  {
    forall x ensures multiset(a)[x] == multiset(b)[x] {
      DistinctMultiplicity(a, x);
      DistinctMultiplicity(b, x);
      var sa, sb := set n | n in a, set n | n in b;
      assert sa == sb;
      assert x in a <==> x in sa;
      assert x in b <==> x in sb;
    }
    DistinctListSize(a);
    DistinctListSize(b);
  }

  /** Map iteration order reaches the hash: with two distinct stored names
      both orders are admissible name lists, and their JSON arrays differ, so
      the hash inputs differ whenever `json.Marshal` tells those arrays apart. */
  lemma {:induction false} NameOrderReachesHashInput(a: string, b: string)
    requires a != b
    ensures var clusters := [ObClusterRecord(a, 1, "", ""), ObClusterRecord(b, 2, "", "")];
            && IsDistinctNameList(clusters, [a, b]) && IsDistinctNameList(clusters, [b, a])
            && StringListJson([a, b]) != StringListJson([b, a])
  {
    var clusters := [ObClusterRecord(a, 1, "", ""), ObClusterRecord(b, 2, "", "")];
    assert clusters[0] in clusters && clusters[1] in clusters;
    assert ClusterNames(clusters) == {a, b};
    assert (set n | n in [a, b]) == {a, b};
    assert (set n | n in [b, a]) == {a, b};
    assert StringListJson([a, b]).items[0] == JString(a);
  }

  /** The answer built from a configuration outcome: a failure to build is an
      internal error; otherwise the payload is the version alone or the whole
      configuration. */
  function ConfigResponse(r: Result<ObProxyConfig>, versionOnly: bool): (response: ApiResponse)
    ensures r.Failure? ==>
      IsFailureOf(response, StatusInternalServerError, "got internal error: ", Wrap(r.error, "generate obproxy config"))
    ensures r.Success? && versionOnly ==>
      response == NewSuccessResponse(VersionOnly(NewObProxyConfigVersionOnly(r.value.Version)))
    ensures r.Success? && !versionOnly ==> response == NewSuccessResponse(ProxyConfig(r.value))
  {
    match r
    case Failure(e) => NewErrorResponse(Wrap(e, "generate obproxy config"))
    case Success(c) =>
      if versionOnly then NewSuccessResponse(VersionOnly(NewObProxyConfigVersionOnly(c.Version)))
      else NewSuccessResponse(ProxyConfig(c))
  }

  function TemplateResponse(r: Result<ObProxyConfigWithTemplate>, versionOnly: bool): (response: ApiResponse)
    ensures r.Failure? ==>
      IsFailureOf(response, StatusInternalServerError, "got internal error: ", Wrap(r.error, "generate obproxy config with template"))
    ensures r.Success? && versionOnly ==>
      response == NewSuccessResponse(VersionOnly(NewObProxyConfigVersionOnly(r.value.Version)))
    ensures r.Success? && !versionOnly ==> response == NewSuccessResponse(ProxyConfigWithTemplate(r.value))
  {
    match r
    case Failure(e) => NewErrorResponse(Wrap(e, "generate obproxy config with template"))
    case Success(c) =>
      if versionOnly then NewSuccessResponse(VersionOnly(NewObProxyConfigVersionOnly(c.Version)))
      else NewSuccessResponse(ProxyConfigWithTemplate(c))
  }

  /** `getObProxyConfig`. A bad flag is rejected before storage is asked; a
      storage failure is an internal error; otherwise one URL per distinct
      stored cluster name, in the unspecified order of Go's map iteration. */
  method GetObProxyConfig(query: Query, storage: Result<seq<ObClusterRecord>>, serviceAddress: string, codecs: Codecs)
    returns (response: ApiResponse)
    ensures IsVersionOnly(query).Failure? ==>
      response == NewIllegalArgumentResponse(Wrap(IsVersionOnly(query).error, "invalid parameter, failed to parse versiononly"))
    ensures IsVersionOnly(query).Success? && storage.Failure? ==>
      response == NewErrorResponse(Wrap(storage.error, "query ob clusters"))
    ensures IsVersionOnly(query).Success? && storage.Success? ==>
      exists urls :: IsClusterUrlList(serviceAddress, storage.value, urls) &&
        response == ConfigResponse(NewObProxyConfig(serviceAddress, urls, codecs), IsVersionOnly(query).value)
  {
    var versionOnly := IsVersionOnly(query);
    if versionOnly.Failure? {
      return NewIllegalArgumentResponse(Wrap(versionOnly.error, "invalid parameter, failed to parse versiononly"));
    }
    if storage.Failure? {
      return NewErrorResponse(Wrap(storage.error, "query ob clusters"));
    }
    var clusters := storage.value;

    var urlMap: map<string, RootServiceInfoUrl> := map[];
    var i := 0;
    while i < |clusters|
      invariant 0 <= i <= |clusters|
      invariant urlMap.Keys == ClusterNames(clusters[..i])
      invariant forall n :: n in urlMap ==> urlMap[n] == RootServiceInfoUrl(n, ClusterUrl(serviceAddress, n))
    {
      var name := clusters[i].Name;
      urlMap := urlMap[name := RootServiceInfoUrl(name, ClusterUrl(serviceAddress, name))];
      assert clusters[..i + 1] == clusters[..i] + [clusters[i]];
      i := i + 1;
    }
    assert clusters[..i] == clusters;

    var urls: seq<RootServiceInfoUrl> := [];
    var remaining := urlMap.Keys;
    while remaining != {}
      invariant remaining <= urlMap.Keys
      invariant forall k :: 0 <= k < |urls| ==> urls[k].ObCluster in urlMap && urls[k] == urlMap[urls[k].ObCluster]
      invariant (set n | n in UrlNames(urls)) == urlMap.Keys - remaining
      invariant Distinct(UrlNames(urls))
      decreases remaining
    {
      var name :| name in remaining;
      assert name !in UrlNames(urls);
      assert UrlNames(urls + [urlMap[name]]) == UrlNames(urls) + [name];
      ElementsOfAppend(UrlNames(urls), name);
      urls := urls + [urlMap[name]];
      remaining := remaining - {name};
    }
    assert IsClusterUrlList(serviceAddress, clusters, urls);

    var obProxyConfig := NewObProxyConfig(serviceAddress, urls, codecs);
    response := ConfigResponse(obProxyConfig, versionOnly.value);
  }

  /** `getObProxyConfigWithTemplate`: as GetObProxyConfig, but the document
      lists each distinct stored cluster name once, in the unspecified order of
      Go's map iteration. */
  method GetObProxyConfigWithTemplate(query: Query, storage: Result<seq<ObClusterRecord>>, serviceAddress: string, codecs: Codecs)
    returns (response: ApiResponse)
    ensures IsVersionOnly(query).Failure? ==>
      response == NewIllegalArgumentResponse(Wrap(IsVersionOnly(query).error, "invalid parameter, failed to parse versiononly"))
    ensures IsVersionOnly(query).Success? && storage.Failure? ==>
      response == NewErrorResponse(Wrap(storage.error, "query ob clusters"))
    ensures IsVersionOnly(query).Success? && storage.Success? ==>
      exists names :: IsDistinctNameList(storage.value, names) &&
        response == TemplateResponse(NewObProxyConfigWithTemplate(serviceAddress, names, codecs), IsVersionOnly(query).value)
  {
    var versionOnly := IsVersionOnly(query);
    if versionOnly.Failure? {
      return NewIllegalArgumentResponse(Wrap(versionOnly.error, "invalid parameter, failed to parse versiononly"));
    }
    if storage.Failure? {
      return NewErrorResponse(Wrap(storage.error, "query ob clusters"));
    }
    var clusters := storage.value;

    var clusterMap: set<string> := {};
    var i := 0;
    while i < |clusters|
      invariant 0 <= i <= |clusters|
      invariant clusterMap == ClusterNames(clusters[..i])
    {
      clusterMap := clusterMap + {clusters[i].Name};
      assert clusters[..i + 1] == clusters[..i] + [clusters[i]];
      i := i + 1;
    }
    assert clusters[..i] == clusters;

    var clusterNames: seq<string> := [];
    var remaining := clusterMap;
    while remaining != {}
      invariant remaining <= clusterMap
      invariant (set n | n in clusterNames) == clusterMap - remaining
      invariant Distinct(clusterNames)
      decreases remaining
    {
      var name :| name in remaining;
      assert name !in clusterNames;
      ElementsOfAppend(clusterNames, name);
      clusterNames := clusterNames + [name];
      remaining := remaining - {name};
    }
    assert IsDistinctNameList(clusters, clusterNames);

    var templated := NewObProxyConfigWithTemplate(serviceAddress, clusterNames, codecs);
    response := TemplateResponse(templated, versionOnly.value);
  }
}
