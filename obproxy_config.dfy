/** The bootstrap configuration handed to database proxies: where to fetch the
    proxy binary, how to reach the metadata database, how to look up each
    cluster's root service, and a content version that lets a proxy detect a
    change without comparing whole documents. */
module ObProxyConfig {
  import opened Common
  import opened Codec

  /** The path parts appended to the service address ("http://host:port"). */
  const ObProxyBinUrlPath := "/client?Action=GetObProxy"
  const TemplateV1Path := "/services?Action=ObRootServiceInfo&ObRegion=${ObRegion}"
  const TemplateV2Path := "/services?Action=ObRootServiceInfo&version=2&ObCluster=${ObCluster}&ObClusterId=${OBClusterId}"
  const MetaDatabasePath := "/services?Action=ObRootServiceInfo&User_ID=alibaba&UID=admin&ObRegion=obdv1"

  datatype MetaDatabaseInfo = MetaDatabaseInfo(Database: string, ConfigUrl: string, Password: string, User: string)

  /** The lookup URL of one cluster. */
  datatype RootServiceInfoUrl = RootServiceInfoUrl(ObCluster: string, Url: string)

  datatype ObProxyConfig = ObProxyConfig(
    ObProxyBinUrl: string,
    MetaDatabase: MetaDatabaseInfo,
    ConfigUrlList: seq<RootServiceInfoUrl>,
    Version: string)

  datatype ObProxyConfigWithTemplate = ObProxyConfigWithTemplate(
    ObProxyBinUrl: string,
    MetaDatabase: MetaDatabaseInfo,
    Version: string,
    ObClusters: seq<string>,
    TemplateV1: string,
    TemplateV2: string)

  datatype ObProxyConfigVersionOnly = ObProxyConfigVersionOnly(Version: string)

  /** `fmt.Sprintf(format, serviceAddress)` for a format "%s<path>". */
  function AtService(serviceAddress: string, path: string): (url: string)
    ensures serviceAddress <= url && url[|serviceAddress|..] == path
  {
    serviceAddress + path
  }

  /** A URL built by AtService gives back the service address it was built from. */
  lemma AtServiceInjective(a: string, b: string, path: string)
    ensures AtService(a, path) == AtService(b, path) <==> a == b
  {
    if AtService(a, path) == AtService(b, path) {
      assert |a| == |b|;
      assert a == AtService(a, path)[..|a|];
    }
  }

  /** The metadata database description: credentials masked as "***". */
  function NewDefaultMetaDatabaseInfo(serviceAddress: string): (m: MetaDatabaseInfo)
    ensures m.Database == "***" && m.User == "***" && m.Password == "***"
    ensures m.ConfigUrl == serviceAddress + MetaDatabasePath
  {
    MetaDatabaseInfo("***", AtService(serviceAddress, MetaDatabasePath), "***", "***")
  }

  function NewObProxyConfigVersionOnly(version: string): (c: ObProxyConfigVersionOnly)
    ensures c.Version == version
  {
    ObProxyConfigVersionOnly(version)
  }

  // JSON forms, with the field names of the structs' `json` tags.

  function MetaDatabaseJson(m: MetaDatabaseInfo): (j: Json)
    ensures j.JObject? && FieldNames(j.fields) == ["DataBase", "MetaDataBase", "Password", "User"]
    ensures Lookup(j.fields, "DataBase") == Some(JString(m.Database))
    ensures Lookup(j.fields, "MetaDataBase") == Some(JString(m.ConfigUrl))
    ensures Lookup(j.fields, "Password") == Some(JString(m.Password))
    ensures Lookup(j.fields, "User") == Some(JString(m.User))
  {
    var fields := [("DataBase", JString(m.Database)), ("MetaDataBase", JString(m.ConfigUrl)),
                   ("Password", JString(m.Password)), ("User", JString(m.User))];
    LookupAt(fields, 0); LookupAt(fields, 1); LookupAt(fields, 2); LookupAt(fields, 3);
    JObject(fields)
  }

  /** The cluster name goes out under the tag "ObRegion". */
  function RootServiceInfoUrlJson(u: RootServiceInfoUrl): (j: Json)
    ensures j.JObject? && FieldNames(j.fields) == ["ObRegion", "ObRootServiceInfoUrl"]
    ensures Lookup(j.fields, "ObRegion") == Some(JString(u.ObCluster))
    ensures Lookup(j.fields, "ObRootServiceInfoUrl") == Some(JString(u.Url))
  {
    JObject([("ObRegion", JString(u.ObCluster)), ("ObRootServiceInfoUrl", JString(u.Url))])
  }

  function UrlListJson(urls: seq<RootServiceInfoUrl>): (j: Json)
    ensures j.JArray? && |j.items| == |urls|
    ensures forall i :: 0 <= i < |urls| ==> j.items[i] == RootServiceInfoUrlJson(urls[i])
  {
    JArray(seq(|urls|, i requires 0 <= i < |urls| => RootServiceInfoUrlJson(urls[i])))
  }

  function StringListJson(names: seq<string>): (j: Json)
    ensures j.JArray? && |j.items| == |names|
    ensures forall i :: 0 <= i < |names| ==> j.items[i] == JString(names[i])
  {
    JArray(seq(|names|, i requires 0 <= i < |names| => JString(names[i])))
  }

  /** The string whose digest is the version of a proxy configuration: the
      JSON of the URL list, then of the metadata database, then the binary URL. */
  function ConfigHashInput(urlsJson: string, metaJson: string, binUrl: string): (s: string)
    ensures |s| == |urlsJson| + |metaJson| + |binUrl|
    ensures urlsJson <= s
    ensures s[|urlsJson|..][..|metaJson|] == metaJson
    ensures s[|urlsJson| + |metaJson|..] == binUrl
  {
    urlsJson + metaJson + binUrl
  }

  /** The string whose digest is the version of a templated configuration:
      the JSON of the cluster names, of template V1, of template V2 and of the
      metadata database, then the binary URL. */
  function TemplateHashInput(namesJson: string, v1Json: string, v2Json: string, metaJson: string, binUrl: string): (s: string)
    ensures |s| == |namesJson| + |v1Json| + |v2Json| + |metaJson| + |binUrl|
    ensures namesJson <= s
    ensures s[|namesJson|..][..|v1Json|] == v1Json
    ensures s[|namesJson| + |v1Json|..][..|v2Json|] == v2Json
    ensures s[|namesJson| + |v1Json| + |v2Json|..][..|metaJson|] == metaJson
    ensures s[|namesJson| + |v1Json| + |v2Json| + |metaJson|..] == binUrl
  {
    namesJson + v1Json + v2Json + metaJson + binUrl
  }

  /** `NewObProxyConfig`: the configuration that lists one URL per cluster.
      Marshalling the metadata database is tried first, then the URL list. */
  function NewObProxyConfig(serviceAddress: string, configUrlList: seq<RootServiceInfoUrl>, codecs: Codecs): (r: Result<ObProxyConfig>)
    ensures var meta := codecs.marshal(MetaDatabaseJson(NewDefaultMetaDatabaseInfo(serviceAddress)));
            var urls := codecs.marshal(UrlListJson(configUrlList));
            && (meta.Failure? ==> r == Failure(Wrap(meta.error, "encode obproxy metadb")))
            && (meta.Success? && urls.Failure? ==> r == Failure(Wrap(urls.error, "encode config urls")))
            && (meta.Success? && urls.Success? ==>
                  && r.Success?
                  && r.value.ObProxyBinUrl == serviceAddress + ObProxyBinUrlPath
                  && r.value.MetaDatabase == NewDefaultMetaDatabaseInfo(serviceAddress)
                  && r.value.ConfigUrlList == configUrlList
                  && r.value.Version == Md5Hex(codecs, ConfigHashInput(urls.value, meta.value, r.value.ObProxyBinUrl)))
  {
    var obProxyBinUrl := AtService(serviceAddress, ObProxyBinUrlPath);
    var metaDatabaseInfo := NewDefaultMetaDatabaseInfo(serviceAddress);
    match codecs.marshal(MetaDatabaseJson(metaDatabaseInfo))
    case Failure(e) => Failure(Wrap(e, "encode obproxy metadb"))
    case Success(metaJson) =>
      match codecs.marshal(UrlListJson(configUrlList))
      case Failure(e) => Failure(Wrap(e, "encode config urls"))
      case Success(configUrlJson) =>
        var version := Md5Hex(codecs, ConfigHashInput(configUrlJson, metaJson, obProxyBinUrl));
        Success(ObProxyConfig(obProxyBinUrl, NewDefaultMetaDatabaseInfo(serviceAddress), configUrlList, version))
  }

  /** `NewObProxyConfigWithTemplate`: the configuration that lists the cluster
      names and two URL templates whose `${...}` placeholders are left for the
      proxy to fill in. Marshalling is tried in the order metadata database,
      cluster names, template V1, template V2. */
  function NewObProxyConfigWithTemplate(serviceAddress: string, clusterNames: seq<string>, codecs: Codecs): (r: Result<ObProxyConfigWithTemplate>)
    ensures var meta := codecs.marshal(MetaDatabaseJson(NewDefaultMetaDatabaseInfo(serviceAddress)));
            var names := codecs.marshal(StringListJson(clusterNames));
            var v1 := codecs.marshal(JString(serviceAddress + TemplateV1Path));
            var v2 := codecs.marshal(JString(serviceAddress + TemplateV2Path));
            && (meta.Failure? ==> r == Failure(Wrap(meta.error, "encode obproxy metadb")))
            && (meta.Success? && names.Failure? ==> r == Failure(Wrap(names.error, "encode cluster names")))
            && (meta.Success? && names.Success? && v1.Failure? ==>
                  r == Failure(Wrap(v1.error, "encode config url template v1")))
            && (meta.Success? && names.Success? && v1.Success? && v2.Failure? ==>
                  r == Failure(Wrap(v2.error, "encode config url template v2")))
            && (meta.Success? && names.Success? && v1.Success? && v2.Success? ==>
                  && r.Success?
                  && r.value.ObProxyBinUrl == serviceAddress + ObProxyBinUrlPath
                  && r.value.MetaDatabase == NewDefaultMetaDatabaseInfo(serviceAddress)
                  && r.value.ObClusters == clusterNames
                  && r.value.TemplateV1 == serviceAddress + TemplateV1Path
                  && r.value.TemplateV2 == serviceAddress + TemplateV2Path
                  && r.value.Version == Md5Hex(codecs, TemplateHashInput(names.value, v1.value, v2.value, meta.value, r.value.ObProxyBinUrl)))
  {
    var obProxyBinUrl := AtService(serviceAddress, ObProxyBinUrlPath);
    var metaDatabaseInfo := NewDefaultMetaDatabaseInfo(serviceAddress);
    match codecs.marshal(MetaDatabaseJson(metaDatabaseInfo))
    case Failure(e) => Failure(Wrap(e, "encode obproxy metadb"))
    case Success(metaJson) =>
      match codecs.marshal(StringListJson(clusterNames))
      case Failure(e) => Failure(Wrap(e, "encode cluster names"))
      case Success(clusterNamesJson) =>
        var templateStrV1 := AtService(serviceAddress, TemplateV1Path);
        match codecs.marshal(JString(templateStrV1))
        case Failure(e) => Failure(Wrap(e, "encode config url template v1"))
        case Success(templateV1Json) =>
          var templateStrV2 := AtService(serviceAddress, TemplateV2Path);
          match codecs.marshal(JString(templateStrV2))
          case Failure(e) => Failure(Wrap(e, "encode config url template v2"))
          case Success(templateV2Json) =>
            var hashed := TemplateHashInput(clusterNamesJson, templateV1Json, templateV2Json, metaJson, obProxyBinUrl);
            Success(ObProxyConfigWithTemplate(
              obProxyBinUrl, NewDefaultMetaDatabaseInfo(serviceAddress), Md5Hex(codecs, hashed),
              clusterNames, templateStrV1, templateStrV2))
  }

  /** Every version either constructor produces is 32 lower-case hexadecimal
      digits, the rendering of a 16-byte digest. */
  lemma VersionsAreMd5Hex(serviceAddress: string, urls: seq<RootServiceInfoUrl>, names: seq<string>, codecs: Codecs)
    ensures var r := NewObProxyConfig(serviceAddress, urls, codecs);
            r.Success? ==> |r.value.Version| == 32 && forall i :: 0 <= i < 32 ==> IsLowerHex(r.value.Version[i])
    ensures var r := NewObProxyConfigWithTemplate(serviceAddress, names, codecs);
            r.Success? ==> |r.value.Version| == 32 && forall i :: 0 <= i < 32 ==> IsLowerHex(r.value.Version[i])
  {
  }

  /** The version is a function of the service address and the URL list alone,
      and two such configurations carry the same version exactly when the
      digests of their hashed strings coincide. */
  lemma ConfigVersionsAgreeIffDigestsAgree(a: string, urlsA: seq<RootServiceInfoUrl>, b: string, urlsB: seq<RootServiceInfoUrl>, codecs: Codecs)
    requires NewObProxyConfig(a, urlsA, codecs).Success? && NewObProxyConfig(b, urlsB, codecs).Success?
    ensures var ca, cb := NewObProxyConfig(a, urlsA, codecs).value, NewObProxyConfig(b, urlsB, codecs).value;
            var ha := ConfigHashInput(codecs.marshal(UrlListJson(urlsA)).value, codecs.marshal(MetaDatabaseJson(ca.MetaDatabase)).value, ca.ObProxyBinUrl);
            var hb := ConfigHashInput(codecs.marshal(UrlListJson(urlsB)).value, codecs.marshal(MetaDatabaseJson(cb.MetaDatabase)).value, cb.ObProxyBinUrl);
            ca.Version == cb.Version <==> codecs.md5(ha) == codecs.md5(hb)
  {
    var ca, cb := NewObProxyConfig(a, urlsA, codecs).value, NewObProxyConfig(b, urlsB, codecs).value;
    var ha := ConfigHashInput(codecs.marshal(UrlListJson(urlsA)).value, codecs.marshal(MetaDatabaseJson(ca.MetaDatabase)).value, ca.ObProxyBinUrl);
    var hb := ConfigHashInput(codecs.marshal(UrlListJson(urlsB)).value, codecs.marshal(MetaDatabaseJson(cb.MetaDatabase)).value, cb.ObProxyBinUrl);
    Md5HexEqualIffSameDigest(codecs, ha, hb);
  }

  /** The binary URL of a configuration identifies the service address it was
      built for, in both constructors. */
  lemma BinUrlIdentifiesService(a: string, b: string, urls: seq<RootServiceInfoUrl>, names: seq<string>, codecs: Codecs)
    requires NewObProxyConfig(a, urls, codecs).Success? && NewObProxyConfigWithTemplate(b, names, codecs).Success?
    ensures NewObProxyConfig(a, urls, codecs).value.ObProxyBinUrl == NewObProxyConfigWithTemplate(b, names, codecs).value.ObProxyBinUrl <==> a == b
  {
    AtServiceInjective(a, b, ObProxyBinUrlPath);
  }
}
