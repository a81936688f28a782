/**
 * The pure parts of the installer's rendering of the server Deployment: the
 * database-type selector, the licence-type environment variable, the volume
 * and volume-mount lists, the container ports, and the error short-circuits of
 * the render.
 *
 * Kubernetes objects are reduced to the fields the renderer sets; the helpers
 * of the installer's `common` package and the server's configmap renderer
 * appear as values of the render context.
 */
module ServerDeployment {
  import opened Results
  import opened Strings

  /** The component name, which names the Deployment, its pod and its container. */
  const Component: string := "server"
  const ContainerPortName: string := "http"
  const ContainerPortNumber: int := 3000
  const PrometheusPortName: string := "metrics"
  const PrometheusPortNumber: int := 9500
  const LicenseFilePath: string := "/gitpod/license"
  const AuthProviderFilePath: string := "/gitpod/auth-providers"
  /** The licensor type a server without a licence reports. */
  const LicensorTypeGitpod: string := "gitpod"
  /** The secret holding the workspace manager's client certificates. */
  const WsManagerClientTlsSecret: string := "ws-manager-client-tls"
  /** The pod annotation carrying the configuration hash. */
  const ConfigChecksumAnnotation: string := "gitpod.io/checksum_config"
  /** The prefix `fmt.Errorf` puts before a failure to marshal the workspace manager list. */
  const MarshalErrorPrefix: string := "failed to marshal server.WorkspaceManagerList config: "

  const LicenseVolumeName: string := "gitpod-license-key"
  const AuthProviderVolumePrefix: string := "auth-provider-"

  // ----- configuration -----

  datatype CloudSQL = CloudSQL(instance: string)

  /** `Database.InCluster` is a `*bool`: `None` is a nil pointer. */
  datatype DatabaseConfig = DatabaseConfig(inCluster: Option<bool>, cloudSQL: Option<CloudSQL>)

  /** A reference to a Kubernetes secret by name. */
  datatype ObjectRef = ObjectRef(name: string)

  datatype Config = Config(database: DatabaseConfig, license: Option<ObjectRef>, authProviders: seq<ObjectRef>)

  // ----- rendered objects -----

  datatype SecretKeyRef = SecretKeyRef(secretName: string, key: string, optional: bool)

  /** An environment variable; an unset `Value` is the empty string, as in Go. */
  datatype EnvVar = EnvVar(name: string, value: string, valueFrom: Option<SecretKeyRef>)

  datatype VolumeSource = ConfigMapVolume(configMapName: string) | SecretVolume(secretName: string)

  datatype Volume = Volume(name: string, source: VolumeSource)

  /** A volume mount; an unset `SubPath` is the empty string. */
  datatype VolumeMount = VolumeMount(name: string, mountPath: string, subPath: string, readOnly: bool)

  datatype ContainerPort = ContainerPort(name: string, containerPort: int)

  /** The preferred pod anti-affinity term, without its topology key. */
  datatype AffinityTerm = AffinityTerm(weight: int, key: string, operator: string, values: seq<string>)

  datatype Container = Container(
    name: string, ports: seq<ContainerPort>, env: seq<EnvVar>, volumeMounts: seq<VolumeMount>)

  datatype PodTemplate = PodTemplate(
    name: string, namespace: string, labels: map<string, string>, annotations: map<string, string>,
    volumes: seq<Volume>, podAntiAffinity: Option<AffinityTerm>, server: Container)

  datatype Deployment = Deployment(
    name: string, namespace: string, labels: map<string, string>,
    selector: map<string, string>, template: PodTemplate)

  /** An object fed to the configuration hash. */
  datatype HashObject = RenderedObject(id: string) | DatabaseTypePod(databaseType: string)

  /** What `common.CustomCACertVolume` returns when a custom CA is configured. */
  datatype CustomCA = CustomCA(volume: Volume, mount: VolumeMount, env: seq<EnvVar>)

  /**
   * The render context. `configmap` is the server configmap render,
   * `objectHash` is `common.ObjectHash`, `managerList` is the workspace manager
   * list already marshalled and encoded, `mergeEnv` is `common.MergeEnv` with
   * the common environment lists fixed, `labels` is `common.DefaultLabels`.
   */
  datatype RenderContext = RenderContext(
    config: Config,
    namespace: string,
    labels: map<string, string>,
    configmap: Result<seq<HashObject>, string>,
    objectHash: seq<HashObject> -> Result<string, string>,
    managerList: Result<string, string>,
    mergeEnv: seq<EnvVar> -> seq<EnvVar>,
    customCA: Option<CustomCA>,
    usePodAntiAffinity: bool)

  // ----- environment -----

  /** `pointer.BoolDeref`. */
  function BoolDeref(p: Option<bool>, default: bool): bool {
    match p
    case None => default
    case Some(b) => b
  }

  /** The value of `DATABASE_TYPE`: in-cluster wins over CloudSQL, and external is the rest. */
  function DatabaseType(db: DatabaseConfig): (r: string)
    ensures r == "in-cluster" <==> db.inCluster == Some(true)
    ensures r == "cloudsql" <==> db.inCluster != Some(true) && db.cloudSQL.Some?
    ensures r == "external" <==> db.inCluster != Some(true) && db.cloudSQL.None?
  {
    if BoolDeref(db.inCluster, false) then "in-cluster"
    else if db.cloudSQL.Some? then "cloudsql"
    else "external"
  }

  /**
   * `GITPOD_LICENSE_TYPE`: a literal without a licence, otherwise read from
   * the optional `type` key of the licence secret.
   */
  function LicenseTypeEnv(license: Option<ObjectRef>): (r: EnvVar)
    ensures r.name == "GITPOD_LICENSE_TYPE"
    ensures license.None? ==> r.value == LicensorTypeGitpod && r.valueFrom.None?
    ensures license.Some? ==>
              r.value == "" && r.valueFrom == Some(SecretKeyRef(license.value.name, "type", true))
  {
    var envvar := EnvVar("GITPOD_LICENSE_TYPE", "", None);
    if license.None? then envvar.(value := LicensorTypeGitpod)
    else envvar.(valueFrom := Some(SecretKeyRef(license.value.name, "type", true)))
  }

  /** The server's own environment variables, before merging with the common ones. */
  function ServerEnv(config: Config, wsmanCfgManagers: string): (r: seq<EnvVar>)
    ensures |r| == 6
    ensures r[0] == EnvVar("CONFIG_PATH", "/config/config.json", None)
    ensures r[1] == LicenseTypeEnv(config.license)
    ensures r[2] == EnvVar("IDE_CONFIG_PATH", "/ide-config/config.json", None)
    ensures r[3] == EnvVar("NODE_ENV", "production", None)
    ensures r[4] == EnvVar("SHLVL", "1", None)
    ensures r[5] == EnvVar("WSMAN_CFG_MANAGERS", wsmanCfgManagers, None)
    ensures forall j, k :: 0 <= j < k < |r| ==> r[j].name != r[k].name
  {
    [ EnvVar("CONFIG_PATH", "/config/config.json", None),
      LicenseTypeEnv(config.license),
      EnvVar("IDE_CONFIG_PATH", "/ide-config/config.json", None),
      EnvVar("NODE_ENV", "production", None),
      EnvVar("SHLVL", "1", None),
      EnvVar("WSMAN_CFG_MANAGERS", wsmanCfgManagers, None) ]
  }

  // ----- volumes and mounts -----

  /** The two lists built side by side. */
  datatype VolumeList = VolumeList(volumes: seq<Volume>, mounts: seq<VolumeMount>)

  /** Same length, and the k-th mount mounts the k-th volume. */
  predicate Paired(l: VolumeList) {
    && |l.volumes| == |l.mounts|
    && forall k :: 0 <= k < |l.volumes| ==> l.volumes[k].name == l.mounts[k].name
  }

  function Append(l: VolumeList, v: Volume, m: VolumeMount): (r: VolumeList)
    ensures r.volumes == l.volumes + [v] && r.mounts == l.mounts + [m]
  {
    VolumeList(l.volumes + [v], l.mounts + [m])
  }

  function LicenseVolume(license: ObjectRef): Volume {
    Volume(LicenseVolumeName, SecretVolume(license.name))
  }

  function LicenseMount(): VolumeMount {
    VolumeMount(LicenseVolumeName, LicenseFilePath, "license", false)
  }

  /** `fmt.Sprintf("auth-provider-%d", i)`. */
  function AuthProviderVolumeName(i: nat): string {
    AuthProviderVolumePrefix + NatToString(i)
  }

  function AuthProviderVolume(i: nat, provider: ObjectRef): Volume {
    Volume(AuthProviderVolumeName(i), SecretVolume(provider.name))
  }

  function AuthProviderMount(i: nat, provider: ObjectRef): VolumeMount {
    VolumeMount(AuthProviderVolumeName(i), AuthProviderFilePath + "/" + provider.name, "", true)
  }

  /** The loop over the auth providers, after its first `n` iterations. */
  function AddAuthProviders(l: VolumeList, providers: seq<ObjectRef>, n: nat): (r: VolumeList)
    requires n <= |providers|
    ensures |r.volumes| == |l.volumes| + n && |r.mounts| == |l.mounts| + n
    ensures r.volumes[..|l.volumes|] == l.volumes && r.mounts[..|l.mounts|] == l.mounts
    ensures forall k :: 0 <= k < n ==>
              r.volumes[|l.volumes| + k] == AuthProviderVolume(k, providers[k])
              && r.mounts[|l.mounts| + k] == AuthProviderMount(k, providers[k])
    decreases n
  {
    if n == 0 then l
    else
      var prev := AddAuthProviders(l, providers, n - 1);
      var r := Append(prev, AuthProviderVolume(n - 1, providers[n - 1]), AuthProviderMount(n - 1, providers[n - 1]));
      assert r.volumes[..|prev.volumes|] == prev.volumes && r.mounts[..|prev.mounts|] == prev.mounts;
      r
  }

  /** Licence and custom-CA entries count as one each when present. */
  function Count<T>(o: Option<T>): nat {
    if o.Some? then 1 else 0
  }

  /** The lists after the licence step: one licence entry when a licence is configured. */
  function WithLicense(license: Option<ObjectRef>): (r: VolumeList)
    ensures |r.volumes| == |r.mounts| == Count(license)
    ensures license.Some? ==> r.volumes[0] == LicenseVolume(license.value) && r.mounts[0] == LicenseMount()
  {
    var empty := VolumeList([], []);
    if license.Some? then Append(empty, LicenseVolume(license.value), LicenseMount()) else empty
  }

  /** The lists after the custom-CA step: its entry appended when present, earlier entries kept. */
  function WithCustomCA(l: VolumeList, ca: Option<CustomCA>): (r: VolumeList)
    ensures |r.volumes| == |l.volumes| + Count(ca) && |r.mounts| == |l.mounts| + Count(ca)
    ensures forall k :: 0 <= k < |l.volumes| ==> r.volumes[k] == l.volumes[k]
    ensures forall k :: 0 <= k < |l.mounts| ==> r.mounts[k] == l.mounts[k]
    ensures ca.Some? ==> r.volumes[|l.volumes|] == ca.value.volume && r.mounts[|l.mounts|] == ca.value.mount
  {
    if ca.Some? then Append(l, ca.value.volume, ca.value.mount) else l
  }

  /**
   * The optional volumes and mounts: the licence, then the auth providers by
   * index, then the custom CA.
   */
  function OptionalVolumes(config: Config, ca: Option<CustomCA>): (r: VolumeList)
    ensures |r.volumes| == |r.mounts| == Count(config.license) + |config.authProviders| + Count(ca)
    ensures config.license.Some? ==>
              r.volumes[0] == LicenseVolume(config.license.value) && r.mounts[0] == LicenseMount()
    ensures forall k :: 0 <= k < |config.authProviders| ==>
              r.volumes[Count(config.license) + k] == AuthProviderVolume(k, config.authProviders[k])
              && r.mounts[Count(config.license) + k] == AuthProviderMount(k, config.authProviders[k])
    ensures ca.Some? ==>
              r.volumes[|r.volumes| - 1] == ca.value.volume && r.mounts[|r.mounts| - 1] == ca.value.mount
  {
    var withLicense := WithLicense(config.license);
    var withProviders := AddAuthProviders(withLicense, config.authProviders, |config.authProviders|);
    assert config.license.Some? ==> withProviders.volumes[0] == withLicense.volumes[0]
                                    && withProviders.mounts[0] == withLicense.mounts[0];
    WithCustomCA(withProviders, ca)
  }

  /** The three volumes every server pod has. */
  function FixedVolumes(): seq<Volume> {
    [ Volume("config", ConfigMapVolume(Component + "-config")),
      Volume("ide-config", ConfigMapVolume(Component + "-ide-config")),
      Volume("ws-manager-client-tls-certs", SecretVolume(WsManagerClientTlsSecret)) ]
  }

  /** The mounts of the three fixed volumes, read-only. */
  function FixedMounts(): seq<VolumeMount> {
    [ VolumeMount("config", "/config", "", true),
      VolumeMount("ide-config", "/ide-config", "", true),
      VolumeMount("ws-manager-client-tls-certs", "/ws-manager-client-tls-certs", "", true) ]
  }

  /** The pod's volumes: the fixed three, then one per optional entry. */
  function PodVolumes(config: Config, ca: Option<CustomCA>): (r: seq<Volume>)
    ensures |r| == 3 + Count(config.license) + |config.authProviders| + Count(ca)
    ensures r[..3] == FixedVolumes()
  {
    FixedVolumes() + OptionalVolumes(config, ca).volumes
  }

  /** The server container's mounts: the fixed three, then one per optional entry. */
  function ServerMounts(config: Config, ca: Option<CustomCA>): (r: seq<VolumeMount>)
    ensures |r| == 3 + Count(config.license) + |config.authProviders| + Count(ca)
    ensures r[..3] == FixedMounts()
  {
    FixedMounts() + OptionalVolumes(config, ca).mounts
  }

  /** A custom CA whose volume and mount share one name. */
  predicate CustomCAPaired(ca: Option<CustomCA>) {
    ca.Some? ==> ca.value.volume.name == ca.value.mount.name
  }

  /**
   * The fixed entries come first, then the licence, the auth providers by
   * index and the custom CA, in both lists.
   */
  lemma VolumeLayout(config: Config, ca: Option<CustomCA>)
    ensures PodVolumes(config, ca)[..3] == FixedVolumes()
    ensures ServerMounts(config, ca)[..3] == FixedMounts()
    ensures |PodVolumes(config, ca)| == |ServerMounts(config, ca)|
            == 3 + Count(config.license) + |config.authProviders| + Count(ca)
    ensures config.license.Some? ==>
              PodVolumes(config, ca)[3] == LicenseVolume(config.license.value)
              && ServerMounts(config, ca)[3] == LicenseMount()
    ensures forall k :: 0 <= k < |config.authProviders| ==>
              PodVolumes(config, ca)[3 + Count(config.license) + k]
                == AuthProviderVolume(k, config.authProviders[k])
              && ServerMounts(config, ca)[3 + Count(config.license) + k]
                == AuthProviderMount(k, config.authProviders[k])
    ensures ca.Some? ==>
              PodVolumes(config, ca)[|PodVolumes(config, ca)| - 1] == ca.value.volume
              && ServerMounts(config, ca)[|ServerMounts(config, ca)| - 1] == ca.value.mount
  {
    var o := OptionalVolumes(config, ca);
    var vs, ms := PodVolumes(config, ca), ServerMounts(config, ca);
    assert vs[..3] == FixedVolumes();
    assert ms[..3] == FixedMounts();
    forall k | 0 <= k < |config.authProviders|
      ensures vs[3 + Count(config.license) + k] == AuthProviderVolume(k, config.authProviders[k])
      ensures ms[3 + Count(config.license) + k] == AuthProviderMount(k, config.authProviders[k])
    {
      assert vs[3 + Count(config.license) + k] == o.volumes[Count(config.license) + k];
      assert ms[3 + Count(config.license) + k] == o.mounts[Count(config.license) + k];
    }
  }

  /**
   * The name of the k-th volume, by the section of the list it falls in:
   * fixed, licence, auth provider, custom CA.
   */
  function VolumeNameAt(config: Config, ca: Option<CustomCA>, k: nat): string
    requires k < 3 + Count(config.license) + |config.authProviders| + Count(ca)
  {
    var lic := Count(config.license);
    var n := |config.authProviders|;
    if k < 3 then ["config", "ide-config", "ws-manager-client-tls-certs"][k]
    else if k < 3 + lic then LicenseVolumeName
    else if k < 3 + lic + n then AuthProviderVolumeName(k - 3 - lic)
    else ca.value.volume.name
  }

  /** The licence entry, when present, carries the licence volume name. */
  lemma LicenseEntryName(config: Config, ca: Option<CustomCA>)
    requires config.license.Some?
    ensures OptionalVolumes(config, ca).volumes[0].name == VolumeNameAt(config, ca, 3)
    ensures OptionalVolumes(config, ca).mounts[0].name == VolumeNameAt(config, ca, 3)
  {
    assert VolumeNameAt(config, ca, 3) == LicenseVolumeName;
  }

  /** The j-th auth-provider entry carries the name `auth-provider-j`. */
  lemma AuthProviderEntryName(config: Config, ca: Option<CustomCA>, j: nat)
    requires j < |config.authProviders|
    ensures OptionalVolumes(config, ca).volumes[Count(config.license) + j].name
            == VolumeNameAt(config, ca, Count(config.license) + j + 3)
    ensures OptionalVolumes(config, ca).mounts[Count(config.license) + j].name
            == VolumeNameAt(config, ca, Count(config.license) + j + 3)
  {
    var o := OptionalVolumes(config, ca);
    var lic := Count(config.license);
    var name := AuthProviderVolumeName(j);
    assert VolumeNameAt(config, ca, lic + j + 3) == name;
    assert o.volumes[lic + j].name == name && o.mounts[lic + j].name == name by {
      assert o.volumes[lic + j] == AuthProviderVolume(j, config.authProviders[j]);
      assert o.mounts[lic + j] == AuthProviderMount(j, config.authProviders[j]);
    }
  }

  /** The custom-CA entry, when present, is the last one and carries the CA's volume name. */
  lemma CustomCAEntryName(config: Config, ca: Option<CustomCA>)
    requires CustomCAPaired(ca) && ca.Some?
    ensures OptionalVolumes(config, ca).volumes[Count(config.license) + |config.authProviders|].name
            == VolumeNameAt(config, ca, Count(config.license) + |config.authProviders| + 3)
    ensures OptionalVolumes(config, ca).mounts[Count(config.license) + |config.authProviders|].name
            == VolumeNameAt(config, ca, Count(config.license) + |config.authProviders| + 3)
  {
    assert VolumeNameAt(config, ca, Count(config.license) + |config.authProviders| + 3) == ca.value.volume.name;
  }

  /** The optional entries carry, at every position, the name their section prescribes. */
  lemma OptionalNamesBySection(config: Config, ca: Option<CustomCA>, i: nat)
    requires CustomCAPaired(ca)
    requires i < Count(config.license) + |config.authProviders| + Count(ca)
    ensures OptionalVolumes(config, ca).volumes[i].name == VolumeNameAt(config, ca, i + 3)
    ensures OptionalVolumes(config, ca).mounts[i].name == VolumeNameAt(config, ca, i + 3)
  {
    var lic := Count(config.license);
    var n := |config.authProviders|;
    if i < lic {
      LicenseEntryName(config, ca);
    } else if i < lic + n {
      AuthProviderEntryName(config, ca, i - lic);
    } else {
      CustomCAEntryName(config, ca);
    }
  }

  /** Both lists carry, at every position, the name that section prescribes. */
  lemma NamesBySection(config: Config, ca: Option<CustomCA>, k: nat)
    requires CustomCAPaired(ca)
    requires k < 3 + Count(config.license) + |config.authProviders| + Count(ca)
    ensures |PodVolumes(config, ca)| == |ServerMounts(config, ca)|
            == 3 + Count(config.license) + |config.authProviders| + Count(ca)
    ensures PodVolumes(config, ca)[k].name == VolumeNameAt(config, ca, k)
    ensures ServerMounts(config, ca)[k].name == VolumeNameAt(config, ca, k)
  {
    var o := OptionalVolumes(config, ca);
    var vs, ms := PodVolumes(config, ca), ServerMounts(config, ca);
    assert vs == FixedVolumes() + o.volumes && ms == FixedMounts() + o.mounts;
    if k >= 3 {
      OptionalNamesBySection(config, ca, k - 3);
      assert vs[k] == o.volumes[k - 3] && ms[k] == o.mounts[k - 3];
    }
  }

  /** The volumes and mounts are paired by position and name. */
  lemma VolumesPaired(config: Config, ca: Option<CustomCA>)
    requires CustomCAPaired(ca)
    ensures Paired(VolumeList(PodVolumes(config, ca), ServerMounts(config, ca)))
  {
    var vs, ms := PodVolumes(config, ca), ServerMounts(config, ca);
    forall k | 0 <= k < |vs|
      ensures vs[k].name == ms[k].name
    {
      NamesBySection(config, ca, k);
    }
  }

  lemma AuthProviderNamesDistinct(i: nat, j: nat)
    ensures i != j ==> AuthProviderVolumeName(i) != AuthProviderVolumeName(j)
  {
    NatToStringInjective(i, j);
    if AuthProviderVolumeName(i) == AuthProviderVolumeName(j) {
      var p := AuthProviderVolumePrefix;
      assert (p + NatToString(i))[|p|..] == NatToString(i);
      assert (p + NatToString(j))[|p|..] == NatToString(j);
    }
  }

  /** An auth-provider volume name starts with another letter than the fixed and licence names. */
  lemma AuthProviderNameNotFixed(i: nat)
    ensures AuthProviderVolumeName(i) !in {"config", "ide-config", "ws-manager-client-tls-certs", LicenseVolumeName}
  {
    var s := AuthProviderVolumeName(i);
    assert s[0] == 'a';
  }

  /** The custom CA's volume name, which the renderer does not choose, clashes with no other. */
  predicate CustomCANameFresh(config: Config, ca: Option<CustomCA>) {
    ca.Some? ==>
      && ca.value.volume.name !in {"config", "ide-config", "ws-manager-client-tls-certs", LicenseVolumeName}
      && forall i :: 0 <= i < |config.authProviders| ==> ca.value.volume.name != AuthProviderVolumeName(i)
  }

  /** The section names are pairwise distinct. */
  lemma SectionNamesDistinct(config: Config, ca: Option<CustomCA>, j: nat, k: nat)
    requires CustomCANameFresh(config, ca)
    requires j < k < 3 + Count(config.license) + |config.authProviders| + Count(ca)
    ensures VolumeNameAt(config, ca, j) != VolumeNameAt(config, ca, k)
  {
    var lic := Count(config.license);
    var n := |config.authProviders|;
    if k < 3 + lic {
    } else if k < 3 + lic + n {
      if j < 3 + lic {
        AuthProviderNameNotFixed(k - 3 - lic);
      } else {
        AuthProviderNamesDistinct(j - 3 - lic, k - 3 - lic);
      }
    }
  }

  /** The volume names are pairwise distinct. */
  lemma VolumeNamesDistinct(config: Config, ca: Option<CustomCA>)
    requires CustomCAPaired(ca) && CustomCANameFresh(config, ca)
    ensures var vs := PodVolumes(config, ca);
            forall j, k :: 0 <= j < k < |vs| ==> vs[j].name != vs[k].name
  {
    var vs := PodVolumes(config, ca);
    forall j, k | 0 <= j < k < |vs|
      ensures vs[j].name != vs[k].name
    {
      NamesBySection(config, ca, j);
      NamesBySection(config, ca, k);
      SectionNamesDistinct(config, ca, j, k);
    }
  }

  /** Every volume has exactly one mount, the one with its name. */
  lemma EachVolumeMountedOnce(config: Config, ca: Option<CustomCA>)
    requires CustomCAPaired(ca) && CustomCANameFresh(config, ca)
    ensures var vs, ms := PodVolumes(config, ca), ServerMounts(config, ca);
            && |vs| == |ms|
            && forall k, j :: 0 <= k < |vs| && 0 <= j < |ms| ==> (ms[j].name == vs[k].name <==> j == k)
  {
    var vs, ms := PodVolumes(config, ca), ServerMounts(config, ca);
    VolumesPaired(config, ca);
    VolumeNamesDistinct(config, ca);
    forall k, j | 0 <= k < |vs| && 0 <= j < |ms| && ms[j].name == vs[k].name
      ensures j == k
    {
      assert ms[j].name == vs[j].name;
    }
  }

  /** A licence volume and mount are present exactly when a licence is configured. */
  lemma LicenseVolumeIffLicense(config: Config, ca: Option<CustomCA>)
    requires CustomCAPaired(ca) && CustomCANameFresh(config, ca)
    ensures (exists k :: 0 <= k < |PodVolumes(config, ca)| && PodVolumes(config, ca)[k].name == LicenseVolumeName)
            <==> config.license.Some?
    ensures (exists k :: 0 <= k < |ServerMounts(config, ca)| && ServerMounts(config, ca)[k].name == LicenseVolumeName)
            <==> config.license.Some?
  {
    var vs, ms := PodVolumes(config, ca), ServerMounts(config, ca);
    if config.license.None? {
      forall k | 0 <= k < |vs|
        ensures vs[k].name != LicenseVolumeName && ms[k].name != LicenseVolumeName
      {
        NamesBySection(config, ca, k);
        if 3 <= k < 3 + |config.authProviders| {
          AuthProviderNameNotFixed(k - 3);
        }
      }
    } else {
      NamesBySection(config, ca, 3);
    }
  }

  // ----- ports -----

  /** The container ports: the main port, Prometheus, and the two debuggers. */
  function ServerPorts(): (r: seq<ContainerPort>)
    ensures |r| == 4
    ensures r[0] == ContainerPort(ContainerPortName, ContainerPortNumber)
    ensures r[1] == ContainerPort(PrometheusPortName, PrometheusPortNumber)
    ensures r[2] == ContainerPort("debug", 6060) && r[3] == ContainerPort("debugnode", 9229)
    ensures forall j, k :: 0 <= j < k < |r| ==> r[j].name != r[k].name && r[j].containerPort != r[k].containerPort
  {
    [ ContainerPort(ContainerPortName, ContainerPortNumber),
      ContainerPort(PrometheusPortName, PrometheusPortNumber),
      ContainerPort("debug", 6060),
      ContainerPort("debugnode", 9229) ]
  }

  // ----- the render -----

  /** The anti-affinity term the experimental web-app setting asks for. */
  function PodAntiAffinity(usePodAntiAffinity: bool): (r: Option<AffinityTerm>)
    ensures r.Some? <==> usePodAntiAffinity
    ensures r.Some? ==> r.value == AffinityTerm(100, "component", "In", [Component])
  {
    if usePodAntiAffinity then Some(AffinityTerm(100, "component", "In", [Component])) else None
  }

  /** The objects the configuration hash covers: the configmap and the database type. */
  function HashObjects(configmapObjects: seq<HashObject>, config: Config): (r: seq<HashObject>)
    ensures |r| == |configmapObjects| + 1
    ensures r[..|configmapObjects|] == configmapObjects
    ensures r[|configmapObjects|] == DatabaseTypePod(DatabaseType(config.database))
  {
    configmapObjects + [DatabaseTypePod(DatabaseType(config.database))]
  }

  /** `deployment`: the server Deployment, or the first error met on the way. */
  function Render(ctx: RenderContext): (r: Result<seq<Deployment>, string>)
    ensures ctx.configmap.Err? ==> r == Err(ctx.configmap.error)
    ensures ctx.configmap.Ok? && ctx.objectHash(HashObjects(ctx.configmap.value, ctx.config)).Err? ==>
              r == Err(ctx.objectHash(HashObjects(ctx.configmap.value, ctx.config)).error)
    ensures ctx.configmap.Ok? && ctx.objectHash(HashObjects(ctx.configmap.value, ctx.config)).Ok?
            && ctx.managerList.Err? ==>
              r == Err(MarshalErrorPrefix + ctx.managerList.error)
    ensures r.Ok? <==>
              ctx.configmap.Ok? && ctx.objectHash(HashObjects(ctx.configmap.value, ctx.config)).Ok?
              && ctx.managerList.Ok?
    ensures r.Ok? ==>
              && |r.value| == 1
              && var d := r.value[0];
              && d.name == Component
              && d.namespace == d.template.namespace == ctx.namespace
              && d.selector == d.labels == d.template.labels == ctx.labels
              && ConfigChecksumAnnotation in d.template.annotations
              && d.template.annotations[ConfigChecksumAnnotation]
                 == ctx.objectHash(HashObjects(ctx.configmap.value, ctx.config)).value
              && d.template.volumes == PodVolumes(ctx.config, ctx.customCA)
              && d.template.server.volumeMounts == ServerMounts(ctx.config, ctx.customCA)
              && d.template.server.ports == ServerPorts()
              && d.template.server.env
                 == ctx.mergeEnv(ServerEnv(ctx.config, ctx.managerList.value))
                    + (if ctx.customCA.Some? then ctx.customCA.value.env else [])
              && d.template.podAntiAffinity == PodAntiAffinity(ctx.usePodAntiAffinity)
  {
    match ctx.configmap
    case Err(e) => Err(e)
    case Ok(objs) =>
      match ctx.objectHash(HashObjects(objs, ctx.config))
      case Err(e) => Err(e)
      case Ok(configHash) =>
        match ctx.managerList
        case Err(e) => Err(MarshalErrorPrefix + e)
        case Ok(wsmanCfgManagers) =>
          var caEnv := if ctx.customCA.Some? then ctx.customCA.value.env else [];
          var env := ctx.mergeEnv(ServerEnv(ctx.config, wsmanCfgManagers)) + caEnv;
          var server := Container(Component, ServerPorts(), env, ServerMounts(ctx.config, ctx.customCA));
          var template := PodTemplate(
            Component, ctx.namespace, ctx.labels, map[ConfigChecksumAnnotation := configHash],
            PodVolumes(ctx.config, ctx.customCA), PodAntiAffinity(ctx.usePodAntiAffinity), server);
          Ok([Deployment(Component, ctx.namespace, ctx.labels, ctx.labels, template)])
  }
}
