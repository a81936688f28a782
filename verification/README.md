# Gitpod: workspace timeouts, composite initializers and the server Deployment, in Dafny

This project models three small, self-contained pieces of Gitpod and proves properties of them.

- **Workspace timeouts and user policy** come from the enterprise `UserServiceEE` (`timeouts.dfy`, `user_service.dfy`). The four `WorkspaceTimeoutDuration` values convert to duration strings and back. The configured `timeoutDefault` and `timeoutExtended` fall back through JavaScript's `||`, so an unset value and an empty string both fall back. The parse is a `switch` where the first matching case wins. Around the conversions sit the default-timeout choice, the extra-resources flag, the licence seat check at sign-up, the terms-of-service checks and automatic open-source eligibility.
- **Workspace initializers** (`initializer.dfy`) cover two things:
  - the checkout locations named by a `WorkspaceInitializer` specification;
  - the run of a `CompositeInitializer`, which runs its children in order, each once, and stops at the first error.

  The implementation of both is fixed here by what the content service's tests require of it.
- **The server Deployment renderer** of the installer (`server_deployment.dfy`) covers:
  - the `DATABASE_TYPE` selector and the `GITPOD_LICENSE_TYPE` variable;
  - the volume and volume-mount lists and the container ports;
  - the errors that stop the render.

Shared helpers live in `results.dfy` (`Option`, `Result`) and `strings.dfy`. `strings.dfy` holds decimal printing of naturals, which is proved injective, and `strings.Join`.

Collaborators the source injects or calls are modelled as plain values:
- the licence evaluator and the eligibility service are records of functions;
- the host-context lookup is a function, and the allow list's `hasAny` is a predicate;
- the user count is the number the user database returned;
- for the renderer, the configmap render, `ObjectHash`, `MergeEnv`, `CustomCACertVolume`, the default labels and the marshalled workspace-manager list are fields of `RenderContext`.

The repository also contains a preview-environment cleanup job (`.werft/platform-delete-preview-environments-cron.ts`). It is not part of this model.

## Model

| member | source | states |
|---|---|---|
| `WorkspaceTimeouts.ToDuration` | components/server/ee/src/user/user-service.ts:50-60 | every timeout maps to a non-empty duration; SHORT is 10m, LONG the effective default, both extended values the effective extended duration |
| `WorkspaceTimeouts.FromDuration` | components/server/ee/src/user/user-service.ts:62-73 | total; never yields EXTENDED; LONG exactly when the string is the effective default and not 10m; EXTENDED_ALT exactly when it is the effective extended and neither earlier case; SHORT for 10m or any unmatched string |
| `WorkspaceTimeouts.OrElse` | components/server/ee/src/user/user-service.ts:55 | the JavaScript or-fallback yields the fallback or a non-empty configured value; unset or empty falls back |
| `WorkspaceTimeouts.ShortIgnoresConfiguration` | components/server/ee/src/user/user-service.ts:51-53 | SHORT is "10m" under every configuration |
| `WorkspaceTimeouts.LongUsesConfiguredDefault` | components/server/ee/src/user/user-service.ts:54-55 | LONG is the configured default, or "5m" when it is unset or empty |
| `WorkspaceTimeouts.ExtendedVariantsAgree` | components/server/ee/src/user/user-service.ts:56-58 | EXTENDED and EXTENDED_ALT give the same duration: the configured extended one, or "180m" when unset or empty |
| `WorkspaceTimeouts.TimeoutRoundTrip` | components/server/ee/src/user/user-service.ts:50-73 | parsing a rendered timeout returns SHORT for SHORT, LONG for LONG when the default is not 10m, EXTENDED_ALT for both extended values when their duration collides with neither earlier case |
| `WorkspaceTimeouts.TimeoutRoundTripCollisions` | components/server/ee/src/user/user-service.ts:62-72 | when a configured duration equals an earlier case's, the earlier case wins and the round trip changes the timeout |
| `WorkspaceTimeouts.DurationRoundTrip` | components/server/ee/src/user/user-service.ts:50-73 | a string some timeout renders to survives parse-then-render; any other string parses to SHORT and renders as 10m |
| `UserServiceEE.DefaultWorkspaceTimeout` | components/server/ee/src/user/user-service.ts:34-48 | with payment, the eligibility service's answer; without it, LONG if and only if the licence enables the timeout feature for the user count, otherwise SHORT |
| `UserServiceEE.UserGetsMoreResources` | components/server/ee/src/user/user-service.ts:75-81 | false whenever payment is disabled; otherwise the eligibility service's answer |
| `UserServiceEE.CheckSignUp` | components/server/ee/src/user/user-service.ts:83-95 | the base checks are reached if and only if the licence has enough seats; otherwise the "Cannot sign up" exception; a pass needs both the seats and the base checks |
| `UserServiceEE.TermsAcceptanceRequired` | components/server/ee/src/user/user-service.ts:97-103 | terms acceptance is never required at login |
| `UserServiceEE.TermsAccepted` | components/server/ee/src/user/user-service.ts:105-113 | terms always count as accepted for API calls |
| `UserServiceEE.MapLabels` | components/server/ee/src/user/user-service.ts:116-124 | one entry per identity, in order: its `host/authName`, or undefined for an unknown auth provider |
| `UserServiceEE.KeepTruthy` | components/server/ee/src/user/user-service.ts:125 | keeps exactly the defined non-empty strings, never growing the list; a single entry survives if and only if it is truthy |
| `UserServiceEE.KeepTruthyAppend` | components/server/ee/src/user/user-service.ts:125 | the filter keeps order and multiplicity: filtering a concatenation concatenates the filtered parts |
| `UserServiceEE.IdsWithHost` | components/server/ee/src/user/user-service.ts:116-125 | the list handed to the allow list is no longer than the identities, and each entry is the `host/authName` label of one of them |
| `UserServiceEE.KnownLabels` | components/server/ee/src/user/user-service.ts:115-127 | reference list: a string is in it if and only if it is the label of some identity with a known auth provider |
| `UserServiceEE.IdsWithHostAreKnownLabels` | components/server/ee/src/user/user-service.ts:116-125 | the source's map-then-filter equals the reference list: only unknown providers are dropped, and order is kept |
| `UserServiceEE.CheckAutomaticOssEligibility` | components/server/ee/src/user/user-service.ts:115-128 | the answer is the allow list's `hasAny` over exactly the reference list |
| `UserServiceEE.OssEligibilityByAllowList` | components/server/ee/src/user/user-service.ts:115-128 | with a membership allow list, eligible if and only if some identity with a known provider has its `host/authName` on the list |
| `Initializers.CheckoutLocations` | components/content-service/pkg/initializer/initializer_test.go:68-100 | a Git initializer names exactly its location, another kind none, and a composite names the location of every Git child |
| `Initializers.ChildrenCheckoutLocations` | components/content-service/pkg/initializer/initializer_test.go:85-100 | the locations of a list of initializers include the location of every Git initializer in the list |
| `Initializers.FlattenAppend` | components/content-service/pkg/initializer/initializer_test.go:85-100 | flattening distributes over concatenating the outer lists |
| `Initializers.NestedCompositeLocations` | components/content-service/pkg/initializer/initializer_test.go:85-100 | a composite of two composites names the same locations, in the same order, as one composite of all their children |
| `Initializers.GitCheckoutLocation` | components/content-service/pkg/initializer/initializer_test.go:68-84 | a single Git initializer yields exactly its checkout location |
| `Initializers.CompositeCheckoutLocations` | components/content-service/pkg/initializer/initializer_test.go:85-100 | a composite yields its children's checkout locations concatenated in child order |
| `Initializers.TwoGitInitializersJoin` | components/content-service/pkg/initializer/initializer_test.go:35-104 | the composite of `/foo` and `/bar` joins to "/foo,/bar" |
| `Initializers.Run` | components/content-service/pkg/initializer/initializer_test.go:20-31 | a recording initializer counts one more call and succeeds; a function initializer keeps its state and returns its fixed source and error; a composite keeps its number of children |
| `Initializers.RunChildren` | components/content-service/pkg/initializer/initializer_test.go:171-177 | one post-run state and one call count per child, and no child is run more than once |
| `Initializers.RunChildrenAfter` | components/content-service/pkg/initializer/initializer_test.go:171-177 | a child that was run is left in its post-run state, and a child that was not run is untouched |
| `Initializers.RecordingRun` | components/content-service/pkg/initializer/initializer_test.go:24-31 | a recording initializer adds one to its count and returns FromOther with no error |
| `Initializers.EmptyCompositeSucceeds` | components/content-service/pkg/initializer/initializer_test.go:115-122 | an empty composite returns no error |
| `Initializers.AllSucceedRunEachOnce` | components/content-service/pkg/initializer/initializer_test.go:123-148 | when no child fails, there is no error and every child ran exactly once |
| `Initializers.StopsAtFirstFailure` | components/content-service/pkg/initializer/initializer_test.go:149-168 | at the first failing child, its error is returned; it and the earlier children ran once; the later children ran zero times |
| `Initializers.CompositeFailsIffSomeChildFails` | components/content-service/pkg/initializer/initializer_test.go:149-161 | the composite returns an error if and only if some child fails |
| `Initializers.RecordingChildCount` | components/content-service/pkg/initializer/initializer_test.go:128-147 | a recording child's count afterwards is its count before plus the number of times it was run |
| `Initializers.ThreeRecordingChildren` | components/content-service/pkg/initializer/initializer_test.go:134-148 | three fresh recording children each end with count one and no error |
| `Initializers.ErrorPropagationCase` | components/content-service/pkg/initializer/initializer_test.go:149-168 | recording, failing, recording: an error is returned, the first has count one, the last count zero |
| `Strings.Join` | components/content-service/pkg/initializer/initializer_test.go:100 | no parts give the empty string, one part itself, and the result always starts with the first part |
| `Strings.JoinSnoc` | components/content-service/pkg/initializer/initializer_test.go:100 | joining one more part appends the separator and that part |
| `Strings.NatToString` | install/installer/pkg/components/server/deployment.go:143 | `%d` gives a non-empty digit string, one digit exactly below ten, with no leading zero except for zero itself |
| `Strings.NatToStringValue` | install/installer/pkg/components/server/deployment.go:143 | reading the printed digits back as a decimal number gives the number printed |
| `Strings.NatToStringInjective` | install/installer/pkg/components/server/deployment.go:143 | distinct indices print differently |
| `ServerDeployment.DatabaseType` | install/installer/pkg/components/server/deployment.go:43-53 | "in-cluster" if and only if InCluster is true (nil counts as false); "cloudsql" if and only if not in-cluster and CloudSQL is set; "external" otherwise |
| `ServerDeployment.LicenseTypeEnv` | install/installer/pkg/components/server/deployment.go:84-102 | no licence: the literal gitpod licensor type and no ValueFrom; licence: no literal and an optional reference to key "type" of the licence secret |
| `ServerDeployment.ServerEnv` | install/installer/pkg/components/server/deployment.go:79-119 | exactly six server variables in order: CONFIG_PATH, the licence-type variable, IDE_CONFIG_PATH, NODE_ENV=production, SHLVL=1 and the encoded manager list; their names are pairwise distinct |
| `ServerDeployment.AddAuthProviders` | install/installer/pkg/components/server/deployment.go:141-159 | after n iterations, the earlier entries are kept, and provider k has volume `auth-provider-k` on its secret and a read-only mount under the auth-provider path, in index order |
| `ServerDeployment.WithLicense` | install/installer/pkg/components/server/deployment.go:124-139 | one licence volume and mount when a licence is configured, none otherwise |
| `ServerDeployment.WithCustomCA` | install/installer/pkg/components/server/deployment.go:161-165 | the custom CA's volume and mount are appended after the earlier entries, which are kept |
| `ServerDeployment.OptionalVolumes` | install/installer/pkg/components/server/deployment.go:122-165 | licence first when present, then the providers by index, then the custom CA volume and mount together; both lists the same length |
| `ServerDeployment.PodVolumes` | install/installer/pkg/components/server/deployment.go:220-248 | the three fixed volumes first, and one more per optional entry |
| `ServerDeployment.ServerMounts` | install/installer/pkg/components/server/deployment.go:282-301 | the three fixed mounts first, and one more per optional entry |
| `ServerDeployment.VolumeLayout` | install/installer/pkg/components/server/deployment.go:220-301 | the three fixed volumes and mounts come first, followed by the optional entries in construction order |
| `ServerDeployment.OptionalNamesBySection` | install/installer/pkg/components/server/deployment.go:122-165 | each optional volume and its mount carry the name their section prescribes (for a custom CA whose volume and mount share one name) |
| `ServerDeployment.LicenseEntryName` | install/installer/pkg/components/server/deployment.go:124-139 | the licence entry is named `gitpod-license-key` in both lists |
| `ServerDeployment.AuthProviderEntryName` | install/installer/pkg/components/server/deployment.go:141-159 | provider j's entry is named `auth-provider-j` in both lists |
| `ServerDeployment.CustomCAEntryName` | install/installer/pkg/components/server/deployment.go:161-165 | the custom CA's entry comes last and carries the CA's volume name in both lists (for a custom CA whose volume and mount share one name) |
| `ServerDeployment.NamesBySection` | install/installer/pkg/components/server/deployment.go:122-165 | at every position, the volume and the mount both carry the name the section prescribes (for a custom CA whose volume and mount share one name) |
| `ServerDeployment.VolumesPaired` | install/installer/pkg/components/server/deployment.go:220-301 | volumes and mounts have equal length and equal names position by position (for a custom CA whose volume and mount share one name) |
| `ServerDeployment.AuthProviderNamesDistinct` | install/installer/pkg/components/server/deployment.go:143 | distinct provider indices give distinct volume names |
| `ServerDeployment.AuthProviderNameNotFixed` | install/installer/pkg/components/server/deployment.go:126-143 | no auth-provider volume name equals a fixed name or the licence name |
| `ServerDeployment.SectionNamesDistinct` | install/installer/pkg/components/server/deployment.go:122-165 | names prescribed for different positions differ (for a custom CA whose volume name no other entry uses) |
| `ServerDeployment.VolumeNamesDistinct` | install/installer/pkg/components/server/deployment.go:220-248 | the pod's volume names are pairwise distinct (for a custom CA whose volume and mount share one name that no other entry uses) |
| `ServerDeployment.EachVolumeMountedOnce` | install/installer/pkg/components/server/deployment.go:220-301 | every volume has exactly one mount with its name |
| `ServerDeployment.LicenseVolumeIffLicense` | install/installer/pkg/components/server/deployment.go:124-139 | a `gitpod-license-key` volume, and a mount of that name, exist if and only if a licence is configured |
| `ServerDeployment.ServerPorts` | install/installer/pkg/components/server/deployment.go:264-277 | exactly four ports in order (main, Prometheus, debug 6060, debugnode 9229), with distinct names and numbers |
| `ServerDeployment.PodAntiAffinity` | install/installer/pkg/components/server/deployment.go:167-187 | a preferred anti-affinity term of weight 100 on `component In [server]` if and only if the experimental setting asks for it |
| `ServerDeployment.HashObjects` | install/installer/pkg/components/server/deployment.go:30-59 | the hashed objects are the configmap's objects, unchanged and in order, followed by exactly one pod carrying the `DATABASE_TYPE` value |
| `ServerDeployment.Render` | install/installer/pkg/components/server/deployment.go:27-308 | a configmap, hash or marshal error aborts with no objects, the marshal error with its fixed prefix; success yields one Deployment whose selector, labels and pod-template labels agree, annotated with the config hash, in the context's namespace, with the volumes, mounts and ports above, the merged server environment followed by the custom CA's variables, and the anti-affinity term above |

## Left out

- Asynchrony, dependency injection and the unseen services are left out. `userDb.getUserCount`, `LicenseEvaluator`, `EligibilityService`, `OssAllowListDB` and `HostContextProvider` are given values or functions. The model cannot show that the SaaS path of `getDefaultWorkspaceTimeout` never queries the user count.
- `UserServiceEE.CheckSignUp`: the exception's payload (`userCount`, `params`) is not modelled. The internal structure of `AuthException` belongs to a file that is not part of this model.
- `UserServiceEE.KnownLabels`: its contract states membership only. Order and multiplicity follow from its definition and from `IdsWithHostAreKnownLabels`, not from a separate clause.
- `WORKSPACE_TIMEOUT_*` are distinct string constants in the protocol package, which is not part of this model. They are modelled as the four constructors of an enumeration.
- The composite initializer's own implementation is not part of this model. Its behaviour is fixed only by the tests. The model's composite returns `FromOther` as its source, which the tests do not check.
- `Initializers.StopsAtFirstFailure`: returning the failing child's own error unchanged is a modelling choice. The tests only require that some error is returned.
- `Initializers.RunChildrenAfter`: children are values, so the lemma assumes the children are distinct objects. In Go they are pointers; a recording initializer listed twice, or shared with a nested composite, would be run twice and show the total count in both places.
- `Initializers.RecordingChildCount`: for the same reason, it assumes no recording initializer appears twice among the children or inside a nested composite.
- `Initializers.RunChildren`: context, ID mappings, tracing and file-system usage accounting are left out, and so is real initializer work such as git cloning.
- `GetCheckoutLocationsFromInitializer` is modelled only for Git, composite and other initializers. Prebuild and snapshot initializers are not covered by the tests and count as "other".
- The constants below come from files that are not part of this model. They carry the repository's values, and no proof depends on those values beyond their being distinct literals:
  - `Component`, the port names and numbers, `licenseFilePath` and `authProviderFilePath`;
  - `LicensorTypeGitpod` and `wsmanager.TLSSecretNameClient`;
  - the checksum annotation key.
- `ServerDeployment.Render`: several parts of the renderer are not modelled:
  - Kubernetes type metadata, replicas, strategy and affinity to nodes;
  - priority class, service account and security context;
  - image name and resource quantities (`resource.MustParse`);
  - init containers and the kube-rbac-proxy container.
  These are calls into helpers or constant fields.
- The anti-affinity term's topology key is left out, since it is a constant of an unseen package.
- JSON encoding and base64 of the workspace-manager list are library calls. The context supplies their combined result or the marshal error.
- `common.MergeEnv` is a function of the context. The render is proved to pass it the server's own variables and to append the custom CA's variables to its result; what it merges in is not modelled.
- The `len(AuthProviders) > 0` guard around the provider loop is not modelled separately: the loop does nothing on an empty list.
- `ServerDeployment.EachVolumeMountedOnce`, `ServerDeployment.LicenseVolumeIffLicense`, `ServerDeployment.VolumesPaired`, `ServerDeployment.NamesBySection`, `ServerDeployment.OptionalNamesBySection`, `ServerDeployment.CustomCAEntryName`, `ServerDeployment.SectionNamesDistinct` and `ServerDeployment.VolumeNamesDistinct` assume one or both of two things of `common.CustomCACertVolume`, which is not part of this model: its volume and mount share one name, and that name is not used by the renderer's other entries.
