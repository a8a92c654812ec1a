# GCE identity provider: a Dafny model

This project models the Google Compute Engine implementation of the Athenz
host agent's provider interface, `GCEProvider`. The host agent uses a provider
to bootstrap a workload identity from instance metadata. It asks the provider
for its name, an attestation token, and the fields of a certificate request:
the (account, domain, service) triple, the access-management profile and the
SSH host principals.

The model is functional, like the Go code. The Go code's only field, `Name`, is
never changed, and every method is straight-line code; those that fetch
metadata return early on error. Each call into the metadata accessor is an input of the model:
one `Result<string>` per field, either `Ok(value)` or `Err(error)`. Go's
`(string, error)` return pair is `Reply(value, err)`, with `err` an
`Option<Error>`.

Modules:

- `Wrappers` (wrappers.dfy): `Option`, `Error`, `Result`, `Reply`, and the
  translation between a reply and a fetch outcome.
- `Strings` (strings.dfy): `Join` and `Split` on a separator character. It
  also proves that splitting undoes joining when no part holds the separator.
- `Provider` (provider.dfy): the `GCEProvider` datatype and its methods. It
  also holds the principal ladder `Principals`. For the two operations that
  fetch several fields, a `…Calls` function lists the metadata calls the
  operation issues, in order.
- `ProviderLaws` (provider_laws.dfy): laws over all fetch outcomes. These
  cover the prefix law of the identity triple, the tiers of the SSH principal
  ladder, independence from fetches that were never made, and worked examples.

Two behaviours of the code are easy to miss:

- `AttestationData` ignores its service, key and signature arguments. It
  always fetches one path with one audience
  (provider/gcp/sia-gce/provider.go:47-48). `AttestationDataDependsOnlyOnToken`
  states this.
- An instance name that is itself `""`, followed by a failed project fetch,
  gives `""` with no error (provider/gcp/sia-gce/provider.go:116-122).
  `SshPrincipalsEmptyOnlyWhen` states exactly when the reply is empty. The
  model does not decide whether a caller treats that as a failure.

## Model

| member | source | states |
|---|---|---|
| Provider.GCEProvider.GetName | provider/gcp/sia-gce/provider.go:37-40 | returns the name the provider holds, for any provider |
| ProviderLaws.GetNameReturnsConstructedName | provider/gcp/sia-gce/provider.go:33-40 | a provider built with a name reports exactly that name |
| Provider.GCEProvider.AttestationData | provider/gcp/sia-gce/provider.go:47-53 | a fetched token is returned unchanged with no error; any failed fetch gives "" and the one fixed error AttestationRetrievalFailed |
| ProviderLaws.AttestationDataDependsOnlyOnToken | provider/gcp/sia-gce/provider.go:47-53 | the reply is the same for any two failures, whatever their causes, and does not depend on the service, key or signature information |
| ProviderLaws.AttestationDataAsResult | provider/gcp/sia-gce/provider.go:49-52 | read as an outcome, the reply is the fetch outcome with its error replaced by the fixed error |
| Provider.GCEProvider.PrepareKey | provider/gcp/sia-gce/provider.go:55-57 | always the NotImplemented error, with "" where the key would be |
| ProviderLaws.PrepareKeyAlwaysFails | provider/gcp/sia-gce/provider.go:55-57 | for every file path, the reply read as an outcome is the NotImplemented failure |
| Provider.GCEProvider.GetCsrDn | provider/gcp/sia-gce/provider.go:59-61 | the subject has no attribute set (the zero `pkix.Name`) |
| Provider.GCEProvider.GetSanDns | provider/gcp/sia-gce/provider.go:63-65 | no DNS SAN entries for any service, flags or CNAMEs |
| Provider.GCEProvider.GetSanUri | provider/gcp/sia-gce/provider.go:67-69 | no URI SAN entries for any input |
| Provider.GCEProvider.GetEmail | provider/gcp/sia-gce/provider.go:71-73 | no e-mail identities for any service |
| Provider.GCEProvider.GetRoleDnsNames | provider/gcp/sia-gce/provider.go:75-77 | no role DNS names for any certificate or service |
| Provider.GCEProvider.GetSanIp | provider/gcp/sia-gce/provider.go:79-81 | no IP SAN entries; the addresses passed in are not returned either |
| Provider.GCEProvider.GetSuffix | provider/gcp/sia-gce/provider.go:83-85 | the empty suffix |
| Provider.GCEProvider.CloudAttestationData | provider/gcp/sia-gce/provider.go:87-89 | the attestation helper's value and error, unchanged |
| Provider.GCEProvider.GetAccountDomainServiceFromMeta | provider/gcp/sia-gce/provider.go:91-105 | case by case: a failed project gives ("", "", "", its error); a failed domain gives (account, "", "", its error); a failed service gives (account, domain, "", its error); full success gives the triple with no error |
| ProviderLaws.AccountDomainServicePrefix | provider/gcp/sia-gce/provider.go:92-104 | with k fetches succeeding before the first failure, fields 1..k hold the fetched values and the rest are ""; the error is present exactly when some fetch failed, and then it is the failed fetch's own error |
| Provider.AccountDomainServiceCalls | provider/gcp/sia-gce/provider.go:92-103 | the calls issued are a prefix of project, domain, service; domain is fetched exactly when project succeeded, and service exactly when both did |
| ProviderLaws.AccountDomainServiceCallsPrefix | provider/gcp/sia-gce/provider.go:92-103 | the calls issued are the first k+1 of project, domain, service, where k is the number of leading successes (all three when none fails) |
| ProviderLaws.AccountDomainServiceUsesOnlyIssuedCalls | provider/gcp/sia-gce/provider.go:92-104 | two metadata states that agree on every call `AccountDomainServiceCalls` lists give the same calls and the same triple |
| ProviderLaws.AccountDomainServiceExample | provider/gcp/sia-gce/provider.go:92-95 | a failed account fetch gives ("", "", "", err) whatever domain and service would have been |
| Provider.GCEProvider.GetAccessManagementProfileFromMeta | provider/gcp/sia-gce/provider.go:107-113 | read as an outcome, the reply is exactly the profile fetch, value or error; on error the value is "" |
| Provider.InternalHostName | provider/gcp/sia-gce/provider.go:126 | the principal starts with the instance name, followed by ".c.", the project and ".internal" |
| Provider.ComputeName | provider/gcp/sia-gce/provider.go:128 | the principal is "compute." followed by the instance id |
| Provider.Principals | provider/gcp/sia-gce/provider.go:120-128 | the list has 1, 2 or 3 principals as the project and then the id fetch succeed; it starts with the instance name; once the project is known it ends with the internal name; with an id, the compute name is at position 1 |
| Provider.GCEProvider.GetAdditionalSshHostPrincipals | provider/gcp/sia-gce/provider.go:115-129 | a failed instance name gives ("", its error); otherwise no error, with "name" when the project fails, "name,name.c.project.internal" when the id fails, and "name,compute.id,name.c.project.internal" on full success |
| ProviderLaws.SshPrincipalsErrorOnlyFromInstanceName | provider/gcp/sia-gce/provider.go:116-128 | the reply has an error exactly when the instance-name fetch failed, and it is that fetch's own error |
| ProviderLaws.SshPrincipalsAreJoinedTier | provider/gcp/sia-gce/provider.go:120-128 | once the instance name is known, the reply is the comma-joined principal list of the tier reached |
| ProviderLaws.SshPrincipalsTierExtension | provider/gcp/sia-gce/provider.go:122-128 | the project tier is the name-only tier plus the internal name at the end; the id tier is the project tier with the compute name inserted at position 1 |
| ProviderLaws.SshPrincipalsCountFollowsSuccesses | provider/gcp/sia-gce/provider.go:120-128 | the number of principals is one plus the number of later fetches that succeed in order |
| Provider.SshHostPrincipalsCalls | provider/gcp/sia-gce/provider.go:116-127 | the calls issued are a prefix of instance name, project, instance id; each is made exactly when all earlier ones succeeded |
| ProviderLaws.SshPrincipalsCallsPrefix | provider/gcp/sia-gce/provider.go:116-127 | the calls issued are the first k+1 of instance name, project, instance id, where k is the number of leading successes |
| ProviderLaws.SshPrincipalsUseOnlyIssuedCalls | provider/gcp/sia-gce/provider.go:116-128 | two metadata states that agree on every call `SshHostPrincipalsCalls` lists give the same calls and the same reply |
| ProviderLaws.SshPrincipalsRecoverable | provider/gcp/sia-gce/provider.go:122-128 | when no fetched value holds a comma, splitting the reply at commas gives back the principal list, instance name first |
| ProviderLaws.SshPrincipalsEmptyOnlyWhen | provider/gcp/sia-gce/provider.go:116-123 | the reply is "" with no error exactly when the instance name is "" and the project fetch failed |
| ProviderLaws.SshPrincipalsExampleNameOnly | provider/gcp/sia-gce/provider.go:120-123 | "vm-1" with a failed project fetch gives "vm-1" and no error |
| ProviderLaws.SshPrincipalsExampleNoId | provider/gcp/sia-gce/provider.go:124-127 | "vm-1" in "proj-a" with a failed id fetch gives "vm-1,vm-1.c.proj-a.internal" |
| ProviderLaws.SshPrincipalsExampleFull | provider/gcp/sia-gce/provider.go:128 | "vm-1" in "proj-a" with id "123" gives "vm-1,compute.123,vm-1.c.proj-a.internal" |

## Left out

- The metadata accessor (`meta.GetData`, `meta.GetProject`, `meta.GetDomain`, `meta.GetService`, `meta.GetProfile`, `meta.GetInstanceName`, `meta.GetInstanceId`) is network I/O in a library that is not part of this model. Each call is an input outcome, and the `base` URL it takes is dropped.
- `GetHostname` (provider/gcp/sia-gce/provider.go:43-45) only delegates to the host utility `utils.GetHostname`, which depends on the operating system and is not part of this model.
- CloudAttestationData: the attestation helper `gcpa.New` is not part of this model. Its outcome is an input, and the model states only that it is passed through.
- Error message texts are not modelled. Each fixed `fmt.Errorf` message is one constant (`AttestationRetrievalFailed`, `NotImplemented`), and accessor errors stay opaque.
- Go library types are kept abstract: `crypto.PrivateKey`, `signature.SignatureInfo`, `x509.Certificate` and `ip.Opts`. `pkix.Name` is reduced to its string-valued attributes, `url.URL` to scheme, host and path, and `net.IP` to its bytes.
- PrepareKey: Go returns the empty string boxed as a `crypto.PrivateKey`; the model returns that empty string in a `Reply`.
- The metadata URL and the audience are kept as constants; nothing is proved about them.
- Concurrency, timeouts and retries do not occur in this code.
