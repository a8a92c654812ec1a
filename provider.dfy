/** The GCE implementation of the host agent's provider interface.

    Every call the Go code makes into the metadata accessor is an input of
    the model: one `Result<string>` per field fetched, since each operation
    fetches each field at most once. The `base` URL those calls take is only
    passed on to the accessor, so it does not appear here. For the two
    operations that fetch several fields, the `…Calls` function beside them
    gives which calls they actually issue, and in what order. */
module Provider {
  import opened Wrappers
  import opened Strings

  /** The metadata fields fetched by the operations that fetch several. */
  datatype MetaField = Project | Domain | Service | InstanceName | InstanceId

  /** Where AttestationData fetches the identity token. The audience is fixed;
      the requested service name is not part of the request. */
  const MetadataHost := "http://169.254.169.254"
  const IdentityTokenPath :=
    "/computeMetadata/v1/instance/service-accounts/default/identity?audience=https://zts.athenz.io&format=full"

  /** Library types the provider only passes around or ignores. Each has
      values in Go, so each is declared non-empty. */
  type PrivateKey(00)
  type SignatureInfo(00)
  type Certificate(00)
  type IpOpts(00)

  /** An IP address, as Go's `net.IP`: its bytes. */
  type IpAddress = seq<bv8>

  /** The parts of a URL an identity claim would carry. */
  datatype Url = Url(scheme: string, host: string, path: string)

  /** A certificate subject (the string-valued attributes of `pkix.Name`). */
  datatype DistinguishedName = DistinguishedName(
    country: seq<string>,
    organization: seq<string>,
    organizationalUnit: seq<string>,
    locality: seq<string>,
    province: seq<string>,
    streetAddress: seq<string>,
    postalCode: seq<string>,
    serialNumber: string,
    commonName: string)

  /** True of the zero value `pkix.Name{}`: no attribute set. */
  predicate IsEmptySubject(dn: DistinguishedName)
  {
    && dn.country == [] && dn.organization == [] && dn.organizationalUnit == []
    && dn.locality == [] && dn.province == [] && dn.streetAddress == []
    && dn.postalCode == [] && dn.serialNumber == "" && dn.commonName == ""
  }

  /** The (account, domain, service) triple and the error of the fetch that
      stopped its resolution, if any. */
  datatype AccountDomainService = AccountDomainService(
    account: string,
    domain: string,
    service: string,
    err: Option<Error>)

  /** The principal naming the instance inside its project's internal DNS zone. */
  function InternalHostName(instanceName: string, project: string): (h: string)
    ensures |h| == |instanceName| + |project| + 12
    ensures h[..|instanceName|] == instanceName
    ensures h[|instanceName|..] == ".c." + project + ".internal"
  {
    instanceName + ".c." + project + ".internal"
  }

  /** The principal naming the instance by its numeric compute id. */
  function ComputeName(instanceId: string): (c: string)
    ensures |c| == |instanceId| + 8 && c[8..] == instanceId
    ensures c[..8] == "compute."
  {
    "compute." + instanceId
  }

  /** The SSH host principal list once the instance name is known. Each
      further fetch that succeeds adds one principal: a project adds the
      internal DNS name at the end, and then an instance id adds the compute
      name right after the instance name. A failed fetch stops the ladder
      at the tier reached. */
  function Principals(instanceName: string, project: Result<string>, instanceId: Result<string>): (ps: seq<string>)
    ensures |ps| == if project.Err? then 1 else if instanceId.Err? then 2 else 3
    ensures ps[0] == instanceName
    ensures project.Ok? ==> ps[|ps| - 1] == InternalHostName(instanceName, project.value)
    ensures project.Ok? && instanceId.Ok? ==> ps[1] == ComputeName(instanceId.value)
  {
    match project
    case Err(_) => [instanceName]
    case Ok(p) =>
      match instanceId
      case Err(_) => [instanceName, InternalHostName(instanceName, p)]
      case Ok(id) => [instanceName, ComputeName(id), InternalHostName(instanceName, p)]
  }

  /** The metadata calls GetAccountDomainServiceFromMeta issues, in order:
      each fetch is made only when every earlier one succeeded. */
  function AccountDomainServiceCalls(project: Result<string>, domain: Result<string>, service: Result<string>): (calls: seq<MetaField>)
    ensures 1 <= |calls| <= 3 && calls == [MetaField.Project, Domain, Service][..|calls|]
    ensures |calls| >= 2 <==> project.Ok?
    ensures |calls| == 3 <==> project.Ok? && domain.Ok?
  {
    if project.Err? then [MetaField.Project]
    else if domain.Err? then [MetaField.Project, Domain]
    else [MetaField.Project, Domain, Service]
  }

  /** The metadata calls GetAdditionalSshHostPrincipals issues, in order:
      each fetch is made only when every earlier one succeeded. */
  function SshHostPrincipalsCalls(instanceName: Result<string>, project: Result<string>, instanceId: Result<string>): (calls: seq<MetaField>)
    ensures 1 <= |calls| <= 3 && calls == [InstanceName, MetaField.Project, InstanceId][..|calls|]
    ensures |calls| >= 2 <==> instanceName.Ok?
    ensures |calls| == 3 <==> instanceName.Ok? && project.Ok?
  {
    if instanceName.Err? then [InstanceName]
    else if project.Err? then [InstanceName, MetaField.Project]
    else [InstanceName, MetaField.Project, InstanceId]
  }

  /** The provider; Go's `GCEProvider` struct, whose one field is never
      changed after construction. */
  datatype GCEProvider = GCEProvider(name: string) {

    /** The name the provider was built with. */
    function GetName(): (n: string)
      ensures n == name
    {
      name
    }

    /** The signed identity token of the instance's default service account.
        A fetched token is returned as is; any fetch failure, whatever its
        cause, becomes the one fixed error with an empty token. The service,
        key and signature information are not used. */
    function AttestationData(svc: string, key: PrivateKey, sigInfo: Option<SignatureInfo>, identityToken: Result<string>): (r: Reply)
      ensures identityToken.Ok? ==> r.err == None && r.value == identityToken.value
      ensures identityToken.Err? ==> r.err == Some(AttestationRetrievalFailed) && r.value == ""
    {
      match identityToken
      case Ok(token) => Reply(token, None)
      case Err(_) => Reply("", Some(AttestationRetrievalFailed))
    }

    /** Key preparation is not supported on GCE: always an error, with the
        empty string standing where the key would be. */
    function PrepareKey(file: string): (r: Reply)
      ensures r.err == Some(NotImplemented) && r.value == ""
    {
      Reply("", Some(NotImplemented))
    }

    /** No subject attributes are contributed: the zero subject. */
    function GetCsrDn(): (dn: DistinguishedName)
      ensures IsEmptySubject(dn)
    {
      DistinguishedName([], [], [], [], [], [], [], "", "")
    }

    /** No DNS SAN entries, whatever the request. */
    function GetSanDns(service: string, includeHost: bool, wildcard: bool, cnames: seq<string>): (sans: seq<string>)
      ensures sans == []
    {
      []
    }

    /** No URI SAN entries, whatever the request. */
    function GetSanUri(svc: string, opts: IpOpts, spiffeTrustDomain: string, spiffeNamespace: string): (uris: seq<Url>)
      ensures uris == []
    {
      []
    }

    /** No e-mail identities. */
    function GetEmail(service: string): (emails: seq<string>)
      ensures emails == []
    {
      []
    }

    /** No role DNS names, whatever certificate is given. */
    function GetRoleDnsNames(cert: Option<Certificate>, service: string): (names: seq<string>)
      ensures names == []
    {
      []
    }

    /** No IP SAN entries: the addresses passed in are not returned either. */
    function GetSanIp(docIp: map<string, bool>, ips: seq<IpAddress>, opts: IpOpts): (sans: seq<IpAddress>)
      ensures sans == []
    {
      []
    }

    /** No DNS suffix. */
    function GetSuffix(): (suffix: string)
      ensures suffix == ""
    {
      ""
    }

    /** The cloud attestation helper's outcome, passed through unchanged. */
    function CloudAttestationData(base: string, svc: string, ztsServerName: string, helperOutcome: Reply): (r: Reply)
      ensures ToResult(r) == ToResult(helperOutcome)
      ensures r.value == helperOutcome.value
    {
      helperOutcome
    }

    /** Fetches project (the account), then domain, then service, stopping
        at the first failure. The fields fetched before that failure are
        still returned, the later ones are empty, and the error is that
        fetch's own. */
    function GetAccountDomainServiceFromMeta(project: Result<string>, domain: Result<string>, service: Result<string>): (t: AccountDomainService)
      ensures project.Err? ==> t == AccountDomainService("", "", "", Some(project.error))
      ensures project.Ok? && domain.Err? ==> t == AccountDomainService(project.value, "", "", Some(domain.error))
      ensures project.Ok? && domain.Ok? && service.Err? ==>
                t == AccountDomainService(project.value, domain.value, "", Some(service.error))
      ensures project.Ok? && domain.Ok? && service.Ok? ==>
                t == AccountDomainService(project.value, domain.value, service.value, None)
    {
      match project
      case Err(e) => AccountDomainService("", "", "", Some(e))
      case Ok(account) =>
        match domain
        case Err(e) => AccountDomainService(account, "", "", Some(e))
        case Ok(dom) =>
          match service
          case Err(e) => AccountDomainService(account, dom, "", Some(e))
          case Ok(svc) => AccountDomainService(account, dom, svc, None)
    }

    /** The access-management profile label: the fetched value, or an empty
        value with the fetch's own error. */
    function GetAccessManagementProfileFromMeta(profile: Result<string>): (r: Reply)
      ensures ToResult(r) == profile
      ensures r.err.Some? ==> r.value == ""
    {
      FromResult(profile)
    }

    /** The comma-joined SSH host principals. A failed instance-name fetch is
        the only error reported, with an empty string; after that, a failed
        project or instance-id fetch is swallowed and the shorter list of
        the tier reached is returned. The string has exactly the shape the
        Go code formats for each tier. */
    function GetAdditionalSshHostPrincipals(instanceName: Result<string>, project: Result<string>, instanceId: Result<string>): (r: Reply)
      ensures instanceName.Err? ==> r == Reply("", Some(instanceName.error))
      ensures instanceName.Ok? && project.Err? ==> r == Reply(instanceName.value, None)
      ensures instanceName.Ok? && project.Ok? && instanceId.Err? ==>
                r == Reply(instanceName.value + "," + instanceName.value + ".c." + project.value + ".internal", None)
      ensures instanceName.Ok? && project.Ok? && instanceId.Ok? ==>
                r == Reply(instanceName.value + ",compute." + instanceId.value + ","
                           + instanceName.value + ".c." + project.value + ".internal", None)
    {
      match instanceName
      case Err(e) => Reply("", Some(e))
      case Ok(n) =>
        var ps := Principals(n, project, instanceId);
        assert |ps| == 3 ==> Join(',', ps) == ps[0] + "," + ps[1] + "," + ps[2] by {
          if |ps| == 3 {
            assert ps[1..][1..] == [ps[2]];
            assert Join(',', ps[1..]) == ps[1] + "," + ps[2];
          }
        }
        Reply(Join(',', ps), None)
    }
  }
}
