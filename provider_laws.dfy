/** Laws of the GCE provider that relate several calls or hold across all
    fetch outcomes: the prefix law of the identity triple, the fallback
    ladder of the SSH host principals, and the independence of each result
    from the fetches that were never made. */
module ProviderLaws {
  import opened Wrappers
  import opened Strings
  import opened Provider

  /** How many of the outcomes, taken in order, succeed before the first failure. */
  function LeadingSuccesses(outcomes: seq<Result<string>>): (k: nat)
    ensures k <= |outcomes|
    ensures forall i :: 0 <= i < k ==> outcomes[i].Ok?
    ensures k < |outcomes| ==> outcomes[k].Err?
  {
    if |outcomes| == 0 || outcomes[0].Err? then 0
    else 1 + LeadingSuccesses(outcomes[1..])
  }

  /** The outcome GetAccountDomainServiceFromMeta receives when it fetches
      field `f`; None for a field it never fetches. */
  function AccountDomainServiceOutcome(f: MetaField, project: Result<string>, domain: Result<string>, service: Result<string>): Option<Result<string>>
  {
    match f
    case Project => Some(project)
    case Domain => Some(domain)
    case Service => Some(service)
    case _ => None
  }

  /** The outcome GetAdditionalSshHostPrincipals receives when it fetches
      field `f`; None for a field it never fetches. */
  function SshPrincipalsOutcome(f: MetaField, instanceName: Result<string>, project: Result<string>, instanceId: Result<string>): Option<Result<string>>
  {
    match f
    case InstanceName => Some(instanceName)
    case Project => Some(project)
    case InstanceId => Some(instanceId)
    case _ => None
  }

  /** The triple's three fields in fetch order. */
  function Fields(t: AccountDomainService): seq<string>
  {
    [t.account, t.domain, t.service]
  }

  /** The identity-triple prefix law: with k fetches succeeding before the
      first failure, fields 1..k hold the fetched values and the others are
      empty; the error is present exactly when some fetch failed, and then it
      is the error of fetch k+1. */
  lemma {:induction false} AccountDomainServicePrefix(p: GCEProvider, project: Result<string>, domain: Result<string>, service: Result<string>)
    ensures var outcomes := [project, domain, service];
            var k := LeadingSuccesses(outcomes);
            var t := p.GetAccountDomainServiceFromMeta(project, domain, service);
            && (forall i :: 0 <= i < k ==> Fields(t)[i] == outcomes[i].value)
            && (forall i :: k <= i < 3 ==> Fields(t)[i] == "")
            && (t.err.Some? <==> k < 3)
            && (k < 3 ==> t.err == Some(outcomes[k].error))
  {
    var outcomes := [project, domain, service];
    assert outcomes[1..] == [domain, service];
    assert outcomes[1..][1..] == [service];
    assert outcomes[1..][1..][1..] == [];
    var k := LeadingSuccesses(outcomes);
    if project.Err? {
      assert k == 0;
    } else if domain.Err? {
      assert k == 1;
    } else if service.Err? {
      assert LeadingSuccesses(outcomes[1..]) == 1 + LeadingSuccesses([service]) == 1;
    } else {
      assert LeadingSuccesses(outcomes[1..]) == 1 + LeadingSuccesses([service]) == 2;
    }
  }

  /** The calls issued for the triple are the first k+1 fetches of the fixed
      order, k being the number that succeed before the first failure (all
      three when none fails). */
  lemma AccountDomainServiceCallsPrefix(project: Result<string>, domain: Result<string>, service: Result<string>)
    ensures var k := LeadingSuccesses([project, domain, service]);
            AccountDomainServiceCalls(project, domain, service)
              == [MetaField.Project, Domain, Service][..if k < 3 then k + 1 else 3]
  {
  }

  /** The triple depends only on the fetches actually made: two metadata
      states that agree on every call AccountDomainServiceCalls lists give
      the same calls and the same triple. */
  lemma AccountDomainServiceUsesOnlyIssuedCalls(
    p: GCEProvider,
    project: Result<string>, domain: Result<string>, service: Result<string>,
    project': Result<string>, domain': Result<string>, service': Result<string>)
    requires forall f :: f in AccountDomainServiceCalls(project, domain, service) ==>
               AccountDomainServiceOutcome(f, project, domain, service)
                 == AccountDomainServiceOutcome(f, project', domain', service')
    ensures AccountDomainServiceCalls(project, domain, service) == AccountDomainServiceCalls(project', domain', service')
    ensures p.GetAccountDomainServiceFromMeta(project, domain, service)
         == p.GetAccountDomainServiceFromMeta(project', domain', service')
  {
    var calls := AccountDomainServiceCalls(project, domain, service);
    assert MetaField.Project in calls;
    assert project.Ok? ==> Domain in calls;
    assert project.Ok? && domain.Ok? ==> Service in calls;
  }

  /** AttestationData reports a failure the same way whatever its cause, and
      ignores the service, key and signature information it is given. */
  lemma AttestationDataDependsOnlyOnToken(
    p: GCEProvider, svc: string, svc': string, key: PrivateKey, key': PrivateKey,
    sigInfo: Option<SignatureInfo>, sigInfo': Option<SignatureInfo>,
    token: Result<string>, token': Result<string>)
    requires token.Ok? || token'.Ok? ==> token == token'
    ensures p.AttestationData(svc, key, sigInfo, token) == p.AttestationData(svc', key', sigInfo', token')
  {
  }

  /** Read as an outcome, AttestationData is the fetch with its error replaced
      by the one fixed error. */
  lemma AttestationDataAsResult(p: GCEProvider, svc: string, key: PrivateKey, sigInfo: Option<SignatureInfo>, token: Result<string>)
    ensures ToResult(p.AttestationData(svc, key, sigInfo, token))
         == if token.Ok? then token else Err(AttestationRetrievalFailed)
  {
  }

  /** GetName's contract applied to a freshly constructed provider: the
      name given at construction is the name reported. */
  lemma GetNameReturnsConstructedName(name: string)
    ensures GCEProvider(name).GetName() == name
  {
  }

  /** PrepareKey's contract read through ToResult, as a caller reads the
      reply: every input path is the NotImplemented failure. */
  lemma PrepareKeyAlwaysFails(p: GCEProvider, file: string)
    ensures ToResult(p.PrepareKey(file)) == Err(NotImplemented)
  {
  }

  /** Only the instance-name fetch can make the SSH principals fail, and its
      error is reported unchanged; later failures are swallowed. */
  lemma SshPrincipalsErrorOnlyFromInstanceName(p: GCEProvider, instanceName: Result<string>, project: Result<string>, instanceId: Result<string>)
    ensures var r := p.GetAdditionalSshHostPrincipals(instanceName, project, instanceId);
            && (r.err.Some? <==> instanceName.Err?)
            && (instanceName.Err? ==> r.err == Some(instanceName.error))
  {
  }

  /** When the instance name is known, the reply is the principal list of
      the tier reached, joined with commas. */
  lemma SshPrincipalsAreJoinedTier(p: GCEProvider, instanceName: string, project: Result<string>, instanceId: Result<string>)
    ensures p.GetAdditionalSshHostPrincipals(Ok(instanceName), project, instanceId)
         == Reply(Join(',', Principals(instanceName, project, instanceId)), None)
  {
  }

  /** The ladder: the project tier extends the name-only tier by the internal
      DNS name at the end, and the instance-id tier extends the project tier by
      the compute name at position 1. Each tier is one principal longer. */
  lemma SshPrincipalsTierExtension(instanceName: string, project: string, instanceId: string, e1: Error, e2: Error, e3: Error)
    ensures var tier2 := Principals(instanceName, Err(e1), Err(e2));
            var tier3 := Principals(instanceName, Ok(project), Err(e3));
            var tier4 := Principals(instanceName, Ok(project), Ok(instanceId));
            && tier2 == [instanceName]
            && tier3 == tier2 + [InternalHostName(instanceName, project)]
            && tier4 == tier3[..1] + [ComputeName(instanceId)] + tier3[1..]
  {
  }

  /** The number of principals is one plus the number of extra fetches that
      succeed in order, so an earlier failure never gives a longer list. */
  lemma SshPrincipalsCountFollowsSuccesses(instanceName: string, project: Result<string>, instanceId: Result<string>)
    ensures |Principals(instanceName, project, instanceId)| == 1 + LeadingSuccesses([project, instanceId])
  {
  }

  /** The calls issued for the SSH principals are the first k+1 fetches of
      the fixed order, k being the number that succeed before the first
      failure (all three when none fails). */
  lemma SshPrincipalsCallsPrefix(instanceName: Result<string>, project: Result<string>, instanceId: Result<string>)
    ensures var k := LeadingSuccesses([instanceName, project, instanceId]);
            SshHostPrincipalsCalls(instanceName, project, instanceId)
              == [InstanceName, MetaField.Project, InstanceId][..if k < 3 then k + 1 else 3]
  {
  }

  /** The SSH principals depend only on the fetches actually made: two
      metadata states that agree on every call SshHostPrincipalsCalls lists
      give the same calls and the same reply. */
  lemma SshPrincipalsUseOnlyIssuedCalls(
    p: GCEProvider,
    instanceName: Result<string>, project: Result<string>, instanceId: Result<string>,
    instanceName': Result<string>, project': Result<string>, instanceId': Result<string>)
    requires forall f :: f in SshHostPrincipalsCalls(instanceName, project, instanceId) ==>
               SshPrincipalsOutcome(f, instanceName, project, instanceId)
                 == SshPrincipalsOutcome(f, instanceName', project', instanceId')
    ensures SshHostPrincipalsCalls(instanceName, project, instanceId) == SshHostPrincipalsCalls(instanceName', project', instanceId')
    ensures p.GetAdditionalSshHostPrincipals(instanceName, project, instanceId)
         == p.GetAdditionalSshHostPrincipals(instanceName', project', instanceId')
  {
    var calls := SshHostPrincipalsCalls(instanceName, project, instanceId);
    assert InstanceName in calls;
    assert instanceName.Ok? ==> MetaField.Project in calls;
    assert instanceName.Ok? && project.Ok? ==> InstanceId in calls;
  }

  /** The comma-joined string loses nothing: when no fetched value holds a
      comma, splitting the reply at commas gives back the principal list,
      instance name first. */
  lemma {:induction false} SshPrincipalsRecoverable(p: GCEProvider, instanceName: string, project: Result<string>, instanceId: Result<string>)
    requires ',' !in instanceName
    requires project.Ok? ==> ',' !in project.value
    requires instanceId.Ok? ==> ',' !in instanceId.value
    ensures var r := p.GetAdditionalSshHostPrincipals(Ok(instanceName), project, instanceId);
            && Split(',', r.value) == Principals(instanceName, project, instanceId)
            && Split(',', r.value)[0] == instanceName
  {
    var ps := Principals(instanceName, project, instanceId);
    forall i | 0 <= i < |ps| ensures ',' !in ps[i] {
      if project.Ok? && i == |ps| - 1 {
        var h := InternalHostName(instanceName, project.value);
        assert h == instanceName + ".c." + project.value + ".internal";
      } else if i == 1 {
        assert ps[1] == "compute." + instanceId.value;
      }
    }
    SplitJoin(',', ps);
  }

  /** The reply string is empty without an error only when the instance name
      itself is empty and the project fetch failed: any later tier adds a
      comma. */
  lemma SshPrincipalsEmptyOnlyWhen(p: GCEProvider, instanceName: Result<string>, project: Result<string>, instanceId: Result<string>)
    ensures var r := p.GetAdditionalSshHostPrincipals(instanceName, project, instanceId);
            r.value == "" && r.err.None? <==> instanceName == Ok("") && project.Err?
  {
  }

  /** Worked example: instance "vm-1" whose project fetch fails. */
  lemma SshPrincipalsExampleNameOnly(p: GCEProvider, e: Error)
    ensures p.GetAdditionalSshHostPrincipals(Ok("vm-1"), Err(e), Ok("123")) == Reply("vm-1", None)
  {
  }

  /** Worked example: instance "vm-1" in project "proj-a" whose id fetch fails. */
  lemma SshPrincipalsExampleNoId(p: GCEProvider, e: Error)
    ensures p.GetAdditionalSshHostPrincipals(Ok("vm-1"), Ok("proj-a"), Err(e))
         == Reply("vm-1,vm-1.c.proj-a.internal", None)
  {
  }

  /** Worked example: instance "vm-1" in project "proj-a" with id "123". */
  lemma SshPrincipalsExampleFull(p: GCEProvider)
    ensures p.GetAdditionalSshHostPrincipals(Ok("vm-1"), Ok("proj-a"), Ok("123"))
         == Reply("vm-1,compute.123,vm-1.c.proj-a.internal", None)
  {
    assert "vm-1" + ",compute." == "vm-1,compute.";
    assert "vm-1,compute." + "123" == "vm-1,compute.123";
    assert "vm-1,compute.123" + "," == "vm-1,compute.123,";
    assert "vm-1,compute.123," + "vm-1" == "vm-1,compute.123,vm-1";
    assert "vm-1,compute.123,vm-1" + ".c." == "vm-1,compute.123,vm-1.c.";
    assert "vm-1,compute.123,vm-1.c." + "proj-a" == "vm-1,compute.123,vm-1.c.proj-a";
    assert "vm-1,compute.123,vm-1.c.proj-a" + ".internal" == "vm-1,compute.123,vm-1.c.proj-a.internal";
  }

  /** The worked example of a failed account fetch, whatever the domain and
      service fetches would have given. */
  lemma AccountDomainServiceExample(p: GCEProvider, e: Error, domain: Result<string>, service: Result<string>)
    ensures p.GetAccountDomainServiceFromMeta(Err(e), domain, service)
         == AccountDomainService("", "", "", Some(e))
  {
  }
}
