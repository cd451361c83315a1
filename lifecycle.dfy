/** GoogleCredentialsLifecycleHandler: reacts to an account being added,
    updated or deleted by registering or removing that account's caching
    agents in the GoogleInfrastructureProvider.

    The provider's own code is not part of this model. It is modelled by
    the two operations the handler calls, with these assumed meanings:
    addAgents appends the given agents to its agent list, and
    removeAgentsForAccounts drops every agent whose account name is in the
    given set, keeping the order of the rest.
 */
module CredentialsLifecycle {
  import opened Accounts

  /** The caching-agent classes the handler names, whether it builds them or
      has them commented out (inside addAgentFor or in the trailing block). */
  datatype Category =
    | SecurityGroup | Network | GlobalAddress | HealthCheck | HttpHealthCheck | SslLoadBalancer
    | SslCertificate | TcpLoadBalancer | BackendService | Instance | Image
    | HttpLoadBalancer
      // per-region agents
    | Subnet | RegionalAddress | InternalLoadBalancer | InternalHttpLoadBalancer
    | NetworkLoadBalancer | RegionalServerGroup | ZonalServerGroup

  /** The agents addAgentFor builds, in the order it builds them. */
  const ActiveCategories: seq<Category> :=
    [SecurityGroup, GlobalAddress, HealthCheck, SslCertificate, BackendService]

  /** The agents whose construction is commented out. */
  const DisabledCategories: set<Category> :=
    {Network, HttpHealthCheck, SslLoadBalancer, TcpLoadBalancer, Instance, Image, HttpLoadBalancer,
     Subnet, RegionalAddress, InternalLoadBalancer, InternalHttpLoadBalancer,
     NetworkLoadBalancer, RegionalServerGroup, ZonalServerGroup}

  /** A caching agent, as constructed from the handler's application name and
      one account's credentials (the object mapper and the metrics registry
      it also receives are not modelled). */
  datatype Agent = Agent(category: Category, applicationName: NullableString,
                         credentials: NamedAccountCredentials)
  {
    /** The account the agent caches for: its credentials' name. */
    function AccountName(): NullableString {
      credentials.name
    }
  }

  /** The agent bundle of one account: one agent per active category. */
  function Bundle(applicationName: NullableString, c: NamedAccountCredentials): seq<Agent> {
    seq(|ActiveCategories|, i requires 0 <= i < |ActiveCategories| =>
      Agent(ActiveCategories[i], applicationName, c))
  }

  function Categories(s: seq<Agent>): seq<Category> {
    seq(|s|, i requires 0 <= i < |s| => s[i].category)
  }

  /** The agents of account n, in registry order. */
  function AgentsFor(s: seq<Agent>, n: NullableString): (r: seq<Agent>)
    ensures forall a :: a in r <==> a in s && a.AccountName() == n
    ensures |r| <= |s|
  {
    if s == [] then []
    else (if s[0].AccountName() == n then [s[0]] else []) + AgentsFor(s[1..], n)
  }

  /** The registry after removeAgentsForAccounts(names). */
  function Without(s: seq<Agent>, names: set<NullableString>): (r: seq<Agent>)
    ensures forall a :: a in r <==> a in s && a.AccountName() !in names
    ensures |r| <= |s|
  {
    if s == [] then []
    else (if s[0].AccountName() in names then [] else [s[0]]) + Without(s[1..], names)
  }

  // ---------------------------------------------------------------------
  // The bundle

  /** The bundle is the five active agents in source order, all built from the
      given credentials and application name and so all of that account. */
  lemma BundleShape(applicationName: NullableString, c: NamedAccountCredentials)
    ensures |Bundle(applicationName, c)| == 5
    ensures Categories(Bundle(applicationName, c))
            == [SecurityGroup, GlobalAddress, HealthCheck, SslCertificate, BackendService]
    ensures forall a :: a in Bundle(applicationName, c) ==>
              a.credentials == c && a.applicationName == applicationName && a.AccountName() == c.name
  {
  }

  /** No agent of a commented-out class is ever built, and no category occurs
      twice in a bundle. Category is a closed datatype, so the first clause
      restates BundleShape in terms of the disabled set. */
  lemma BundleExcludesDisabled(applicationName: NullableString, c: NamedAccountCredentials)
    ensures forall a :: a in Bundle(applicationName, c) ==> a.category !in DisabledCategories
    ensures forall i, j :: 0 <= i < j < |Bundle(applicationName, c)| ==>
              Bundle(applicationName, c)[i].category != Bundle(applicationName, c)[j].category
  {
  }

  /** The categories and accounts of a bundle depend on nothing but the
      account name: not on other credential fields or the application name.
      That the registry plays no part holds because Bundle takes none; the
      handler's side of it is AddAgentFor's ensures, old agents + Bundle. */
  lemma BundleIsDeterministic(app1: NullableString, c1: NamedAccountCredentials,
                              app2: NullableString, c2: NamedAccountCredentials)
    requires c1.name == c2.name
    ensures Categories(Bundle(app1, c1)) == Categories(Bundle(app2, c2))
    ensures forall i :: 0 <= i < 5 ==>
              Bundle(app1, c1)[i].AccountName() == Bundle(app2, c2)[i].AccountName()
  {
  }

  // ---------------------------------------------------------------------
  // Facts about the two provider operations

  lemma {:induction false} AgentsForAppend(s: seq<Agent>, t: seq<Agent>, n: NullableString)
    ensures AgentsFor(s + t, n) == AgentsFor(s, n) + AgentsFor(t, n)
  {
    if s == [] {
      assert s + t == t;
    } else {
      assert (s + t)[0] == s[0];
      assert (s + t)[1..] == s[1..] + t;
      AgentsForAppend(s[1..], t, n);
    }
  }

  lemma {:induction false} AgentsForAllMatch(s: seq<Agent>, n: NullableString)
    requires forall i :: 0 <= i < |s| ==> s[i].AccountName() == n
    ensures AgentsFor(s, n) == s
  {
    if s != [] {
      AgentsForAllMatch(s[1..], n);
    }
  }

  lemma NoneMatch(s: seq<Agent>, n: NullableString)
    requires forall i :: 0 <= i < |s| ==> s[i].AccountName() != n
    ensures AgentsFor(s, n) == []
  {
  }

  /** Only the agents of the bundle's own account are found in it. */
  lemma AgentsForBundle(applicationName: NullableString, c: NamedAccountCredentials, n: NullableString)
    ensures AgentsFor(Bundle(applicationName, c), n)
            == if n == c.name then Bundle(applicationName, c) else []
  {
    if n == c.name {
      AgentsForAllMatch(Bundle(applicationName, c), n);
    } else {
      NoneMatch(Bundle(applicationName, c), n);
    }
  }

  /** Removing a set of accounts empties exactly those accounts and leaves
      every other account's agents as they were, order included. */
  lemma {:induction false} AgentsForWithout(s: seq<Agent>, names: set<NullableString>, n: NullableString)
    ensures AgentsFor(Without(s, names), n) == if n in names then [] else AgentsFor(s, n)
  {
    if s != [] {
      var head := if s[0].AccountName() in names then [] else [s[0]];
      AgentsForAppend(head, Without(s[1..], names), n);
      AgentsForWithout(s[1..], names, n);
    }
  }

  /** Removal works element by element: removing from a concatenation is
      concatenating the removals, so the survivors keep their order. */
  lemma {:induction false} WithoutAppend(s: seq<Agent>, t: seq<Agent>, names: set<NullableString>)
    ensures Without(s + t, names) == Without(s, names) + Without(t, names)
  {
    if s == [] {
      assert s + t == t;
    } else {
      assert (s + t)[0] == s[0];
      assert (s + t)[1..] == s[1..] + t;
      WithoutAppend(s[1..], t, names);
    }
  }

  /** Removing accounts none of whose agents is registered changes nothing. */
  lemma {:induction false} WithoutUnmatched(s: seq<Agent>, names: set<NullableString>)
    requires forall i :: 0 <= i < |s| ==> s[i].AccountName() !in names
    ensures Without(s, names) == s
  {
    if s != [] {
      WithoutUnmatched(s[1..], names);
    }
  }

  /** Deleting an account that has no agents leaves the registry as it was. */
  lemma DeleteAbsentIsNoop(s: seq<Agent>, n: NullableString)
    requires AgentsFor(s, n) == []
    ensures Without(s, {n}) == s
  {
    forall i | 0 <= i < |s| ensures s[i].AccountName() !in {n} {
      assert s[i] in s;
    }
    WithoutUnmatched(s, {n});
  }

  /** Removing the same accounts twice is removing them once. */
  lemma WithoutIdempotent(s: seq<Agent>, names: set<NullableString>)
    ensures Without(Without(s, names), names) == Without(s, names)
  {
    var w := Without(s, names);
    forall i | 0 <= i < |w| ensures w[i].AccountName() !in names {
      assert w[i] in w;
    }
    WithoutUnmatched(w, names);
  }

  // ---------------------------------------------------------------------
  // The effect of each callback on one account's agents

  /** credentialsAdded appends one bundle to the account's agents. */
  lemma AddEffect(s: seq<Agent>, applicationName: NullableString, c: NamedAccountCredentials,
                  n: NullableString)
    ensures AgentsFor(s + Bundle(applicationName, c), n)
            == AgentsFor(s, n) + (if n == c.name then Bundle(applicationName, c) else [])
  {
    AgentsForAppend(s, Bundle(applicationName, c), n);
    AgentsForBundle(applicationName, c, n);
  }

  /** After credentialsUpdated the account has exactly the fresh bundle and
      every other account has what it had. */
  lemma UpdateEffect(s: seq<Agent>, applicationName: NullableString, c: NamedAccountCredentials,
                     n: NullableString)
    ensures AgentsFor(Without(s, {c.name}) + Bundle(applicationName, c), n)
            == if n == c.name then Bundle(applicationName, c) else AgentsFor(s, n)
  {
    AgentsForAppend(Without(s, {c.name}), Bundle(applicationName, c), n);
    AgentsForWithout(s, {c.name}, n);
    AgentsForBundle(applicationName, c, n);
  }

  /** After credentialsDeleted the account has no agents and every other
      account has what it had. */
  lemma DeleteEffect(s: seq<Agent>, c: NamedAccountCredentials, n: NullableString)
    ensures AgentsFor(Without(s, {c.name}), n) == if n == c.name then [] else AgentsFor(s, n)
  {
    AgentsForWithout(s, {c.name}, n);
  }

  /** credentialsAdded relies on its caller: for an account that already has
      its bundle it registers a second, overlapping one. */
  lemma AddingTwiceDuplicates(s: seq<Agent>, applicationName: NullableString, c: NamedAccountCredentials)
    requires AgentsFor(s, c.name) == Bundle(applicationName, c)
    ensures AgentsFor(s + Bundle(applicationName, c), c.name)
            == Bundle(applicationName, c) + Bundle(applicationName, c)
    ensures |AgentsFor(s + Bundle(applicationName, c), c.name)| == 10
  {
    AddEffect(s, applicationName, c, c.name);
  }

  // ---------------------------------------------------------------------
  // The settled registry: every present account has exactly its bundle

  /** The registry s holds, for every account in present, exactly the bundle
      of its current credentials, and no agent of any other account. */
  ghost predicate Settled(s: seq<Agent>, applicationName: NullableString,
                          present: map<NullableString, NamedAccountCredentials>)
  {
    && (forall n :: n in present ==> present[n].name == n)
    && (forall n :: AgentsFor(s, n) == if n in present then Bundle(applicationName, present[n]) else [])
  }

  lemma EmptyIsSettled(applicationName: NullableString)
    ensures Settled([], applicationName, map[])
  {
  }

  /** Adding an account that is not present keeps the registry settled. */
  lemma AddPreservesSettled(s: seq<Agent>, applicationName: NullableString,
                            present: map<NullableString, NamedAccountCredentials>,
                            c: NamedAccountCredentials)
    requires Settled(s, applicationName, present)
    requires c.name !in present
    ensures Settled(s + Bundle(applicationName, c), applicationName, present[c.name := c])
  {
    forall n
      ensures AgentsFor(s + Bundle(applicationName, c), n)
              == if n in present[c.name := c] then Bundle(applicationName, present[c.name := c][n]) else []
    {
      AddEffect(s, applicationName, c, n);
    }
  }

  /** Updating an account, present or not, keeps the registry settled. */
  lemma UpdatePreservesSettled(s: seq<Agent>, applicationName: NullableString,
                               present: map<NullableString, NamedAccountCredentials>,
                               c: NamedAccountCredentials)
    requires Settled(s, applicationName, present)
    ensures Settled(Without(s, {c.name}) + Bundle(applicationName, c), applicationName, present[c.name := c])
  {
    forall n
      ensures AgentsFor(Without(s, {c.name}) + Bundle(applicationName, c), n)
              == if n in present[c.name := c] then Bundle(applicationName, present[c.name := c][n]) else []
    {
      UpdateEffect(s, applicationName, c, n);
    }
  }

  /** Deleting an account keeps the registry settled without it. */
  lemma DeletePreservesSettled(s: seq<Agent>, applicationName: NullableString,
                               present: map<NullableString, NamedAccountCredentials>,
                               c: NamedAccountCredentials)
    requires Settled(s, applicationName, present)
    ensures Settled(Without(s, {c.name}), applicationName, present - {c.name})
  {
    forall n
      ensures AgentsFor(Without(s, {c.name}), n)
              == if n in present - {c.name} then Bundle(applicationName, (present - {c.name})[n]) else []
    {
      DeleteEffect(s, c, n);
    }
  }

  // ---------------------------------------------------------------------
  // The provider and the handler

  /** GoogleInfrastructureProvider, reduced to its registered agents. */
  class InfrastructureProvider {
    var agents: seq<Agent>

    constructor ()
      ensures agents == []
    {
      agents := [];
    }

    method AddAgents(batch: seq<Agent>)
      modifies this
      ensures agents == old(agents) + batch
    {
      agents := agents + batch;
    }

    method RemoveAgentsForAccounts(names: set<NullableString>)
      modifies this
      ensures agents == Without(old(agents), names)
    {
      agents := Without(agents, names);
    }
  }

  class GoogleCredentialsLifecycleHandler {
    const provider: InfrastructureProvider
    /** clouddriverUserAgentApplicationName, handed to every agent */
    const applicationName: NullableString

    constructor (provider: InfrastructureProvider, applicationName: NullableString)
      ensures this.provider == provider && this.applicationName == applicationName
    {
      this.provider := provider;
      this.applicationName := applicationName;
    }

    /** Registers the account's bundle and removes nothing. */
    method CredentialsAdded(c: NamedAccountCredentials)
      modifies provider
      ensures provider.agents == old(provider.agents) + Bundle(applicationName, c)
    {
      AddAgentFor(c);
    }

    /** Removes all of the account's agents, then registers a fresh bundle. */
    method CredentialsUpdated(c: NamedAccountCredentials)
      modifies provider
      ensures provider.agents == Without(old(provider.agents), {c.name}) + Bundle(applicationName, c)
    {
      provider.RemoveAgentsForAccounts({c.name});
      AddAgentFor(c);
    }

    /** Removes all of the account's agents and registers none. */
    method CredentialsDeleted(c: NamedAccountCredentials)
      modifies provider
      ensures provider.agents == Without(old(provider.agents), {c.name})
    {
      provider.RemoveAgentsForAccounts({c.name});
    }

    /** Builds the bundle one agent at a time and hands it to the provider in
        a single addAgents call. */
    method AddAgentFor(c: NamedAccountCredentials)
      modifies provider
      ensures provider.agents == old(provider.agents) + Bundle(applicationName, c)
    {
      var agents: seq<Agent> := [];
      agents := agents + [Agent(SecurityGroup, applicationName, c)];
      agents := agents + [Agent(GlobalAddress, applicationName, c)];
      agents := agents + [Agent(HealthCheck, applicationName, c)];
      agents := agents + [Agent(SslCertificate, applicationName, c)];
      agents := agents + [Agent(BackendService, applicationName, c)];
      assert agents == Bundle(applicationName, c);
      provider.AddAgents(agents);
    }
  }

  /** What a caller can conclude from the handler's contracts alone: an
      account added, updated and deleted leaves an empty registry, and an
      update replaces the bundle rather than adding a second one. */
  method LifecycleScenario(applicationName: NullableString, c: NamedAccountCredentials,
                           changed: NamedAccountCredentials)
    requires changed.name == c.name
  {
    var provider := new InfrastructureProvider();
    var handler := new GoogleCredentialsLifecycleHandler(provider, applicationName);
    EmptyIsSettled(applicationName);

    handler.CredentialsAdded(c);
    AddPreservesSettled([], applicationName, map[], c);
    assert Settled(provider.agents, applicationName, map[c.name := c]);

    ghost var before := provider.agents;
    handler.CredentialsUpdated(changed);
    UpdatePreservesSettled(before, applicationName, map[c.name := c], changed);
    assert map[c.name := c][changed.name := changed] == map[c.name := changed];
    assert AgentsFor(provider.agents, c.name) == Bundle(applicationName, changed);

    before := provider.agents;
    handler.CredentialsDeleted(changed);
    DeletePreservesSettled(before, applicationName, map[c.name := changed], changed);
    assert map[c.name := changed] - {changed.name} == map[];
    assert AgentsFor(provider.agents, c.name) == [];
  }
}
