/** The credentials parser that GoogleCredentialsConfiguration hands to the
    credentials-type configuration: a lambda that fetches the json key, runs a
    shorter builder chain than GoogleCredentialsParser and turns any exception
    into a null result (None here) after logging it.
 */
module CredentialsConfiguration {
  import opened Accounts
  import CredentialsParser
  import CredentialsLifecycle

  /** The lambda's builder chain, up to (not including) build(). */
  function Assemble(applicationName: NullableString, env: Collaborators, a: ManagedAccount,
                    jsonKey: NullableString)
    : (c: NamedAccountCredentials)
    ensures c.jsonKey == jsonKey
    ensures c.applicationName == applicationName
    ensures c.computeVersion.Some?
    ensures c.computeVersion.value == Alpha <==> a.alphaListed
    ensures c.computeVersion.value != Beta
    ensures c.liveLookupsEnabled == Some(false)
    // copied unchanged from the definition
    ensures c.project == a.project
    ensures c.serviceAccountId == a.serviceAccountId
    ensures c.serviceAccountProject == a.serviceAccountProject
    ensures c.imageProjects == a.imageProjects
    // never set by this parser: the fresh builder's values remain
    ensures c.name == env.newBuilder.name
    ensures c.environment == env.newBuilder.environment
    ensures c.accountType == env.newBuilder.accountType
    ensures c.requiredGroupMembership == env.newBuilder.requiredGroupMembership
    ensures c.permissions == env.newBuilder.permissions
    ensures c.consulConfig == env.newBuilder.consulConfig
    ensures c.instanceTypeDisks == env.newBuilder.instanceTypeDisks
    ensures c.userDataFile == env.newBuilder.userDataFile
    ensures c.regions == env.newBuilder.regions
    ensures c.namer == env.newBuilder.namer
  {
    env.newBuilder.(
      jsonKey := jsonKey,
      project := a.project,
      applicationName := applicationName,
      serviceAccountId := a.serviceAccountId,
      serviceAccountProject := a.serviceAccountProject,
      computeVersion := Some(if a.alphaListed then Alpha else Default),
      imageProjects := a.imageProjects,
      liveLookupsEnabled := Some(false))
  }

  /** The lambda: None (null) whenever fetching the key or building throws. */
  function Parse(applicationName: NullableString, env: Collaborators, a: ManagedAccount)
    : (r: Option<NamedAccountCredentials>)
    ensures env.getContents(a.jsonPath).Err? ==> r.None?
    ensures r.Some? <==>
              && env.getContents(a.jsonPath).Ok?
              && env.build(Assemble(applicationName, env, a, env.getContents(a.jsonPath).value)).Pass?
    ensures r.Some? ==> r.value == Assemble(applicationName, env, a, env.getContents(a.jsonPath).value)
  {
    match env.getContents(a.jsonPath)
    case Err(_) => None
    case Ok(jsonKey) =>
      var c := Assemble(applicationName, env, a, jsonKey);
      if env.build(c).Pass? then Some(c) else None
  }

  /** Where both parsers succeed on one definition, with the same application
      name, they agree on every field the lambda sets except live lookups;
      the lambda leaves the name unset where GoogleCredentialsParser copies it. */
  lemma ParsersAgreeOnSharedFields(p: CredentialsParser.ParserSettings, env: Collaborators, a: ManagedAccount)
    requires CredentialsParser.Parse(p, env, a).Ok?
    requires Parse(p.applicationName, env, a).Some?
    ensures var full := CredentialsParser.Parse(p, env, a).value;
            var short := Parse(p.applicationName, env, a).value;
            && short.jsonKey == full.jsonKey
            && short.project == full.project
            && short.applicationName == full.applicationName
            && short.serviceAccountId == full.serviceAccountId
            && short.serviceAccountProject == full.serviceAccountProject
            && short.computeVersion == full.computeVersion
            && short.imageProjects == full.imageProjects
            && short.name == env.newBuilder.name && full.name == a.name
            && short.liveLookupsEnabled == Some(false)
            && full.liveLookupsEnabled == env.newBuilder.liveLookupsEnabled
  {
  }

  /** The same unreadable key makes GoogleCredentialsParser throw and the
      lambda return null. */
  lemma FetchFailureHandledDifferently(p: CredentialsParser.ParserSettings, env: Collaborators, a: ManagedAccount)
    requires env.getContents(a.jsonPath).Err?
    ensures CredentialsParser.Parse(p, env, a) == Err(env.getContents(a.jsonPath).error)
    ensures Parse(p.applicationName, env, a) == None
  {
  }

  /** Every account the lambda parses carries the fresh builder's name, so
      all of them share one account name. */
  lemma LambdaParsedAccountsShareName(applicationName: NullableString, env: Collaborators,
                                      a1: ManagedAccount, a2: ManagedAccount)
    requires Parse(applicationName, env, a1).Some? && Parse(applicationName, env, a2).Some?
    ensures Parse(applicationName, env, a1).value.name == env.newBuilder.name
    ensures Parse(applicationName, env, a1).value.name == Parse(applicationName, env, a2).value.name
  {
  }

  /** Since the handler keys agents by account name, deleting one account the
      lambda parsed removes the agents of every account the lambda parsed. */
  lemma LambdaParsedDeleteRemovesAll(applicationName: NullableString, env: Collaborators,
                                     a1: ManagedAccount, a2: ManagedAccount,
                                     s: seq<CredentialsLifecycle.Agent>)
    requires Parse(applicationName, env, a1).Some? && Parse(applicationName, env, a2).Some?
    ensures var c1 := Parse(applicationName, env, a1).value;
            var c2 := Parse(applicationName, env, a2).value;
            CredentialsLifecycle.AgentsFor(CredentialsLifecycle.Without(s, {c1.name}), c2.name) == []
  {
    var c1 := Parse(applicationName, env, a1).value;
    var c2 := Parse(applicationName, env, a2).value;
    CredentialsLifecycle.DeleteEffect(s, c1, c2.name);
  }

  /** Likewise updating one account the lambda parsed replaces the agents of
      every account the lambda parsed by that one account's bundle. */
  lemma LambdaParsedUpdateReplacesAll(applicationName: NullableString, env: Collaborators,
                                      a1: ManagedAccount, a2: ManagedAccount,
                                      handlerName: NullableString, s: seq<CredentialsLifecycle.Agent>)
    requires Parse(applicationName, env, a1).Some? && Parse(applicationName, env, a2).Some?
    ensures var c1 := Parse(applicationName, env, a1).value;
            var c2 := Parse(applicationName, env, a2).value;
            CredentialsLifecycle.AgentsFor(
              CredentialsLifecycle.Without(s, {c1.name}) + CredentialsLifecycle.Bundle(handlerName, c1),
              c2.name)
            == CredentialsLifecycle.Bundle(handlerName, c1)
  {
    var c1 := Parse(applicationName, env, a1).value;
    var c2 := Parse(applicationName, env, a2).value;
    CredentialsLifecycle.UpdateEffect(s, handlerName, c1, c2.name);
  }
}
