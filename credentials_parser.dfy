/** GoogleCredentialsParser.parse: maps one ManagedAccount definition to the
    credentials the builder produces, filling environment and account type
    from the account name when they are empty. Nothing is caught: an exception
    from any collaborator leaves parse as that exception.
 */
module CredentialsParser {
  import opened Accounts

  /** What the parser object holds besides its collaborators:
      - applicationName: its clouddriverUserAgentApplicationName field (the
        field carries no injection annotation, so it is whatever was assigned
        to it, null when nothing was);
      - instanceTypeDisks: the deploy defaults' instance type disks;
      - defaultRegions: the configuration's default region list. */
  datatype ParserSettings = ParserSettings(
    applicationName: NullableString,
    instanceTypeDisks: Option<seq<InstanceTypeDisk>>,
    defaultRegions: Option<seq<string>>)

  /** The builder chain of parse, up to (not including) build(), given the
      fetched json key and the looked-up naming strategy. */
  function Assemble(p: ParserSettings, env: Collaborators, a: ManagedAccount,
                    jsonKey: NullableString, namer: Namer): (c: NamedAccountCredentials)
    // identity and the two defaulted fields
    ensures c.name == a.name
    ensures IsEmpty(a.environment) ==> c.environment == a.name
    ensures !IsEmpty(a.environment) ==> c.environment == a.environment
    ensures IsEmpty(a.accountType) ==> c.accountType == a.name
    ensures !IsEmpty(a.accountType) ==> c.accountType == a.accountType
    // the compute version is chosen by the alpha list alone
    ensures c.computeVersion.Some?
    ensures c.computeVersion.value == Alpha <==> a.alphaListed
    ensures c.computeVersion.value != Beta
    // fields taken from the collaborators and the parser's own settings
    ensures c.jsonKey == jsonKey
    ensures c.namer == Some(namer)
    ensures c.regions == env.regionsToManage(a.regions, p.defaultRegions)
    ensures c.permissions == Some(env.buildPermissions(a.permissions))
    ensures c.applicationName == p.applicationName
    ensures c.instanceTypeDisks == p.instanceTypeDisks
    // fields copied unchanged from the definition
    ensures c.project == a.project
    ensures c.serviceAccountId == a.serviceAccountId
    ensures c.serviceAccountProject == a.serviceAccountProject
    ensures c.imageProjects == a.imageProjects
    ensures c.requiredGroupMembership == a.requiredGroupMembership
    ensures c.consulConfig == a.consul
    ensures c.userDataFile == a.userDataFile
    // this parser never sets live lookups: the fresh builder's value remains
    ensures c.liveLookupsEnabled == env.newBuilder.liveLookupsEnabled
  {
    env.newBuilder.(
      name := a.name,
      environment := if IsEmpty(a.environment) then a.name else a.environment,
      accountType := if IsEmpty(a.accountType) then a.name else a.accountType,
      project := a.project,
      computeVersion := Some(if a.alphaListed then Alpha else Default),
      jsonKey := jsonKey,
      serviceAccountId := a.serviceAccountId,
      serviceAccountProject := a.serviceAccountProject,
      imageProjects := a.imageProjects,
      requiredGroupMembership := a.requiredGroupMembership,
      permissions := Some(env.buildPermissions(a.permissions)),
      applicationName := p.applicationName,
      consulConfig := a.consul,
      instanceTypeDisks := p.instanceTypeDisks,
      userDataFile := a.userDataFile,
      regions := env.regionsToManage(a.regions, p.defaultRegions),
      namer := Some(namer))
  }

  /** parse: fetch the json key, run the builder chain (whose one throwing
      step is the naming-strategy lookup), then build(). The first exception,
      in that order, is the result. */
  function Parse(p: ParserSettings, env: Collaborators, a: ManagedAccount)
    : (r: Result<NamedAccountCredentials>)
    // a key that cannot be fetched fails the parse with that exception
    ensures env.getContents(a.jsonPath).Err? ==> r == Err(env.getContents(a.jsonPath).error)
    // an unknown naming strategy fails it next
    ensures (env.getContents(a.jsonPath).Ok? && env.getNamingStrategy(a.namingStrategy).Err?) ==>
              r == Err(env.getNamingStrategy(a.namingStrategy).error)
    // success exactly when every collaborator succeeds, with the assembled credentials
    ensures r.Ok? <==>
              && env.getContents(a.jsonPath).Ok?
              && env.getNamingStrategy(a.namingStrategy).Ok?
              && env.build(Assemble(p, env, a, env.getContents(a.jsonPath).value,
                                    env.getNamingStrategy(a.namingStrategy).value)).Pass?
    ensures r.Ok? ==>
              r.value == Assemble(p, env, a, env.getContents(a.jsonPath).value,
                                  env.getNamingStrategy(a.namingStrategy).value)
    // a build() that throws fails the parse with that exception
    ensures (&& env.getContents(a.jsonPath).Ok?
             && env.getNamingStrategy(a.namingStrategy).Ok?
             && env.build(Assemble(p, env, a, env.getContents(a.jsonPath).value,
                                   env.getNamingStrategy(a.namingStrategy).value)).Fail?) ==>
              r == Err(env.build(Assemble(p, env, a, env.getContents(a.jsonPath).value,
                                          env.getNamingStrategy(a.namingStrategy).value)).error)
  {
    var contents := env.getContents(a.jsonPath);
    if contents.Err? then Err(contents.error)
    else
      var namer := env.getNamingStrategy(a.namingStrategy);
      if namer.Err? then Err(namer.error)
      else
        var c := Assemble(p, env, a, contents.value, namer.value);
        match env.build(c)
        case Pass => Ok(c)
        case Fail(e) => Err(e)
  }

  /** An account with a non-empty name always gets a non-empty environment
      and account type: each is its own value or, failing that, the name. */
  lemma ResolvedFieldsNonEmpty(p: ParserSettings, env: Collaborators, a: ManagedAccount)
    requires !IsEmpty(a.name)
    requires Parse(p, env, a).Ok?
    ensures !IsEmpty(Parse(p, env, a).value.environment)
    ensures !IsEmpty(Parse(p, env, a).value.accountType)
  {
  }

  /** Defaulting is stable: writing the resolved environment and account type
      back into the definition and parsing again yields the same credentials. */
  lemma DefaultingIsStable(p: ParserSettings, env: Collaborators, a: ManagedAccount)
    requires Parse(p, env, a).Ok?
    ensures var c := Parse(p, env, a).value;
            var a' := a.(environment := c.environment, accountType := c.accountType);
            Parse(p, env, a') == Parse(p, env, a)
  {
  }
}
