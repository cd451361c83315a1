# Google account credentials: parsing and caching-agent lifecycle

A Dafny model of two parts of the Google provider of clouddriver:

- **Credentials parsing.** `GoogleCredentialsParser.parse` and the credentials-parser lambda that
  `GoogleCredentialsConfiguration` installs both turn a `ManagedAccount` definition into
  `GoogleNamedAccountCredentials`. Both are modelled as pure functions (`CredentialsParser.Parse`,
  `CredentialsConfiguration.Parse`). Each builder chain is a separate function (`Assemble`) whose
  contract gives every field of the result. Java `null` is explicit: a string is a `NullableString`
  and a list is an `Option`. `StringUtils.isEmpty` becomes `IsEmpty`, for which null and `""` are
  both empty.
- **Agent lifecycle.** `GoogleCredentialsLifecycleHandler` registers a fixed bundle of caching agents
  when an account is added. On update it removes that account's agents and registers a fresh bundle.
  On delete it only removes. The handler is a class holding its provider and application name. The
  provider is a class whose one field, the agent sequence, its two methods reassign.

The model is in four files:

- `accounts.dfy` (module `Accounts`): the definition and credentials records and the foreign
  collaborators.
- `credentials_parser.dfy` (module `CredentialsParser`): GoogleCredentialsParser.
- `credentials_configuration.dfy` (module `CredentialsConfiguration`): the lambda, and how it compares
  with GoogleCredentialsParser.
- `lifecycle.dfy` (module `CredentialsLifecycle`): agents, bundle, provider and handler.

Foreign calls become arrow-typed fields of `Accounts.Collaborators`. The model does not interpret
them:

- `getContents` is `ConfigFileService.getContents` and may throw.
- `getNamingStrategy` is `NamerRegistry.getNamingStrategy` and may throw.
- `buildPermissions` is `Permissions.Builder.build`.
- `regionsToManage` is the region list, possibly null, the builder keeps after
  `regionsToManage(regions, defaultRegions)`.
- `build` is the check made by `GoogleNamedAccountCredentials.Builder.build`, which may throw.
- `newBuilder` is the state of a newly created builder, before any setter is called.

A thrown exception is an `Err`. In GoogleCredentialsParser the first exception wins, in Java
evaluation order: key fetch, then naming-strategy lookup, then `build()`. Nothing catches it. The
lambda turns every exception into `None`, standing for its `null` return.

The GoogleNamedAccountCredentials builder is not part of this model. The record
`NamedAccountCredentials` is the builder's state just before `build()`. A field a parser does not
set keeps its initial value, `newBuilder`'s value for that field. The model does not interpret
those initial values. The enum `ComputeVersion` is not part of this model either. Its `BETA` constant is modelled
so that "neither parser yields BETA" is a real statement.

GoogleInfrastructureProvider is not part of this model. Its two methods are given assumed meanings:

- `addAgents` appends the given agents.
- `removeAgentsForAccounts` drops the agents whose account name is in the given set and keeps the
  order of the rest (`Without`).

An agent is its category, the application name and the credentials it was built from. Its account is
the credentials' name.

The agent categories include every caching-agent class whose construction is commented out,
inside `addAgentFor` or in the trailing commented block. The
bundle table `ActiveCategories` holds the five that are built, so "none of the commented-out
agents is produced" is a real statement. On top of the per-call contracts, `Settled` says that
the registry holds exactly one bundle per present account and nothing else. The model proves that
each callback preserves `Settled` when the caller uses it as intended: added only for an absent
account, updated and deleted for any account.

Two observations about the code as written:

- The lambda in GoogleCredentialsConfiguration never sets a name, an environment or an account type.
  Every account it parses therefore carries the new builder's name (`LambdaParsedAccountsShareName`),
  whatever that initial value is. The handler keys agents by that name. So deleting one such account
  removes the agents of all such accounts (`LambdaParsedDeleteRemovesAll`). Updating one replaces
  the agents of all of them by its single bundle (`LambdaParsedUpdateReplacesAll`). The code does
  not show whether this is intended, so it is stated as a property, not as a defect.
- The `clouddriverUserAgentApplicationName` field of GoogleCredentialsParser has no injection
  annotation. It is modelled as a setting (`ParserSettings.applicationName`).

## Model

| member | source | states |
|---|---|---|
| `CredentialsParser.Assemble` | clouddriver-google/src/main/java/com/netflix/spinnaker/clouddriver/google/config/GoogleCredentialsParser.java:51-74 | name copied; environment and account type fall back to the name exactly when they are null or ""; computeVersion is ALPHA iff alpha-listed, else DEFAULT, never BETA; jsonKey, namer, regions (from the account's and the default regions), permissions, application name and disks come from the collaborators or settings; project, service account id and project, image projects, group membership, consul and user data file copied; live lookups keeps the new builder's value |
| `CredentialsParser.Parse` | clouddriver-google/src/main/java/com/netflix/spinnaker/clouddriver/google/config/GoogleCredentialsParser.java:47-76 | a failed key fetch fails the parse with that exception; a failed naming-strategy lookup fails it next; a throwing build() fails it with that exception; the parse succeeds exactly when fetch, lookup and build all succeed, and then yields the assembled credentials with the fetched key |
| `CredentialsParser.ResolvedFieldsNonEmpty` | clouddriver-google/src/main/java/com/netflix/spinnaker/clouddriver/google/config/GoogleCredentialsParser.java:53-60 | an account with a non-empty name always gets a non-empty environment and account type |
| `CredentialsParser.DefaultingIsStable` | clouddriver-google/src/main/java/com/netflix/spinnaker/clouddriver/google/config/GoogleCredentialsParser.java:53-60 | writing the resolved environment and account type back into the definition and parsing again gives the same result |
| `CredentialsConfiguration.Assemble` | clouddriver-google/src/main/java/com/netflix/spinnaker/clouddriver/google/config/GoogleCredentialsConfiguration.java:59-69 | jsonKey is the fetched content; application name is the injected one whatever the definition says; computeVersion ALPHA iff alpha-listed, never BETA; liveLookupsEnabled is false; project, service account id and project, image projects copied; name, environment, account type and every other field keep the new builder's values |
| `CredentialsConfiguration.Parse` | clouddriver-google/src/main/java/com/netflix/spinnaker/clouddriver/google/config/GoogleCredentialsConfiguration.java:55-74 | the result is null (None) when the key fetch throws; it is non-null exactly when fetch and build both succeed, and then it is the assembled credentials |
| `CredentialsConfiguration.ParsersAgreeOnSharedFields` | clouddriver-google/src/main/java/com/netflix/spinnaker/clouddriver/google/config/GoogleCredentialsConfiguration.java:57-69 | where both parsers succeed on one definition with the same application name they agree on jsonKey, project, application name, service account id and project, compute version and image projects; only GoogleCredentialsParser sets the name and only the lambda sets live lookups |
| `CredentialsConfiguration.FetchFailureHandledDifferently` | clouddriver-google/src/main/java/com/netflix/spinnaker/clouddriver/google/config/GoogleCredentialsConfiguration.java:56-73 | an unreadable key makes GoogleCredentialsParser fail with the fetch's exception and makes the lambda return null |
| `CredentialsConfiguration.LambdaParsedAccountsShareName` | clouddriver-google/src/main/java/com/netflix/spinnaker/clouddriver/google/config/GoogleCredentialsConfiguration.java:59-69 | every account the lambda parses has the new builder's name, so any two share it |
| `CredentialsConfiguration.LambdaParsedDeleteRemovesAll` | clouddriver-google/src/main/java/com/netflix/spinnaker/clouddriver/google/security/GoogleCredentialsLifecycleHandler.java:50-54 | because agents are keyed by that shared name, deleting one lambda-parsed account leaves no agent for any lambda-parsed account |
| `CredentialsConfiguration.LambdaParsedUpdateReplacesAll` | clouddriver-google/src/main/java/com/netflix/spinnaker/clouddriver/google/security/GoogleCredentialsLifecycleHandler.java:43-48 | updating one lambda-parsed account leaves every lambda-parsed account with exactly that account's single bundle |
| `CredentialsLifecycle.Without` | clouddriver-google/src/main/java/com/netflix/spinnaker/clouddriver/google/security/GoogleCredentialsLifecycleHandler.java:45-46 | (assumed provider semantics) the remaining agents are exactly the old ones whose account is not in the removed set |
| `CredentialsLifecycle.BundleShape` | clouddriver-google/src/main/java/com/netflix/spinnaker/clouddriver/google/security/GoogleCredentialsLifecycleHandler.java:62-89 | the bundle is five agents: SecurityGroup, GlobalAddress, HealthCheck, SslCertificate, BackendService in that order, each built from the given credentials and application name, so each belongs to the credentials' name |
| `CredentialsLifecycle.BundleExcludesDisabled` | clouddriver-google/src/main/java/com/netflix/spinnaker/clouddriver/google/security/GoogleCredentialsLifecycleHandler.java:66-141 | no Network, SslLoadBalancer, TcpLoadBalancer, Instance, Image, HttpLoadBalancer or per-region agent is built, nor the HttpHealthCheck agent of the trailing commented block, and no category occurs twice in a bundle |
| `CredentialsLifecycle.BundleIsDeterministic` | clouddriver-google/src/main/java/com/netflix/spinnaker/clouddriver/google/security/GoogleCredentialsLifecycleHandler.java:56-144 | the bundle's categories and account names depend only on the account name, not on other credential fields or the application name (that the registry plays no part is AddAgentFor's contract, old agents followed by the bundle) |
| `CredentialsLifecycle.AgentsForBundle` | clouddriver-google/src/main/java/com/netflix/spinnaker/clouddriver/google/security/GoogleCredentialsLifecycleHandler.java:62-89 | in a bundle, the account of the credentials has all five agents and every other account has none |
| `CredentialsLifecycle.WithoutAppend` | clouddriver-google/src/main/java/com/netflix/spinnaker/clouddriver/google/security/GoogleCredentialsLifecycleHandler.java:45-46 | (assumed provider semantics) removal from a concatenation is the concatenation of the removals, so the surviving agents keep their order |
| `CredentialsLifecycle.AgentsForWithout` | clouddriver-google/src/main/java/com/netflix/spinnaker/clouddriver/google/security/GoogleCredentialsLifecycleHandler.java:52-53 | removing a set of accounts leaves those accounts with no agents and every other account's agents unchanged, order included |
| `CredentialsLifecycle.WithoutUnmatched` | clouddriver-google/src/main/java/com/netflix/spinnaker/clouddriver/google/security/GoogleCredentialsLifecycleHandler.java:52-53 | removing accounts that have no registered agents changes nothing |
| `CredentialsLifecycle.DeleteAbsentIsNoop` | clouddriver-google/src/main/java/com/netflix/spinnaker/clouddriver/google/security/GoogleCredentialsLifecycleHandler.java:51-54 | deleting an account with no agents leaves the registry equal to what it was |
| `CredentialsLifecycle.WithoutIdempotent` | clouddriver-google/src/main/java/com/netflix/spinnaker/clouddriver/google/security/GoogleCredentialsLifecycleHandler.java:51-54 | removing the same accounts twice is removing them once |
| `CredentialsLifecycle.AddEffect` | clouddriver-google/src/main/java/com/netflix/spinnaker/clouddriver/google/security/GoogleCredentialsLifecycleHandler.java:38-41 | after credentialsAdded the account's agents are its old ones followed by one bundle; other accounts unchanged |
| `CredentialsLifecycle.UpdateEffect` | clouddriver-google/src/main/java/com/netflix/spinnaker/clouddriver/google/security/GoogleCredentialsLifecycleHandler.java:43-48 | after credentialsUpdated the account has exactly one fresh bundle; every other account has what it had |
| `CredentialsLifecycle.DeleteEffect` | clouddriver-google/src/main/java/com/netflix/spinnaker/clouddriver/google/security/GoogleCredentialsLifecycleHandler.java:50-54 | after credentialsDeleted the account has no agents; every other account has what it had |
| `CredentialsLifecycle.AddingTwiceDuplicates` | clouddriver-google/src/main/java/com/netflix/spinnaker/clouddriver/google/security/GoogleCredentialsLifecycleHandler.java:38-41 | credentialsAdded does not check the registry: for an account that already has its bundle it leaves two overlapping bundles (ten agents) |
| `CredentialsLifecycle.AddPreservesSettled` | clouddriver-google/src/main/java/com/netflix/spinnaker/clouddriver/google/security/GoogleCredentialsLifecycleHandler.java:38-41 | adding an absent account to a settled registry leaves it settled with that account present |
| `CredentialsLifecycle.UpdatePreservesSettled` | clouddriver-google/src/main/java/com/netflix/spinnaker/clouddriver/google/security/GoogleCredentialsLifecycleHandler.java:43-48 | updating any account of a settled registry leaves it settled with the new credentials for that account |
| `CredentialsLifecycle.DeletePreservesSettled` | clouddriver-google/src/main/java/com/netflix/spinnaker/clouddriver/google/security/GoogleCredentialsLifecycleHandler.java:50-54 | deleting an account of a settled registry leaves it settled without that account |
| `CredentialsLifecycle.InfrastructureProvider.AddAgents` | clouddriver-google/src/main/java/com/netflix/spinnaker/clouddriver/google/security/GoogleCredentialsLifecycleHandler.java:143 | (assumed provider semantics) the agent list becomes the old one followed by the batch |
| `CredentialsLifecycle.InfrastructureProvider.RemoveAgentsForAccounts` | clouddriver-google/src/main/java/com/netflix/spinnaker/clouddriver/google/security/GoogleCredentialsLifecycleHandler.java:45-46 | (assumed provider semantics) the agent list becomes the old one without the agents of the given accounts |
| `CredentialsLifecycle.GoogleCredentialsLifecycleHandler.constructor` | clouddriver-google/src/main/java/com/netflix/spinnaker/clouddriver/google/security/GoogleCredentialsLifecycleHandler.java:28-36 | the handler keeps the provider and application name it is given |
| `CredentialsLifecycle.GoogleCredentialsLifecycleHandler.CredentialsAdded` | clouddriver-google/src/main/java/com/netflix/spinnaker/clouddriver/google/security/GoogleCredentialsLifecycleHandler.java:38-41 | the registry becomes the old one followed by the account's bundle: one add, no removal |
| `CredentialsLifecycle.GoogleCredentialsLifecycleHandler.CredentialsUpdated` | clouddriver-google/src/main/java/com/netflix/spinnaker/clouddriver/google/security/GoogleCredentialsLifecycleHandler.java:43-48 | the registry becomes the old one without the singleton account {name}, followed by a fresh bundle |
| `CredentialsLifecycle.GoogleCredentialsLifecycleHandler.CredentialsDeleted` | clouddriver-google/src/main/java/com/netflix/spinnaker/clouddriver/google/security/GoogleCredentialsLifecycleHandler.java:50-54 | the registry becomes the old one without the singleton account {name}; nothing is added |
| `CredentialsLifecycle.GoogleCredentialsLifecycleHandler.AddAgentFor` | clouddriver-google/src/main/java/com/netflix/spinnaker/clouddriver/google/security/GoogleCredentialsLifecycleHandler.java:56-144 | the list built one agent at a time is exactly the bundle, handed to the provider in one addAgents call |

## Left out

- The reconciliation loop is not part of this model. It lives in the library classes `Poller` and
  `AbstractCredentialsLoader` (clouddriver-google/src/main/java/com/netflix/spinnaker/clouddriver/google/config/GoogleCredentialsConfiguration.java:82): the periodic reload, the added/updated/unchanged/deleted
  diff and the credentials registry. The `Settled` lemmas state what that loop must do for the
  registry to stay consistent. They do not claim that it does.
- GoogleInfrastructureProvider's code is not part of this model. Append and filter are assumed
  meanings. Under them, adding an agent that is already registered appends a second copy.
- The object mapper and the Spectator metrics registry handed to each agent, and the agents' own
  provider calls, are foreign objects and I/O.
- The lambda's `log.info` of the exception message is logging, so it is not modelled.
- `CredentialsParser.Parse`: the permissions build and the builder's `regionsToManage` are
  modelled as calls that cannot throw. Only the key fetch, the naming-strategy lookup and
  `build()` are modelled as calls that can.
- How `build()` turns the builder's state into the final credentials object is not modelled. The
  model takes the builder's state as the credentials.
- Spring bean wiring and `synchronize()`, which only runs the poller, are wiring.
- GoogleCredentialsDefinitionSource returns a constant empty list. All of its content is commented
  out, so it has no behaviour to model.
- Commented-out agent construction inside `addAgentFor` and the trailing commented block are not
  behaviour. They appear only as the disabled categories.
- Concurrency of reload cycles and of agent execution is not modelled. The handler's calls are sequential.
