/** Value types shared by the Google credentials parsers and the agent
    lifecycle handler: the raw account definition read from configuration,
    the credentials object the builder produces, and the foreign collaborators
    both parsers call.

    Java references that may be null are modelled explicitly: a string is a
    NullableString, a list is an Option of a sequence (None standing for null).
 */
module Accounts {

  datatype Option<+T> = None | Some(value: T)

  /** The message of an exception thrown by a collaborator. */
  datatype Error = Error(message: string)

  /** A value, or the exception that was thrown instead of returning it. */
  datatype Result<+T> = Ok(value: T) | Err(error: Error)

  /** A call that returns nothing, or the exception it threw. */
  datatype Outcome = Pass | Fail(error: Error)

  /** A java.lang.String reference: null, or a sequence of characters. */
  datatype NullableString = Null | Text(chars: string)

  /** Apache Commons StringUtils.isEmpty: null and "" are both empty. */
  predicate IsEmpty(s: NullableString) {
    s.Null? || s.chars == ""
  }

  /** The compute API version of an account. */
  datatype ComputeVersion = Default | Alpha | Beta

  /** Objects the model carries from one record to another without looking
      inside them; each stands for a distinct Java object by an identity. */
  datatype PermissionsBuilder = PermissionsBuilder(id: nat)
  datatype Permissions = Permissions(id: nat)
  datatype ConsulConfig = ConsulConfig(id: nat)
  datatype InstanceTypeDisk = InstanceTypeDisk(id: nat)
  datatype Namer = Namer(id: nat)

  /** GoogleConfigurationProperties.ManagedAccount: one raw account definition. */
  datatype ManagedAccount = ManagedAccount(
    name: NullableString,
    environment: NullableString,
    accountType: NullableString,
    project: NullableString,
    alphaListed: bool,
    jsonPath: NullableString,
    serviceAccountId: NullableString,
    serviceAccountProject: NullableString,
    imageProjects: Option<seq<string>>,
    requiredGroupMembership: Option<seq<string>>,
    permissions: PermissionsBuilder,
    consul: Option<ConsulConfig>,
    userDataFile: NullableString,
    regions: Option<seq<string>>,
    namingStrategy: NullableString)

  /** GoogleNamedAccountCredentials, as its Builder holds it just before
      build(). A field a parser does not set keeps whatever a fresh builder
      holds in it (Collaborators.newBuilder); the builder class is not part of
      this model, so those initial values are left uninterpreted. */
  datatype NamedAccountCredentials = NamedAccountCredentials(
    name: NullableString,
    environment: NullableString,
    accountType: NullableString,
    project: NullableString,
    computeVersion: Option<ComputeVersion>,
    jsonKey: NullableString,
    serviceAccountId: NullableString,
    serviceAccountProject: NullableString,
    imageProjects: Option<seq<string>>,
    requiredGroupMembership: Option<seq<string>>,
    permissions: Option<Permissions>,
    applicationName: NullableString,
    consulConfig: Option<ConsulConfig>,
    instanceTypeDisks: Option<seq<InstanceTypeDisk>>,
    userDataFile: NullableString,
    regions: Option<seq<string>>,
    namer: Option<Namer>,
    liveLookupsEnabled: Option<bool>)

  /** The foreign calls made while parsing, as functions the model does not
      interpret.
      - getContents: ConfigFileService.getContents, which may throw;
      - getNamingStrategy: NamerRegistry.getNamingStrategy, which may throw;
      - buildPermissions: Permissions.Builder.build;
      - regionsToManage: the region list the builder keeps after its
        regionsToManage(regions, defaultRegions) call (possibly null);
      - build: the checks GoogleNamedAccountCredentials.Builder.build makes
        on the finished builder, which may throw;
      - newBuilder: the state of a newly created GoogleNamedAccountCredentials.Builder,
        before any of its setters is called. */
  datatype Collaborators = Collaborators(
    getContents: NullableString -> Result<NullableString>,
    getNamingStrategy: NullableString -> Result<Namer>,
    buildPermissions: PermissionsBuilder -> Permissions,
    regionsToManage: (Option<seq<string>>, Option<seq<string>>) -> Option<seq<string>>,
    build: NamedAccountCredentials -> Outcome,
    newBuilder: NamedAccountCredentials)
}
