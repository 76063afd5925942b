/**
 * The decisions the `StackSettings` component makes for the stack being
 * run: the purge tag, the deployment settings derived from the stack the
 * new-project wizard created, the TTL schedule's timestamp, the drift
 * schedule's remediation flag and the team permission.
 *
 * `Plan` states what the component hands to the provider as one value;
 * `Construct` builds the same value step by step, the way the component's
 * constructor does.
 */
module StackSettings {
  import opened Wrappers
  import JsStrings
  import Timestamps
  import opened StackSettingsConfig

  // ---------------------------------------------------------------- inputs

  /** The ambient project and the stack being run. */
  datatype StackIdentity = StackIdentity(project: string, stack: string)

  /** The component's arguments; every one may be left `undefined`. */
  datatype StackSettingsArgs = StackSettingsArgs(
    ttlMinutes: Option<int>,
    driftManagement: Option<string>,
    deleteStack: Option<string>,
    teamAssignment: Option<string>,
    pulumiAccessToken: Option<string>)

  datatype GitSource = GitSource(repoUrl: Option<string>, branch: Option<string>, repoDir: Option<string>)

  /** Where a deployment takes its source from: a git repository or a template. */
  datatype SourceContext = SourceContext(git: Option<GitSource>, template: Option<string>)

  datatype GitHubSettings = GitHubSettings(
    repository: string,
    paths: seq<string>,
    previewPullRequests: bool,
    pullRequestTemplate: bool,
    deployCommits: bool)

  /** An environment variable's value; `Secret` is a value marked as sensitive. */
  datatype EnvValue = Plain(text: string) | Secret(text: string)

  datatype OperationContext = OperationContext(
    environmentVariables: map<string, EnvValue>,
    preRunCommands: Option<seq<string>>)

  datatype CacheOptions = CacheOptions(enable: bool)

  /** The deployment settings of the base stack, as fetched. */
  datatype FetchedSettings = FetchedSettings(
    sourceContext: Option<SourceContext>,
    gitHub: Option<GitHubSettings>,
    operationContext: Option<OperationContext>,
    cacheOptions: Option<CacheOptions>)

  // --------------------------------------------------------------- outputs

  /** The arguments of the deployment-settings resource. */
  datatype DeploymentSettingsArgs = DeploymentSettingsArgs(
    organization: string,
    project: string,
    stack: string,
    github: Option<GitHubSettings>,
    cacheOptions: CacheOptions,
    operationContext: OperationContext,
    sourceContext: Option<SourceContext>)

  /**
   * What becomes of the deployment settings: left alone (review stacks),
   * fetched from `baseFqdn` and then abandoned because the callback threw,
   * or fetched from `baseFqdn` and declared.
   */
  datatype DeploymentStep =
    | LeftAlone
    | Rejected(baseFqdn: string)
    | Declared(baseFqdn: string, settings: DeploymentSettingsArgs)

  /** The call `setTag(stackFqdn, name, value)`. */
  datatype TagRequest = TagRequest(stackFqdn: string, name: string, value: string)

  datatype TtlScheduleArgs = TtlScheduleArgs(
    organization: string,
    project: string,
    stack: string,
    timestamp: string,
    deleteAfterDestroy: bool)

  datatype DriftScheduleArgs = DriftScheduleArgs(
    organization: string,
    project: string,
    stack: string,
    scheduleCron: string,
    autoRemediate: bool)

  datatype PermissionScope = Admin

  datatype TeamStackPermissionArgs = TeamStackPermissionArgs(
    organization: string,
    project: string,
    stack: string,
    team: string,
    permission: PermissionScope)

  /** Everything the component hands on for one stack. */
  datatype StackPlan = StackPlan(
    tag: TagRequest,
    deployment: DeploymentStep,
    ttl: TtlScheduleArgs,
    drift: DriftScheduleArgs,
    teamPermission: TeamStackPermissionArgs)

  // ------------------------------------------------------------- constants

  const TagName: string := "delete_stack"
  const DefaultTagValue: string := "True"
  const ReviewPrefix: string := "pr-pulumi-"
  const BranchPrefix: string := "refs/heads/"
  const TtlMinutes: int := 8 * 60
  const MillisecondsToAdd: int := TtlMinutes * 60 * 1000
  const DriftCron: string := "0 * * * *"
  const CorrectDrift: string := "Correct"
  const DefaultTeam: string := "DevTeam"

  /** The variable the token is exported as in every deployment's environment. */
  const DeploymentTokenVariable: string := "PULUMI_ACCESS_TOKEN"

  /** `${org}/${project}/${stack}`: the organization, the project and the stack, in that order. */
  function StackFqdn(org: string, project: string, stack: string): (fqdn: string)
    ensures |fqdn| == |org| + |project| + |stack| + 2
    ensures fqdn[..|org| + 1] == org + "/"
    ensures fqdn[|org| + 1..|org| + 1 + |project|] == project && fqdn[|org| + 1 + |project|] == '/'
    ensures fqdn[|fqdn| - |stack|..] == stack
  {
    org + "/" + project + "/" + stack
  }

  // ---------------------------------------------------------------- the tag

  /** The purge tag: `deleteStack || "True"` under the name `delete_stack`. */
  function CleanupTag(cfg: Config, id: StackIdentity, args: StackSettingsArgs): (t: TagRequest)
    ensures t.stackFqdn == StackFqdn(cfg.org, id.project, id.stack)
    ensures t.name == "delete_stack"
    ensures t.value != ""
    ensures JsStrings.Truthy(args.deleteStack) ==> t.value == args.deleteStack.value
    ensures t.value == "True" <==> args.deleteStack in {None, Some(""), Some("True")}
  {
    TagRequest(StackFqdn(cfg.org, id.project, id.stack), TagName, JsStrings.OrElse(args.deleteStack, DefaultTagValue))
  }

  // ------------------------------------------------------- review stacks

  /** The name fragment that marks a review stack of `project`. */
  function ReviewPattern(org: string, project: string): (p: string)
    ensures |p| == |ReviewPrefix| + |org| + 1 + |project|
    ensures p[..|ReviewPrefix|] == "pr-pulumi-"
    ensures p[|ReviewPrefix|..|ReviewPrefix| + |org|] == org && p[|ReviewPrefix| + |org|] == '-'
    ensures p[|p| - |project|..] == project
  {
    ReviewPrefix + org + "-" + project
  }

  /** A review stack has the review pattern anywhere in its name. */
  function IsReviewStack(cfg: Config, id: StackIdentity): (b: bool)
    ensures b <==> exists i: nat :: JsStrings.OccursAt(id.stack, ReviewPattern(cfg.org, id.project), i)
  {
    JsStrings.Includes(id.stack, ReviewPattern(cfg.org, id.project))
  }

  /** The review pattern is found wherever it stands in the name, not only at its start. */
  lemma ReviewPatternAnywhere(cfg: Config, project: string, before: string, after: string)
    ensures IsReviewStack(cfg, StackIdentity(project, before + ReviewPattern(cfg.org, project) + after))
  {
    var p := ReviewPattern(cfg.org, project);
    var s := before + p + after;
    assert s[|before|..|before| + |p|] == p;
    assert JsStrings.OccursAt(s, p, |before|);
  }

  /** A stack whose name is shorter than the review pattern is never a review stack. */
  lemma ShortNameNotReview(cfg: Config, id: StackIdentity)
    requires |id.stack| < |ReviewPattern(cfg.org, id.project)|
    ensures !IsReviewStack(cfg, id)
  {
  }

  // -------------------------------------------------------- branch rewrite

  /** The branch a user-created stack deploys from. */
  function BranchFor(stack: string): (b: string)
    ensures |b| == |BranchPrefix| + |stack|
    ensures b[..|BranchPrefix|] == BranchPrefix && b[|BranchPrefix|..] == stack
  {
    BranchPrefix + stack
  }

  /** Distinct stacks deploy from distinct branches. */
  lemma BranchForInjective(a: string, b: string)
    requires BranchFor(a) == BranchFor(b)
    ensures a == b
  {
  }

  predicate HasGitSource(s: FetchedSettings) {
    s.sourceContext.Some? && s.sourceContext.value.git.Some?
  }

  /** The git branch a source context names, if it names one. */
  function BranchIn(sc: Option<SourceContext>): Option<string> {
    if sc.Some? && sc.value.git.Some? then sc.value.git.value.branch else None
  }

  /** The source context with its git branch forgotten. */
  function WithoutBranch(sc: Option<SourceContext>): Option<SourceContext> {
    match sc
    case None => None
    case Some(c) =>
      match c.git
      case None => sc
      case Some(g) => Some(c.(git := Some(g.(branch := None))))
  }

  /**
   * The assignment `settings.sourceContext.git.branch = "refs/heads/" + stack`.
   * `None` stands for the TypeError JavaScript throws when the fetched
   * settings have no source context or no git source.
   */
  function RewriteBranch(settings: FetchedSettings, stack: string): (r: Option<FetchedSettings>)
    ensures r.Some? <==> HasGitSource(settings)
    ensures r.Some? ==> BranchIn(r.value.sourceContext) == Some(BranchFor(stack))
    ensures r.Some? ==> WithoutBranch(r.value.sourceContext) == WithoutBranch(settings.sourceContext)
    ensures r.Some? ==> r.value.(sourceContext := settings.sourceContext) == settings
  {
    match settings.sourceContext
    case None => None
    case Some(sc) =>
      match sc.git
      case None => None
      case Some(g) => Some(settings.(sourceContext := Some(sc.(git := Some(g.(branch := Some(BranchFor(stack))))))))
  }

  // ------------------------------------------------ deployment settings

  /** The operation context of every declared deployment: the token, as a secret, and nothing else. */
  function TokenContext(cfg: Config): (oc: OperationContext)
    ensures oc.environmentVariables.Keys == {DeploymentTokenVariable}
    ensures oc.environmentVariables[DeploymentTokenVariable] == Secret(cfg.accessToken)
    ensures oc.preRunCommands == None
  {
    OperationContext(map[DeploymentTokenVariable := Secret(cfg.accessToken)], None)
  }

  /** The object literal handed to the deployment-settings resource. */
  function AssembleSettings(cfg: Config, id: StackIdentity, s: FetchedSettings): (d: DeploymentSettingsArgs)
    ensures d.organization == cfg.org && d.project == id.project && d.stack == id.stack
    ensures d.github == s.gitHub && d.sourceContext == s.sourceContext
    ensures d.cacheOptions.enable
    ensures d.operationContext.environmentVariables.Keys == {DeploymentTokenVariable}
    ensures d.operationContext.environmentVariables[DeploymentTokenVariable] == Secret(cfg.accessToken)
    ensures d.operationContext.preRunCommands == None
  {
    DeploymentSettingsArgs(cfg.org, id.project, id.stack, s.gitHub, CacheOptions(true), TokenContext(cfg), s.sourceContext)
  }

  /** What happens to the stack's deployment settings. */
  function DeploymentFor(cfg: Config, id: StackIdentity, fetched: FetchedSettings): (r: DeploymentStep)
    ensures r.LeftAlone? <==> IsReviewStack(cfg, id)
    ensures !r.LeftAlone? ==> r.baseFqdn == StackFqdn(cfg.org, id.project, cfg.npwStack)
    ensures r.Rejected? <==> !IsReviewStack(cfg, id) && id.stack != cfg.npwStack && !HasGitSource(fetched)
    ensures r.Declared? ==>
      && r.settings.organization == cfg.org
      && r.settings.project == id.project
      && r.settings.stack == id.stack
      && r.settings.github == fetched.gitHub
      && r.settings.cacheOptions.enable
      && r.settings.operationContext == TokenContext(cfg)
      && r.settings.operationContext.environmentVariables.Keys == {DeploymentTokenVariable}
      && r.settings.operationContext.environmentVariables[DeploymentTokenVariable] == Secret(cfg.accessToken)
      && r.settings.operationContext.preRunCommands == None
    ensures r.Declared? && id.stack == cfg.npwStack ==> r.settings.sourceContext == fetched.sourceContext
    ensures r.Declared? && id.stack != cfg.npwStack ==>
      && BranchIn(r.settings.sourceContext) == Some(BranchFor(id.stack))
      && WithoutBranch(r.settings.sourceContext) == WithoutBranch(fetched.sourceContext)
  {
    if IsReviewStack(cfg, id) then
      LeftAlone
    else
      var baseFqdn := StackFqdn(cfg.org, id.project, cfg.npwStack);
      if id.stack == cfg.npwStack then
        Declared(baseFqdn, AssembleSettings(cfg, id, fetched))
      else
        match RewriteBranch(fetched, id.stack)
        case None => Rejected(baseFqdn)
        case Some(s) => Declared(baseFqdn, AssembleSettings(cfg, id, s))
  }

  /** The wizard's own stack is never a review stack here, so its settings are declared as fetched. */
  lemma NpwStackKeepsItsSource(token: string, project: string, fetched: FetchedSettings)
    ensures
      var r := DeploymentFor(Config(Org, NpwStack, token), StackIdentity(project, NpwStack), fetched);
      r.Declared? && r.settings.sourceContext == fetched.sourceContext
  {
  }

  // ------------------------------------------------------------------- TTL

  /** The instant, in epoch milliseconds, the stack expires at. */
  function ExpiryInstant(nowMs: int): (t: int)
    ensures t - nowMs == 8 * 60 * 60 * 1000
  {
    nowMs + MillisecondsToAdd
  }

  /**
   * The TTL timestamp. `toIso` is `Date.prototype.toISOString` on an epoch
   * instant; when it yields the 24-character form, the stamp keeps its
   * date, hour and minute and zeroes the seconds.
   */
  function ExpirationTime(nowMs: int, toIso: int -> string): (stamp: string)
    ensures Timestamps.IsIsoMillis(toIso(ExpiryInstant(nowMs))) ==>
      Timestamps.IsMinuteStamp(stamp) && stamp[..17] == toIso(ExpiryInstant(nowMs))[..17]
  {
    Timestamps.TruncateToMinute(toIso(ExpiryInstant(nowMs)))
  }

  // ----------------------------------------------------------------- drift

  /** `remediation` stays true unless `driftManagement` is truthy and not `"Correct"`. */
  function AutoRemediate(driftManagement: Option<string>): (b: bool)
    ensures b <==> driftManagement in {None, Some(""), Some("Correct")}
  {
    !(JsStrings.Truthy(driftManagement) && driftManagement.value != CorrectDrift)
  }

  // ------------------------------------------------------------------ team

  /** `teamAssignment ?? "DevTeam"`: an empty team name is kept. */
  function TeamFor(args: StackSettingsArgs): (team: string)
    ensures args.teamAssignment.Some? ==> team == args.teamAssignment.value
    ensures args.teamAssignment.None? ==> team == "DevTeam"
    ensures team == "" <==> args.teamAssignment == Some("")
  {
    JsStrings.Coalesce(args.teamAssignment, DefaultTeam)
  }

  // ------------------------------------------------------------- the plan

  /** Every resource the plan declares is keyed by the running stack. */
  predicate KeyedBy(p: StackPlan, org: string, project: string, stack: string) {
    && p.tag.stackFqdn == StackFqdn(org, project, stack)
    && (p.deployment.Declared? ==>
          p.deployment.settings.organization == org
          && p.deployment.settings.project == project
          && p.deployment.settings.stack == stack)
    && p.ttl.organization == org && p.ttl.project == project && p.ttl.stack == stack
    && p.drift.organization == org && p.drift.project == project && p.drift.stack == stack
    && p.teamPermission.organization == org && p.teamPermission.project == project
    && p.teamPermission.stack == stack
  }

  /** Everything the component hands on for the stack `id`. */
  function Plan(cfg: Config, id: StackIdentity, args: StackSettingsArgs, fetched: FetchedSettings,
                nowMs: int, toIso: int -> string): (p: StackPlan)
    ensures KeyedBy(p, cfg.org, id.project, id.stack)
    ensures p.tag.name == "delete_stack" && p.tag.value != ""
    ensures !p.ttl.deleteAfterDestroy
    ensures p.drift.scheduleCron == "0 * * * *"
    ensures p.teamPermission.permission == Admin
  {
    StackPlan(
      CleanupTag(cfg, id, args),
      DeploymentFor(cfg, id, fetched),
      TtlScheduleArgs(cfg.org, id.project, id.stack, ExpirationTime(nowMs, toIso), false),
      DriftScheduleArgs(cfg.org, id.project, id.stack, DriftCron, AutoRemediate(args.driftManagement)),
      TeamStackPermissionArgs(cfg.org, id.project, id.stack, TeamFor(args), Admin))
  }

  /** The component's constructor, statement by statement. */
  method Construct(cfg: Config, id: StackIdentity, args: StackSettingsArgs, fetched: FetchedSettings,
                   nowMs: int, toIso: int -> string) returns (plan: StackPlan)
    ensures plan == Plan(cfg, id, args, fetched, nowMs, toIso)
  {
    var project, stack := id.project, id.stack;
    var stackFqdn := StackFqdn(cfg.org, project, stack);

    // Purge tag.
    var tagName := TagName;
    var tagValue := JsStrings.OrElse(args.deleteStack, DefaultTagValue);
    var tag := TagRequest(stackFqdn, tagName, tagValue);

    // Deployment settings, only for stacks that are not review stacks.
    var deployment := LeftAlone;
    if !JsStrings.Includes(stack, ReviewPattern(cfg.org, project)) {
      var baseFqdn := StackFqdn(cfg.org, project, cfg.npwStack);
      var settings := fetched;
      var threw := false;
      if stack != cfg.npwStack {
        if HasGitSource(settings) {
          var sc := settings.sourceContext.value;
          var git := sc.git.value;
          settings := settings.(sourceContext := Some(sc.(git := Some(git.(branch := Some(BranchPrefix + stack))))));
        } else {
          threw := true;
        }
      }
      if threw {
        deployment := Rejected(baseFqdn);
      } else {
        deployment := Declared(baseFqdn, DeploymentSettingsArgs(
          cfg.org, project, stack, settings.gitHub, CacheOptions(true),
          OperationContext(map[DeploymentTokenVariable := Secret(cfg.accessToken)], None),
          settings.sourceContext));
      }
    }

    // TTL schedule.
    var ttlMinutes := 8 * 60;
    var millisecondsToAdd := ttlMinutes * 60 * 1000;
    var endLinuxTime := nowMs + millisecondsToAdd;
    var expirationTime := JsStrings.DropLast(toIso(endLinuxTime), 7) + "00Z";
    var ttl := TtlScheduleArgs(cfg.org, project, stack, expirationTime, false);

    // Drift schedule.
    var remediation := true;
    if JsStrings.Truthy(args.driftManagement) && args.driftManagement.value != CorrectDrift {
      remediation := false;
    }
    var drift := DriftScheduleArgs(cfg.org, project, stack, DriftCron, remediation);

    // Team assignment.
    var teamAssignment := JsStrings.Coalesce(args.teamAssignment, DefaultTeam);
    var team := TeamStackPermissionArgs(cfg.org, project, stack, teamAssignment, Admin);

    plan := StackPlan(tag, deployment, ttl, drift, team);
  }

  // -------------------------------------------------- properties of the plan

  /** The tag is set for every stack, review stacks included. */
  lemma ReviewStacksStillTagged(cfg: Config, id: StackIdentity, args: StackSettingsArgs,
                                                   fetched: FetchedSettings, nowMs: int, toIso: int -> string)
    requires IsReviewStack(cfg, id)
    ensures Plan(cfg, id, args, fetched, nowMs, toIso).deployment == LeftAlone
    ensures Plan(cfg, id, args, fetched, nowMs, toIso).tag == CleanupTag(cfg, id, args)
  {
  }

  /** The arguments never change the TTL schedule: its duration is fixed. */
  lemma TtlIgnoresArgs(cfg: Config, id: StackIdentity, a1: StackSettingsArgs, a2: StackSettingsArgs,
                                          fetched: FetchedSettings, nowMs: int, toIso: int -> string)
    ensures Plan(cfg, id, a1, fetched, nowMs, toIso).ttl == Plan(cfg, id, a2, fetched, nowMs, toIso).ttl
  {
  }

  /** Every stack that is not a review stack is based on the wizard's stack, whatever its own name. */
  lemma BaseIsAlwaysNpwStack(cfg: Config, project: string, s1: string, s2: string,
                                                fetched: FetchedSettings)
    requires !IsReviewStack(cfg, StackIdentity(project, s1)) && !IsReviewStack(cfg, StackIdentity(project, s2))
    ensures DeploymentFor(cfg, StackIdentity(project, s1), fetched).baseFqdn
         == DeploymentFor(cfg, StackIdentity(project, s2), fetched).baseFqdn
  {
  }
}
