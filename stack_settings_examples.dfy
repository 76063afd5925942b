/**
 * Whole plans for concrete stacks of the `pequod` organization's `proj`
 * project, with no arguments given.
 */
module StackSettingsExamples {
  import opened Wrappers
  import opened StackSettingsConfig
  import opened StackSettings
  import JsStrings
  import Timestamps

  const NoArgs := StackSettingsArgs(None, None, None, None, None)

  function GitBase(branch: Option<string>): FetchedSettings {
    FetchedSettings(
      Some(SourceContext(Some(GitSource(Some("https://github.com/pequod/proj.git"), branch, None)), None)),
      Some(GitHubSettings("pequod/proj", [], true, false, true)),
      Some(OperationContext(map["OLD" := Plain("x")], Some(["make"]))),
      Some(CacheOptions(false)))
  }

  /** A fixed `toISOString` result, 8 hours after some instant. */
  function FixedIso(ms: int): string {
    "2026-10-15T04:37:45.123Z"
  }

  /** A user-created stack is based on `dev` and deploys from its own branch. */
  lemma FeatureStack()
    ensures
      var p := Plan(Config(Org, NpwStack, "tok"), StackIdentity("proj", "feature-x"), NoArgs,
                    GitBase(Some("refs/heads/main")), 0, FixedIso);
      && p.tag == TagRequest("pequod/proj/feature-x", "delete_stack", "True")
      && p.deployment.Declared?
      && p.deployment.baseFqdn == "pequod/proj/dev"
      && BranchIn(p.deployment.settings.sourceContext) == Some("refs/heads/feature-x")
      && p.deployment.settings.operationContext.environmentVariables == map["PULUMI_ACCESS_TOKEN" := Secret("tok")]
      && p.ttl.timestamp == "2026-10-15T04:37:00Z"
      && p.drift.autoRemediate
      && p.teamPermission.team == "DevTeam"
  {
    var cfg := Config(Org, NpwStack, "tok");
    var id := StackIdentity("proj", "feature-x");
    ShortNameNotReview(cfg, id);
    assert StackFqdn("pequod", "proj", "feature-x") == "pequod/proj/feature-x";
    assert StackFqdn("pequod", "proj", "dev") == "pequod/proj/dev";
    assert BranchFor("feature-x") == "refs/heads/feature-x";
    StampOfFixedIso();
  }

  lemma StampOfFixedIso()
    ensures Timestamps.TruncateToMinute(FixedIso(0 + MillisecondsToAdd)) == "2026-10-15T04:37:00Z"
  {
  }

  const ReviewId := StackIdentity("proj", "pr-pulumi-pequod-proj-42")

  lemma ReviewIdIsReview(token: string)
    ensures IsReviewStack(Config(Org, NpwStack, token), ReviewId)
  {
    assert ReviewPattern("pequod", "proj") == "pr-pulumi-pequod-proj";
    assert JsStrings.OccursAt(ReviewId.stack, "pr-pulumi-pequod-proj", 0);
  }

  /** A review stack gets no deployment settings. */
  lemma ReviewStackLeftAlone()
    ensures DeploymentFor(Config(Org, NpwStack, "tok"), ReviewId, GitBase(None)) == LeftAlone
  {
    ReviewIdIsReview("tok");
  }

  /** A review stack is tagged like any other. */
  lemma ReviewStackTagged()
    ensures CleanupTag(Config(Org, NpwStack, "tok"), ReviewId, NoArgs)
         == TagRequest("pequod/proj/pr-pulumi-pequod-proj-42", "delete_stack", "True")
  {
    assert StackFqdn("pequod", "proj", ReviewId.stack) == "pequod/proj/pr-pulumi-pequod-proj-42";
  }

  /** The wizard's own stack keeps the fetched branch, even when there is none. */
  lemma TemplateStack()
    ensures
      var p := Plan(Config(Org, NpwStack, "tok"), StackIdentity("proj", "dev"), NoArgs, GitBase(None), 0, FixedIso);
      && p.deployment.Declared?
      && p.deployment.settings.sourceContext == GitBase(None).sourceContext
      && BranchIn(p.deployment.settings.sourceContext) == None
  {
  }

  /** A user-created stack whose base has no git source makes the callback throw. */
  lemma BaseWithoutGitSource()
    ensures
      var base := FetchedSettings(Some(SourceContext(None, Some("no-code"))), None, None, None);
      DeploymentFor(Config(Org, NpwStack, "tok"), StackIdentity("proj", "feature-x"), base)
        == Rejected("pequod/proj/dev")
  {
  }

  /**
   * An explicit empty string: the tag falls back to "True", the team stays
   * empty. With no token in the environment the deployment gets the sentinel.
   */
  lemma EmptyStringArgs()
    ensures
      var args := StackSettingsArgs(None, Some(""), Some(""), Some(""), None);
      var p := Plan(FromEnvironment(map[]), StackIdentity("proj", "dev"), args, GitBase(None), 0, FixedIso);
      && p.tag.value == "True"
      && p.drift.autoRemediate
      && p.teamPermission.team == ""
      && p.deployment.Declared?
      && p.deployment.settings.operationContext.environmentVariables["PULUMI_ACCESS_TOKEN"] == Secret("notokenfound")
  {
  }

  /** Any explicit drift mode other than "Correct" only detects. */
  lemma DetectOnlyDrift()
    ensures !AutoRemediate(Some("Detect")) && !AutoRemediate(Some("correct"))
  {
  }
}
