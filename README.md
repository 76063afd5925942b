# Stack settings: a verified model of the per-stack governance decisions

The `stackmgmt` component (`StackSettings`, a Pulumi component resource) is
instantiated once per stack. It sets a purge tag. It gives the stack
deployment settings derived from the stack that the new-project wizard
(NPW) first created. It also declares a TTL schedule, a drift schedule and
a team permission. This project models the values the constructor hands to
the provider as one pure function, `StackSettings.Plan`. It also models the
constructor step by step as the method `StackSettings.Construct`, which is
proved to compute `Plan`. The properties of each part are stated on the
part itself and proved.

Modules:

- `Wrappers`: `Option`, standing for JavaScript's `undefined`.
- `JsStrings`: the JavaScript operators the decisions depend on. These are
  truthiness, `||`, `??`, `String.prototype.includes` (a substring test,
  specified by an explicit "occurs at some index" definition) and
  `slice(0, -k)`.
- `StackSettingsConfig`: the fixed constants (`org = "pequod"`,
  `npwStack = "dev"`) and the access token. The token is
  `PULUMI_ACCESS_TOKEN` from the environment, or `"notokenfound"` when that
  is unset or empty. The environment is a `map` parameter.
- `Timestamps`: the 24-character `toISOString` form, the `YYYY-MM-DDTHH:MM:00Z`
  form the TTL schedule accepts, and the truncation between them.
- `StackSettings`: the inputs (stack identity, arguments, fetched base
  settings), the outputs, each decision, `Plan` and `Construct`.
- `StackSettingsExamples`: complete plans for concrete `pequod/proj/...`
  stacks.

Inputs that the source reads from its surroundings become parameters:

- The project and stack name (`pulumi.getProject()`, `pulumi.getStack()`)
  form `StackIdentity`.
- The current time is `nowMs`, in epoch milliseconds.
- The fetched deployment settings are a `FetchedSettings` value.
- `Date.prototype.toISOString` is a function parameter `toIso`.

Behaviour `stackSettings.ts` does not have, and edges it does have:

- There is no no-code branch and no `"StackOnly"` tag value. The tag is
  `deleteStack || "True"` for every stack, review stacks included.
- A review stack gets no deployment settings at all. Its settings are not
  re-declared from its own base.
- `args.ttlMinutes` is never read. The TTL is fixed at 8 hours.
- There is no `refs/heads/main` default. The NPW stack's fetched source
  context is passed on unchanged, an absent branch included.
- The declared operation context holds only the token. The base stack's
  environment variables and `preRunCommands` are both dropped.
- `args.pulumiAccessToken` is never read. The token comes from the
  configuration.
- `PULUMI_ACCESS_TOKEN` names two different things: the key read from
  `process.env` (stackSettingsConfig.ts:9) and the variable set in the
  deployment's environment (stackSettings.ts:66). The model keeps them as
  two constants, `StackSettingsConfig.TokenVariable` and
  `StackSettings.DeploymentTokenVariable`.
- Suppose a user-created stack's base settings have no `sourceContext` or
  no `git` source, as a template-based (no-code) base would not. Then the
  assignment `settings.sourceContext.git.branch = ...` throws a TypeError
  inside the `.then` callback. No deployment settings are declared. The
  model names this outcome `DeploymentStep.Rejected`.

## Model

| member | source | states |
|---|---|---|
| `JsStrings.Truthy` | stackSettings.ts:95 | an optional string is truthy exactly when it is defined and not `""` (also used at stackSettings.ts:33 and stackSettingsConfig.ts:9) |
| `JsStrings.OrElse` | stackSettings.ts:33 | `a \|\| b` yields `a` when `a` is truthy and `b` otherwise, so it is empty only when `b` is |
| `JsStrings.Coalesce` | stackSettings.ts:108 | `a ?? b` yields `a` when it is defined, even when it is `""`, and `b` when it is undefined |
| `JsStrings.Includes` | stackSettings.ts:42 | `s.includes(p)` holds exactly when `p` occurs in `s` at some index |
| `JsStrings.PrefixIsIncluded` | stackSettings.ts:42 | a prefix occurrence satisfies the substring test |
| `JsStrings.IncludedAfterPrepend` | stackSettings.ts:42 | prepending characters to a name never hides an occurrence (the test is not a prefix test) |
| `JsStrings.DropLast` | stackSettings.ts:84 | `slice(0, -k)` removes exactly the last `k` characters and leaves the rest, or yields `""` for shorter strings |
| `Timestamps.TruncateToMinute` | stackSettings.ts:81-84 | on a 24-character ISO instant the result is a 20-character `YYYY-MM-DDTHH:MM:00Z` stamp that keeps the first 17 characters |
| `Timestamps.SameStampIffSameMinute` | stackSettings.ts:81-84 | two ISO instants give the same stamp exactly when their date, hour and minute agree |
| `StackSettingsConfig.AccessToken` | stackSettingsConfig.ts:9 | the token is the environment's `PULUMI_ACCESS_TOKEN` when set and non-empty, else `"notokenfound"`; it is never empty |
| `StackSettingsConfig.FromEnvironment` | stackSettingsConfig.ts:3-9 | the configuration has org `"pequod"`, NPW stack `"dev"` and the token `AccessToken(env)`, which is the environment's token whenever that is set and non-empty |
| `StackSettings.StackFqdn` | stackSettings.ts:24 | `${org}/${project}/${stack}` holds the organization, the project and the stack in that order, separated by `/` (also built at stackSettings.ts:44 with the NPW stack) |
| `StackSettings.ReviewPattern` | stackSettings.ts:42 | the review pattern is `pr-pulumi-`, the organization, `-` and the project, in that order |
| `StackSettings.CleanupTag` | stackSettings.ts:24-34 | the `delete_stack` tag goes to `org/project/stack`; its value is `deleteStack` when truthy, else `"True"`; it is never empty; it is `"True"` exactly for an absent, empty or `"True"` argument |
| `StackSettings.IsReviewStack` | stackSettings.ts:42 | a stack is a review stack exactly when `pr-pulumi-<org>-<project>` occurs anywhere in its name |
| `StackSettings.ReviewPatternAnywhere` | stackSettings.ts:42 | any name with the review pattern in the middle is a review stack |
| `StackSettings.ShortNameNotReview` | stackSettings.ts:42 | a name shorter than the review pattern is never a review stack |
| `StackSettings.BranchFor` | stackSettings.ts:48 | the branch is `refs/heads/` followed by exactly the stack name |
| `StackSettings.BranchForInjective` | stackSettings.ts:47-48 | distinct stacks get distinct branches |
| `StackSettings.RewriteBranch` | stackSettings.ts:47-49 | the rewrite succeeds exactly when a git source exists (otherwise JavaScript throws); it sets the branch to `BranchFor(stack)` and changes nothing else |
| `StackSettings.TokenContext` | stackSettings.ts:61-67 | the operation context has exactly one variable, `PULUMI_ACCESS_TOKEN`, holding the token marked secret, and no pre-run commands |
| `StackSettings.AssembleSettings` | stackSettings.ts:53-68 | the object literal is keyed by the running stack, copies `gitHub` and the source context, enables the cache, and has exactly the secret token variable and no pre-run commands |
| `StackSettings.DeploymentFor` | stackSettings.ts:42-70 | left alone exactly for review stacks; otherwise based on `org/project/npwStack`; rejected exactly when a non-NPW stack's base has no git source; a declared record is keyed by the running stack, copies `gitHub`, enables the cache, has the operation context `TokenContext(cfg)` (the secret token as its only variable, the base's variables and pre-run commands dropped), and keeps the fetched source context (NPW stack) or only rewrites its branch to `refs/heads/<stack>` (other stacks) |
| `StackSettings.NpwStackKeepsItsSource` | stackSettings.ts:42-68 | with org `pequod` and NPW stack `dev`, the `dev` stack always declares settings with the fetched source context unchanged |
| `StackSettings.ExpiryInstant` | stackSettings.ts:75-79 | the expiry instant is exactly 8 hours of milliseconds after `now` |
| `StackSettings.ExpirationTime` | stackSettings.ts:75-84 | when the ISO form of the expiry is well formed, the TTL timestamp is a minute stamp with the expiry's date, hour and minute |
| `StackSettings.AutoRemediate` | stackSettings.ts:94-97 | remediation is on exactly when `driftManagement` is absent, `""` or `"Correct"` |
| `StackSettings.TeamFor` | stackSettings.ts:108 | the team is `teamAssignment` whenever defined, else `"DevTeam"`; it is empty exactly when the argument is `""` |
| `StackSettings.Plan` | stackSettings.ts:19-118 | every declared resource and the tag are keyed by the running stack; the tag is a non-empty `delete_stack`; the TTL schedule is not deleted after destroy; the drift cron is hourly; the team permission is Admin |
| `StackSettings.Construct` | stackSettings.ts:19-118 | the constructor's step-by-step computation, with its reassigned `remediation` local and the in-place branch update, yields exactly `Plan` |
| `StackSettings.ReviewStacksStillTagged` | stackSettings.ts:31-44 | a review stack has its deployment settings left alone but still gets the cleanup tag |
| `StackSettings.TtlIgnoresArgs` | stackSettings.ts:75-91 | the TTL schedule does not depend on the arguments, `ttlMinutes` included |
| `StackSettings.BaseIsAlwaysNpwStack` | stackSettings.ts:44 | any two non-review stacks of a project are based on the same stack |
| `StackSettingsExamples.FeatureStack` | stackSettings.ts:19-118 | `pequod/proj/feature-x`, whose base has branch `refs/heads/main`: settings based on `pequod/proj/dev` with branch `refs/heads/feature-x` and only the token variable; tag `True`; timestamp seconds zeroed; remediation on; team `DevTeam` |
| `StackSettingsExamples.StampOfFixedIso` | stackSettings.ts:84 | `2026-10-15T04:37:45.123Z` becomes `2026-10-15T04:37:00Z` |
| `StackSettingsExamples.ReviewIdIsReview` | stackSettings.ts:42 | `pr-pulumi-pequod-proj-42` is a review stack of `pequod/proj` |
| `StackSettingsExamples.ReviewStackLeftAlone` | stackSettings.ts:42 | the review stack `pr-pulumi-pequod-proj-42` gets no deployment settings |
| `StackSettingsExamples.ReviewStackTagged` | stackSettings.ts:31-34 | the same review stack is still tagged `delete_stack=True` |
| `StackSettingsExamples.TemplateStack` | stackSettings.ts:42-68 | the `dev` stack keeps a fetched source context without a branch as it is (no `refs/heads/main` default) |
| `StackSettingsExamples.BaseWithoutGitSource` | stackSettings.ts:44-48 | a user-created stack whose base has only a template source gets no deployment settings |
| `StackSettingsExamples.EmptyStringArgs` | stackSettings.ts:33-108 | explicit `""` arguments: tag `True`, remediation on, team `""`; with an empty environment the `dev` stack's deployment gets the token `notokenfound` |
| `StackSettingsExamples.DetectOnlyDrift` | stackSettings.ts:94-97 | `"Detect"` and `"correct"` (the comparison is case-sensitive) switch remediation off |

## Left out

- `setTag` and `getDeploymentSettings` (stackSettingsUtils.ts) are HTTP calls against the stack API. The shown variant of `setTag` takes no parameters and refers to names it does not declare. `getDeploymentSettings` is not defined in the shown file. The model keeps only the tag request's arguments (`TagRequest`) and takes the fetched settings as an input value. Fetch and tag-write failures are not modelled.
- The asynchrony is not modelled: the un-awaited `setTag` promise and the `.then` callback. The fetch result is treated as already available. An exception in the callback becomes `DeploymentStep.Rejected`, and what Node does with the unhandled rejection is not modelled.
- Resource construction is not modelled: `new pulumiservice.*`, resource names (`${name}-ttlschedule`, ...), `parent`, `retainOnDelete`, `ignoreChanges`, `registerOutputs` and the `super` call. These are provider lifecycle semantics that are not visible in the source.
- `pulumi.secret` is modelled only as the `Secret` marker on the token's value. What the engine does with secrets is not modelled.
- `new Date(...)` and `toISOString` are library calls. The conversion is the parameter `toIso`. The model states what happens when it yields the 24-character form, and `slice` is modelled for any length. The `RangeError` for out-of-range dates is not modelled.
- `ExpiryInstant`: epoch milliseconds are unbounded integers. JavaScript numbers are exact only up to 2^53 ms, far beyond any real clock value.
- The calendar meaning of the stamp's fields (valid months, days, hours) is not checked. The ISO predicates check only digits and separators.
- `pulumi.getProject()`, `pulumi.getStack()` and `process.env` are ambient reads and arrive as parameters.
