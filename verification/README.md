# Verification of the ACL-to-RBAC migration core

A Dafny model of the tool that turns Kafka ACL rows into role bindings on a metadata service (MDS),
applies and verifies them, and then lets the source ACLs go with a script and a rollback script.
`dafny verify dfyconfig.toml` checks all of it.

What the source does by loops and updates is a method proved against a specification function or
predicate; what the source promises is proved about that specification. Workers and processes are
state machines whose runs are sequences of interleaved steps.

| file | content |
|---|---|
| Ordering, Types, Kafka | orders and sorting; rows, patterns, bindings, plans; resource patterns as sets of names; what an operation authorises |
| Normalize, Rules, Match, Patterns, Planner | grouping and closure of operations, merge of rules, greedy cover, reconciliation with existing bindings, the planner |
| Authorizer, Translation, Reference, Outcomes | the meaning of an ACL set as decisions on requests; what a plan preserves and where rows end up; the plan specified row by row without the planner's functions, and proved to be just that; when planning succeeds |
| Deny, DenyGates | exact classification of DENY rows (module `DenyAnalysis`), the generator of removals, the gates and the live check of one removal |
| Mds, Apply, Verify, Eligibility, Migration | the store of grants and the client's view of it, the apply worker pool, both verification modes, eligibility and row selection, the pipeline end to end |
| Shell, Argv, ArgvLaws, Scripts, RoundTrip, Broker | single quoting against a lexer for the Shell Command Language (POSIX.1-2017, sections 2.2.1, 2.2.2 and 2.3), the argv parser and expander and what they compute field by field, the script writers, their round trips and their effect on a broker |
| RuntimeEnv, Lockfile, Retry | the runtime.env file (module `RuntimeEnvFile`), the run-directory lock, the retry arithmetic |

## Meanings used

- A request names a principal, a host, a concrete operation, a resource type and a resource name. A
  set of rows authorises it iff some Allow row matches and no DENY row matches; an Allow grants what
  its operation implies (`Kafka.KafkaGrants`), a DENY of `All` denies everything, and denial does not
  follow implication.
- Rows form a group when they differ in nothing but id and operation (`Reference.SameGroup`). A group
  calls for a role when a rule with that role is the first fitting one to account for an operation the
  group authorises (`Reference.CallsFor`).
- What a role grants is known only as a lower bound: the operations of the rules that name it and
  what they imply, and for a rule of `All` whatever is asked (`Translation.RolesGrantTheirRules`).
- The metadata service keeps the union of the patterns posted per principal, role and clusters. A
  listing has one binding per role the principal holds, its patterns once each in any order, and
  possibly bindings of other principals (`Mds.Listing`). Bindings listed as existing when the plan was
  made are stored when it is applied (`Migration.Applied`). A lookup reply covers the principal and the
  groups the service resolves it to (`Migration.Reply`).
- A broker is a set of ACLs without ids. A removal deletes the ACL that matches its filter exactly,
  with host `*` when no host is given. A script runs under `set -e` and any invocation may fail
  (`Broker.Machine`).
- A lock file is an inode. Create is exclusive, a body is written through the open file, a read sees
  the file at the path, a remove takes whatever is at the path or fails. Tokens are distinct.

## Where the code and its documentation differ

The model follows the code.

- README.md:741 promises that every input ACL appears in exactly one place. With existing bindings a
  group can give a binding for one role and a conflict for another (pkg/aclrbac/plan/plan.go:128-166),
  so a row can be in two places: `Outcomes.OneRowInTwoPlaces`. `Translation.PlacementIsExact` says
  exactly when, and `Translation.FreshPlanPartitions` proves the promise where nothing exists yet.
- pkg/aclrbac/delete/common/eligibility.go:19-29 promises that no ACL goes whose access is not
  confirmed. Eligibility is per pair of binding and row, and one good pair is enough. In effective
  mode, without accepted unknowns, a row that two bindings share goes when the lookup for one is
  answered and the one for the other fails in transit (`Eligibility.UnknownRowMayGo`, for every such
  plan: `Eligibility.SharedRowMayGo`). `Eligibility.BadLookupBlocks` says exactly when a bad lookup
  keeps its row back; if equal questions get equal answers the promise holds
  (`Eligibility.ConsistentPicksIff`). The coarser bindings-exist mode lets a row go although another of
  its bindings is missing (`Eligibility.MissingRowMayGo`, exactly when: `Eligibility.CheckedRowGoesIff`).
- README.md:747 describes effective verification as the check that a migrated row's access is granted
  before the row goes. A row of `All` is checked by asking for `All` itself, which role definitions do
  not list (tests/e2e/complex_pipeline_test.go:83-90), so it is reported missing and kept although its
  role grants every operation it authorises: `Migration.AllRowMayStay`. `Migration.PickedFromStoreIff`
  and `Migration.MigratedRowGoes` say exactly when such a row goes.
- pkg/aclrbac/apply/apply.go:1-6 promises that only missing bindings are created. The service
  aggregates patterns per role, so a second run may post a stored binding again
  (`Apply.RerunMayPostAgain`, exactly when: `Apply.LaterListingIff`); the store does not change
  (`Apply.RerunChangesNothing`).
- The comment at pkg/aclrbac/delete/deny/one.go:152-158 says the live check sees any live grant that
  meets the denied set. It compares operations for equality, so it misses a grant of `All` or of an
  operation that implies the denied one, and for a DENY of `All` every grant that names one operation
  (`DenyGates.LiveCheckMisses`). `DenyGates.LiveCheckIsExact` and `DenyGates.LiveCheckAndGrantsOfAll`
  say for which DENY operations it misses nothing. The static classification does expand both.
- The comment at pkg/aclrbac/delete/deny/one.go:255-258 says all bindings of a plan share one scope.
  Those of Subjects do not (`DenyGates.ScopesMayDiffer`, exactly when: `DenyGates.SharedScopeIff`), and
  the first binding decides, so a removal on a topic may be checked at the schema registry's scope
  (`DenyGates.LiveScopeMayDiffer`, exactly when: `DenyGates.LiveScopeIff`). The live check also asks for
  the row's own principal, which need not be the one it was mapped to
  (`DenyGates.LivePrincipalMayDiffer`, exactly when: `DenyGates.LivePrincipalIff`).
- `ExpandAll` widens DENY groups too; only `ExpandImplied` skips them. The classification reads the
  raw DENY row, so its exactness is unaffected.
- The reader of runtime.env scans lines of at most 64 KiB, which the writer does not enforce:
  `RuntimeEnvFile.RuntimeEnvRoundTrip` has the exact condition.
- A Subject row has no flag, so its rollback line loses its resource and reads back as no row; the
  exact condition is in `RoundTrip.AddLineRoundTrip`.
- The comment at pkg/aclrbac/rundir/lockfile.go:40-41 says a release leaves a re-taken lock to its
  owner. A release that had passed its token check before the takeover removes the new file:
  `Lockfile.EarlierReleaseMayRemoveNewFile`; exactly when: `Lockfile.TakeoverIsThreatenedIff`,
  `Lockfile.FileAfterCheck`.
- The comment at pkg/aclrbac/rundir/lockfile.go:66-69 says the exclusive create serialises callers. It
  does without force (`Lockfile.MutualExclusion`); two forced acquires can be in the lock together
  (`Lockfile.ForcedAcquiresMayShare`, exactly when: `Lockfile.SharedIff`).

## Model

| member | source | states |
|---|---|---|
| Normalize.KeyLessIsOrder | pkg/aclrbac/normalize/group.go:78-101 | The sort's comparison is a strict total order on the full six-field key, so there is only one sorted list of groups |
| Normalize.GroupRows | pkg/aclrbac/normalize/group.go:36-103 | Grouping through a map walked in any order returns the one sorted list of groups, each with the rows' operations and sorted ids |
| Normalize.GroupsInOrder | pkg/aclrbac/normalize/group.go:75-101 | Groups come in alphabetic order of principal, then resource type, name, pattern type, permission and host, and the ids of each ascend |
| Normalize.GroupsMembers | pkg/aclrbac/normalize/group.go:36-77 | One group per key that occurs, none twice, none missing |
| Normalize.RowInItsGroup | pkg/aclrbac/normalize/group.go:47-77 | Every row's id and operation are in the group of its key |
| Normalize.GroupsIgnoreOrder | pkg/aclrbac/normalize/group.go:36-103 | Permuting the rows gives the identical list of groups |
| Normalize.ExpandAll | pkg/aclrbac/normalize/expand.go:42-55 | `All` adds the operations of the resource type, on a fresh group; DENY groups included |
| Normalize.ExpandImplied | pkg/aclrbac/normalize/expand.go:94-115 | Implied operations are added to Allow groups only |
| Normalize.NormalizeRows | pkg/aclrbac/normalize/normalize.go:18-22 | Grouping and both expansions, in sequence |
| Normalize.ClosureInOnePass | pkg/aclrbac/normalize/expand.go:12-115 | One pass gives the least set that contains the rows' operations and is closed under `All` and implication; a second pass changes nothing |
| Normalize.NormalizedIsWhatRowsGrant | pkg/aclrbac/normalize/expand.go:12-115 | An operation is in the normalised Allow group iff some row of the group authorises it |
| Normalize.TablesAreKafkas | pkg/aclrbac/normalize/expand.go:12-82 | The program's two tables, per resource type and per implying operation, say what Kafka's rules say per operation: which types support it and what implies it |
| Match.ComputeCoveredOps | pkg/aclrbac/plan/match.go:49-64 | The operations a rule accounts for in a group |
| Match.FindCoveringRules | pkg/aclrbac/plan/match.go:84-121 | The loop with deletions from `remaining` computes the greedy cover |
| Match.CoverLosesNothing | pkg/aclrbac/plan/match.go:66-121 | The selection keeps priority order, each rule covers something new, and together they cover as much as all matching rules do |
| Match.CoverPicksFirst | pkg/aclrbac/plan/match.go:66-121 | A rule is selected iff it is the first matching one to cover some needed operation |
| Reference.FitsIff | pkg/aclrbac/plan/match.go:14-42 | A rule matches a row's group iff its resource type and permission are the row's and, in mode all, every operation it lists is authorised by some row of the group, in mode any, at least one is |
| Match.SelectedRulesMatch | pkg/aclrbac/plan/match.go:84-121 | Only matching rules of the list are selected |
| Match.EmptyIffNoMatch | pkg/aclrbac/plan/match.go:84-121 | With valid rules and a concrete operation to cover, nothing is selected iff nothing matches |
| Match.NormalizedHasConcrete | pkg/aclrbac/normalize/expand.go:12-55 | Every normalised group has a concrete operation, so the previous row applies to all groups the planner sees |
| Match.BareAllSelectsNothing | pkg/aclrbac/plan/match.go:84-121 | Without normalisation the equivalence fails: a bare `All` group matches a rule and selects none |
| Patterns.PatternsEqualBySorting | pkg/aclrbac/plan/existing.go:53-79 | The sorting comparison decides multiset equality |
| Patterns.PatternsEqualByCounting | pkg/aclrbac/apply/apply.go:239-254 | The counting comparison decides multiset equality |
| Patterns.PatternsSubset | pkg/aclrbac/verify/bindings_exist.go:104-119 | The containment test decides multiset inclusion |
| Patterns.ComparisonsAgree | pkg/aclrbac/verify/bindings_exist.go:99-119 | Equality implies containment, and at equal lengths the three comparisons coincide |
| Patterns.ClassifyAgainstExisting | pkg/aclrbac/plan/existing.go:23-49 | The class of a proposed binding, and the existing binding it is reported against |
| Reference.ClassIff | pkg/aclrbac/plan/existing.go:23-51 | The class is equivalent iff some existing binding has the principal, role, scope and multiset of patterns, and a conflict iff some has the first three and none has the patterns |
| Patterns.ClassIgnoresInventoryOrder | pkg/aclrbac/plan/existing.go:23-49 | The class does not depend on the order of the inventory |
| Planner.ComputeUncoveredOps | pkg/aclrbac/plan/plan.go:211-229 | The operations of a group no selected rule covers; the `All` marker is not reported |
| Planner.EmitRole | pkg/aclrbac/plan/plan.go:128-166 | One role of a group: bound, bound as already existing, or left unmapped with a conflict |
| Planner.EmitRoles | pkg/aclrbac/plan/plan.go:117-167 | One contribution per distinct role, in selection order |
| Planner.PlanGroup | pkg/aclrbac/plan/plan.go:57-167 | One turn of the planner's loop: rejected, host-restricted, unmapped, error or bound |
| Planner.Run | pkg/aclrbac/plan/plan.go:38-172 | The whole plan is the collected contribution of the sorted groups plus the DENY analysis; the first error ends it |
| Reference.BindingsExactly | pkg/aclrbac/plan/plan.go:57-167 | A binding is in the plan iff some host-free Allow row calls for its role, that is, some rule with the role fits the row's group and is the first fitting one to account for an operation the group authorises; its principal, scope, pattern, id and ascending source ids are those of the group; and no existing binding conflicts. It is SKIP_EXISTS iff an existing binding has its principal, role, scope and patterns |
| Reference.UnmappedExactly | pkg/aclrbac/plan/plan.go:57-166 | An entry is unmapped iff it has the ids of some Allow row's group and its reason holds: a host other than `*`, no role called for, or a role called for under which an existing binding has other patterns and none has these |
| Reference.CallsForSomeIff | pkg/aclrbac/plan/match.go:11-121 | With valid rules an Allow row's group calls for some role, so it is not NO_RULE_MATCH, iff some rule fits it |
| Reference.RejectedExactly | pkg/aclrbac/plan/plan.go:57-67 | The rejected entries are exactly the groups of the DENY rows |
| Reference.WarningsExactly | pkg/aclrbac/plan/plan.go:57-166 | Each of the five warnings is given iff some Allow row's group calls for it: host restriction, a name that passes through and looks like a certificate, a lone Create on the cluster without a topic prefix, exactly the operations no fitting rule accounts for, a conflict |
| Reference.BindingsInOrder | pkg/aclrbac/plan/plan.go:57-167 | The bindings come in the order of their rows' groups, and those of one group have different roles |
| Outcomes.PlanSucceedsIff | pkg/aclrbac/plan/plan.go:57-127 | Planning succeeds iff each host-free Allow row's principal is mapped or may pass and, where some rule fits its group, the cluster for its kind of resource is given |
| Outcomes.PlanErrorIsExplained | pkg/aclrbac/plan/plan.go:81-127 | A plan that fails names the principal of a row that is not mapped under fallback fail, or the resource type of a row for which a role is called for and no cluster is given |
| Translation.TranslationPreservesMeaning | pkg/aclrbac/plan/plan.go:57-167 | Every request an Allow row with host `*` authorises is granted by a binding of the mapped principal on exactly the row's pattern, or its operation is warned about as uncovered, or the row is unmapped for want of a rule or because of a conflicting role that would grant it |
| Translation.BindingOrigin | pkg/aclrbac/plan/plan.go:128-166 | Every binding comes from one Allow group with host `*`: its principal, scope, pattern, sources and a selected rule's role |
| Translation.BindingsNeverWiden | pkg/aclrbac/plan/plan.go:128-166 | No binding carries a pattern or principal other than that of its source rows, all of them Allow rows with host `*` |
| Translation.NoRowIsLost | pkg/aclrbac/plan/plan.go:57-167 | Every input id is in bindings, unmapped or rejected; DENY ids in rejected; host-restricted Allow ids in unmapped |
| Translation.PlacementIsExact | pkg/aclrbac/plan/plan.go:57-167 | Rejected iff DENY, and then nowhere else; a host-restricted row is never bound; bound and unmapped at once iff its group is split by existing bindings |
| Translation.SplitIsBoth | pkg/aclrbac/plan/plan.go:128-166 | A group with one blocked and one free role has all its ids in both places |
| Translation.FreshPlanPartitions | README.md:741 | With no existing bindings the three places partition the ids |
| Translation.FreshRowIsBound | pkg/aclrbac/plan/plan.go:57-167 | With no existing bindings a row is bound iff it is an Allow row for every host and some rule is selected for its group |
| Outcomes.OneRowInTwoPlaces | README.md:741 | With existing bindings 'exactly one place' is false: a concrete plan that binds and leaves unmapped the same row |
| Translation.PlanIgnoresRowOrder | pkg/aclrbac/plan/plan.go:38-172 | Permuting the rows leaves bindings, unmapped, rejected and warnings identical and every DENY status unchanged |
| Rules.KeyIsCanonical | pkg/aclrbac/config/rules.go:146-153 | Two plain rules share a key iff they list the same operations in any order and agree on mode, resource type and permission |
| Rules.IndexDefaults | pkg/aclrbac/config/rules.go:125-131 | The index holds, for each key, the last default with it |
| Rules.MergeRules | pkg/aclrbac/config/rules.go:125-144 | The two loops compute the merged list |
| Rules.MergeKeepsDefaults | pkg/aclrbac/config/rules.go:125-144 | Every default keeps its position and key; a rule no override names is unchanged |
| Rules.LastOverrideWins | pkg/aclrbac/config/rules.go:132-142 | The last override of a key is what the merged list holds for it |
| Rules.AppendedAreNew | pkg/aclrbac/config/rules.go:132-142 | What is appended has keys no default has, each once |
| Rules.AppendedInOrder | pkg/aclrbac/config/rules.go:132-142 | Every override key that no default has is appended, in the order of first occurrence among the overrides |
| Rules.NoOverrides | pkg/aclrbac/config/rules.go:125-144 | An empty override list changes nothing |
| Rules.MergeIsIdempotent | pkg/aclrbac/config/rules.go:125-144 | Merging the same overrides again changes nothing |
| Types.OverlapIsIntersection | pkg/aclrbac/types/pattern_overlap.go:25-47 | For LITERAL and PREFIXED patterns the test holds iff the two sets of names intersect |
| Types.UnknownPatternOverlaps | pkg/aclrbac/types/pattern_overlap.go:10-47 | An unknown pattern type overlaps everything |
| DenyAnalysis.BuildAllowIndex | pkg/aclrbac/plan/deny.go:58-78 | The index holds exactly the concrete operations of the Allow groups, in whatever order |
| DenyAnalysis.Scan | pkg/aclrbac/plan/deny.go:126-152 | The status depends on whether some entry exposes the row, not on the order of entries |
| DenyAnalysis.AnalyzeDenies | pkg/aclrbac/plan/deny.go:26-42 | One entry per DENY row, in row order |
| DenyAnalysis.PrincipalTestIsExact | pkg/aclrbac/plan/deny.go:80-98 | The suffix and prefix test decides whether an ACL principal covers a principal as the authorizer means it |
| DenyAnalysis.ClassificationIsExact | pkg/aclrbac/plan/deny.go:111-153 | UNKNOWN iff the principal is a wildcard, and otherwise WOULD_GRANT_ACCESS iff an Allow row grants some operation and name that the DENY matches |
| DenyAnalysis.SafeRemovalChangesNothing | pkg/aclrbac/plan/deny.go:26-153 | Removing any set of SAFE_TO_REMOVE rows leaves every authorisation decision, hosts included, as it was |
| DenyAnalysis.SafeRunChangesNothing | pkg/aclrbac/plan/deny.go:26-153 | The same after each step of removals in any order |
| DenyAnalysis.UnsafeRemovalChangesSomething | pkg/aclrbac/plan/deny.go:111-153 | The classification is not needlessly strict: for a sole DENY over host-free Allows, removal changes a decision iff the row is WOULD_GRANT_ACCESS |
| DenyGates.PickEligibleDeny | pkg/aclrbac/delete/deny/deny.go:163-203 | The selected rows, in inventory order |
| DenyGates.RemovableConcat | pkg/aclrbac/delete/deny/deny.go:163-203 | What is picked of a list is what is picked of its parts in turn, so inventory order is kept |
| DenyGates.RunOne | pkg/aclrbac/delete/deny/one.go:31-214 | Refused iff a gate fails, naming the first that does (runtime.env, token, plan hash, verify hash, ACL file, row, DENY, wildcard, plan file, ACL hash, rejected, analysis, status, MDS token, client); otherwise the outcome of the live check, and of the removal only when the check sees no grant |
| DenyGates.AnalysisReadsBack | pkg/aclrbac/delete/deny/one.go:266-273 | The first-wins scan of the gate and the last-wins map of the generator both find the planner's status |
| DenyGates.GeneratorPicksTheSafeOnes | pkg/aclrbac/delete/deny/deny.go:163-203 | For a plan of the same rows, exactly the SAFE_TO_REMOVE DENY rows of the listed principals are selected |
| DenyGates.GatesPassTheSafeOnes | pkg/aclrbac/delete/deny/one.go:67-118 | The gates let an id through iff it is that of a SAFE_TO_REMOVE DENY row, and the id finds that row |
| DenyGates.GeneratorAgreesWithGates | pkg/aclrbac/delete/deny/one.go:67-118 | What the generator emits no gate refuses, and the other way round for listed principals |
| DenyGates.SafeRemovalAfterOthers | pkg/aclrbac/plan/deny.go:111-153 | SAFE_TO_REMOVE stays safe after any other rows, such as migrated Allow rows, are gone |
| DenyGates.GeneratedRemovalsChangeNothing | pkg/aclrbac/delete/deny/deny.go:163-203 | Any part of the emitted removals, in any order, changes no decision |
| DenyGates.LiveCheckSeesIff | pkg/aclrbac/delete/deny/one.go:152-173 | Of the live grants that share an operation and a name with the denied set, the check sees exactly those that name the DENY's very operation |
| DenyGates.LiveCheckIsExact | pkg/aclrbac/delete/deny/one.go:152-173 | For all grants that name single operations the check finds everything that touches the denied set iff the DENY's operation is not `All`, Describe or DescribeConfigs, the ones another operation stands for |
| DenyGates.LiveCheckAndGrantsOfAll | pkg/aclrbac/mds/api.go:225-250 | With grants of `All` too, iff moreover the operation is not one that `All` grants on the resource type |
| DenyGates.LiveCheckMisses | pkg/aclrbac/delete/deny/one.go:152-173 | Three concrete grants the check misses: `All` against a DENY of Read, Write against Describe, Read against `All` |
| DenyGates.LiveScopeIff | pkg/aclrbac/delete/deny/one.go:253-264 | The check asks at the scope of the row's resource type iff the plan's first binding is for a Subject just when the row is; without bindings it asks at the empty scope |
| DenyGates.SharedScopeIff | pkg/aclrbac/plan/scope.go:32-45 | Two bindings of a plan share their scope iff both are for Subjects or neither is |
| DenyGates.ScopesMayDiffer | pkg/aclrbac/delete/deny/one.go:255-258 | A concrete plan with two bindings of different scopes |
| DenyGates.LiveScopeMayDiffer | pkg/aclrbac/delete/deny/one.go:255-264 | A concrete plan, with an Allow on a Subject and a SAFE_TO_REMOVE DENY on a topic, whose removal is checked at the schema registry's scope |
| DenyGates.LivePrincipalIff | pkg/aclrbac/delete/deny/one.go:159 | The check asks about the principal that the row's Allow rows were bound to iff the configuration maps the row's principal to itself |
| DenyGates.LivePrincipalMayDiffer | pkg/aclrbac/delete/deny/one.go:159 | A concrete plan in which a SAFE_TO_REMOVE DENY is checked for a principal other than the bound one |
| DenyGates.DenyDeleteThenRollbackOfPicked | pkg/aclrbac/delete/deny/rollback.go:43-83 | When the picked DENY rows have argument lists, their removals take exactly their ACLs, hosts included, or those before the first that fails, and the rollback script puts them back |
| Shell.UnescapeEscape | pkg/aclrbac/emit/shell/quote.go:18-23 | Undoing the quote escape gives back the text |
| Shell.LexQuote | pkg/aclrbac/emit/shell/quote.go:18-23 | In any position outside quotes the shell reads a quoted text as exactly that text (Shell Command Language sections 2.2.1 and 2.2.2) |
| Shell.LexCommand | pkg/aclrbac/emit/shell/quote.go:18-23 | A command of quoted arguments lexes to one word per argument |
| Argv.NormalizeOpRoundTrip | pkg/aclrbac/extract/script/argv.go:250-276 | Every operation's own text parses back to it, `ClusterAction` included, which the table does not list |
| Argv.ParseInvocation | pkg/aclrbac/extract/script/argv.go:40-142 | The index-driven loop computes the parse, including the error of a flag without its value; what the parse is, the next four rows say |
| ArgvLaws.ParsesBack | pkg/aclrbac/extract/script/argv.go:40-142 | Writing each field of an invocation as its flag and value and parsing the list gives the invocation back, for any principals, hosts, operations, resources and switches, and leaves the rest of the list to be parsed from there |
| ArgvLaws.ParsedIffConsistent | pkg/aclrbac/extract/script/argv.go:40-142 | The parser's results are exactly the invocations that can be written so: the group and transactional id are the last ones named, resources have flags, the pattern type is in upper case |
| ArgvLaws.LastWord | pkg/aclrbac/extract/script/argv.go:40-142 | After any invocation, one of the ten value flags alone is an error that names it, a connection flag swallows what follows, and any text that is no flag is passed over |
| ArgvLaws.OperationTexts | pkg/aclrbac/extract/script/argv.go:250-276 | A text names an operation iff it is one of its spellings in any case or its exact name; any other text is kept |
| Argv.Expand | pkg/aclrbac/extract/script/argv.go:148-248 | Grantees times matrix, numbered consecutively |
| ArgvLaws.ExpandedMembers | pkg/aclrbac/extract/script/argv.go:148-248 | A row is produced iff the action is `--add`, its permission, principal and host come from the matching lists (host `*` iff none is given), its pattern type is the invocation's and its operation and resource are listed or stand in the producer or consumer shortcut; ids are consecutive |
| Scripts.QuoteArgs | pkg/aclrbac/delete/acls/rollback.go:78-91 | All arguments but the binary are quoted and joined by blanks |
| Scripts.WriteAdd | pkg/aclrbac/delete/acls/rollback.go:54-92 | Appends exactly the row's rollback line |
| Scripts.WriteRollback | pkg/aclrbac/delete/acls/rollback.go:43-45 | Appends one rollback line per row, in order |
| Scripts.WriteRemove | pkg/aclrbac/delete/acls/script.go:66-111 | Appends exactly the row's removal line with its logging |
| Scripts.WriteScript | pkg/aclrbac/delete/acls/script.go:53-55 | Appends one removal line per row, in order |
| Scripts.WriteDenyAdd | pkg/aclrbac/delete/deny/rollback.go:43-83 | Appends exactly the DENY row's rollback line, host included |
| Scripts.WriteDenyRollback | pkg/aclrbac/delete/deny/rollback.go:43-83 | Appends one line per DENY row, in order |
| RoundTrip.ParseAdd | pkg/aclrbac/delete/acls/rollback.go:54-75 | The rollback argv parses to the row's fields |
| RoundTrip.ParseRemove | pkg/aclrbac/delete/acls/script.go:66-90 | The removal argv parses to the same fields, so it names the same ACL |
| RoundTrip.ParseDenyAdd | pkg/aclrbac/delete/deny/rollback.go:43-68 | The DENY rollback argv parses to the row's fields, host included |
| RoundTrip.ParseDenyRemove | pkg/aclrbac/delete/deny/one.go:175-204 | The DENY removal argv parses to the row's fields, host included |
| RoundTrip.AddLineRoundTrip | pkg/aclrbac/delete/acls/rollback.go:54-92 | Lexing, parsing and expanding a rollback line gives back exactly its row iff it is an Allow row for every host on a resource that has a flag |
| RoundTrip.DenyAddLineRoundTrip | pkg/aclrbac/delete/deny/rollback.go:43-83 | The same for a DENY row of any host |
| Broker.RollbackScriptRoundTrip | pkg/aclrbac/delete/acls/rollback.go:19-92 | A whole rollback script reads back as exactly its rows, in order |
| Broker.DenyRollbackScriptRoundTrip | pkg/aclrbac/delete/deny/rollback.go:19-83 | A whole DENY rollback script reads back as exactly its rows, in order |
| Broker.DeleteThenRollback | pkg/aclrbac/delete/acls/script.go:66-111 | Whichever removal is the first to fail, the script takes exactly the ACLs of the rows before it from any broker, all of them when none fails; the rollback script then restores any broker that held them |
| Broker.DenyDeleteThenRollback | pkg/aclrbac/delete/deny/rollback.go:43-83 | The same for DENY removals and their rollback script |
| Broker.InterruptedRollback | pkg/aclrbac/delete/acls/rollback.go:43-92 | A rollback that stops at a failing line can be run again and then restores the broker |
| Mds.MatchedIff | pkg/aclrbac/verify/bindings_exist.go:62-97 | Against an aggregating service, a binding is found iff it repeats no pattern and the service stores all of them |
| Mds.AlreadyHasIff | pkg/aclrbac/apply/apply.go:224-237 | Against an aggregating service, apply skips a binding iff its patterns, none repeated, are exactly what the service stores for the role |
| Mds.AlreadyHasImpliesMatched | pkg/aclrbac/verify/bindings_exist.go:62-97 | What apply finds present, verification finds too |
| Mds.Client.FetchRoleOps | pkg/aclrbac/mds/api.go:138-176 | With or without the memo the answer is the service's, and the memo only grows |
| Mds.Client.FetchPrincipalGrants | pkg/aclrbac/mds/api.go:99-134 | The expansion gives exactly patterns times role operations, and fails iff a role cannot be fetched |
| Mds.AllowedMeansContained | pkg/aclrbac/mds/api.go:192-223 | An allowed lookup means some grant holds the operation on every name of the queried set, and the overlap test agrees |
| Mds.LookupAllowedIff | pkg/aclrbac/mds/api.go:192-223 | A PREFIXED lookup is allowed iff some PREFIXED grant of the operation and resource type contains every name of the queried set, any other iff some grant of the same pattern type has the same name |
| Mds.OverlapTestIsExact | pkg/aclrbac/mds/api.go:233-250 | The overlap test holds iff some grant of the operation shares a name with the pattern |
| Apply.FindEqual | pkg/aclrbac/apply/apply.go:224-237 | The scan decides whether some listed binding has the same role, scope and patterns |
| Apply.InvAlways | pkg/aclrbac/apply/apply.go:65-143 | In every interleaving: dispatch position, slots, error count, results and store stay consistent |
| Apply.InFlightBounded | pkg/aclrbac/apply/apply.go:56-62 | Never more workers in flight than the clamped limit, which is at most 64 |
| Apply.ErrorSendNeverBlocks | pkg/aclrbac/apply/apply.go:70 | Whenever a worker is about to send an error the channel has room |
| Apply.ExactlyOneResult | pkg/aclrbac/apply/apply.go:79-84 | When a run is finished every binding has exactly one result |
| Apply.ResultsAreTruthful | pkg/aclrbac/apply/apply.go:79-143 | A result says what happened: created after a listing that did not show the binding and a create that worked, skipped because the plan or a listing had it, failed because the listing or the create failed |
| Apply.FinalStore | pkg/aclrbac/apply/apply.go:86-143 | A finished run without failures leaves what was stored plus everything the plan wants |
| Apply.Confluence | pkg/aclrbac/apply/apply.go:86-143 | Two such runs from the same store end in the same store, whatever their schedules and limits |
| Apply.RerunChangesNothing | pkg/aclrbac/apply/apply.go:1-6 | No step of a later run over the same plan changes that store |
| Apply.LaterListingIff | pkg/aclrbac/apply/apply.go:99-118 | After a failure-free run a listing makes apply skip a CREATE binding iff it repeats no pattern and every pattern stored before or wanted by the plan at its principal, role and clusters is one of its own |
| Apply.RerunMayPostAgain | pkg/aclrbac/apply/apply.go:1-6 | A concrete plan of two bindings of one role whose second run is about to post the first again although it is stored |
| Apply.AppliedIsMatched | pkg/aclrbac/verify/bindings_exist.go:72-93 | After such a run verification finds a CREATE binding iff it repeats no pattern |
| Apply.RunsAreFinite | pkg/aclrbac/apply/apply.go:86-143 | Every step brings the run nearer its end; at most six steps per binding |
| Apply.NeverStuck | pkg/aclrbac/apply/apply.go:86-143 | An unfinished run can always take a step, even if nothing ever fails |
| Apply.CleanRunExists | pkg/aclrbac/apply/apply.go:86-143 | From every store some run finishes without failures |
| Verify.ClampParallelism | pkg/aclrbac/verify/verify.go:198-217 | The worker limit is between 1 and 64, and a request in that range is kept |
| Verify.FindMatching | pkg/aclrbac/verify/bindings_exist.go:62-97 | The scan decides whether some listed binding of the role and scope contains the patterns |
| Verify.VerifyBindingsExist | pkg/aclrbac/verify/bindings_exist.go:23-60 | Slot i is binding i's verdict whatever order the workers finish in; a failed listing is UNKNOWN, not missing |
| Verify.ExistsVerdictMeans | pkg/aclrbac/verify/bindings_exist.go:23-119 | A verdict is for its binding as a whole: unknown iff the listing failed, and otherwise found iff some listed binding of its principal, role and scope contains its patterns as a multiset |
| Verify.FlattenTasks | pkg/aclrbac/verify/effective.go:51-56 | The flat task list, binding by binding |
| Verify.TasksAreThePairs | pkg/aclrbac/verify/effective.go:51-56 | The tasks are exactly the pairs of a binding and one of its source rows |
| Verify.ReadSources | pkg/aclrbac/cli/cmd_pipeline.go:533-542 | Operation and resource by row id |
| Verify.VerifyEffective | pkg/aclrbac/verify/effective.go:31-102 | Slot i is task i's verdict whatever order the workers finish in, with unknowns accepted afterwards if asked |
| Verify.EffectiveVerdictMeans | pkg/aclrbac/verify/effective.go:85-102 | A verdict is for its binding and row: good iff the service granted the row's own operation on a pattern that includes the row's, or could not be asked and unknowns are accepted; missing iff it was asked and did not |
| Verify.StrayVerdictMeans | pkg/aclrbac/verify/effective.go:85-102 | A task whose row is not in the inventory is unknown, and good only if unknowns are accepted |
| Eligibility.EligibleACLs | pkg/aclrbac/delete/common/eligibility.go:37-105 | The fold over verdicts and the walk over bindings compute the eligible ids, in plan order |
| Eligibility.EligibleIdsMembers | pkg/aclrbac/delete/common/eligibility.go:83-103 | An id is eligible iff some listed binding carries it and the verdicts of that pair, or failing those of the whole binding, are all acceptable |
| Eligibility.EligibleIdsConcat | pkg/aclrbac/delete/common/eligibility.go:83-103 | The eligible ids of a list of bindings are those of its parts in turn, so plan order is kept |
| Eligibility.EligibleIgnoresVerdictOrder | pkg/aclrbac/delete/common/eligibility.go:45-75 | Permuting the verdicts changes nothing |
| Eligibility.BadLookupBlocks | pkg/aclrbac/delete/common/eligibility.go:49-75 | A lookup that was not confirmed keeps its row back iff no other listed binding has all its lookups for the row confirmed |
| Eligibility.SharedRowMayGo | pkg/aclrbac/delete/common/eligibility.go:19-29 | In effective mode without accepted unknowns: for every plan that binds a row twice under different ids there are answers for which the row goes although one of its lookups is EFFECTIVE_UNKNOWN |
| Eligibility.UnknownRowMayGo | pkg/aclrbac/delete/common/eligibility.go:19-29 | A concrete plan in which that happens |
| Eligibility.ConsistentPicksIff | pkg/aclrbac/delete/common/eligibility.go:19-29 | If equal questions got equal answers, a row goes iff a listed binding with an id carries it and every lookup for it, under whichever binding, was confirmed |
| Eligibility.CheckedRowGoesIff | pkg/aclrbac/delete/common/eligibility.go:31-36 | In bindings-exist mode a row goes iff some listed binding with an id carries it and every binding with that id is stored in full |
| Eligibility.MissingRowMayGo | pkg/aclrbac/delete/common/eligibility.go:31-36 | A concrete plan and store where a row of two bindings goes although one of them is missing |
| Eligibility.ExistsModeEligibleIff | pkg/aclrbac/delete/common/eligibility.go:31-36 | In bindings-exist mode a pair is eligible iff every binding with that id was listed with all its patterns |
| Eligibility.PickRows | pkg/aclrbac/delete/acls/acls.go:119-131 | The rows with the ids, in inventory order |
| Eligibility.RowsWithConcat | pkg/aclrbac/delete/acls/acls.go:119-131 | What is picked of a list is what is picked of its parts in turn, so inventory order is kept |
| Eligibility.PickedIff | pkg/aclrbac/delete/common/eligibility.go:83-103 | A row is picked iff some listed binding with an id carries it and every lookup for that pair was confirmed |
| Eligibility.DeletionIsConfirmed | pkg/aclrbac/delete/acls/acls.go:78-87 | Every picked row is an Allow row for every host whose own operation was allowed to the mapped principal on a set of names containing its own (unless unknowns were accepted) |
| Eligibility.DeletionKeepsAccess | pkg/aclrbac/delete/common/eligibility.go:19-29 | With no unknowns accepted, every request the inventory authorises is authorised by the rows left, or a row that went matches it and the service granted that row's operation, which authorises the requested one, on the requested name to the mapped principal |
| Eligibility.DeleteThenRollbackOfPicked | pkg/aclrbac/delete/acls/acls.go:87-104 | When the picked rows have argument lists, the generated script takes exactly their ACLs, or those before the first removal that fails, and the rollback script restores them |
| Migration.AppliedPlanExists | pkg/aclrbac/verify/bindings_exist.go:72-93 | After a failure-free apply of a plan in a world where the bindings listed as existing are stored, every one of the plan's bindings is found, the skipped ones too |
| Migration.LookupIff | pkg/aclrbac/mds/api.go:118-134 | A lookup answered from a store is allowed iff a role stored for the principal or one of its groups lists the operation itself on a pattern that includes the queried one: for PREFIXED by its names, otherwise by its name |
| Migration.PickedFromStoreIff | pkg/aclrbac/delete/common/eligibility.go:83-103 | Answered from a store, a row goes iff a listed binding with an id carries it and some stored role lists its very operation on a covering pattern |
| Migration.TranslatedIsConfirmed | pkg/aclrbac/verify/effective.go:85-102 | After a failure-free apply, if roles grant what their rules say, the lookup for a convertible row succeeds unless the plan warned about its operation or left it unmapped; for a row of `All` it succeeds iff a stored role lists `All` |
| Migration.MigratedRowGoes | pkg/aclrbac/delete/acls/acls.go:78-87 | The pipeline is complete: a bound row, neither warned about nor blocked, is picked after a truthful verification, a row of `All` iff a stored role lists `All` |
| Migration.MigrationKeepsAccess | pkg/aclrbac/plan/plan.go:57-167 | After a failure-free apply every request the inventory authorises is authorised by the rows left, or a row that went matches it and the store allows the requested operation itself, or the plan warned of it or left it unmapped |
| Migration.AllRowMayStay | tests/e2e/complex_pipeline_test.go:83-90 | A concrete plan, apply and verification in which a row of `All` is bound without a warning, its role grants every operation it authorises, and it is reported missing and kept |
| RuntimeEnvFile.WriteRuntimeEnv | pkg/aclrbac/delete/common/runtime_env.go:43-67 | Writes exactly the non-empty settings, then the flags, line by line |
| RuntimeEnvFile.ReadRuntimeEnv | pkg/aclrbac/delete/common/runtime_env.go:70-122 | The line loop computes the record, or fails on a line too long for the scanner |
| RuntimeEnvFile.FlagTextIff | pkg/aclrbac/delete/common/runtime_env.go:131-141 | A boolean setting is on iff its text is `true`, `1` or `yes` in any case, with or without spaces around it |
| RuntimeEnvFile.SplitKvAgreesWithShell | pkg/aclrbac/delete/common/runtime_env.go:143-155 | On every written line the parser's unquoting and the shell's quote removal give the same value |
| RuntimeEnvFile.RuntimeEnvRoundTrip | pkg/aclrbac/delete/common/runtime_env.go:43-122 | Reading the written file gives back the same record iff no value holds a newline and every line fits the scanner's 64 KiB buffer |
| Lockfile.ParseLock | pkg/aclrbac/rundir/lockfile.go:127-141 | The assignment loop computes the parse, later lines winning |
| Lockfile.OwnTokenRecognised | pkg/aclrbac/rundir/lockfile.go:75-79 | A process's own lock body always parses to its own token, whatever the host and command texts |
| Lockfile.BodyReadsBack | pkg/aclrbac/rundir/lockfile.go:75-79 | A body whose texts hold no newline reads back as the process id, host, command and token written |
| Lockfile.MutualExclusion | pkg/aclrbac/rundir/lockfile.go:64-125 | Without force, in every run of any number of processes, at most one is between its create and the end of its release |
| Lockfile.SharedIff | pkg/aclrbac/rundir/lockfile.go:64-125 | With force or without, two processes are in the lock iff some step has removed the file of one that still is and another has created its own since |
| Lockfile.ForcedAcquiresMayShare | pkg/aclrbac/rundir/lockfile.go:66-69 | A concrete run in which two forced acquires that inspect the same stale file are in the lock together |
| Lockfile.TakeoverIsRespected | pkg/aclrbac/rundir/lockfile.go:28-48 | A process that another's takeover finds before the end of its own token check never removes anything afterwards |
| Lockfile.TakeoverIsThreatenedIff | pkg/aclrbac/rundir/lockfile.go:28-48 | After a takeover's create, a process in the lock can still remove the file at the path iff it had already passed its token check |
| Lockfile.FileAfterCheck | pkg/aclrbac/rundir/lockfile.go:36-47 | Once a release has read its own token, the path holds its own file iff nothing was removed since, and another's iff one was created since and not removed |
| Lockfile.EarlierReleaseMayRemoveNewFile | pkg/aclrbac/rundir/lockfile.go:28-48 | A concrete run in which a release that passed its token check removes the file of the process that has taken the lock over |
| Lockfile.AtMostTwoCreates | pkg/aclrbac/rundir/lockfile.go:64-125 | An acquire makes at most two create attempts, with or without force |
| Lockfile.EveryStepEnds | pkg/aclrbac/rundir/lockfile.go:64-125 | Every step brings its process nearer its end and moves no other, so acquire always ends |
| Lockfile.NeverStuck | pkg/aclrbac/rundir/lockfile.go:28-125 | A process that has not ended can always take a step that is no error, so an acquire that finds the lock held does not wait |
| Retry.BackoffDelay | pkg/aclrbac/mds/retry.go:85-103 | For bounds under which no wraparound shows, the delay before the n-th retry lies in [0.75d, 1.25d) of d = min(base * 2^(n-1), cap), and d is positive and at most the cap; for all bounds it is some draw of the jitter on the capped shift |
| Retry.PreJitterIsCappedDoubling | pkg/aclrbac/mds/retry.go:85-97 | With base times cap below 2^63 the delay before jitter is min(base * 2^(n-1), cap), despite wraparound |
| Retry.CappedDoublingIff | pkg/aclrbac/mds/retry.go:85-97 | For any positive base and cap it is so iff base * 2^(n-1) stays below 2^63 or its low 64 bits are not strictly between 0 and the cap |
| Retry.WraparoundCanShow | pkg/aclrbac/mds/retry.go:85-97 | An overflow that shows: a third delay of 4 instead of the cap |
| Retry.JitterBand | pkg/aclrbac/mds/retry.go:98-103 | The jittered delay is in [0.75d, 1.25d) for every draw iff the largest sum fits 64 bits |
| Retry.DefaultsAreSound | pkg/aclrbac/mds/client.go:88-150 | The default tuning satisfies the bounds |
| Retry.Attempt | pkg/aclrbac/mds/client.go:261-326 | At most maxRetries + 1 sends, each but the last answered by a transient network error or by 429, 500, 502, 503 or 504 and followed by its wait; the last is not transient or the retries are used up. The i-th wait is min(hint, Retry-After cap) after a 429 with a positive hint (section 7.1.3 of RFC 7231), otherwise a jittered delay that under the sound bounds lies in [0.75d, 1.25d) of d = min(base * 2^i, cap) |
| Retry.WaitsAreBounded | pkg/aclrbac/mds/client.go:287-300 | Under the sound bounds no wait of an attempt reaches 1.25 times the cap unless it is within the Retry-After cap |
| Retry.Do | pkg/aclrbac/mds/client.go:219-230 | One such attempt, or two of which the first ended in a 401 and a token source gave a new token; a 401 after one attempt is final only when there is no token source or its refresh fails |

## Left out

- HTTP, TLS, tokens and their refresh, Kubernetes, the Kafka admin client: I/O. Replies of the service are parameters, one per lookup.
- Commands, prompts, progress, exit codes, reports, status and diff: user interface.
- YAML, JSON, JSON Schema and the full shell parser: text libraries. The model starts from rows, rules and argument lists, and lexes only quotes, backslashes, blanks and line ends; it declines scripts with any other special character.
- SHA-256, checksum files, random tokens and `BindingID`: `BindingID` is an arbitrary function of the binding's content; no theorem needs it to be injective.
- Warning, detail and `CoveringRule` texts, and the sorting of warnings and of uncovered operations for display: warnings keep their code and values in order of emission, uncovered operations are a set. `CoveringRule` depends on map order in the source.
- The generators' order of file writes, their credential and checksum checks, the required principal list and the count of unconfirmed verdicts before DENY removal: straight-line guards around the modelled selection.
- The emitters, the bash header of the scripts and its guards: string templates.
- Process liveness, stale-lock messages and the Windows rename retry: they change no step of the lock protocol.
- Lock bodies written in part: a body is absent or complete.
- The bound on concurrent verification workers: each writes only its own slot, so the model keeps only the order in which they finish.
- Case mapping and trimming beyond ASCII; a character stands for a byte.
- Resource types beyond the six the schema allows.
- Retry.PreJitterIsCappedDoubling: the bound on base times cap is sufficient, not necessary; the exact condition is in Retry.CappedDoublingIff.
- Reference.BindingsExactly: row ids are taken to be distinct, as the extractors number them; with repeated ids the sources of two groups could not be told apart. The order of roles within a group is that of their rules, by Match.CoverLosesNothing.
- Planner.Run: warnings keep their order of emission, where the source sorts them by code and text, because the texts are left out.
- DenyGates.RunOne: reading and hashing files, resolving the token and building the client are given as booleans, and a failure to write its own log is left out.
- Broker.DeleteThenRollback: rows on Subjects, on clusters not named `kafka-cluster`, or with unknown operations or pattern types have no argument list that names them, so they are outside the round trip (Allow rows with a restricted host too; `Eligibility.DeletionIsConfirmed` shows that none is ever picked).
