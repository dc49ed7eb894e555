# Verified model of the AXIAM C SDK

A Dafny model of four parts of the SDK, and proofs of what each promises over whole runs.
`dafny verify dfyconfig.toml` checks everything.

**The manifest engine** (`src/management_manifest.c`). A caller declares resources, permissions, roles,
groups, service accounts and a network namespace; `plan` reads the server and decides what differs, `apply`
writes it in five phases and stops at the first failure. `Validate`, `Cycles`, `Order`, `OrderLaws` and
`Reordering` cover what a manifest must satisfy and the order derived from it. `Planning`, `Planner`, `NetPlanning`, `NetPlanner`
and `MakePlan` are the plan, with the ownership of what it reads. `Applying` and `Network` give an apply as a
function of the call results; `Engine` and `ApplyManifest` are the loops, proved equal to it. `Reports`,
`Reported`, `Traces`, `RebindOutcomes`, `Resolving`, `Resuming`, `Growth`, `Nesting`, `NetConverging`, `Convergence`,
`PlanApplyPlan` and `LooseCap` say what every run sends and leaves behind. `Directory`, `Network` and `Wire` hold the server
these are stated against.

**The client's shared state.** `SingleFlight` is the refresh protocol as thread steps (`src/client.c`);
`Timed`, `Memo` and `Checking` are the decision memo (`src/memo.c`) and the check that consults it; `Jwks` is
the signing-key cache with its refetch cooldown (`src/jwks.c`); `Retry` is the retry loops and their events.

**The generated codec** (`scripts/gen_management.py`). `Schemas` takes a schema graph as data, cyclic or not;
`Codec` is the emitted parse and build, once for all schemas; `CodecLaws`, `CodecDefaults`, `CodecKeeps` and
`CodecAgain` are the round trip. `Reach` and `Unsendable` are the generator's worklist and fixpoint and the function emitted
from them, `ReadBack` ties that to the codec, and `Paging` is the `_all` walk.

**Paths and queries** (`src/management.c`): `UrlText`, `UrlPath`, `UrlQuery`.

## The server

Every write gets one of four answers, chosen by an arbitrary script: carried out with a body, carried out
without one, refused, or carried out but answered with an error. A theorem over all scripts is a theorem over
every combination of call results. The directory stores what it is sent, gives out fresh ids, requires a name
on a create, keeps at most one assignment per subject and role, and refuses to assign over an assignment. Role
names are taken to be unique where an apply starts (`WellFormed`); the server does not enforce it, and every
write of an apply that sees what it creates keeps it so. The network server stores what it is sent, refuses a
write with a stale version or a timeout over the cap, and shows a stored timeout clamped to the cap. Reads may
fail; they change nothing.

## Where the code does less than its documentation says

* References resolve by kind in `CONTRACT.md` section 27.6.1, and keys are unique only within a kind. The code
  looks keys up without the kind (`src/management_manifest.c:22-29` and `547-554`). `CollidingKeysMisresolve`
  is an accepted manifest whose role key resolves to a resource, and `LookupsAgreeIff` says exactly when the two
  lookups agree. Nothing is left unresolved by it (`NeverUnresolved`). The theorems about what a binding becomes
  ask that no earlier kind shares a key that a binding goes by (`KeysMeant`); any other sharing is harmless.
* The tie-break on the key is there so that a plan does not depend on the order of the declarations
  (`src/management_manifest.c:324-331`). A key shared across kinds can make it depend on it
  (`CollidingKeysReorder`). `StableIff` is the exact condition: within each kind at most one same-kind parent
  shares its key with another kind, and the depths counted with that parent and without it put every two
  declarations of the kind the same way round. `DepthsStayIff` says when the depths themselves never move, and
  `ParentBeforeChildIff` when a parent comes before its child in a given writing.
* The comment above `perform` takes a nested resource's parent to be known by the time the child is created
  (`src/management_manifest.c:1042-1047`). A key shared across kinds can put the child first, and it is then
  created at the root (`HiddenParentIsLost`). `HangsUnderParentIff` is the exact condition, and `EveryRunNests`
  says for any manifest under which id each resource is created.
* Validation lets two declarations of one kind carry one name, and a listing has one object for both. Some server
  settles both exactly when what they state is compatible (`TwinsSettleIff`); otherwise no plan is ever empty.
  The theorems over whole runs ask for names unique within a kind (`DistinctMatchNames`).
* A second plan after a successful apply is empty except where drift is out of reach of an update (a resource's
  description, which its listing never shows, and metadata text that is no JSON), where a raised cap uncovers a
  larger timeout stored in a profile that was left alone (`RaisedCapComesLoose`), and where a listing hides what
  was created. `SecondPlanIsEmptyIff` is the exact condition, in terms of the manifest, the first plan and the
  server it was made on.
* A listing is read as one page of 200 (`src/management_manifest.c:16`). An object beyond it is not seen and is
  planned to be created again (`CreatedAgainIff`). So a second plan is empty only if, for each kind the first
  plan creates something of, what the server held and what is created fit the page together: the condition
  `Room`, which `ApplyConvergesIff` shows to be exact. Kinds nothing is created of may have any number of rows,
  and `CreatedIsFoundIff` says of each object a run created, wherever the run stopped, whether it is found again.
* The report of a failed rebind stands for the state it left exactly when no call that was made was carried out
  but answered with an error (`RebindReportIsExactIff`): a lost unassign, a lost assign and a lost restore each
  leave something else than the flags say. `WhatRebindLeaves` lists all outcomes; `LostAssignLooksLikeNothing`
  is one.
* A follower of a refresh may be given the result of a `perform_refresh` that returned before the follower
  arrived (`MaySharePerformedRefresh`). It can happen exactly when some leader is waiting for the mutex with its
  result at the moment of the call (`SharesALaterOneIff`); a leader that already has the mutex back does not
  count, because the caller then finds the flag clear or another leader.
* A 2xx answer whose body does not parse is memoized as a denial nobody gave (`UnparsedBodyIsServed`). What is
  served is a decision the server gave exactly when the body of the answer served did parse
  (`ServedWasGivenIff`).
* Decoding and encoding an object twice is not the same as once when a `tenant_scope` holds only elements the
  codec cannot keep (`DecodeEncodeIsIdempotentIff`, `HollowScopeShrinks`).
* The auto-paging walk steps by the limit it asked for: against a server that caps its pages below that limit
  it loses items (`WalkIsCompleteIff`).
* A path parameter name of more than 61 bytes does not fit its placeholder buffer: the substitution is as meant
  exactly when no such name starts, in its first 62 bytes, like a name in the template
  (`SequentialIsSimultaneousIff`).

## Model

| member | source | states |
|---|---|---|
| `Validate.ValidateManifest` | src/management_manifest.c:158-303 | accepts exactly the manifests that satisfy every rule, and names a rule that is broken otherwise |
| `Validate.ViolationIsNotAccepted` | src/management_manifest.c:158-303 | each reason a refusal gives rules out acceptance by itself |
| `Validate.CheckDependencies` | src/management_manifest.c:207-237 | passes only if every dependency names a declaration and no chain of them is cyclic |
| `Validate.CheckBinding` | src/management_manifest.c:239-303 | one binding: role, resource, single use and inheritance rules, each with its own reason |
| `Validate.CheckSegments` | src/management_manifest.c:77-121 | segments complete, of a known kind, and named once by key and by natural key |
| `Validate.CheckProfiles` | src/management_manifest.c:123-159 | each profile for a declared segment, once, and with values that can be sent |
| `Validate.SegmentRulesAre` | src/management_manifest.c:77-121 | the rules for segments, written out: four texts present, one of two kinds, no filter id twice, keys and natural keys unique |
| `Validate.ProfileRulesAre` | src/management_manifest.c:123-159 | the rules for profiles, written out: a declared segment, one profile each, a termination and a service type that have names on the wire |
| `Validate.RepeatsFilterId` | src/management_manifest.c:92-104 | finds a repeated filter id exactly when there is one |
| `Cycles.Walk` | src/management_manifest.c:220-237 | the chain walk terminates and reports whether more than as many steps as declarations were taken |
| `Cycles.WalkDecidesAcyclicity` | src/management_manifest.c:220-237 | no walk is too long exactly when no declaration depends on itself, however indirectly |
| `Cycles.LongChainRepeats` | src/management_manifest.c:220-237 | a chain longer than the declarations comes back to one of them |
| `Cycles.CycleNeverEnds` | src/management_manifest.c:220-237 | a chain from a cycle never ends |
| `Order.DepthOf` | src/management_manifest.c:312-322 | the climbing loop computes the depth under same-kind parents, guard included |
| `Order.GuardNeverCuts` | src/management_manifest.c:312-322 | without a cycle, the guard of the climb never cuts a chain short |
| `Order.ChildIsDeeper` | src/management_manifest.c:312-322 | a child is one deeper than the parent its key finds |
| `Order.OrderEntities` | src/management_manifest.c:332-352 | the in-place insertion sort yields a permutation strictly sorted by kind, depth and key |
| `Order.PrecedesTotal` | src/management_manifest.c:332-352 | of two declarations with keys unique within their kind, one comes first |
| `OrderLaws.ComesIffPrecedes` | src/management_manifest.c:332-352 | one declaration comes before another exactly when its (kind, depth, key) is smaller |
| `OrderLaws.KindsComeInBlocks` | src/management_manifest.c:332-352 | resources, permissions, roles, groups, service accounts: five blocks in this order |
| `Basics.BeforeIff` | src/management_manifest.c:332-352 | one key is before another exactly when it is a start of it or has the smaller character where they first differ |
| `OrderLaws.ParentBeforeChildIff` | src/management_manifest.c:306-352 | exactly when a same-kind parent precedes its child, keys shared across kinds included |
| `Reordering.OrderIsStable` | src/management_manifest.c:332-352 | a steady manifest comes out in one sequence however its declarations are ordered |
| `Reordering.StableIff` | src/management_manifest.c:312-352 | every reordering of the declarations gives the same sequence exactly when the manifest is steady: at most one parent of a kind is unclear, and its children keep their places with it and without it |
| `Reordering.SequencesAgreeIff` | src/management_manifest.c:332-352 | two writings come out in one sequence exactly when they order every two declarations alike |
| `Reordering.DepthsStayIff` | src/management_manifest.c:312-322 | every declaration has one depth in all writings exactly when no same-kind parent shares its key with another kind |
| `Reordering.CollidingKeysReorder` | src/management_manifest.c:312-352 | a key shared across kinds makes parent and child trade places when the declarations do |
| `Planner.FindChecked` | src/management_manifest.c:398-411 | the first match, and whether a second one exists |
| `Planner.DecideEntity` | src/management_manifest.c:636-674 | the decision for one declaration from one listing, an ambiguous account name included |
| `Planner.PlanEntities` | src/management_manifest.c:621-676 | one decision per declaration, in order, each from the listing of its kind; one read per kind at most |
| `Planner.PlanSubject` | src/management_manifest.c:706-783 | one role list read for a subject that exists, every binding of it decided on what was read |
| `Planner.PlanBindingsOfKind` | src/management_manifest.c:702-784 | the bindings of one subject kind in declaration order, equal to the plan computed on the directory |
| `Planner.PlanOne` | src/management_manifest.c:723-780 | one binding decided against the subject's roles as read |
| `NetPlanner.OrderSegments` | src/management_manifest.c:866-877 | the in-place insertion sort yields the segment specs in strict key order |
| `NetPlanner.SearchIsFindSegment` | src/management_manifest.c:953-965 | segments taken earlier never hide the one a spec stands for |
| `NetPlanner.SearchIsProfileAt` | src/management_manifest.c:979-990 | profiles taken earlier never hide the one of a segment |
| `NetPlanner.TakeSegments` | src/management_manifest.c:950-975 | one item per segment spec in key order, each matched read taken from its page once |
| `NetPlanner.TakeProfiles` | src/management_manifest.c:977-1023 | one item per declared profile; each owns its profile and borrows its segment; a refusal keeps the account |
| `NetPlanner.PlanNetwork` | src/management_manifest.c:898-1029 | on every path each read segment and profile is freed exactly once, and a plan returned is the one computed on the server, whose every action `PolicyAndSegmentActions` and `ProfileActions` decide by what a write would change |
| `NetPlanner.TakingMovesOwnership` | src/management_manifest.c:508-531 | clearing a page slot moves exactly that object from the page to its taker |
| `NetPlanner.NoneRefusedListed` | src/management_manifest.c:1001-1023 | planning is refused exactly when some listed update would write a default over an unknown value |
| `NetPlanning.NetworkItemsAreListed` | src/management_manifest.c:898-1029 | each segment and profile once, the policy first, every profile after its segment |
| `NetPlanning.ProfileIsPlanned` | src/management_manifest.c:977-1000 | every declared profile of an ordered segment has its item |
| `NetPlanning.PolicyAndSegmentActions` | src/management_manifest.c:911-975 | the policy needs nothing exactly at the declared cap; a segment is created exactly when none has its site, kind and name, and otherwise needs nothing exactly when writing the spec over the first that has would leave it as it is |
| `NetPlanning.ProfileActions` | src/management_manifest.c:977-1023 | a profile is created exactly when none is stored for the segment, and otherwise needs nothing exactly when storing the spec would leave it as it is read |
| `MakePlan.Make` | src/management_manifest.c:592-805 | a plan sends nothing; an invalid manifest is refused before any read; every other outcome is named and true |
| `MakePlan.PlanBindings` | src/management_manifest.c:678-784 | group bindings then account bindings, as computed on the directory |
| `Tracking.BindingsAreListed` | src/management_manifest.c:678-784 | the bindings planned are exactly those declared, each once: of groups before those of service accounts, by declaration, by its own list |
| `Settling.DecisionIs` | src/management_manifest.c:636-674 | what a decision says: undecidable exactly for an account with its name twice on the page, create exactly when the name is on no row of it, otherwise the first row with it, unchanged exactly when an update would leave it as it is and nothing declared is beyond one |
| `Settling.DriftIsWhatUpdateChanges` | src/management_manifest.c:575-674 | an update writes only what is declared and can be sent; an object under the declared name counts as drifted exactly when an update would change it, or when its drift is beyond one |
| `Settling.CreateSettles` | src/management_manifest.c:1052-1177 | a created object is found again, and needs nothing unless its drift is beyond an update |
| `Settling.UpdateSettles` | src/management_manifest.c:1052-1177 | an updated object needs nothing unless its drift is beyond an update |
| `Settling.CreateLeavesOthers` | src/management_manifest.c:1052-1177 | a create leaves every other declaration's decision alone |
| `Settling.UpdateLeavesOthers` | src/management_manifest.c:1052-1177 | an update leaves every other declaration's decision alone |
| `Settling.TwinsSettleIff` | src/management_manifest.c:497-504 | some server settles two declarations of one kind under one name exactly when what they state is compatible |
| `Settling.CreatedAgainIff` | src/management_manifest.c:430-497 | an object on the server is planned to be created again exactly when the first of its name is beyond the page a listing shows |
| `Rebinding.PlanBindingIsNow` | src/management_manifest.c:723-780 | when no earlier kind shares a key a binding goes by, a planned binding depends on the server's ids alone |
| `Rebinding.FindsOwnChange` | src/management_manifest.c:547-554 | the plan's lookup of a declaration's key finds its own change when no earlier kind shares the key |
| `Rebinding.SettledIffHeld` | src/management_manifest.c:733-778 | a binding needs nothing exactly when the server holds what is declared, at the resolved resource |
| `Rebinding.HeldWriteLeavesBindings` | src/management_manifest.c:1197-1270 | writing one assignment leaves every other declared binding's decision alone |
| `Engine.Perform` | src/management_manifest.c:1052-1177 | one entity write: body, id written back, one-time secret, as one step of the run; what its bodies leave on the server is `EveryRunNests` and `DriftIsWhatUpdateChanges` |
| `Engine.SendBinding` | src/management_manifest.c:1215-1270 | assign, or unassign, assign and restore, with the restore flags on the report |
| `Engine.PerformBinding` | src/management_manifest.c:1197-1270 | one binding, its ids resolved through the plan, as one step of the run |
| `Engine.PerformNetwork` | src/management_manifest.c:1371-1482 | one network write, its response kept for the profile that follows, as one step of the run |
| `Engine.ReportEntityFailure` | src/management_manifest.c:1272-1282 | what landed, where it stopped, how many pending changes were never tried |
| `Engine.ReportBindingFailure` | src/management_manifest.c:1284-1294 | the same for bindings |
| `Engine.ReportNetworkFailure` | src/management_manifest.c:1484-1495 | the same for network items |
| `Engine.Apply` | src/management_manifest.c:1506-1627 | the five loops leave server, plan and report exactly as the run of the plan says |
| `ApplyManifest.ApplyManifest` | src/management_manifest.c:1506-1627 | nothing is sent unless a plan was made, and then that plan's run and nothing else |
| `Reports.AttemptsFollowSchedule` | src/management_manifest.c:1541-1620 | every run attempts the non-unchanged items in phase order, up to the first failure, and none after it; `Traces.EveryRunIsTraced` ties the attempts to the calls |
| `Traces.EveryRunIsTraced` | src/management_manifest.c:1541-1620 | every run sends, in order, the calls of what it attempted and nothing else, with the ids the run had been given by then: one for an entity or network item, one to three for a binding, none for a failure before any call |
| `Reports.ReportAddsUp` | src/management_manifest.c:1272-1294 | in the failing section applied + 1 + remaining is the pending count; without a failure no section is marked |
| `Reported.ReportNamesTheFailure` | src/management_manifest.c:1269-1293 | the failed index is that of the change attempted last, in its own section, and -1 everywhere else |
| `Reported.FlagsAreOfTheFailure` | src/management_manifest.c:1215-1270 | over a whole run the restore flags are those of the rebind it stopped at, and down in every other case |
| `Reported.SecretsAreOfCreated` | src/management_manifest.c:1295-1309 | the secrets reported are exactly those of the service accounts created with a body in the answer, by key, in plan order |
| `Reports.SuccessfulApplySends` | src/management_manifest.c:1541-1620 | a successful apply sends one call per pending object and one or two per pending binding |
| `RebindOutcomes.RebindLeavesOneOfThree` | src/management_manifest.c:1197-1270 | whatever the answers, the subject ends with the new binding, the old one or none, and nothing else changes |
| `RebindOutcomes.WhatRebindLeaves` | src/management_manifest.c:1197-1270 | the directory, the result and both restore flags for each of the 64 combinations of answers |
| `RebindOutcomes.RebindReportIsExactIff` | src/management_manifest.c:1220-1270 | result and restore flags name the state left exactly when no call that was made was carried out but answered with an error |
| `RebindOutcomes.LostAssignLooksLikeNothing` | src/management_manifest.c:1245-1270 | an assign carried out but answered with an error is reported as nothing left |
| `Resolving.LookupsAgreeIff` | src/management_manifest.c:547-554 | the plan's lookup finds the declaration validation found exactly when no earlier kind shares its key |
| `Resolving.CollidingKeysMisresolve` | src/management_manifest.c:547-554 | an accepted manifest whose role key resolves to a resource |
| `Resolving.UnresolvedIff` | src/management_manifest.c:1205-1213 | a binding stops unresolved exactly when one of its ids is not known |
| `Resolving.BindingsNeverUnresolved` | src/management_manifest.c:1205-1213 | for any accepted manifest, with ids in every create response, no run gets there, whatever keys are shared |
| `Convergence.NeverUnresolved` | src/management_manifest.c:1442-1458 | nor does the network part for want of a profile's segment, for any accepted manifest and a server of any size |
| `NetConverging.WritesAreNeverStale` | src/management_manifest.c:1371-1482 | every network write carries the current versions, those of this apply's own earlier writes included |
| `Network.FilterIdsDifferIsSetInequality` | src/management_manifest.c:813-831 | filter ids differ exactly when they differ as sets |
| `Network.DiffersIffReplaceChanges` | src/management_manifest.c:834-842 | a segment differs from its spec exactly when writing the spec would change it, by more than the version and the order and repeats of its filter ids |
| `Network.DiffersIffStoreChanges` | src/management_manifest.c:847-863 | a profile differs from its spec exactly when storing the spec would change it, by more than the version and values this client has no name for |
| `Network.WritesAsStated` | src/management_manifest.c:1386-1435 | a created or replaced segment has every member as the spec states it, and the server's defaults where a create is silent |
| `Network.ReplacedSegmentConverges` | src/management_manifest.c:834-842 | a replaced segment no longer differs, keeps what the spec is silent about, drops what it states as none |
| `Network.CreatedSegmentConverges` | src/management_manifest.c:1391-1405 | a created segment is the one its spec stands for and does not differ |
| `Network.WrittenProfileConverges` | src/management_manifest.c:1332-1369 | a written profile no longer differs; an update let through keeps every unstated member, unknown values included |
| `Network.RefusedIffNotKept` | src/management_manifest.c:1001-1023 | an update is refused exactly when what it stores would not keep a member the spec is silent about |
| `NetConverging.ReplannedProfile` | src/management_manifest.c:847-863 | after a whole run a profile needs nothing exactly when it was written or is still read as stated |
| `NetConverging.ReplannedSegment` | src/management_manifest.c:834-842 | after a whole run no segment needs anything |
| `LooseCap.RaisedCapComesLoose` | src/management_manifest.c:847-863 | a plan, an apply that returns OK and raises the cap, and every plan after it still has a profile to write |
| `NetConverging.StepNetworkKeepsTrack` | src/management_manifest.c:1605-1618 | what every network step keeps: items done match the server, items to come are as planned |
| `Tracking.StepEntityKeepsTrack` | src/management_manifest.c:1538-1590 | what every entity step keeps: done declarations are settled, the others as planned, ids true |
| `TrackingBindings.StepBindingKeepsTrack` | src/management_manifest.c:1558-1602 | what every binding step keeps: bound ones are settled, the others as planned |
| `Resuming.EveryRunResumes` | src/management_manifest.c:1506-1627 | wherever a run stops, as far as what it tried to create fits the page, what it wrote of entities and bindings is settled and what it did not is as planned, so a new plan resumes; the one it stopped at is either |
| `Convergence.EveryRunResumesNetwork` | src/management_manifest.c:1605-1618 | wherever a run stops, a new plan lists the same network objects: those before the stop settled but for profiles a new cap uncovers, those after it as planned, the one it stopped at either |
| `Resuming.ApplyConvergesIff` | src/management_manifest.c:1506-1627 | after an OK apply every binding is settled, and every entity but those no update can settle, exactly when each kind something was created of fits the page |
| `Growth.EveryRunGrows` | src/management_manifest.c:1052-1177 | wherever a run stops, the server has every row it had, under its name and id, and one new row for each create carried out, in order and named as declared |
| `Nesting.EveryRunNests` | src/management_manifest.c:1052-1177 | wherever a run stops, every row it created is as declared, member by member; a resource that depends on something has as its parent the id the server has for the declaration of the least kind under that key, unless that is created no earlier or a create was answered without a body, and no other row has a parent |
| `Nesting.HangsUnderParentIff` | src/management_manifest.c:1040-1075 | a nested resource is created under its parent exactly when that was on the server before, or no declaration of another kind hides it, or it comes first anyhow |
| `Nesting.HiddenParentIsLost` | src/management_manifest.c:1040-1075 | an accepted manifest whose nested resource every run creates at the root |
| `Growth.CreatedIsFoundIff` | src/management_manifest.c:430-497 | of what a run created, an object is found again, under its own id, exactly when its row is on the page |
| `Convergence.ApplyThenPlan` | src/management_manifest.c:1506-1627 | after an OK apply nothing is left to do exactly when what was created fits the page, no drift is beyond an update and no profile left alone is uncovered by the declared cap |
| `PlanApplyPlan.SecondPlanIsEmptyIff` | src/management_manifest.c:592-805 | plan, apply, plan: all three pending counters of the second plan are zero exactly under that condition, which can be told before the apply |
| `OrderLaws.DerivedOrderIsUnique` | src/management_manifest.c:332-352 | there is one derived order of a manifest, whatever keys are shared |
| `PlanApplyPlan.SegmentOrderIsUnique` | src/management_manifest.c:866-877 | there is one segment order |
| `SingleFlight.StepKeepsInvariant` | src/client.c:480-519 | the invariant every step of every thread keeps |
| `SingleFlight.OneRefreshAtATime` | src/client.c:484-510 | any threads, any interleaving: one thread at most refreshes, and the flag is set exactly while one leads |
| `SingleFlight.CounterCountsRefreshes` | src/client.c:504-510 | the counter is the number of refreshes performed, less the one still to be published |
| `SingleFlight.EveryCallSharesALaterRefresh` | src/client.c:485-519 | every call, leader or follower, returns the result of a refresh published after the call first had the mutex |
| `SingleFlight.SomeoneProceeds` | src/client.c:484-511 | no deadlock and no lost wake-up: while a call is under way some thread can step |
| `SingleFlight.MaySharePerformedRefresh` | src/client.c:485-511 | a run in which the refresh shared had returned before the follower called |
| `SingleFlight.SharesALaterOneIff` | src/client.c:485-511 | in every continuation of a call the refresh shared returned after the call began, exactly when no leader is waiting to reenter with its result at that moment |
| `SingleFlight.WhichRefreshIsShared` | src/client.c:485-519 | call by call, the refresh shared had returned before the call exactly when it is the one that was out and not yet published |
| `Memo.DecisionMemo.UnlinkKey` | src/memo.c:118-136 | the one node with the key leaves the list; head, tail, links and count stay right |
| `Memo.DecisionMemo.EvictOldest` | src/memo.c:108-115 | the first node leaves |
| `Memo.DecisionMemo.Get` | src/memo.c:138-161 | a hit if the entry is fresh; an expired entry is unlinked |
| `Memo.DecisionMemo.Put` | src/memo.c:163-196 | the key's old entry out, the new one last, the oldest evicted beyond the bound |
| `Memo.DecisionMemo.Clear` | src/memo.c:198-215 | nothing is left |
| `Timed.EffectiveTtl` | src/memo.c:50-61 | a TTL is clamped and never refused; none turns the memo off |
| `Timed.HitIff` | src/memo.c:138-215 | over any history with a monotone clock, a lookup hits exactly when the last put since the last clear is young and fewer than 1024 other keys came after it |
| `Timed.QueueTracksShadow` | src/memo.c:138-215 | the bounded queue keeps exactly the fresh end of the unbounded one |
| `Timed.ShadowMeans` | src/memo.c:163-196 | an entry's place counts the other keys put after it |
| `Checking.KeyIsInjective` | src/memo.c:71-97 | two clean questions share a key exactly when they are the same question |
| `Checking.KeysCoincideIff` | src/memo.c:71-97 | without separators two questions share a key exactly when they are one question but for a subject, scope or acting tenant absent in one and equal to the absent marker in the other |
| `Checking.UncleanKeysCollide` | src/memo.c:71-97 | a separator in a component, or the absent marker as one, makes two questions collide |
| `Checking.ServedWasSaid` | src/client.c:1712-1765 | what the memo serves to clean questions is the server's last answer to that question, within the TTL, no clear in between |
| `Checking.ServedIff` | src/memo.c:138-215 | over any log of lookups, answers and clears, a lookup is served exactly when the last answer under its key is younger than the TTL, with no clear and fewer than 1024 other keys answered since, and then with what that answer said |
| `Checking.ServedWasGivenIff` | src/client.c:1712-1765 | and a decision it gave, exactly when the body of that answer parsed |
| `Checking.UnparsedBodyIsServed` | src/client.c:1748-1761 | when one does not, a denial nobody gave is served |
| `Checking.Checker.CheckAccess` | src/client.c:1712-1765 | the whole check: served exactly when a result is wanted, the memo is on and still has an answer under the key, and with that; otherwise the wire's own decision, failure kind or zeroed denial; and what is remembered of it, the clear of a refresh before the answer |
| `Retry.SpentIff` | src/client.c:1609-1654 | n exchanges are made exactly when all but the last went unanswered or were answered 408, 429 or 5xx, and the last was not or ends the budget |
| `Retry.Session.TransportRetrying` | src/client.c:1609-1654 | the loop makes that many, leaves the last answer, and reports each attempt |
| `Retry.Session.AuthzPost` | src/client.c:1657-1710 | the budget; a refresh exactly when the session is authenticated, no device session, and the budget ended in a 401; after a successful one exactly one exchange more; the outcome is that of the last answer by its status, or of the refresh that failed |
| `Retry.CheckTrace` | src/client.c:1609-1710 | at most three attempts, a refresh and one more; numbered from 1 without a gap; each phase (start end again)* start end |
| `Retry.PhaseFollowsGrammar` | src/client.c:1617-1652 | the events of one phase follow the grammar |
| `Retry.PhaseReports` | src/client.c:1617-1652 | the events of a phase, one by one: the i-th exchange as attempt first + i, with its own status, a success exactly when that is 2xx |
| `Retry.Session.MgmtSend` | src/management.c:355-456 | nothing is sent without a session; anything but a GET once; a GET as often as the retry rule says; the outcome by the status of the last answer, a wanted body that does not parse being a network failure |
| `Jwks.KeyCache.Find` | src/jwks.c:95-105 | the first key with the id; without an id, the only key |
| `Jwks.KeyCache.LookUp` | src/jwks.c:321-331 | found, or a refetch that opens the cooldown, or a refusal inside it |
| `Jwks.KeyCache.Parse` | src/jwks.c:18-68 | after it a lookup finds exactly the document's own key: under an id the first offered under it, with its own bytes, without one the only key offered; a bad document changes nothing, and none the cooldown |
| `Jwks.FoundIffPublished` | src/jwks.c:18-105 | a key is found by its id exactly when the cached document publishes a usable key with it |
| `Jwks.FoundIsOffered` | src/jwks.c:18-105 | the key found is the first entry's that offers one under the id, its own bytes and id, and without an id the only entry's that offers one |
| `Jwks.ServedIsOffered` | src/jwks.c:316-321 | any callers, any interleaving: a key served from the cache is the one the document last swapped in at that moment has for the token |
| `Jwks.FetchesIffStale` | src/jwks.c:71-77 | without an unknown id a call fetches exactly when no document was swapped in yet, or the last one a TTL ago or more |
| `Jwks.StepKeepsInvariant` | src/jwks.c:71-340 | the invariant every step of every caller keeps |
| `Jwks.RefetchesAreBounded` | src/jwks.c:321-331 | unknown-id refetches are a cooldown apart, so an interval of length T holds at most T / cooldown + 1 |
| `Jwks.GivesUpOnlyInsideTheWindow` | src/jwks.c:326-331 | a call gives up without a fetch only within a cooldown of a refetch |
| `Jwks.RefetchFindsIffPublished` | src/jwks.c:333-340 | after a successful refetch, and unless a later swap intervened, a key is found exactly when it was published, and it is the one the document has for the token, bytes and id |
| `Schemas.FromWire` | scripts/gen_management.py:1616-1628 | a known text decodes to its constant and any other to UNKNOWN |
| `Codec.FirstKey` | scripts/gen_management.py:1542-1557 | the first key of an externally tagged model the object has a string under, and none exactly when there is no such key |
| `CodecLaws.FieldBuildsNormal` | scripts/gen_management.py:1307-1509 | for each kind of member, building what was parsed gives the normal form of that member |
| `CodecLaws.BuildsNormal` | scripts/gen_management.py:1682-1711 | for every schema, cyclic or not, and every JSON value, build after parse gives the normal form |
| `CodecDefaults.AbsentBecomes` | scripts/gen_management.py:1307-1509 | an absent member stays absent, but a required number becomes 0, a required flag false, a required enum its first value, and `inherit` true |
| `CodecDefaults.MistypedIsAbsent` | scripts/gen_management.py:1307-1509 | a member of the wrong JSON type is the same as none |
| `CodecDefaults.OddValueBecomes` | scripts/gen_management.py:1307-1509 | a whole-number member loses its fraction, an enum text nobody knows becomes empty, of an array of strings the strings stay |
| `CodecDefaults.TruncCutsTowardsZero` | scripts/gen_management.py:1307-1509 | a fraction is cut towards 0, as a C cast does |
| `CodecKeeps.RoundTripKeepsDeclared` | scripts/gen_management.py:1682-1711 | an object of the schema's shape comes back with every declared member and no other, at any depth |
| `CodecAgain.DecodeEncodeIsIdempotentIff` | scripts/gen_management.py:1307-1509 | a second pass changes nothing exactly when no never-sent-empty array held only what cannot be kept |
| `CodecAgain.UnionAgain` | src/management.c:301-329 | a union keeps its tag and its arm's members, and a second pass nothing less |
| `CodecAgain.ExternalAgain` | scripts/gen_management.py:1512-1591 | an externally tagged value comes back under the key it had |
| `CodecAgain.HollowScopeShrinks` | scripts/gen_management.py:1429-1456 | the array that shows it |
| `Reach.Reachable` | scripts/gen_management.py:587-618 | the worklist ends with exactly the names reachable from the seeds |
| `Reach.Bearing` | scripts/gen_management.py:997-1007 | the fixpoint loop ends with exactly the reachable models that lead to a marked one |
| `Reach.Pass` | scripts/gen_management.py:999-1006 | one pass adds only what leads to a marked model, and one that adds nothing proves there is no more |
| `Unsendable.UnsendableModels` | scripts/gen_management.py:958-1007 | the models a function is emitted for |
| `Unsendable.UnsendableIffBad` | scripts/gen_management.py:1010-1036 | the emitted function finds something exactly when an enum member, at any depth, cannot be sent |
| `Unsendable.CleanValue` | scripts/gen_management.py:997-1007 | a model left out of the fixpoint never holds such a member |
| `ReadBack.ReadBackIsRefusedIff` | scripts/gen_management.py:958-1036 | a body read and sent back is refused exactly when the server's object held an unknown enum value |
| `Paging.All` | scripts/gen_management.py:1989-2038 | success returns the whole walk and frees nothing; any failure returns nothing and frees each item once |
| `Paging.WalkIsCompleteIff` | scripts/gen_management.py:2000-2035 | the walk is the whole list from its start exactly when the server honours the limit or has one page left |
| `Paging.RequestsAre` | scripts/gen_management.py:2000-2035 | ceil(n / limit) + 1 requests |
| `Paging.NthStarts` | src/management.c:94-106 | the k-th request starts k limits after the start, a negative start being 0 and a limit under 1 being 50, with the search as it was |
| `UrlText.UrlEncode` | src/util.c:259-282 | the encoding, in a buffer of three bytes for each |
| `UrlText.ByteEncodesAs` | src/util.c:259-282 | a letter, a digit or one of - . _ ~ as it is, any other byte as % and two hexadecimal digits |
| `UrlText.EncodeRoundTrip` | src/util.c:259-282 | what was encoded decodes to itself |
| `UrlText.DelimiterNotEncoded` | src/util.c:259-282 | no delimiter survives encoding |
| `UrlPath.Path` | src/management.c:186-230 | the substitutions one after another, and no path when a value is missing |
| `UrlPath.RefusedIffMissing` | src/management.c:195-201 | no path exactly when a value is missing or empty |
| `UrlPath.SequentialIsSimultaneous` | src/management.c:186-230 | for distinct names none of which is cut short to the start of a name in the template, one substitution after another is all of them at once |
| `UrlPath.SequentialIsSimultaneousIff` | src/management.c:203-204 | for any template and distinct names the loop substitutes as meant exactly when no name too long for the buffer starts like a name in the template |
| `UrlPath.OneHoleFilledIffFits` | src/management.c:203-204 | a single parameter is substituted as meant exactly when its name fits the buffer |
| `UrlPath.PathReadsBack` | src/management.c:186-230 | the path splits into its segments again and every parameter decodes to its value |
| `UrlQuery.Query` | src/management.c:232-259 | the set parameters in order after the path, within the size asked for |
| `UrlQuery.SetPairsAre` | src/management.c:232-259 | the parameters written are those with a value, each once, under its own name, in order |
| `UrlQuery.NeedIsEnough` | src/management.c:236-240 | the size asked for always exceeds what is written |
| `UrlQuery.QueryReadsBack` | src/management.c:232-259 | what was appended parses back to the parameters that were set, in order |

## Left out

- EveryRunResumes: once something a run created is off the page, it says nothing of the bindings; `CreatedIsFoundIff` says which objects are found again.
- HTTP, TLS, headers, cookies, CSRF and tenant headers: a send is an answer chosen by a script.
- Other writers: nobody but the apply changes the server between its plan and its last call.
- Allocation failure, except in the paging walk and in `plan_network`.
- The text of errors and telemetry; `reason_code` on a failed network item; durations; retry delays and jitter.
- A secret's bytes: which created accounts were given one is modelled, its value is not.
- NULL and empty keys, role keys and resource types are refused alike and are one value here; so are NULL and empty optional components of a memo key.
- A NULL inside a filter id list, a set member with a NULL value, and a NULL array with a nonzero count in a manifest.
- Duplicate members and the order of members in a JSON object; JSON texts are taken as the values they print.
- C integer widths: counters, versions and offsets are unbounded, and a double carried as `long` is truncated towards zero.
- Reading pages of segments and profiles: `plan_network` reads them through the `_all` walk, which `Paging` models on its own.
- The plan's three pending counters are counts over its items here rather than variables of its loops.
- SingleFlight: whether a waiting follower is eventually scheduled; a follower woken late may find a new leader and wait again.
- Memo: calls of several threads in one history; the list is proved for calls one at a time under its lock, and the clock reading of a put is taken in order.
- Checking: an acting tenant switched by another thread between the key and the request.
- Jwks: the clock is read together with the freshness test; signatures, claims and token parsing are not modelled.
- `src/guard.c`, `src/account.c`, `src/oidc_exchange.c`, `src/config.c` and the request builders: setters and decision tables that one reading settles.
- `src/management_helpers.c`, the generator's naming, documentation and test emitters.
