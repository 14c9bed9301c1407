# Karpenter provider for Vultr: verified models

Dafny models of the protocol logic that `karpenter-provider-vultr` keeps across its API calls, with proofs of what those
protocols guarantee under every interleaving, failure and clock reading. `dafny verify dfyconfig.toml` checks everything.

## What is modelled

| files | part of the provider |
|---|---|
| `Prelude`, `Strings` | optional values, results, nanosecond times, byte-wise string order |
| `Tags`, `Teardown`, `Orphan`, `Account`, `AccountSafety` | instance ownership, `Delete`, `List`, the orphan loop, and several installations in one Vultr account |
| `Pagination` | the cursor loops of the Vultr client |
| `Cache` (with `CacheRuns`), `InstanceTypes`, `Selection` | the two discovery caches, the instance types shown to the scheduler, the plan a launch picks |
| `TokenCall`, `TokenProvider`, `TokenRuns` | kubeadm bootstrap tokens, one call and many side by side |
| `Integers`, `Base64`, `Render` | configuration checks and the nested encoding of the user data |
| `NodeClass`, `NodeClassController`, `NodeClassRuns` | the NodeClass reconciler, drift, and the API server around them |
| `Migration`, `Verdict`, `Repair`, `Upgrade`, `Finalizer`, `Effects`, `Fixpoint`, `Scenarios` | the hash migration, the verdicts it keeps, the claims it repairs, what an upgrade does to the fleet, the finalizer handshake, what each request of a reconcile does to the NodeClass and how a reconcile ends, when reconciling comes to rest, and the runs counterexamples start with |
| `Launch` | `Create` from the NodeClaim to the tagged instance and the stamped claim |

Each operation that makes API calls is described twice. A datatype of *positions* with functions such as `NodeClass.Ask`
and `NodeClass.Resume`, `Orphan.AfterRead` or `TokenCall.AfterClock` says which call comes next and where its answer
leads. The methods are the source's own loops and assignments on mutable state; they work against a session object that
answers anything at all but accepts only the call its position asks for, so that a method ending at the final position of
its result has made exactly the calls, in exactly the order, that lead to that result. Where a method builds on another,
as `Launch.Create` does on the caches and the token provider, it takes the answers over from where those sessions stand.
The modules about runs use the same position functions: a step is one API call, one clock reading or one move of the
environment, any number of operations are under way at once, and each may stop for good between two calls. A main theorem
quantifies over all runs, and spells out times, statuses, annotation keys and characters where it states them.

What the source does not decide is a parameter: the hash of a spec and the revision of the scheme (`NodeClass.Build`), the
endpoint checks, the URL parser, the requirement on the instance type, the shell text.

Assumptions that a theorem needs are written where it is stated, or in the step relation it is about:

- names of NodeClaims are never reused, and UIDs, resource versions and instance IDs are handed out once;
- a NodeClaim is stored before its instance is created, and never changes its NodeClass;
- nobody but the provider touches its own annotations and finalizer;
- reads of NodeClasses, NodeClaims and Secrets are linearizable, except the claim reads of the orphan loop, which may lag;
- the clocks of the provider, of Vultr and of the API server agree; Vultr dates an instance by the whole second;
- Vultr answers 404 for an instance it has had only when that is gone;
- managed Secrets with an expiration are removed only after it.

## Where code and comments differ

The model follows the code.

- A migration keeps the old hash of a claim with a Drifted condition of any status, also `False`
  (pkg/controllers/nodeclass.go:219-224 speaks of claims judged drifted): `Verdict.ListingDecides` and
  `Verdict.FalseConditionKeepsHash`.
- Claims without a hash are not re-stamped while their NodeClass stays at the current version
  (pkg/cloudprovider/cloudprovider.go:291-295 says that the controller re-stamps them): `Repair.NeverRepaired`. They are
  by a pass, which runs if and only if the NodeClass was off the current version when fetched:
  `Repair.MigratesIfOffVersion` and `Repair.PassRepairs`.
- A claim judged drifted after it was listed loses its hash all the same (pkg/controllers/nodeclass.go:219-221):
  `Verdict.LateVerdictIsLost`.
- A token with exactly two hours left is replaced, not only one with less (pkg/bootstrap/bootstrap.go:67-68):
  `TokenCall.CreatesOnlyIfNoneLasts`, and the run of `TokenRuns.SpacingIsTight`.
- `parsePositiveInt` wraps around and so accepts numbers beyond 64 bits as other numbers: `Integers.AcceptsOverflow` names
  one, `Integers.ExactWhenItFits` says which strings are read correctly.
- A create answered without an instance ID yields a claim that `Delete` refuses for ever: `Launch.LaunchedIsInStep`.

## Model

| member | source | states |
|---|---|---|
| Tags.OwnershipRoundTrip | pkg/vultr/tags.go:19-56 | in any order and among any foreign tags, a launch's tags decode to its claim for the launching installation and to nothing for any other, whatever the values contain; and exactly when both names are non-empty and free of white space |
| Tags.FirstCarrier | pkg/vultr/tags.go:28-40 | the first tag with a prefix decides, whatever tags with it follow: its value is found, or none if that has a blank, tab, carriage return or line feed |
| Tags.PrefixesExclusive | pkg/vultr/tags.go:7-16 | no tag carries two of the four ownership prefixes |
| Tags.ForeignUnowned | pkg/vultr/tags.go:42-56 | an instance with none of the prefixes belongs to nobody |
| Teardown.ParseProviderID | pkg/cloudprovider/cloudprovider.go:304-310 | accepts exactly the provider IDs of non-empty instance IDs, and inverts them |
| Teardown.Delete | pkg/cloudprovider/cloudprovider.go:203-231 | sends the delete and, only on a failure other than 404, the confirming lookup, and answers as their outcomes demand |
| Teardown.ReleasedExactlyOn404 | pkg/cloudprovider/cloudprovider.go:196-231 | for every answer to the delete and to the lookup, the outcome written out: a claim is released if and only if the delete, or after any other failure the lookup, answers 404; an accepted delete is not a release; any other failure reported is that of the delete |
| Teardown.OwnProviderIDs | pkg/cloudprovider/cloudprovider.go:248-261 | the IDs listed are exactly those of the installation's own instances |
| Teardown.OwnProviderIDsAppend | pkg/cloudprovider/cloudprovider.go:248-261 | a further instance adds its ID, after `vultr://`, at the end if a claim of the installation owns it, and nothing otherwise |
| Teardown.List | pkg/cloudprovider/cloudprovider.go:248-261 | the loop lists just these, in order |
| Orphan.ScanSkips | pkg/controllers/orphan.go:47-58 | just the instances before the first one that is the installation's own and has a readable date are passed over |
| Orphan.Reconcile | pkg/controllers/orphan.go:41-81 | the loop checks age, then claim, then deletes, instance by instance, and ends early on a failed read or delete |
| Orphan.SweepIsExact | pkg/controllers/orphan.go:47-81 | whatever is answered about each instance, a pass deletes exactly the instances dated at least 20 minutes ago whose claim is missing, in order, if and only if no read or delete fails, and otherwise a first few of them and nothing else |
| Orphan.PassIsExact | pkg/controllers/orphan.go:41-81 | the same from the listing on: a failed listing fails the pass with nothing deleted, a pass without failure is due again after 5 minutes |
| AccountSafety.InvAlways | pkg/controllers/orphan.go:51-72 | what every run of the shared account keeps: tags tell the owner, dates the age, known provider IDs are own ones |
| AccountSafety.Isolation | pkg/cloudprovider/cloudprovider.go:203-261 | in every run every instance an installation asks to destroy was launched by that installation |
| AccountSafety.MissingMeansDead | pkg/controllers/orphan.go:56-70 | a claim missing from a read no staler than 20 min - 1 s, of an instance at least 20 minutes old, is dead |
| AccountSafety.OnlyAged | pkg/controllers/orphan.go:19-59 | in every run whatever the orphan loop asks to delete is stored, the installation's own and dated at least 20 minutes ago |
| AccountSafety.OrphanSafety | pkg/controllers/orphan.go:41-81 | with claim reads lagging at most 20 min - 1 s and a nanosecond, the orphan loop deletes only instances whose claim has gone for good |
| AccountSafety.LagBoundIsTight | pkg/controllers/orphan.go:19-22 | with any larger lag there is a run in which it deletes an instance whose claim exists |
| AccountSafety.TeardownSound | pkg/cloudprovider/cloudprovider.go:196-231 | in every run, a `Delete` that reported the instance as not found was right, and stays right |
| Pagination.ListAll | pkg/vultr/client.go:234-262 | requests each page of the server's chain once, in order; succeeds with all items or fails with none, and says exactly when |
| Pagination.ListingIsExact | pkg/vultr/client.go:164-216 | against a server that hands out pages by tokens or links the result is the concatenation of all pages |
| Pagination.ChainUnique | pkg/vultr/client.go:262-279 | the server determines the pages requested |
| Pagination.NoPageTwice | pkg/vultr/client.go:262-279 | no page is requested twice |
| CacheRuns.Provenance | pkg/vultr/instancetype.go:51-81 | every answer, under any interleaving of callers, is one successful response: one begun less than a TTL before the call read its clock; its own; or one that began no later than the failed fetch, from an entry past its TTL, exactly if that failed with 429, with 500 or more, or without a status. A call answers with an error exactly if its own fetch failed with that and it had seen no entry, was cancelled or ran into its deadline, or the status is any other |
| CacheRuns.OnlySuccessPublishes | pkg/vultr/instancetype.go:207-226 | only a successful fetch changes the cache, and only its own slot |
| CacheRuns.OlderMayOverwrite | pkg/vultr/instancetype.go:76-80 | a run in which an older response replaces a newer one, and the timestamp goes back |
| CacheRuns.SerialNeverGoesBack | pkg/vultr/instancetype.go:51-81 | as long as no two callers that missed are refreshing a key at once, whoever else hits it meanwhile, its timestamp never goes back |
| InstanceTypes.ByID | pkg/vultr/instancetype.go:69-74 | the catalogue holds exactly the non-empty IDs listed, each with the last plan listed under it |
| InstanceTypes.Index | pkg/vultr/instancetype.go:69-74 | the loop builds that catalogue in a new map |
| InstanceTypes.Collect | pkg/vultr/instancetype.go:214-219 | the loop collects the non-empty IDs in a new set |
| InstanceTypes.Table.Clone | pkg/vultr/instancetype.go:239-253 | a new map with the same entries, whatever the iteration order |
| InstanceTypes.Provider.Plans | pkg/vultr/instancetype.go:51-81 | clock, lock, fetch and publication in this order, with other callers running before the lock and during the fetch; an entry less than 5 minutes old is answered, else what was fetched, else after a 429, a 5xx or a failure without status the entry seen, else the error; the answer is in a map of its own, and the slots end as the others left them but for what a successful fetch published |
| InstanceTypes.Provider.AvailablePlans | pkg/vultr/instancetype.go:196-226 | the same with 60 seconds for the slot of one region, so a 404 is never answered from an old entry; the other slots are left alone |
| Selection.List | pkg/vultr/instancetype.go:117-182 | one entry per sellable plan, strictly ascending by ID, available exactly if in the availability set |
| Selection.ListForPlan | pkg/vultr/instancetype.go:113-182 | that listing, of the catalogue and the availability the caches answered, or the error of the first that failed |
| Selection.StableUniverse | pkg/vultr/instancetype.go:105-182 | two availability sets give listings that differ in availability alone |
| Selection.ListedExactly | pkg/vultr/instancetype.go:127-140 | listed is exactly what has an ID, processors, memory and a positive price, and is the configured plan if there is one |
| Selection.EntryExactly | pkg/vultr/instancetype.go:142-195 | what an entry says: 110 pods, memory in MiB and disk in GB as bytes, the monthly price over 730 hours, 7.5 % of the memory held back for eviction |
| Selection.Select | pkg/cloudprovider/cloudprovider.go:145-182 | for every iteration order the one cheapest eligible plan, ties broken by ID, or insufficient capacity exactly when none is eligible; a fixed plan by its three checks in order |
| Selection.ChoiceExactly | pkg/cloudprovider/cloudprovider.go:167-181 | the choice by fields: known, available, compatible, with processors, memory and price; no other such plan is cheaper, and at the same price its ID is the smaller one at the first byte that differs |
| Selection.FixedExactly | pkg/cloudprovider/cloudprovider.go:153-165 | a fixed plan is taken if and only if it is known, compatible and available, and each refusal if and only if it is the first of these that fails |
| Selection.SelectPlan | pkg/cloudprovider/cloudprovider.go:132-182 | the same, of the catalogue and the availability the caches answered, with an unknown region told apart from a failed lookup |
| Selection.SelectedFits | pkg/cloudprovider/cloudprovider.go:145-181 | a plan selected is the one the catalogue answer holds under its ID, is in the availability answer and compatible, and is the fixed one if there is one |
| Selection.SelectionRefinesListing | pkg/cloudprovider/cloudprovider.go:167-181 | the launch picks the cheapest launchable entry of what the scheduler was shown, and none exactly when none is |
| TokenCall.WellFormedParts | pkg/bootstrap/bootstrap.go:164-169 | the two patterns accept exactly a 6 and a 16 character part of the alphabet |
| TokenCall.AnswerGuarantee | pkg/bootstrap/bootstrap.go:69-162 | a call that ends without failure answers with ID, dot and secret of one secret: the one it created, named after its ID and lasting 12 hours to the second, or a listed one with more than two hours left when judged, which for the first list is a latest-expiring one of these |
| TokenCall.CreatesOnlyIfNoneLasts | pkg/bootstrap/bootstrap.go:116-156 | a token is created only when every secret of the second list with a token of 6 and 16 small letters or digits and an expiration had at most two hours left |
| TokenCall.LettersSpread | pkg/bootstrap/bootstrap.go:164-181 | a byte gives the letter or digit at its remainder modulo 36, so two bytes give the same one exactly if they agree modulo 36 |
| TokenProvider.SpellOut | pkg/bootstrap/bootstrap.go:177-179 | every random byte is overwritten in place by its letter |
| TokenProvider.GenerateToken | pkg/bootstrap/bootstrap.go:171-181 | splits the letters into ID and secret, or fails with the random source |
| TokenProvider.Token | pkg/bootstrap/bootstrap.go:69-101 | for every list, malformed secrets included, makes the calls of the protocol and answers with ID, dot and secret of the secret found or created, or with the error met |
| TokenProvider.CreateUnlessCurrent | pkg/bootstrap/bootstrap.go:103-162 | the second look and the creation, answering with ID, dot and secret of the secret found or created |
| TokenRuns.CreationSpacing | pkg/bootstrap/bootstrap.go:98-162 | in every run, tokens stamped at most 10 h - 1 s apart come from overlapping calls: the later one listed before the earlier token was stored |
| TokenRuns.SerializedSpacing | pkg/bootstrap/bootstrap.go:24-38 | calls that do not overlap create tokens more than 10 h - 1 s apart |
| TokenRuns.SpacingIsTight | pkg/bootstrap/bootstrap.go:116-151 | a run in which one call after the other creates tokens a nanosecond more than that apart |
| TokenRuns.HandedOut | pkg/bootstrap/bootstrap.go:69-162 | in every run a token handed out is ID, dot and secret of a secret that was stored: the call's own, or a listed one with more than two hours left when judged, and a latest-expiring one of these unless the call listed a second time |
| TokenRuns.FailuresEnd | pkg/bootstrap/bootstrap.go:69-162 | in every run a list, random read or creation ends its call with just its own error if and only if it failed |
| Integers.ParsePositiveInt | pkg/bootstrap/bootstrap.go:380-395 | the loop computes the wrapped value of the digits and accepts it if positive |
| Integers.ExactWhenItFits | pkg/bootstrap/bootstrap.go:380-395 | the number written is read if and only if it is positive and fits 64 bits |
| Integers.ReadsModulo | pkg/bootstrap/bootstrap.go:380-395 | a string is read as a number if and only if it is of decimal digits only and the number is the positive one below two to the 63rd that differs from it by a multiple of two to the 64th |
| Integers.DecimalExactly | pkg/bootstrap/bootstrap.go:385-394 | each further digit adds its value to ten times the number before |
| Integers.AcceptsOverflow | pkg/bootstrap/bootstrap.go:385-394 | two to the 64th and one more is read as one |
| Base64.RoundTrip | pkg/vultr/client.go:292-294 | decoding undoes encoding (section 4 of RFC 4648), for every byte string |
| Base64.Examples | pkg/vultr/client.go:292-294 | the encodings of the first examples in section 10 of RFC 4648 |
| Base64.DigitExactly | pkg/vultr/client.go:292-294 | the standard alphabet in its order (section 4 of RFC 4648) |
| Render.ScriptVariables | pkg/bootstrap/bootstrap.go:202-211 | every variable gets its own value: token, hash and encoded extra data pass quoting and line framing unchanged, and no assignment can be taken for another |
| Render.MinorAssigned | pkg/bootstrap/bootstrap.go:368-378 | the minor version passes unchanged |
| Render.MinorExactly | pkg/bootstrap/bootstrap.go:368-378 | a version yields `v1.` and a minor version if and only if, without white space around and a leading `v`, it is `1.` and that minor version, followed by nothing or a dot, and the minor version is a positive number |
| Render.ValidateExactly | pkg/bootstrap/bootstrap.go:343-366 | a configuration is accepted if and only if version, endpoint, hash, node name and token are all in order, hash and token written out by their characters, and the error names the first that is not |
| Render.QuoteUndone | pkg/bootstrap/bootstrap.go:202-211 | what `%q` makes of ASCII text is read back as that text by the rules of Go string literals |
| Render.SixVariables | pkg/bootstrap/bootstrap.go:189-211 | each of the six variables is assigned its own value |
| Render.UserDataReceived | pkg/bootstrap/bootstrap.go:332-340 | read as Cloud-Init reads it, the create request's user data installs the very script as an executable file under /usr/local/sbin/karpenter-vultr-bootstrap and runs it |
| Render.RenderRoundTrip | pkg/bootstrap/bootstrap.go:189-341 | for every configuration accepted, the instance receives the script and in it the extra user data as configured |
| Strings.SortedSet | pkg/controllers/nodeclass.go:294-301 | an ascending list of the set, whatever the iteration order |
| Strings.AscendingUnique | pkg/controllers/nodeclass.go:294-301 | and there is only one such list, so resolved plans do not depend on that order |
| Strings.LessExactly | pkg/controllers/nodeclass.go:294-301 | a string comes first if and only if it has the smaller byte at the first place where the two differ, or ends there |
| Strings.TrimSpaceExactly | pkg/vultr/client.go:262-279 | trimming takes just the white-space characters of Unicode, in their UTF-8 bytes, off both ends, and all of them |
| NodeClassController.Reconcile | pkg/controllers/nodeclass.go:51-152 | fetches, then finalizes or ensures the finalizer, synchronizes the hash and assesses, with exactly the requests of the model |
| NodeClassController.Send | pkg/controllers/nodeclass.go:165-167 | a patch that is answered replaces the object by the answer, one that fails leaves it as it was changed |
| NodeClassController.EnsureFinalizer | pkg/controllers/nodeclass.go:156-169 | adds the finalizer under the version read, and goes on if the NodeClass has gone |
| NodeClassController.SyncHash | pkg/controllers/nodeclass.go:175-196 | migrates only off the current version, and goes on to record only after that has succeeded |
| NodeClassController.RecordHash | pkg/controllers/nodeclass.go:182-195 | sets hash and version in place and patches if and only if the copy taken before differs |
| NodeClassController.MigrateNodeClaimHashes | pkg/controllers/nodeclass.go:201-233 | patches every listed claim off the current version, goes on after failures, and fails if any patch failed other than for want of the claim |
| NodeClassController.MigrateOne | pkg/controllers/nodeclass.go:209-230 | one claim: patched unless it is at the current version, the failure remembered |
| NodeClassController.Restamp | pkg/controllers/nodeclass.go:214-224 | the claim's annotations, copied and then stamped in place: the copy keeps what was listed |
| NodeClassController.Finalize | pkg/controllers/nodeclass.go:238-262 | holds the finalizer while a claim is listed, and otherwise removes it under the version read |
| NodeClassController.UpdateReadiness | pkg/controllers/nodeclass.go:65-152 | snapshot, assessment and conditional status update, the snapshot sharing no map or slice with the live object |
| NodeClassController.Assess | pkg/controllers/nodeclass.go:67-132 | the readiness switch and the lookups in their order |
| NodeClassController.CheckImage | pkg/controllers/nodeclass.go:89-109 | the image check, with a requeue exactly if the lookup failed |
| NodeClassController.FindImage | pkg/controllers/nodeclass.go:95-107 | the first image with the ID decides |
| NodeClassController.CheckRegion | pkg/controllers/nodeclass.go:111-132 | resolved plans, then the region and plan problems in their order |
| NodeClassController.CheckPlan | pkg/controllers/nodeclass.go:120-130 | the checks of a fixed plan in their order |
| NodeClassController.Publish | pkg/controllers/nodeclass.go:134-151 | updates the status if and only if it differs from the snapshot |
| NodeClassController.Live.DeepCopy | pkg/apis/v1alpha1/zz_generated.deepcopy.go:11-34 | a new object of the same value, with annotations, finalizers, conditions and resolved plans of its own |
| NodeClass.ResumeOk | pkg/controllers/nodeclass.go:209-213 | a pass stands only at claims off the current version |
| NodeClassRuns.WellFormedAlways | pkg/controllers/nodeclass.go:51-61 | what every run keeps of the store: names, UIDs, resource versions, remembered drift |
| Migration.PatchedClaim | pkg/controllers/nodeclass.go:214-230 | what the merge patch makes of the stored claim, however it has changed since it was listed |
| Migration.FailedPassRecordsNothing | pkg/controllers/nodeclass.go:175-196 | in every run, once one patch of a pass has failed that reconcile writes no NodeClass any more, so the old version stays |
| Migration.PassSpares | pkg/controllers/nodeclass.go:209-213 | in every run a claim at the current version when a pass lists is never patched by that pass, so none stamped by an earlier one |
| Migration.MigrationComplete | pkg/controllers/nodeclass.go:175-196 | whenever a NodeClass comes to the current version, every claim of it that existed at the listing is gone or at the current version, then and ever after |
| Migration.NeverRises | pkg/controllers/nodeclass.go:201-233 | no step but the creation of a claim puts one off the current version |
| Migration.FallsWithEachPatch | pkg/controllers/nodeclass.go:228-230 | each patch that goes through, reported or not, takes exactly its claim out of those |
| Migration.OthersUntouched | pkg/controllers/nodeclass.go:201-207 | no request of a reconcile changes a claim of another NodeClass |
| Verdict.VerdictPreserved | pkg/controllers/nodeclass.go:209-231 | in every run a claim with a Drifted condition that no pass under way listed without it keeps its hash while the condition stays and no launch returns; at the current version under a live NodeClass it is reported drifted if and only if that hash is present and differs |
| Verdict.VerdictPreservedFromStart | pkg/controllers/nodeclass.go:209-231 | the same for every claim with the condition when no reconcile is under way yet |
| Verdict.ListingDecides | pkg/controllers/nodeclass.go:219-230 | a patch overwrites the stored hash if and only if the claim was listed without the condition and without the new hash |
| Verdict.FalseConditionKeepsHash | pkg/controllers/nodeclass.go:222-224 | a claim listed with a Drifted condition of status False keeps its hash through the patch that makes its version current |
| Verdict.LateVerdictIsLost | pkg/controllers/nodeclass.go:219-230 | a run in which the condition comes between listing and patch, and the claim is reported drifted no longer |
| Repair.NeverRepaired | pkg/controllers/nodeclass.go:175-180 | in every run, while a NodeClass stays at the current version the annotations of its claims stay as they are, whatever they lack, but for the end of their own launch |
| Repair.MigratesIfOffVersion | pkg/controllers/nodeclass.go:175-180 | in every run a reconcile started for a live NodeClass with the finalizer migrates it if and only if what is stored when its fetch is answered is off the current version |
| Repair.MigratesOnceGuarded | pkg/controllers/nodeclass.go:59-64 | in every run one that adds the finalizer first migrates if and only if what is stored then is off the current version |
| Repair.FetchedOffAlways | pkg/controllers/nodeclass.go:175-180 | in every run every pass works from a NodeClass fetched off the current version |
| Repair.PassRepairs | pkg/controllers/nodeclass.go:207-230 | when a pass has got through, every claim it listed off the current version and without a Drifted condition is gone or bears a hash under the current version |
| Repair.StampedUnderCurrent | pkg/controllers/nodeclass.go:175-180 | a run in which a claim is re-stamped although its NodeClass is at the current version by then: it is the fetch that counts |
| Upgrade.NoMassDrift | pkg/cloudprovider/cloudprovider.go:283-302 | from any state, through every interleaving of passes, failures, crashes and launches, and for every answer to the lookup, failures included, no claim is reported drifted while the spec stands, save one that has carried a Drifted condition or began with another hash under the current version |
| Upgrade.EditReported | pkg/cloudprovider/cloudprovider.go:289-300 | an edit that changes the hash is reported for exactly the claims bearing a hash under the current version, unless the NodeClass is being deleted |
| Upgrade.DriftExactly | pkg/cloudprovider/cloudprovider.go:283-302 | for every lookup and claim, drift is reported if and only if a NodeClass not being deleted was found, both annotations are there, the version is the build's and the hashes differ, and an error if and only if the lookup failed with it other than for want of the NodeClass |
| Finalizer.Handshake | pkg/controllers/nodeclass.go:235-262 | a NodeClass deleted when it had the finalizer keeps it while a claim exists whose `Create` saw it live, be it one of an earlier build |
| Finalizer.RemovalMeansUnused | pkg/controllers/nodeclass.go:243-255 | whatever takes the finalizer away, no such claim exists then or later |
| Finalizer.NeverRegained | pkg/controllers/nodeclass.go:156-169 | a NodeClass being deleted without the finalizer never gets it |
| Finalizer.OthersNeverBlock | pkg/controllers/nodeclass.go:243-253 | in every run a reconcile told which claims there are goes on to release its NodeClass if and only if no claim of that NodeClass is stored |
| Finalizer.UnguardedIsLost | pkg/cloudprovider/cloudprovider.go:57-72 | any run that comes to a live NodeClass without the finalizer can go on so that a claim of it is launched and the NodeClass is gone: the condition of the handshake is exact |
| Effects.ReleaseTakesOff | pkg/controllers/nodeclass.go:252-262 | in every run, a release carried out leaves the NodeClass gone if the provider's was its only finalizer, and else stored with exactly the other finalizers, in their order, and nothing else changed |
| Effects.GuardPutsOn | pkg/controllers/nodeclass.go:156-169 | in every run, adding the finalizer keeps the others, in their order and before it, and changes nothing else of a NodeClass that is not being deleted |
| Effects.RecordsHash | pkg/controllers/nodeclass.go:182-195 | in every run, recording sets the hash of the spec read and the build's version, as far as they were not read as such, and changes no other annotation and nothing else |
| Effects.InsistsExactly | pkg/controllers/nodeclass.go:140-255 | finalizer and status are written only over the version that was read, hash and claims over whatever is stored by then |
| Effects.CurrentExactly | pkg/controllers/nodeclass.go:175-213 | what is at the current version: the version annotation is the build's, a missing one counting as empty |
| Effects.FetchFails | pkg/controllers/nodeclass.go:51-55 | a NodeClass not found needs nothing, any other failed fetch fails the reconcile |
| Effects.PatchFails | pkg/controllers/nodeclass.go:156-207 | a NodeClass gone by the time of a patch is treated like one that was patched; any other failure, and a failed listing for a migration, fails the reconcile |
| Effects.LookupFails | pkg/controllers/nodeclass.go:90-125 | a failed lookup makes the NodeClass not ready, for the cause met |
| Effects.PassExactly | pkg/controllers/nodeclass.go:201-233 | whatever is answered about each claim, a pass patches exactly the listed claims off the current version, in order, and then fails if and only if a patch failed other than for want of its claim, or else goes on to record |
| Effects.DeletionExactly | pkg/controllers/nodeclass.go:238-262 | the reconcile of a NodeClass being deleted, outcome by outcome: nothing without the finalizer, 15 seconds while claims are listed, a second after a conflict |
| Effects.TimesExactly | pkg/controllers/nodeclass.go:134-151 | an assessment is due again after 30 seconds if a lookup failed and after 5 minutes otherwise; a failed update fails it |
| Effects.SpecExactly | pkg/controllers/nodeclass.go:72-87 | the seven checks of a spec in their order; a spec that fails one is not looked up and is looked at again after 5 minutes |
| Effects.AMD64Exactly | pkg/controllers/nodeclass.go:103-109 | the architecture is accepted exactly under four names, in capitals or not |
| Effects.ImageExactly | pkg/controllers/nodeclass.go:95-107 | the first image with the ID decides; without one the ID is invalid |
| Effects.SetConditionExactly | pkg/controllers/nodeclass.go:134-139 | a condition replaces the first of its kind, or is added at the end |
| Fixpoint.LookupPath | pkg/controllers/nodeclass.go:89-132 | the three lookups lead to the verdict that is defined from the answers directly |
| Fixpoint.ErrorFreeSettles | pkg/controllers/nodeclass.go:51-152 | a reconcile that ends without error leaves finalizer, hash and status as they should be, whatever it found |
| Fixpoint.SettledExactly | pkg/controllers/nodeclass.go:134-196 | as they should be means: the finalizer, the hash of the spec and the version are there, the generation is observed, the resolved plans are the verdict's, and the first Ready condition tells whether there is a problem and which |
| Fixpoint.VerdictExactly | pkg/controllers/nodeclass.go:111-132 | ready if and only if spec and image are in order, the region has plans and a fixed plan is in the catalogue and among them; each reason if and only if its case; the resolved plans are those of the region, ascending |
| Fixpoint.NextWritesNothing | pkg/controllers/nodeclass.go:140-144 | the next reconcile then sends no patch and no status update |
| Fixpoint.DesiredTwice | pkg/controllers/nodeclass.go:134-144 | storing the status computed does not change what is computed |
| Fixpoint.HashTwice | pkg/controllers/nodeclass.go:182-191 | storing hash and version does not change the hash |
| Launch.Readiness | pkg/cloudprovider/cloudprovider.go:79-81 | the loop finds the status of the first Ready condition |
| Launch.Create | pkg/cloudprovider/cloudprovider.go:74-130 | resolves, checks readiness, selects, hashes, fetches a token, renders and requests, in this order, stopping with the classified error at the first failure; the plan is the one selected from what the caches answered and the token the one the token provider answered |
| Launch.Provision | pkg/cloudprovider/cloudprovider.go:89-129 | the part from the plan on |
| Launch.Submit | pkg/cloudprovider/cloudprovider.go:102-129 | the part from the token on: renders, and requests what was rendered |
| Launch.PlanFits | pkg/cloudprovider/cloudprovider.go:145-181 | the plan requested is in the catalogue answer and in the availability answer for the NodeClass's region, compatible, and the fixed one if there is one |
| Launch.ResolvedExactly | pkg/cloudprovider/cloudprovider.go:75-81 | a launch goes on exactly with a NodeClass found, not being deleted and whose first Ready condition, if any, is not False; everything else ends it with its own error |
| Launch.RequestExactly | pkg/cloudprovider/cloudprovider.go:113-125 | the request by fields: region, plan, image, keys, networks and addressing of the NodeClass and the selection, the claim's name as host name and label, the four tags |
| Launch.RefusedExactly | pkg/cloudprovider/cloudprovider.go:184-194 | 409 means no capacity, 400 and 422 an invalid configuration, everything else a failed creation |
| Launch.RequestIsOwn | pkg/vultr/client.go:281-306 | the instance requested is the claim's own and nobody else's, and the script in its user data assigns each of the six variables what the launch was ordered with: token, CA hash and extra data read back as they are |
| Launch.LaunchedIsInStep | pkg/cloudprovider/cloudprovider.go:312-330 | a launched claim bears exactly the hash and the version as annotations, is reported drifted exactly when its NodeClass's hash has changed since, and its provider ID, `vultr://` and the instance ID, leads back to the instance unless Vultr gave no ID |

## Left out

- HTTP, JSON, headers, retries of the controller runtime and registration: answers are arbitrary, and any operation may start at any time.
- Certificates and the hashing of specs: `ClusterCAHash` answers anything, and the hash is an arbitrary function of the spec, so drift is stated as inequality of hashes; distinct specs may collide.
- URL parsing, `normalizeEndpoint` and `validEndpoint`: parameters.
- The shell script around the six assignments, and how `%q` shows bytes from 128 up: parameters that must not break a line or contain an earlier assignment.
- RFC 3339 parsing: a date or expiration is a time or absent; a sub-second part that someone else writes is allowed.
- Karpenter's requirement algebra, its scheduler and its drift evaluation: compatibility is a predicate on plan IDs, and Drifted conditions come and go at any time. That a verdict survives an evaluation between upgrade and migration is not claimed.
- The condition library: setting a condition is a record update, and transition times, which the source does not compare either, are absent.
- Floating point: prices are reals, and a cost that is not finite is a separate value.
- `nodeClass` with a reference that is absent or of another kind: the error precedes everything modelled.
- `Get`, `GetInstanceTypes`, `hydrateInstanceNodeClaim`, and labels and capacity of a returned claim: lookups and copies that add no protocol.
- Two builds of the provider at work at the same time: a run has one build, and what other builds wrote and launched before is its first state.
- A server whose pages change while they are listed, or whose links run in a circle: the first is not modelled, on the second the loop of the source does not end either.
- Sharing below the maps and slices of an object: their elements are values, so are the lists in a spec, which no reconcile writes, and the location lists of plans, which the source's clones share, are absent.
- Fairness: a reconcile or launch may stop for ever, so nothing says that one is finished, only what holds if it is.
- Agreement of a fixed plan with the listing: that path does not filter by price and size, so it is stated by its own checks.
- Integers of 32 bits: the width of `int` is taken to be 64 bits.
