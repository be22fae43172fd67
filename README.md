# inevitability: the advice-gating core, in Dafny

This project models the deterministic core of *inevitability*.

The core is a pipeline that gates advice before it is given:

- **Rails.** Consent tickets with a scope, a time-to-live and a use budget, and an apophatic guard over forbidden and constraint-only keys.
- **Cost.** Will kernels that scale the cost of an action by its geometry.
- **Proofs.** Advice that carries five proofs and a risk figure, and a shadow twin that argues against it.
- **Choice.** The decision core, which picks the minimal clean move lexicographically on E·K, then G, then E, and the Paradox-Gate transition table.
- **Metrics.** 𝓔 (energy integrity), 𝒢 (grace), the kenosis index and their delta forms.
- **Ethics bookkeeping.** An externality registry with its pricing, a harms ledger, a unified externality assessment and RRI (Responsible Research and Innovation) targets.
- **Memory.** An L0–L15 lattice over a hypergraph store, with the Anamnesis engine on top of it: storage with provenance, a bounded cache, recall with reverberation, re-implication and the anti-amnesia count.
- **Torsion.** The torsion modal, which rewrites an action's parameters near singularities.
- **Paradox.** A paradox detector with three detectors over a context.

Each Python module is one Dafny module. Python values are the `Values.Value` datatype: dictionaries are entry lists in insertion order, and exceptions are `Result` errors naming the Python exception.

Objects whose methods update their fields are classes with `modifies` clauses:

- the consent ticket;
- the externality pricer;
- the harms ledger;
- the hypergraph store;
- the memory lattice;
- the Anamnesis engine;
- the paradox detector;
- the RRI targets manager;
- the unified externality pricer;
- the torsion modal.

Loops in the source are `while` loops with invariants, proved against the functions that specify them. The rest are functions with lemmas.

Numbers are `real`. `int()` truncates toward zero.

Clocks (`now`), hash digests (`blake`, `content_hash`), `exp`, `str()` and the vector search service are parameters. YAML configuration is a parameter too, and so are the results of collaborators the shown code calls but does not define:

- `HarmsLedger.compute_index` and `penalties`;
- `compute_rri`;
- `iter_ledger_recent`.

## Behaviour as the code has it

The model follows the code where it departs from its comments or its evident design. Each departure is stated as a lemma:

- **Nested forbidden keys.** The apophatic guard matches whole dotted paths, so a forbidden key nested under another dictionary is admitted. This includes the self-test example marked "should be invalid" (`ApophaticGuard.NestedForbiddenKeyIsAdmitted`).
- **`decide` always fails.** `decide` calls `check_apophatic(state, None)`, which reads `action.params` from `None`, so it always raises AttributeError (`DecisionCore.Decide`). The rest of the orchestrator is `DecisionCore.DecideFrom`, with the apophatic outcome as an input.
- **A costly E·K winner blocks the rest.** A winner with E ≥ MIN_DELTA_E yields no move even when another candidate would pass (`DecisionCore.CostlyWinnerBlocksTheRest`).
- **`WILL_INVERT` is not an involution** at TRANSCENSION (`ShadowTwin.WillInvertAlmostInvolution`).
- **`_invert` aliases the draft.** The shadow twin's `_invert` writes into the draft plan's own `budget_lines` dictionary when it has one.
- **Advice without proofs** counts both as Throne-Fiber and as Stand (`Trackers.ThroneAndStandWithoutRails`).
- **`_get_connected_edges` ignores `is_source`**, so the reverse loop of `find_paths` never adds a path (`HypergraphStore.OnlyForwardMoves`).
- **`add_edge` with a repeated endpoint** raises IntegrityError after the edge row and the earlier connection rows are written, and they stay.
- **Re-implication's edge cap stops only the current layer.** Each later layer with two or more memories still adds at least one edge (`Reimplication.PlanAtLeastOnePerLayer`, `Reimplication.TwoLayersPassTheCap`).
- **The tech-ethics bonus never applies** in the unified externality RRI alignment (`UnifiedExternality.TechBonusNeverApplies`).
- **`_extract_externalities` does not deduplicate** the entries taken from the params (`UnifiedExternality.ParamsNotDeduplicated`).
- **`validate_rri_compliance` ignores component overrides.** It reads only the weights of the shared configuration (`RriTargets.ComplianceReadsOnlyWeights`).
- **The logical paradox proximity is never 0.75**, because the circularity flag is never raised (`ParadoxDetector.LogicalProximityLevels`).
- **The candidate grace is at most 0.98** under the default weights (`CandidateScorer.DefaultGraceAtMost`).
- **Float parsing.** `float()` of a string raises ValueError here: string parsing is not modelled.


## Model

| member | source | states |
|---|---|---|
| Values.GetOr | core/memory/anamnesis_engine.py:347 | `d.get(k, default)` is the value under `k` when there is one and the default otherwise |
| Values.Put | core/spiral/torsion_modal.py:232-233 | `d[k] = v` overwrites in place when `k` is present and appends otherwise |
| Values.PutGet | core/spiral/torsion_modal.py:232-233 | after `d[k] = v`, `d[k]` is `v` and every other key reads as before |
| Values.PutPut | apps/contemplator/shadow_twin.py:79 | a second assignment to the same key replaces the first |
| Values.Subscript | core/spiral/torsion_modal.py:193 | `d[k]` succeeds exactly when `k` is present, with its value, and raises KeyError(k) otherwise |
| Values.MergeGet | core/logic/apophatic_guard.py:55 | in `{**a, **b}` a key of `b` reads from `b` and any other key from `a` |
| Values.Num | core/metrics/candidate_scorer.py:133 | an arithmetic operand succeeds exactly on a number, with its value |
| Values.Float | core/spiral/torsion_modal.py:193 | `float(v)` succeeds exactly on a number, with its value; a string raises ValueError |
| Values.TrueOrEnforcedValues | core/proofs/proof_carrying_advice.py:31 | `v in (True, "enforced")` holds exactly for True, 1, 1.0 and "enforced" |
| Values.Clamp01 | core/metrics/energy.py:52 | `max(0.0, min(1.0, x))` lies in [0, 1], is `x` inside it and the nearer bound outside |
| Values.Trunc | core/memory/anamnesis_engine.py:392 | `int(x)` truncates toward zero |
| Values.Lower | core/metrics/kenosis.py:42 | `str.lower()` lowers each character and keeps the length |
| Values.Upper | apps/contemplator/shadow_twin.py:73 | `str.upper()` raises each character and keeps the length |
| Values.Round4 | core/metrics/energy.py:43-50 | `round(x, 4)` lies within half a unit of the fourth decimal of x and has at most four decimals |
| Values.Round4Fixes | core/metrics/grace.py:42-47 | a number that already has four decimals is not changed by rounding |
| Values.Round4Idempotent | core/metrics/kenosis.py:57-59 | rounding a rounded number changes nothing |
| EnergyMetric.FirstVerdictIsFirstMatch | core/metrics/energy.py:55-60 | a rail's verdict is the `ok` of the first proof carrying that name, and false when no proof carries it |
| EnergyMetric.ProofOk | core/metrics/energy.py:55-60 | the scan over `awp.proofs` returns exactly that first-match verdict |
| EnergyMetric.RailPenalty | core/metrics/energy.py:36-39 | the rail penalty lies in [0, 0.8] and is zero exactly when consent, apophatic and externalities all pass |
| EnergyMetric.EnergyFrom | core/metrics/energy.py:35-40 | the clamped energy always lies in [0, 1] |
| EnergyMetric.SnapshotOf | core/metrics/energy.py:22-53 | a missing `energy_penalty` raises KeyError; the snapshot exists exactly when that penalty is numeric, and then E lies in [0, 1] and is computed from that penalty, the three rail verdicts and the risk |
| EnergyMetric.FromProofs | core/metrics/energy.py:22-53 | `from_proofs` gives the snapshot of the three first-match rail verdicts |
| EnergyMetric.CleanAdviceHasFullEnergy | core/metrics/energy.py:35-52 | advice passing all three rails, with no harm penalty and no risk, has energy exactly 1 |
| EnergyMetric.EnergyIsMonotone | core/metrics/energy.py:35-40 | a larger harm penalty, rail penalty or risk never raises the energy, and once their weighted sum reaches 1 the energy is 0 |
| EnergyMetric.FailedConsentCosts | core/metrics/energy.py:37-40 | when nothing saturates, a failed consent rail lowers the energy by exactly 0.35 |
| GraceMetric.CoverageTerm | core/metrics/grace.py:31-32 | with a target above 0.5 the coverage term lies in [0, 1], is 0 at coverage 0.5 or below and 1 at the target or above; otherwise it is the raw coverage |
| GraceMetric.QuotientBounds | core/metrics/grace.py:32 | the quotient inside the clamp is at most 0 below the lower end and at least 1 at the upper end |
| GraceMetric.RailsOkIff | core/metrics/grace.py:36 | the rails are ok exactly when every proof named consent, apophatic or externalities passes |
| GraceMetric.NoRailsIsVacuouslyOk | core/metrics/grace.py:36 | advice with no rail proofs at all counts as passing the rails |
| GraceMetric.Coherence | core/metrics/grace.py:37 | coherence lies in [0, 1]; it is 1 with passing rails and risk at most 0.1, and 0 with failing rails and risk at least 0.9 |
| GraceMetric.GraceFrom | core/metrics/grace.py:39 | grace always lies in [0, 1] |
| GraceMetric.FromAssessment | core/metrics/grace.py:24-50 | a missing `grace_penalty` raises KeyError; the snapshot exists exactly when that penalty is numeric, and G then lies in [0, 1] and is computed from the coverage term, coherence, rollback bonus and dignity penalty |
| GraceMetric.GraceAtMostNineTenths | core/metrics/grace.py:33-39 | grace never exceeds 0.9, and reaches it with full coverage, full coherence, rollback ready and no penalty |
| GraceMetric.AssessedGraceAtMostNineTenths | core/metrics/grace.py:24-50 | every assessed grace is at most 0.9, and exactly 0.9 for covered, rollback-ready, rail-passing, low-risk advice with no dignity penalty |
| GraceMetric.GraceIsMonotone | core/metrics/grace.py:33-39 | better coverage, a smaller dignity penalty, rollback readiness and passing rails never lower grace |
| HarmsLedger.Resolved | core/ethics/harms_ledger.py:44-46 | a resolved event is marked resolved, its notes are the old notes (or the empty string) followed by the resolution line, and nothing else about it changes |
| HarmsLedger.ResolveTwiceAppendsTwice | core/ethics/harms_ledger.py:44-46 | resolving twice keeps both resolution lines, in order |
| HarmsLedger.Ledger.constructor | core/ethics/harms_ledger.py:32-33 | a new ledger has no events |
| HarmsLedger.Ledger.RecordEvent | core/ethics/harms_ledger.py:35-39 | a repeated id raises ValueError and leaves the ledger unchanged; a new id is added with its event |
| HarmsLedger.Ledger.ResolveEvent | core/ethics/harms_ledger.py:41-47 | an unknown id raises KeyError and leaves the ledger unchanged; a known one has its event replaced by the resolved event |
| HarmsLedger.RecordThenResolve | core/ethics/harms_ledger.py:35-47 | recording then resolving an event without notes leaves it resolved with exactly the resolution line, and every other event as it was |
| Kenosis.PayloadGet | core/metrics/kenosis.py:36-37 | `payload.get` raises exactly when the payload is not a dictionary |
| Kenosis.Step | core/metrics/kenosis.py:33-43 | one ledger row raises exactly when it is an externality assessment whose payload is not a dictionary |
| Kenosis.StepMovesOneCounter | core/metrics/kenosis.py:33-43 | a row's kind decides which counter moves, by at most one; a decision row raises the de-escalation count exactly when its text mentions "de-escalat" |
| Kenosis.TallyCounts | core/metrics/kenosis.py:32-43 | `Tally`, the scan, raises exactly when some row is bad; otherwise it counts every harm event and decision row, and never more rollbacks than assessments or more de-escalations than decisions |
| Kenosis.HarmRepairRate | core/metrics/kenosis.py:50 | the repair rate is 1 with no harms and otherwise exactly repairs over harms, never negative |
| Kenosis.PerDecision | core/metrics/kenosis.py:51-52 | a per-decision density is never negative, uses a denominator of at least 1, and is at most 1 when the count is at most the decisions |
| Kenosis.RatioAtMostOne | core/metrics/kenosis.py:51-52 | a count over a larger positive count is at most one |
| Kenosis.SnapshotFrom | core/metrics/kenosis.py:50-62 | the kenosis index always lies in [0, 1] and every component is rounded to four decimals |
| Kenosis.KenosisOf | core/metrics/kenosis.py:21-62 | whenever the scan succeeds the index lies in [0, 1] |
| Kenosis.Compute | core/metrics/kenosis.py:21-62 | the loop over the recent ledger rows gives exactly the scan's snapshot, or its error |
| Kenosis.EmptyLedgerKenosis | core/metrics/kenosis.py:50-55 | an empty ledger with no repair edges has index 0.45, from the harm repair rate alone |
| Kenosis.FullKenosis | core/metrics/kenosis.py:50-55 | every harm repaired and every decision rollback-ready and de-escalating gives index 1 |
| Trackers.MissingRailStands | core/metrics/trackers.py:57-64 | advice missing any rail proof always recommends standing |
| Trackers.ThroneAndStandWithoutRails | core/metrics/trackers.py:57-69 | advice without proofs can be Throne-Fiber and recommend standing at once, since the fiber check passes vacuously while the stand check treats missing rails as failed |
| Trackers.RailsOkGivesVerdict | core/metrics/trackers.py:59-60 | when all rail proofs pass, the last proof of each present rail passes too |
| Trackers.ThroneExcludesStand | core/metrics/trackers.py:57-69 | with all three rails present, Throne-Fiber advice never recommends standing |
| Trackers.BundleOf | core/metrics/trackers.py:39-54 | in an assembled bundle E, G and K lie in [0, 1], the two flags are exactly the two heuristics on those scores, and a missing energy penalty raises KeyError |
| Trackers.Assemble | core/metrics/trackers.py:39-54 | `assemble` returns exactly that bundle |
| Trackers.BundleFlagsExclusive | core/metrics/trackers.py:48-49 | with all three rails present, a bundle never has both flags set |
| Trackers.HeuristicsMonotone | core/metrics/trackers.py:56-69 | `Stand` and `ThroneFiber` are monotone in the scores: raising E, G, K or RRI never starts a stand recommendation and never leaves the throne fiber |
| ExternalityPricing.Valuation | core/ethics/externality_pricer.py:39 | with no beneficiaries and no harmed parties, or as many of each, the valuation is the bare magnitude |
| ExternalityPricing.ValuationSign | core/ethics/externality_pricer.py:39 | when beneficiaries are at least the harmed parties, the valuation amplifies the magnitude and keeps its sign |
| ExternalityPricing.ScoreOf | core/ethics/externality_pricer.py:35-39 | an unknown id raises KeyError; a registered one gives its valuation |
| ExternalityPricing.Pricer.constructor | core/ethics/externality_pricer.py:26-27 | a new pricer has an empty registry |
| ExternalityPricing.Pricer.Register | core/ethics/externality_pricer.py:29-33 | a repeated id raises ValueError and leaves the registry unchanged; a new id is added |
| ExternalityPricing.Pricer.ValueScore | core/ethics/externality_pricer.py:35-39 | `value_score` gives ScoreOf on the current registry |
| ExternalityPricing.RegisteredScore | core/ethics/externality_pricer.py:29-39 | after registering, the new id scores its own valuation and every other id scores as before |
| ExternalityPricing.ExampleScore | core/ethics/externality_pricer.py:47-56 | the module's example, magnitude 0.85 with 120 beneficiaries, scores 102.85 |
| ConsentChecker.CanEscalate | core/logic/consent_checker.py:22-37 | escalation is allowed exactly when both scopes are known and the target is at the same or a more constrained level |
| ConsentChecker.CanEscalateIsAPreorder | core/logic/consent_checker.py:25-37 | escalation is reflexive on known scopes, transitive and antisymmetric; "public" reaches every scope, every scope reaches "self", and "self" reaches only itself |
| ConsentChecker.Used | core/logic/consent_checker.py:48-67 | `use` succeeds exactly when the ticket has not expired and has invocations left, and then adds exactly one invocation; scope, issue time, lifetime and budget never change |
| ConsentChecker.UseAllSpendsTheBudget | core/logic/consent_checker.py:48-67 | repeated uses never exceed the remaining budget, count the invocations they make, leave a spent ticket invalid at every later time, and while the ticket is live they succeed until the budget runs out |
| ConsentChecker.ConsentTicket.constructor | core/logic/consent_checker.py:39-46 | a ticket object holds exactly the given fields |
| ConsentChecker.ConsentTicket.Use | core/logic/consent_checker.py:61-67 | `use()` returns and leaves the ticket exactly as `Used` says |
| ConsentChecker.CreateTicket | core/logic/consent_checker.py:93-101 | a new ticket is issued at `now` with no invocations used |
| ConsentChecker.ConsentTickets | core/logic/consent_checker.py:108-120 | `context["consent"]` yields a ticket exactly when it is a dictionary with a scope and a truthy "valid" entry, and that ticket has the given scope |
| ConsentChecker.EntryTicketOf | core/logic/consent_checker.py:124-134 | a dictionary or a ticket object adds one ticket and anything else adds none; a dictionary without a scope gets scope "self" |
| ConsentChecker.EntryTickets | core/logic/consent_checker.py:123-134 | a tickets list yields at most one ticket per entry |
| ConsentChecker.EveryEntryYieldsATicket | core/logic/consent_checker.py:123-134 | a list of only dictionaries and ticket objects yields one ticket per entry |
| ConsentChecker.TicketOf | core/logic/consent_checker.py:125-134 | a ticket object is taken as it is (the same object); a dictionary becomes a fresh ticket with the defaults; other entries are skipped |
| ConsentChecker.ExtractEntries | core/logic/consent_checker.py:123-134 | the loop over the tickets list returns objects whose fields are, in order, the tickets that list yields |
| ConsentChecker.ExtractFromContext | core/logic/consent_checker.py:103-136 | `extract_from_context` returns the consent ticket (if any) followed by the list's tickets, in order |
| ConsentChecker.CheckContext | core/logic/consent_checker.py:138-151 | `check_context` holds exactly when `Permits` does: some extracted ticket is valid and, when a target is given, may escalate to it |
| ConsentChecker.PermitsNarrowerScopes | core/logic/consent_checker.py:138-151 | `Permits`: a context permitting a scope permits every more constrained one and the untargeted check; no unknown scope is ever permitted, and no tickets permit nothing |
| ConsentChecker.DyadConsentExample | core/logic/consent_checker.py:170-181 | the module's self-test: a valid "dyad" consent yields one default ticket, which passes the untargeted and "self" checks and fails "org" |
| ConsentChecker.ValidityExpires | core/logic/consent_checker.py:48-67 | `IsValid` holds exactly when `use` would succeed; validity at a later time implies it at an earlier one, and a ticket past its time-to-live or out of invocations is invalid |
| ConsentChecker.AddEntry | core/logic/consent_checker.py:124-134 | one entry of `consent_tickets` adds the ticket a dictionary or a ticket stands for and nothing for anything else, after the tickets already collected |
| ApophaticGuard.MergeAppend | core/logic/apophatic_guard.py:117-128 | writing two batches into the accumulator is writing the first and then the second |
| ApophaticGuard.FlattenInto | core/logic/apophatic_guard.py:105-128 | `_flatten_dict(d, prefix, result)` leaves `result` holding its old entries overwritten by the dotted writes of `d`, in order |
| ApophaticGuard.FlattenEntry | core/logic/apophatic_guard.py:120-126 | one entry writes its value under the dotted key, or, for a nested dictionary, all of that dictionary's writes under it |
| ApophaticGuard.Present | core/logic/apophatic_guard.py:87-101 | the reported keys are exactly the listed keys present in the combined dictionary |
| ApophaticGuard.Violated | core/logic/apophatic_guard.py:93-95 | the reported constraint keys are exactly those present with a value other than `True` or "enforced" |
| ApophaticGuard.Prefixed | core/logic/apophatic_guard.py:90-101 | one tagged reason per key |
| ApophaticGuard.CheckDetailed | core/logic/apophatic_guard.py:69-103 | the detailed verdict agrees with `admissible` (`Admissible`), and it is true exactly when the only reasons are the warnings |
| ApophaticGuard.PutKeepsKeysUnique | core/logic/apophatic_guard.py:126 | a dictionary write keeps keys unique |
| ApophaticGuard.MergeKeepsKeysUnique | core/logic/apophatic_guard.py:55 | merging keeps keys unique |
| ApophaticGuard.ParamsOverrideContext | core/logic/apophatic_guard.py:51-55 | `Combined`: for every dotted key the parameters' value wins over the context's |
| ApophaticGuard.ParamsMaskContextConstraint | core/logic/apophatic_guard.py:55-66 | a constraint key set to `True` in the parameters hides a violating context value, while a forbidden key in the context still rejects |
| ApophaticGuard.NestedExampleFlattens | core/logic/apophatic_guard.py:152-158 | the self-test's nested parameters flatten to the single key "deep.deeper.ground_is" |
| ApophaticGuard.NestedForbiddenKeyIsAdmitted | core/logic/apophatic_guard.py:160-167 | that nested example is admitted by both `admissible` and `check_detailed`, though the self-test labels it as it should be invalid |
| ApophaticGuard.FlattenUnique | core/logic/apophatic_guard.py:51-55 | `Flatten` and `Combined` hold each dotted key once |
| WillKernels.KClamp | core/will/kernels.py:15-19 | the clamp never goes below the lower bound, stays within the bounds when they are ordered, leaves values inside them unchanged, and gives the lower bound when the bounds cross |
| WillKernels.ClampIdempotent | core/will/kernels.py:18-19 | clamping twice is clamping once, so the final `_clamp` of `weight_for` changes nothing |
| WillKernels.FloatParam | core/will/kernels.py:27 | a missing parameter gives its default, and `float()` succeeds exactly when the value read is numeric |
| WillKernels.ReversibilityBonus | core/will/kernels.py:21-22 | the factor is 0.90 or 1.05, and 0.90 when "reversible" is absent |
| WillKernels.ExternalityPenalty | core/will/kernels.py:24-29 | unpriced actions cost 1.20; priced ones at least 0.75, and exactly 0.75 when no coverage is given |
| WillKernels.PricingNeverCostsMore | core/will/kernels.py:24-29 | for coverage not below -0.8, a priced action's factor is never above the unpriced 1.20 |
| WillKernels.ScalePenaltyOf | core/will/kernels.py:31-34 | the scale factor lies in [1, 1.5]; it is 1 exactly at scale 1 or below and 1.5 exactly from scale 6 on |
| WillKernels.ScalePenaltyMonotone | core/will/kernels.py:31-34 | a larger scale never costs less |
| WillKernels.ScalePenalty | core/will/kernels.py:31-34 | read from the parameters, the scale factor lies in [1, 1.5], and is 1 with no scale given |
| WillKernels.RepairBonus | core/will/kernels.py:36-38 | a repair plan gives 0.90, anything else 1 |
| WillKernels.AestheticBonus | core/will/kernels.py:40-43 | the aesthetic factor lies in [0.90, 1], and is 1 with no coherence given |
| WillKernels.KernelNamed | core/will/kernels.py:138-148 | the dispatcher maps each of the nine names to its kernel and nothing else |
| WillKernels.KernelWeight | core/will/kernels.py:45-134 | a kernel raises exactly when its base computation raises, and otherwise its weight is the clamped base: inside ordered bounds, and the base itself when that is already inside them |
| WillKernels.GoldenGnomonRollbackPenalty | core/will/kernels.py:74-83 | without a rollback recipe the golden gnomon's base is exactly 1.20 times the base with one |
| WillKernels.RepairPlanDiscount | core/will/kernels.py:45-54 | a repair plan makes the base of the inverted tetrahedron, and of the folded voidstar (lines 124-134), exactly 0.90 times the base without |
| WillKernels.ReversibleMovesWeighLess | core/will/kernels.py:56-63 | for the spiral sphere, and the vanishing ellipse (lines 114-122), the reversible base and the irreversible base stand in the ratio 0.90 to 1.05 |
| WillKernels.SpiralSphereHalvesScale | core/will/kernels.py:56-63 | the spiral sphere penalises half the scale: up to scale 2 only the reversibility factor remains, and the factor never exceeds that of the full scale |
| WillKernels.VanishingEllipseFallsBackToState | core/will/kernels.py:114-122 | without `apophatic_nearby` the state's paradox flag decides and adds exactly ten per cent; with the key the state is not consulted |
| WillKernels.ActionObjectParams | core/will/kernels.py:159-163 | an action object's parameters are its params with "reversible" overwritten by its attribute (default True), "predicted_truth" filled in only when absent, and every other key kept |
| WillKernels.OperatorKernel | core/will/kernels.py:155-157 | an unknown operator or a missing "kernel" entry raises KeyError; otherwise the kernel is the one the operator's entry names |
| WillKernels.WeightFor | core/will/kernels.py:150-170 | an unknown operator raises KeyError, every weight stays within ordered bounds, and the weight is the named kernel applied to the extracted parameters |
| ProofCarryingAdvice.ForbiddenIn | core/proofs/proof_carrying_advice.py:25-28 | the forbidden keys reported are exactly the forbidden keys the parameters hold |
| ProofCarryingAdvice.ApophaticOk | core/proofs/proof_carrying_advice.py:23-33 | the parameters pass exactly when there are no reasons, which is exactly when no forbidden key is present and every constraint key present is `True` or "enforced" |
| ProofCarryingAdvice.ConsentOk | core/proofs/proof_carrying_advice.py:36-40 | a consent entry that is not a dictionary raises AttributeError; otherwise consent passes exactly when "valid" is `True` and the scope is one of the five scopes, with the matching message |
| ProofCarryingAdvice.MkProof | core/proofs/proof_carrying_advice.py:154-156 | a proof keeps its name, verdict and details, and its token is the hash of all three |
| ProofCarryingAdvice.PricerInputEntries | core/proofs/proof_carrying_advice.py:94-98 | the pricer sees the plan with "id" set to the draft's id and "rollback_recipe" to the plan's (or None), every other key as in the plan |
| ProofCarryingAdvice.HarmPressure | core/proofs/proof_carrying_advice.py:107-110 | the harm pressure is the sum of the energy and grace penalties when both are numbers, and a missing energy penalty raises KeyError |
| ProofCarryingAdvice.ExpectedCost | core/proofs/proof_carrying_advice.py:127 | externalities with non-negative expected costs give a non-negative total |
| ProofCarryingAdvice.ExternalsValue | core/proofs/proof_carrying_advice.py:103 | one serialised entry per externality |
| ProofCarryingAdvice.Risk | core/proofs/proof_carrying_advice.py:128 | risk is capped at 1, is non-negative for non-negative inputs, and is the blend itself below the cap |
| ProofCarryingAdvice.ConsentProof | core/proofs/proof_carrying_advice.py:85-87 | the consent proof exists exactly when `consent_ok` does not raise, is named "consent", passes exactly when consent passes, and carries its token |
| ProofCarryingAdvice.ApophaticProof | core/proofs/proof_carrying_advice.py:89-91 | the apophatic proof passes exactly when the parameters pass the local guard |
| ProofCarryingAdvice.ExternalitiesProof | core/proofs/proof_carrying_advice.py:93-104 | the externalities proof passes exactly when coverage reaches the threshold and the plan is rollback-ready |
| ProofCarryingAdvice.HarmsProof | core/proofs/proof_carrying_advice.py:106-118 | the harms proof exists exactly when the harm pressure can be computed, and passes exactly when it is at most 0.75 |
| ProofCarryingAdvice.RemembranceProof | core/proofs/proof_carrying_advice.py:120-123 | the remembrance proof passes exactly when RRI reaches 0.70 |
| ProofCarryingAdvice.GateProofNames | core/proofs/proof_carrying_advice.py:82-123 | the five proofs come in the order consent, apophatic, externalities, harms_ledger, remembrance, each with its token |
| ProofCarryingAdvice.GateProofVerdicts | core/proofs/proof_carrying_advice.py:82-123 | each of the five verdicts is exactly its gate's condition |
| ProofCarryingAdvice.Build | core/proofs/proof_carrying_advice.py:82-137 | `build` raises the consent error first and then the harm-pressure error, and succeeds exactly when neither arises; it returns the draft's id, the answer, the time, the five gate proofs and the risk from the expected cost and the harm pressure |
| DecisionCore.AllValid | core/planner/decision_core.py:100-102 | all tickets are valid exactly when each one is |
| DecisionCore.CheckConsent | core/planner/decision_core.py:100-103 | consent holds exactly when no ticket has outlived its lifetime as `is_valid` (lines 30-31) judges it, so vacuously with no tickets, and the info lists one dictionary per ticket |
| DecisionCore.CheckApophatic | core/planner/decision_core.py:105-109 | with no action, reading `action.params` raises AttributeError; with one, the verdict is the guard's `admissible`, reported under "apophatic_ok" |
| DecisionCore.ScoresOf | core/planner/decision_core.py:135-142 | the scoring loop succeeds exactly when every kernel weight does, then giving one entry per candidate in order; otherwise it raises the error of the first kernel weight that raises |
| DecisionCore.ScoredEntry | core/planner/decision_core.py:137-142 | a successful score of candidate `i` is that candidate with E·K, E and G computed from its own energy, kernel weight and grace |
| DecisionCore.ScoresErrPropagates | core/planner/decision_core.py:137-142 | once a kernel weight has raised, the later candidates do not change the outcome |
| DecisionCore.BestOf | core/planner/decision_core.py:144-150 | the scan picks an index among those seen, and none only when there are no candidates |
| DecisionCore.FallbackOf | core/planner/decision_core.py:156-161 | a fallback, when there is one, is a candidate whose ΔE is below the threshold |
| DecisionCore.MinimalCleanMove | core/planner/decision_core.py:128-166 | `minimal_clean_move` raises what scoring raises, and otherwise returns exactly the solver's move on the candidates' scores |
| DecisionCore.UnknownOperatorRaises | core/planner/decision_core.py:95-98 | with `kernel_weight` as `weight_for` under a will operator the kernels do not know (core/will/kernels.py:155), scoring raises KeyError as soon as there is a candidate |
| DecisionCore.KernelWeightsClamped | core/planner/decision_core.py:95-98 | with `kernel_weight` as `weight_for` and ordered clamp bounds, every shaped energy the solver compares is the candidate's energy times a weight inside the bounds |
| DecisionCore.PrecedesIsAStrictOrder | core/planner/decision_core.py:146 | the selection order (lower E·K, then higher G, then lower E) is irreflexive and transitive, and incomparable entries have equal scores |
| DecisionCore.GraceFirstIsAStrictOrder | core/planner/decision_core.py:160 | the fallback order (higher G, then lower E) is irreflexive and transitive, and incomparable entries tie on both |
| DecisionCore.BestOfIsFirstMinimum | core/planner/decision_core.py:144-147 | the selected candidate is preceded by no other, and strictly precedes every earlier one, so ties keep the first |
| DecisionCore.FallbackOfIsFirstMaxGrace | core/planner/decision_core.py:156-161 | there is no fallback exactly when no candidate's ΔE is below the threshold; otherwise it is the first viable candidate that no viable one beats by grace, as the stable sort picks |
| DecisionCore.CleanMoveMeetsThresholds | core/planner/decision_core.py:149-166 | `CleanMove` with no candidates gives no move, and every move chosen is a candidate whose ΔE is below the threshold and whose grace reaches the minimum |
| DecisionCore.CostlyWinnerBlocksTheRest | core/planner/decision_core.py:153-155 | in `CleanMove`, when the E·K winner fails the ΔE threshold there is no move, even if other candidates would pass |
| DecisionCore.CostlyWinnerExample | core/planner/decision_core.py:144-166 | a concrete pair where the cheaper-by-E·K candidate is too costly and blocks the other, which alone would be chosen |
| DecisionCore.FallbackWhenGraceless | core/planner/decision_core.py:156-164 | when the winner lacks grace, the fallback has the highest grace among viable candidates and is chosen exactly when it reaches the minimum |
| DecisionCore.PglDecide | core/planner/decision_core.py:170-187 | with no action the gate refuses exactly when the consent or apophatic flag is falsy (missing counts as true) and never answers; with one, T and B answer, N stands and F refuses |
| DecisionCore.OkAndConsent | core/planner/decision_core.py:199 | the consent proof's "ok" is the consent verdict, not shadowed by the ticket info |
| DecisionCore.RailsPassedChoice | core/planner/decision_core.py:217-235 | once the rails pass `decide` raises exactly what scoring raises; otherwise the result carries the solver's move, the truth is the chosen action's (N with none), and a repair horizon of `max_days` days is set exactly when a paradox is near |
| DecisionCore.RailsPassedDecision | core/planner/decision_core.py:236-250 | when scoring succeeds, the decision stands with no move and otherwise follows the move's truth; a ledger id is stored exactly when ledgers are required, under the action's description for an answer and the decision's name otherwise |
| DecisionCore.DecideFrom | core/planner/decision_core.py:193-250 | a raising rail propagates its error; a failed rail refuses with the rail flags as proofs and nothing chosen; passing rails give the solver's result, or the error the solver raises |
| DecisionCore.Decide | core/planner/decision_core.py:191-195 | `decide` always raises AttributeError, because the apophatic rail is called without an action |
| DecisionCore.ValidUntilExpiry | core/planner/decision_core.py:30-31 | `IsValid`: a ticket valid later is valid now, valid when issued exactly when its lifetime is not negative, and with a negative lifetime invalid from its issue time on |
| PglLoader.SubDict | core/planner/pgl_loader.py:44 | a missing section reads as an empty dictionary, and a present one is usable exactly when it is a dictionary |
| PglLoader.GraceFloor | core/planner/pgl_loader.py:33-51 | the floor of the zone (apophatic margin first, then paradox, then normal) is the configured value when present and 0.62, 0.60 or 0.55 otherwise; a non-dictionary floors section raises |
| PglLoader.MarginOverridesParadox | core/planner/pgl_loader.py:46-51 | the apophatic margin decides whether or not a paradox is near, and an empty configuration's normal floor is 0.55 |
| PglLoader.RepairHorizonDays | core/planner/pgl_loader.py:53-64 | without a repair-horizon section the days are (1, 14); otherwise each configured bound is taken as a number |
| PglLoader.RequiresCounterContext | core/planner/pgl_loader.py:66-79 | never required away from a paradox, and required by default near one |
| PglLoader.RequiresMicroMove | core/planner/pgl_loader.py:81-95 | never required away from a paradox, and required by default near one |
| PglLoader.MatchWhen | core/planner/pgl_loader.py:159-181 | the condition loop matches exactly when `WhenMatches` holds: every known key in `when` equals its flag |
| PglLoader.InValue | core/planner/pgl_loader.py:189-191 | `in` on the requirements tests list membership or dictionary keys, and raises TypeError on a number, a boolean or None |
| PglLoader.RuleOutcome | core/planner/pgl_loader.py:158-196 | a transition decides only with a truthy decision, and one whose conditions do not match never decides |
| PglLoader.ScanStands | core/planner/pgl_loader.py:158-199 | `ScanFrom`: when no remaining transition decides, the scan returns "Stand" |
| PglLoader.ScanFires | core/planner/pgl_loader.py:158-196 | `ScanFrom`: the first transition that decides gives the decision |
| PglLoader.ScanRaises | core/planner/pgl_loader.py:158-196 | `ScanFrom`: the first transition that raises, before any decides, gives its error |
| PglLoader.StateFlags | core/planner/pgl_loader.py:138-153 | without an action neither the energy nor the grace flag is set; the micro-move flag holds whenever no micro move is required; the consent and apophatic flags are the proofs' entries (default False); with an action the energy flag is a negative numeric ΔE |
| PglLoader.PglDecide | core/planner/pgl_loader.py:123-199 | a failure to compute the flags raises, and otherwise `pgl_decide` is the ordered scan of the transitions |
| PglLoader.ApplyRule | core/planner/pgl_loader.py:158-196 | the loop body for one transition gives exactly its outcome |
| PglLoader.MissingStateAttributes | core/planner/pgl_loader.py:141-146 | a state without `delta_E` and `grace` reads them as 0, so with the default floors neither flag is ever set |
| PglLoader.WhenIsConjunction | core/planner/pgl_loader.py:159-181 | `WhenMatches`: an empty `when` matches, joined clauses match exactly when each does, in either order, and an unrecognised key never blocks |
| ShadowTwin.WillInvertKeys | apps/contemplator/shadow_twin.py:13-23 | the inversion map covers exactly the nine will axes |
| ShadowTwin.WillInvertAlmostInvolution | apps/contemplator/shadow_twin.py:13-23 | inverting twice gives back every axis except TRANSCENSION (which comes back as POTENTIATION), and no axis inverts to TRANSCENSION |
| ShadowTwin.BudgetKeysDistinct | apps/contemplator/shadow_twin.py:78 | the six hardened budget lines are distinct |
| ShadowTwin.HardenLine | apps/contemplator/shadow_twin.py:79 | one hardened line becomes max(0.9, float(old value or 0.0)), fails exactly when that conversion fails, and leaves every other line unchanged |
| ShadowTwin.HardenBudget | apps/contemplator/shadow_twin.py:77-79 | hardening, which computes `HardenFrom` from the first line, fails exactly when some line fails to convert; otherwise every one of the six lines is hardened and every other entry is kept |
| ShadowTwin.WillTag | apps/contemplator/shadow_twin.py:73 | a missing will reads as the empty tag and a string will is upper-cased |
| ShadowTwin.InvertedParams | apps/contemplator/shadow_twin.py:74-75 | a known axis is replaced by its inversion, and parameters with an unknown axis are unchanged |
| ShadowTwin.CounterPlanEntries | apps/contemplator/shadow_twin.py:70-80 | `CounterPlan`: the counter plan holds the hardened budget, a rollback recipe set only when absent, and every other entry of the plan |
| ShadowTwin.Invert | apps/contemplator/shadow_twin.py:69-82 | `_invert` fails with the will tag's error, with AttributeError when the plan's budget is not a dictionary, or when a line does not convert; otherwise the counter draft keeps query and context, takes id `<id>:counter`, inverts the will, and holds a budget whose six lines are hardened and whose other entries are kept; the caller's plan is `CallerPlanAfter` (the shared inner dictionary sees the hardened budget) |
| ShadowTwin.CounterAnswer | apps/contemplator/shadow_twin.py:84-86 | the counter answer is the answer behind the 14-character prefix `COUNTER-MOVE: ` |
| ShadowTwin.LastIndex | apps/contemplator/shadow_twin.py:90 | the dictionary built from the proofs keeps the last proof of each name, and a name with no proof is absent |
| ShadowTwin.HardOkOnGateList | apps/contemplator/shadow_twin.py:88-91 | `HardOk`: on the standard five proofs, the hard gates pass exactly when the consent, apophatic and externalities proofs all pass |
| ShadowTwin.Select | apps/contemplator/shadow_twin.py:50-59 | the side that alone passes the hard gates is picked; otherwise the primary wins exactly when its risk is not higher |
| ShadowTwin.SelectPrefersGatesThenRisk | apps/contemplator/shadow_twin.py:45-59 | a gate-passing side is always picked when there is one, and among equals the pick has the lower risk |
| ShadowTwin.ApophaticIgnoresOtherKeys | core/proofs/proof_carrying_advice.py:21-34 | setting a parameter that is neither forbidden nor constraint-only does not change the apophatic verdict |
| ShadowTwin.InvertedParamsKeepApophatic | apps/contemplator/shadow_twin.py:74-75 | inverting the will does not change the apophatic verdict |
| ShadowTwin.CounterKeepsSharedGates | apps/contemplator/shadow_twin.py:81-82 | the counter draft has the same consent proof and the same apophatic verdict as the primary |
| ShadowTwin.Twin | apps/contemplator/shadow_twin.py:47-66 | the result holds both advices, the selection policy's pick on their hard gates and risks, and a rationale recording both hard-gate verdicts and both risks |
| ShadowTwin.Contemplate | apps/contemplator/shadow_twin.py:36-66 | `contemplate` raises the consent error of the context or the harm-pressure error, both before the caller's plan is touched, and otherwise the inversion's error; on success the primary and the counter carry their gate proofs, the counter has the counter id and answer; each side's risk is `build`'s blend of its own assessment's expected cost and the harm pressure, and its decision time the clock reading of its own `build`; and the selection follows the policy on those risks |
| ShadowTwin.HardenedLine | apps/contemplator/shadow_twin.py:79 | a hardened line is at least 0.9 and at least its old value (0.0 when missing), and fails exactly when the old value is not a number |
| ShadowTwin.OldBudget | apps/contemplator/shadow_twin.py:77 | the budget hardened is the plan's `budget_lines`, or a new empty dictionary when there is none |
| ShadowTwin.CounterDraft | apps/contemplator/shadow_twin.py:69-82 | a counter draft has id `<id>:counter` and keeps the query and the context |
| ShadowTwin.CallerPlanAfter | apps/contemplator/shadow_twin.py:70-79 | the caller's plan changes at most in `budget_lines`, and not at all when it had none |
| ShadowTwin.Verdict | apps/contemplator/shadow_twin.py:90-91 | a name has no verdict exactly when no proof has it, and otherwise the verdict of its last proof |
| ParadoxDetector.FeatureValues | core/logic/paradox_detector.py:185-205 | there is one value for each of the twelve named features |
| ParadoxDetector.StrongFeatures | core/logic/paradox_detector.py:271 | the feature properties keep only features whose score is above 0.5 |
| ParadoxDetector.FeatureLevels | core/logic/paradox_detector.py:207-241 | self-reference is 0.8 exactly when the context or the action asks for it, negation is 0.9 exactly when it comes with self-reference, each other raised feature takes its one fixed level, and circularity, identity confusion, modal collapse, temporal loop and superposition stay at 0 |
| ParadoxDetector.ExtractFeatures | core/logic/paradox_detector.py:177-241 | the feature extraction computes the features of the context, the action and the state |
| ParadoxDetector.RaiseOthers | core/logic/paradox_detector.py:218-239 | the ethical, harm, vagueness, principle-conflict and epistemic checks raise exactly those five features to their levels and leave the rest |
| ParadoxDetector.NegatedPairs | core/logic/paradox_detector.py:250-256 | the assertion scan finds at most one pair per assertion |
| ParadoxDetector.NegatedPairsFindsEveryPair | core/logic/paradox_detector.py:252-255 | every assertion whose `not_` form is also asserted is reported as a pair |
| ParadoxDetector.DetectLogical | core/logic/paradox_detector.py:243-273 | the logical detection computes the logical signature of the features and the context |
| ParadoxDetector.AssertedNegationIsAContradiction | core/logic/paradox_detector.py:250-268 | an assertion and its negation make a logical signature with that pair and proximity at least 0.85 |
| ParadoxDetector.LiarPattern | core/logic/paradox_detector.py:208-216 | a self-referential negating context is the liar pattern: proximity 0.9 with the (self_reference, negation) pair |
| ParadoxDetector.LogicalProximityLevels | core/logic/paradox_detector.py:246-265 | the logical proximity is always 0, 0.85 or 0.9, since circularity is never raised |
| ParadoxDetector.PyIn | core/logic/paradox_detector.py:296-298 | `in` tests list membership by equality and dictionary keys |
| ParadoxDetector.Index | core/logic/paradox_detector.py:297-300 | indexing a dictionary gives the entry or KeyError, and indexing anything else raises TypeError |
| ParadoxDetector.DetectEthical | core/logic/paradox_detector.py:275-310 | the ethical detection computes the ethical signature, with the errors the principles loop raises |
| ParadoxDetector.ScanRow | core/logic/paradox_detector.py:295-302 | the inner loop over the later principles gives the row scan and only adds pairs |
| ParadoxDetector.RowScanKeeps | core/logic/paradox_detector.py:295-302 | the inner loop keeps what was found and reports every conflicting later principle |
| ParadoxDetector.PairScanKeeps | core/logic/paradox_detector.py:294-302 | the outer loop keeps what was found and reports every conflicting pair from its row on |
| ParadoxDetector.ConflictingPrinciplesAreReported | core/logic/paradox_detector.py:291-302 | a principle that conflicts with a later one is reported and sets the ethical proximity to 0.8 |
| ParadoxDetector.EthicalOnlyFromPrinciples | core/logic/paradox_detector.py:281-302 | since harm never exceeds 0.6 and tension never exceeds 0.7, the ethical proximity is 0.8 when principles conflict and 0 otherwise |
| ParadoxDetector.ElementScore | core/logic/paradox_detector.py:323-326 | an element adds nothing or a feature score above 0.5 |
| ParadoxDetector.BestPattern | core/logic/paradox_detector.py:315-334 | the best pattern is the first with the largest positive score, and no pattern scores more |
| ParadoxDetector.MatchScore | core/logic/paradox_detector.py:320-330 | the pattern loop computes the mean of the strong element scores |
| ParadoxDetector.DetectPattern | core/logic/paradox_detector.py:312-352 | the pattern detection computes the pattern signature |
| ParadoxDetector.PatternReportedAboveThreshold | core/logic/paradox_detector.py:336-352 | a pattern is reported exactly when some pattern scores above 0.4, with confidence equal to its proximity and no pattern scoring more |
| ParadoxDetector.StrongestHasLargestRank | core/logic/paradox_detector.py:138-141 | `detect` picks the signature with the largest proximity·confidence (the earlier one on a tie) when its proximity is positive, and the empty signature otherwise |
| ParadoxDetector.Detector.constructor | core/logic/paradox_detector.py:68-71 | a new detector has an empty history |
| ParadoxDetector.Detector.Detect | core/logic/paradox_detector.py:103-146 | `detect` returns the strongest signature and appends it to the history; an error leaves the history unchanged |
| ParadoxDetector.Detector.IsNearParadox | core/logic/paradox_detector.py:148-160 | near a paradox exactly when the proximity is at least 0.6 |
| ParadoxDetector.Detector.IsInApophaticMargin | core/logic/paradox_detector.py:162-175 | in the apophatic margin exactly when the proximity is at least 0.8 |
| ParadoxDetector.ReportFlags | core/logic/paradox_detector.py:379-386 | the report flags a nearby paradox at 0.6 and the apophatic margin at 0.8 and carries the proximity |
| ParadoxDetector.DetectParadoxProximity | core/logic/paradox_detector.py:365-386 | the module function reports the detector's signature with both flags and records it in the history |
| CandidateScorer.ConsentCheck | core/metrics/candidate_scorer.py:213-218 | the local consent check passes, fails or raises exactly as the proof builder's consent gate does: a valid consent with a recognised scope |
| CandidateScorer.HasForbiddenKeyIff | core/metrics/candidate_scorer.py:228-230 | the first scan exits early exactly when some forbidden key is a top-level parameter |
| CandidateScorer.ConstraintViolatedIff | core/metrics/candidate_scorer.py:232-234 | the second scan exits early exactly when a present constraint-only key holds something other than True or "enforced" |
| CandidateScorer.ApophaticCheckMirrorsBuilder | core/metrics/candidate_scorer.py:220-235 | the local apophatic check admits exactly what the proof builder's apophatic gate admits |
| CandidateScorer.ApophaticCheck | core/metrics/candidate_scorer.py:220-235 | the two scans with early exits compute the apophatic verdict |
| CandidateScorer.RailBase | core/metrics/candidate_scorer.py:84-90 | the base cost lies in [0.1, 0.9] and is 0.1 exactly when all three rails pass |
| CandidateScorer.CandidateRisk | core/metrics/candidate_scorer.py:93-96 | the risk parameter (0.1 by default) must be numeric, else the scoring raises; an unpriced candidate's risk is that number, a priced one's is raised by 0.2 times the uncovered share and capped at 0.8, and a non-negative risk at coverage at most 1 stays non-negative |
| CandidateScorer.Energy | core/metrics/candidate_scorer.py:40-105 | `energy(state, action)` computes the candidate's Δ𝓔 or its error |
| CandidateScorer.BaseCost | core/metrics/candidate_scorer.py:84-90 | the three conditional additions compute the rail base cost |
| CandidateScorer.FailingRailsLowerEnergy | core/metrics/candidate_scorer.py:84-105 | a failed consent, apophatic or coverage rail lowers Δ𝓔 by 0.35, 0.25 or 0.20 |
| CandidateScorer.EnergyIsNegative | core/metrics/candidate_scorer.py:102-105 | with non-negative risk and penalty Δ𝓔 is at most -0.1, and equals -0.1 exactly for a riskless, penalty-free candidate passing every rail |
| CandidateScorer.EnergyRails | core/metrics/candidate_scorer.py:61-105 | `EnergyOf`: energy fails exactly on a consent error or a non-numeric coverage, risk or penalty, and is otherwise the rail formula with coverage rail at 0.5 |
| CandidateScorer.WeightsOf | core/metrics/candidate_scorer.py:19-24 | missing or empty weights give the defaults 0.55, 0.25, 0.10 and 0.25 |
| CandidateScorer.GraceFrom | core/metrics/candidate_scorer.py:143-149 | the weighted grace is clamped to [0, 1] |
| CandidateScorer.GraceOf | core/metrics/candidate_scorer.py:107-151 | grace lies in [0, 1] and fails exactly on a non-numeric weight, coverage, target, risk or penalty |
| CandidateScorer.RepairAndRollbackRaiseGrace | core/metrics/candidate_scorer.py:138-148 | a repair plan never lowers grace, and neither does a rollback recipe under a non-negative weight |
| CandidateScorer.DefaultWeightsSumBelowOne | core/metrics/candidate_scorer.py:19-24 | with the default weights grace never exceeds 0.98 |
| CandidateScorer.DefaultGraceAtMost | core/metrics/candidate_scorer.py:120-151 | default-weighted grace is at most 0.98 and attains it for a fully covered, riskless candidate with rollback and repair |
| CandidateScorer.SimulatePcaForCandidate | core/metrics/candidate_scorer.py:153-209 | the wrapper (`SimulatedAdvice`, built by `SimulatedFrom`) fails exactly on a consent error or a non-numeric coverage, and carries id `candidate:<id>`, the description, the raw risk, decided_at 0, and the consent, apophatic and externalities proofs, the last passing exactly at coverage 0.75 |
| EnergyDelta.ThresholdIsInclusive | core/metrics/energy_delta.py:101-111 | `CheckThreshold`: the threshold itself passes, a passing Δ𝓔 is negative under a negative threshold, and with the default vows a move passes exactly at Δ𝓔 ≤ -0.05 |
| EnergyDelta.BaseCost | core/metrics/energy_delta.py:115-131 | an explicit energy cost is converted as given; otherwise the cost lies in [0.1, 1.0] and is 0.1 with no description |
| EnergyDelta.RailViolationsCost | core/metrics/energy_delta.py:133-165 | a non-numeric coverage raises; otherwise the cost lies in [0, 0.8] and is 0 exactly when every ticket is valid, the guard admits the parameters and the coverage, if any parameters, reaches 0.75 |
| EnergyDelta.HarmPressureCost | core/metrics/energy_delta.py:167-176 | the ledger's energy penalty is used when available, and 0.15 when the ledger raises |
| EnergyDelta.RiskCost | core/metrics/energy_delta.py:178-193 | an explicit risk is converted, a priced action without one costs 0.5 - 0.5·coverage, and any other action costs 0.2 |
| EnergyDelta.DeltaFrom | core/metrics/energy_delta.py:85-99 | Δ𝓔 raises the error of the first part that fails, in the order base cost, rail cost, risk cost, then the harm pressure that is not a number (TypeError), then the kernel weight's error, and succeeds exactly when every part and the kernel weight succeed |
| EnergyDelta.DeltaEnergyNonPositive | core/metrics/energy_delta.py:59-99 | with non-negative weights, parts and kernel weight, `TotalCost` is not negative and Δ𝓔 is never positive |
| EnergyDelta.DeltaEnergyOfActionNonPositive | core/metrics/energy_delta.py:59-99 | `DeltaEnergy`, `delta_energy` of an action with non-negative costs and a kernel floor of at least 0 is never positive |
| EnergyDelta.DeltaEnergyExample | core/metrics/energy_delta.py:30-57 | with the default vows, a base cost of 0.3, no rail violation, the fallback harm pressure, risk 0.1 and weight 1, Δ𝓔 is -0.39 |
| EnergyDelta.HarmPressureFallback | core/metrics/energy_delta.py:167-176 | an unavailable ledger or one without an energy penalty costs 0.15 |
| UnifiedExternality.PostInit | core/ethics/unified_externality.py:42-47 | a missing list becomes empty and the net value is the positive value less the negative one |
| UnifiedExternality.TechBonusNeverApplies | core/ethics/unified_externality.py:49-60 | the assessment's dictionary never has a `tech_ethics_assessed` key, so the technical-ethics bonus in the alignment never applies |
| UnifiedExternality.ParseExternality | core/ethics/unified_externality.py:168 | an externality is built from a dictionary exactly when its id, description and type are strings, its magnitude is numeric, its counts are absent, None or integral and its notes absent, None or a string; it takes its id, type, magnitude and counts from those entries |
| UnifiedExternality.FromParamsKind | core/ethics/unified_externality.py:164-175 | `FromParams`: every externality collected from the parameters has the asked type |
| UnifiedExternality.ParamsNotDeduplicated | core/ethics/unified_externality.py:164-175 | the same entry listed twice in the parameters is collected twice |
| UnifiedExternality.ContextSkipsCollectedIds | core/ethics/unified_externality.py:178-193 | `FromContext`: the context scan keeps what was already collected, and each entry it adds has an id not collected before it |
| UnifiedExternality.RegisterAllFacts | core/ethics/unified_externality.py:171-172 | `RegisterAll`: registering what was collected keeps every registered id and registers every collected id, and nothing else |
| UnifiedExternality.RegisterAllKeepsFirst | core/ethics/unified_externality.py:171-172 | a newly registered id holds the first externality collected with it |
| UnifiedExternality.SumScores | core/ethics/unified_externality.py:123-124 | the sum succeeds when every id is registered, and the sum of absolute values is non-negative |
| UnifiedExternality.SumScoresErrPropagates | core/ethics/unified_externality.py:123-124 | the first unregistered id's error is the error of the whole sum |
| UnifiedExternality.ComplexityBase | core/ethics/unified_externality.py:210-216 | the base count is never below 2 |
| UnifiedExternality.MarkerSumBounds | core/ethics/unified_externality.py:226-228 | `MarkerSum`: the markers add between 0 and the sum of their weights |
| UnifiedExternality.MarkerSumAbsent | core/ethics/unified_externality.py:226-228 | absent markers add nothing |
| UnifiedExternality.ExpectedCountBounds | core/ethics/unified_externality.py:197-230 | the expected count lies between the base and the base plus 6, and is 2 for plain inputs |
| UnifiedExternality.EstimateCoverage | core/ethics/unified_externality.py:197-230 | the marker loop computes the expected count |
| UnifiedExternality.Coverage | core/ethics/unified_externality.py:128-130 | coverage lies in [0, 1] and is 1 once the collected count reaches the expected one |
| UnifiedExternality.RriAlignment | core/ethics/unified_externality.py:232-272 | the alignment raises ZeroDivisionError exactly when the minimum positive ratio is 0 |
| UnifiedExternality.RriAlignmentUnderFallback | core/ethics/unified_externality.py:89-96 | with the fallback targets the alignment lies in [0, 0.69], is 0 without positives, and is 0.5 plus the social and coverage bonuses once a quarter of the externalities are positive |
| UnifiedExternality.ShareBounds | core/ethics/unified_externality.py:248-254 | the positive ratio lies in [0, 1] and its score saturates at a quarter |
| UnifiedExternality.CoveragePenalty | core/ethics/unified_externality.py:136-138 | the penalty is the coverage below the threshold and 1 at or above it |
| UnifiedExternality.AssessFrom | core/ethics/unified_externality.py:113-130 | the assessment holds both lists, their values with a non-negative negative value and their difference as net value, and the coverage of the collected count |
| UnifiedExternality.Finish | core/ethics/unified_externality.py:132-143 | finishing sets only the alignment and the total score `TotalScore`, the latter the net value times the coverage penalty times (0.5 + 0.5·alignment) |
| UnifiedExternality.AssessRaisesOnlyOnZeroRatio | core/ethics/unified_externality.py:102-145 | `assess` raises exactly when the minimum positive ratio is 0 |
| UnifiedExternality.UnifiedPricer.constructor | core/ethics/unified_externality.py:69-72 | a new unified pricer has the given targets and an empty registry |
| UnifiedExternality.UnifiedPricer.Register | core/ethics/unified_externality.py:98-100 | registering a known id raises ValueError and changes nothing; a new one is added |
| UnifiedExternality.UnifiedPricer.Collect | core/ethics/unified_externality.py:169-172 | collecting one externality appends it and registers it when its id is new |
| UnifiedExternality.UnifiedPricer.ExtractExternalities | core/ethics/unified_externality.py:147-195 | the extraction returns `Extracted`: the parameters' entries of the type and then the context's new ones, registering every new id |
| UnifiedExternality.UnifiedPricer.SumValueScores | core/ethics/unified_externality.py:123-124 | the loop computes the sum of value scores |
| UnifiedExternality.UnifiedPricer.Valuate | core/ethics/unified_externality.py:119-130 | the valuation computes the assessment's values and coverage |
| UnifiedExternality.UnifiedPricer.Score | core/ethics/unified_externality.py:132-143 | scoring computes the alignment and the total |
| UnifiedExternality.UnifiedPricer.Assess | core/ethics/unified_externality.py:102-145 | `assess` registers every new id it collects and returns the finished assessment |
| UnifiedExternality.TotalScoreBounds | core/ethics/unified_externality.py:140-143 | with a penalty and an alignment in [0, 1] the total keeps the net value's sign and is no larger in magnitude, is at least half of it without a penalty, and is the net value itself without a penalty at full alignment |
| UnifiedExternality.OptionalInt | core/ethics/externality_pricer.py:20-21 | an `Optional[int]` field is None when absent or None, and otherwise an integer equal to the value; a float is accepted exactly when it has no fractional part |
| RriTargets.Missing | core/ethics/rri_targets.py:165 | the missing dimensions are exactly the listed ones without a score |
| RriTargets.NoneMissing | core/ethics/rri_targets.py:165-172 | nothing is missing when every dimension has a score |
| RriTargets.MissingKeepsOrder | core/ethics/rri_targets.py:165 | the missing dimensions are reported in the order of the dimension list |
| RriTargets.WeightedSum | core/ethics/rri_targets.py:186 | the weighted sum succeeds exactly when every dimension has a numeric score |
| RriTargets.DimensionScores | core/ethics/rri_targets.py:195 | the reported scores list each dimension with its own score, in order |
| RriTargets.Validate | core/ethics/rri_targets.py:151-197 | a missing dimension gives a non-compliant report naming the missing ones; otherwise the report carries the weighted score as its `Overall` score, `IsCompliant` exactly at 0.65 or more, and gives the matching reason |
| RriTargets.ComplianceReadsOnlyWeights | core/ethics/rri_targets.py:175-184 | compliance depends only on the four component weights of the configuration |
| RriTargets.WeightedSumSameWeights | core/ethics/rri_targets.py:175-186 | two configurations with the same weights give the same weighted sum |
| RriTargets.WeightedSumMonotone | core/ethics/rri_targets.py:186 | with non-negative weights, raising scores never lowers the weighted sum |
| RriTargets.ComplianceIsUpwardClosed | core/ethics/rri_targets.py:186-190 | with non-negative weights, scores at least as high as compliant ones are compliant |
| RriTargets.Manager.constructor | core/ethics/rri_targets.py:72-75 | a new manager has the loaded configuration and no overrides |
| RriTargets.Manager.GetConfig | core/ethics/rri_targets.py:114-126 | a non-empty component with an override gets it, and everything else gets the shared configuration |
| RriTargets.Manager.RegisterComponentOverride | core/ethics/rri_targets.py:128-136 | registering sets that component's override only: a non-empty component then gets it, and every other component and the unnamed lookup get what they got before |
| RriTargets.Manager.ValidateRriCompliance | core/ethics/rri_targets.py:151-197 | validation reads the shared configuration, never an override |
| RriTargets.WeightOfEach | core/ethics/rri_targets.py:174-184 | `Weight`: the four process dimensions weigh 0.15 and the four impact dimensions half their configured weight |
| RriTargets.DimensionSum | core/ethics/rri_targets.py:174-186 | the eight weights add up to 0.6 plus half the four configured weights |
| RriTargets.DimensionWeights | core/ethics/rri_targets.py:174-186 | and so to 1.725 with the default configuration, more than 1 |
| RriTargets.WeightedSumUniform | core/ethics/rri_targets.py:186 | a component scoring the same on every dimension has a weighted sum, the uniform one |
| RriTargets.DefaultUniformSum | core/ethics/rri_targets.py:174-186 | under the defaults a uniform score `s` sums to `1.725 * s` |
| RriTargets.UniformCompliance | core/ethics/rri_targets.py:186-190 | under the defaults a uniform score `s` gives an overall score of `1.725 * s`, above 1 for a perfect score; 0.38 everywhere is compliant and 0.37 is not |
| RriTargets.JoinLength | core/ethics/rri_targets.py:171 | `Join` writes every missing name, starting with the first, with ", " between neighbours |
| HypergraphStore.FindNode | core/memory/hyperedges_sqlite.py:115-122 | a node is found exactly when some row has the id, and the row found has it |
| HypergraphStore.NodePayload | core/memory/hyperedges_sqlite.py:124-131 | the payload is there exactly when the node is, and is that node's payload |
| HypergraphStore.UpsertNode | core/memory/hyperedges_sqlite.py:106-110 | a new id appends a row created and modified now |
| HypergraphStore.UpsertNodeFacts | core/memory/hyperedges_sqlite.py:88-113 | after `add_node` the id holds the new label, layer and payload, keeps its creation time when it existed and is modified now; every other id is unchanged, and an update adds no row |
| HypergraphStore.UpsertKeepsIdsUnique | core/memory/hyperedges_sqlite.py:49 | `add_node` keeps node ids unique (the primary key) |
| HypergraphStore.Limit | core/memory/hyperedges_sqlite.py:141 | `LIMIT` keeps a prefix of at most the limit rows, and a negative limit keeps every row |
| HypergraphStore.InLayer | core/memory/hyperedges_sqlite.py:136-148 | the layer filter keeps exactly the rows of the layer, and every row for no or an empty layer |
| HypergraphStore.FindNodes | core/memory/hyperedges_sqlite.py:133-150 | `find_nodes` lists at most the limit rows, all stored and of the layer, most recently modified first |
| HypergraphStore.ConnectionsFor | core/memory/hyperedges_sqlite.py:171-183 | one connection row per endpoint, in order, on the given side |
| HypergraphStore.Connect | core/memory/hyperedges_sqlite.py:171-183 | the inserts keep the rows already there as a prefix, add at most one row per endpoint, and every added row is for this edge on the given side |
| HypergraphStore.ConnectFresh | core/memory/hyperedges_sqlite.py:171-183 | distinct endpoints not yet connected are all inserted |
| HypergraphStore.ConnectRejectsRepeat | core/memory/hyperedges_sqlite.py:76 | an endpoint listed twice breaks the primary key and raises |
| HypergraphStore.ConnectStopsOnRepeat | core/memory/hyperedges_sqlite.py:76 | an endpoint already connected on that side raises |
| HypergraphStore.ConnectKeepsWellFormed | core/memory/hyperedges_sqlite.py:70-77 | inserting connections keeps every row pointing at an existing edge and keeps the primary key |
| HypergraphStore.OldRowsBelongToOldEdges | core/memory/hyperedges_sqlite.py:61 | no existing connection points at the next edge id |
| HypergraphStore.EdgeConnectionsFresh | core/memory/hyperedges_sqlite.py:153-186 | a new edge's connections succeed exactly when its sources and its targets are each distinct, and then are its source rows then its target rows |
| HypergraphStore.Selected | core/memory/hyperedges_sqlite.py:228-243 | the selection keeps exactly the edges touching `around` (when given) and of the type (when given) |
| HypergraphStore.Endpoints | core/memory/hyperedges_sqlite.py:257-270 | an edge's endpoints are exactly the existing nodes connected to it on that side |
| HypergraphStore.EdgeRowsFacts | core/memory/hyperedges_sqlite.py:228-248 | the query's rows (`EdgeRows`) are at most the limit rows, all selected, newest first, and without repeats when the selection has none |
| HypergraphStore.TopRowsFacts | core/memory/hyperedges_sqlite.py:245-248 | `ORDER BY created_ts DESC LIMIT ?` keeps at most the limit rows, all from the selection, newest first, without introducing repeats |
| HypergraphStore.TopFacts | core/memory/hyperedges_sqlite.py:245 | ordering by a key and limiting keeps at most the limit elements, all from the input, in descending key order, without introducing repeats |
| HypergraphStore.Views | core/memory/hyperedges_sqlite.py:251-274 | one view per row, each with the row's sources and targets |
| HypergraphStore.SelectedDistinct | core/memory/hyperedges_sqlite.py:228 | `DISTINCT`: a selection from distinct rows is distinct |
| HypergraphStore.DenseRowsAreDistinct | core/memory/hyperedges_sqlite.py:61 | edges numbered 1, 2, … are distinct rows |
| HypergraphStore.DistinctEdgeRowsHaveDistinctIds | core/memory/hyperedges_sqlite.py:61 | distinct stored edge rows have distinct ids |
| HypergraphStore.EdgesQueryFacts | core/memory/hyperedges_sqlite.py:221-276 | `get_edges(around=…)` (`EdgesQuery`) lists at most the limit edges, each touching the node and of the type, without repeated ids, newest first, with only existing nodes as endpoints |
| HypergraphStore.QueryRowsFacts | core/memory/hyperedges_sqlite.py:228-248 | the rows behind `get_edges(around=…)` are at most the limit, each touching the node and of the type, with distinct ids, newest first |
| HypergraphStore.ViewsOfRows | core/memory/hyperedges_sqlite.py:251-274 | joining such rows with their endpoints keeps those facts and lists only endpoints with a node row |
| HypergraphStore.Extend | core/memory/hyperedges_sqlite.py:299-308 | the endpoint loop does not change the visited edges |
| HypergraphStore.Forward | core/memory/hyperedges_sqlite.py:293-308 | the edge loop only adds to the visited edges, and every edge of the list is visited afterwards |
| HypergraphStore.Backward | core/memory/hyperedges_sqlite.py:311-327 | the reverse edge loop only adds to the visited edges, and every edge of the list is visited afterwards |
| HypergraphStore.ExpandAll | core/memory/hyperedges_sqlite.py:287-327 | one depth of the search only adds to the visited edges |
| HypergraphStore.BackwardIsIdle | core/memory/hyperedges_sqlite.py:311-316 | the reverse loop meets only visited edges and changes nothing |
| HypergraphStore.OnlyForwardMoves | core/memory/hyperedges_sqlite.py:292-327 | since both loops get the same edges, one depth of the search is its forward loop alone |
| HypergraphStore.ExtendedPath | core/memory/hyperedges_sqlite.py:304 | a path extended by an edge around its last node and an existing endpoint is a path to that endpoint |
| HypergraphStore.ExtendSound | core/memory/hyperedges_sqlite.py:299-308 | every found path and frontier path the endpoint loop adds is a path from the start |
| HypergraphStore.ForwardSound | core/memory/hyperedges_sqlite.py:293-308 | the same holds for the edge loop |
| HypergraphStore.ForwardAllSound | core/memory/hyperedges_sqlite.py:287-308 | the same holds for one depth |
| HypergraphStore.SearchSound | core/memory/hyperedges_sqlite.py:285-336 | the depth loop (`Search`): from a frontier of paths of one length, every path it returns starts at the start node, ends at the end node, and all have the same length |
| HypergraphStore.PathsBetweenAreShortestFound | core/memory/hyperedges_sqlite.py:278-336 | `find_paths` (`PathsBetween`) returns same-length paths from the start to the end node, and nothing for a depth bound below 1 |
| HypergraphStore.ExpandedFacts | core/memory/hyperedges_sqlite.py:294-297 | the edge loop visits distinct new edges, and the visited set grows by exactly those |
| HypergraphStore.ExpandedAllFacts | core/memory/hyperedges_sqlite.py:287-297 | the same holds for one depth |
| HypergraphStore.EachEdgeExpandedOnce | core/memory/hyperedges_sqlite.py:281-297 | across the whole search no edge is expanded twice |
| HypergraphStore.Hypergraph.constructor | core/memory/hyperedges_sqlite.py:36-85 | a new database has three empty tables |
| HypergraphStore.LabelError | core/memory/hyperedges_sqlite.py:49-50 | a node label is refused exactly when it is None (IntegrityError from `label TEXT NOT NULL`), a list or a dictionary (not bindable); a string is accepted |
| HypergraphStore.Hypergraph.AddNode | core/memory/hyperedges_sqlite.py:88-113 | `add_node` upserts the node row and returns its id, or raises the label's error with the tables unchanged; the edge tables are never touched |
| HypergraphStore.Hypergraph.AddEdge | core/memory/hyperedges_sqlite.py:153-186 | `add_edge` appends the edge with the next id, then its connections, and returns the id or the IntegrityError of a repeated endpoint |
| HypergraphStore.Hypergraph.GetEdges | core/memory/hyperedges_sqlite.py:221-276 | the loop builds the view of each listed edge |
| HypergraphStore.Hypergraph.ViewAll | core/memory/hyperedges_sqlite.py:251-274 | the loop over the returned rows builds the view of each, in order |
| HypergraphStore.Hypergraph.ViewRow | core/memory/hyperedges_sqlite.py:252-271 | one round of that loop reads the row's sources, then its targets |
| HypergraphStore.Hypergraph.ConnectedEdges | core/memory/hyperedges_sqlite.py:338-340 | the connected edges are the edges around the node, whichever side is asked |
| HypergraphStore.Hypergraph.ExtendBy | core/memory/hyperedges_sqlite.py:299-308 | the endpoint loop computes the extension |
| HypergraphStore.Hypergraph.FollowOut | core/memory/hyperedges_sqlite.py:292-308 | the forward loop computes the forward step |
| HypergraphStore.Hypergraph.FollowIn | core/memory/hyperedges_sqlite.py:311-327 | the reverse loop computes the backward step |
| HypergraphStore.Hypergraph.ExpandLevel | core/memory/hyperedges_sqlite.py:286-327 | the loop over the frontier computes one depth |
| HypergraphStore.Hypergraph.FindPaths | core/memory/hyperedges_sqlite.py:278-336 | the search loop with its early returns computes `find_paths` |
| HypergraphStore.Hypergraph.SearchFrom | core/memory/hyperedges_sqlite.py:285-336 | the depth loop with its early returns computes the search from its frontier, visited set and bound |
| Lattice.NormalizeScore | core/memory/lattice.py:176-181 | a raw score in [0, 2] is taken as a distance and mapped to exp(-raw); below 0 it is 0 and above 2 it is 1; with an exp in range the result lies in [0, 1] |
| Lattice.ItemScore | core/memory/lattice.py:153-155 | a non-anchor layer keeps the normalised score, and an anchor layer adds the bias capped at 1 |
| Lattice.FallbackHits | core/memory/lattice.py:149 | without the vector database, each hypergraph node of the layer is a hit with raw score 0 and its payload |
| Lattice.ItemsOf | core/memory/lattice.py:151-157 | one memory item per hit, in order |
| Lattice.FallbackScoresOne | core/memory/lattice.py:147-155 | fallback hits always score 1, since exp(0) = 1 |
| Lattice.Lookup | core/memory/lattice.py:158 | a key is found exactly when some entry has it |
| Lattice.Assign | core/memory/lattice.py:158 | assigning sets the key and leaves every other key; a new key is appended at the end and an existing one keeps its place |
| Lattice.TabulateLookup | core/memory/lattice.py:139 | a layer dictionary built from a list has exactly the listed keys, each with its value |
| Lattice.TabulateInOrder | core/memory/lattice.py:139 | for distinct keys, the dictionary lists them in order |
| Lattice.SumNonNegative | core/memory/anamnesis_engine.py:393 | a sum of non-negative counts is non-negative |
| Lattice.TermBelowSum | core/memory/anamnesis_engine.py:393 | one non-negative count is at most the sum |
| Lattice.BestScore | core/memory/lattice.py:158 | the best score of an id is non-negative, at least every score it has, and 0 or one of them |
| Lattice.MergeIsMax | core/memory/lattice.py:158 | `MergeItems` sets each contributing id to the larger of its old score and its best new score, and leaves every other id |
| Lattice.MergeConcat | core/memory/lattice.py:142-158 | merging two lists in turn is merging their concatenation |
| Lattice.ScanMerges | core/memory/lattice.py:142-158 | `Scan`, the layer loop, merges the items of every queried layer |
| Lattice.ScanSortsLayers | core/memory/lattice.py:160 | each queried layer's list is its items, reordered by descending score |
| Lattice.ScanKeeps | core/memory/lattice.py:142-160 | a layer that is not queried keeps its entry |
| Lattice.MergedList | core/memory/lattice.py:162-164 | one merged item per id, with its merged score and layer `*` |
| Lattice.Strings | core/memory/lattice.py:169 | the queried layers are reported one by one |
| Lattice.MergedListScores | core/memory/lattice.py:158-164 | every merged item comes from some hit and carries the best score of its id |
| Lattice.IntersectMerges | core/memory/lattice.py:133-174 | `Intersect`, the result of `search_intersect`, holds at most max(k, 8) items, by descending score, each from some hit with the best score of its id |
| Lattice.MergedScoreIsLookup | core/memory/lattice.py:163-164 | the merged dictionary maps each of its ids to its own score |
| Lattice.AssignKeepsUnique | core/memory/lattice.py:158 | assignment keeps the keys unique |
| Lattice.MergeKeepsUnique | core/memory/lattice.py:158 | merging keeps the keys unique |
| Lattice.StrLessAsymmetric | core/memory/lattice.py:194 | `sort_keys`' order on strings is asymmetric |
| Lattice.StrLessTotal | core/memory/lattice.py:194 | and total on distinct strings |
| Lattice.StrLessTransitive | core/memory/lattice.py:194 | and transitive |
| Lattice.InsertByKey | core/memory/lattice.py:194 | inserting an entry adds exactly it |
| Lattice.InsertKeepsIncreasing | core/memory/lattice.py:194 | inserting a new key into increasing keys keeps them increasing |
| Lattice.SortByKey | core/memory/lattice.py:194 | sorting by key is a permutation |
| Lattice.SortByKeyIncreasing | core/memory/lattice.py:194 | sorting unique keys gives strictly increasing keys |
| Lattice.IncreasingIsUnique | core/memory/lattice.py:194 | two permutations of one dictionary with increasing keys are equal |
| Lattice.MapValues | core/memory/lattice.py:194 | mapping the values keeps the length |
| Lattice.MapValuesMultiset | core/memory/lattice.py:194 | mapping the values of two permutations gives permutations |
| Lattice.ContentHashIgnoresKeyOrder | core/memory/lattice.py:192-195 | `ContentHash` of a dictionary does not depend on the order its keys were inserted in |
| Lattice.DistinctKeysInPermutation | core/memory/lattice.py:194 | a permutation of a dictionary with unique keys has unique keys |
| Lattice.WithVectors | core/memory/lattice.py:123 | the points sent are exactly the items that carry a vector |
| Lattice.UpsertAllKeepsOthers | core/memory/lattice.py:129-130 | `UpsertAll` leaves every node not in the batch |
| Lattice.UpsertAllLastWins | core/memory/lattice.py:129-130 | in `UpsertAll`, the last item of an id in a batch decides its node's payload, label and layer |
| Lattice.MemoryLattice.constructor | core/memory/lattice.py:87-96 | a new lattice has the prefix, the size, the anchors and the hypergraph, and has sent nothing |
| Lattice.MemoryLattice.Upsert | core/memory/lattice.py:109-118 | an unknown layer fails its assertion and changes nothing; otherwise a vector is sent to the layer's collection, and the node is upserted with the payload's label or the layer, unless the store refuses that label, which raises and leaves the tables |
| Lattice.MemoryLattice.BatchUpsert | core/memory/lattice.py:120-130 | an unknown layer fails its assertion and changes nothing; otherwise the items with vectors are sent in one request and the items are upserted as nodes in turn, up to the first refused label, which raises |
| Lattice.MemoryLattice.AddProvenance | core/memory/lattice.py:184-186 | a provenance edge gets the next id; its connection rows are the sources' rows then the target's, as `add_edge` inserts them up to the first refused row; without a repeated source that is one source row per source and one target row, and a repeated source raises |
| Lattice.MemoryLattice.GetProvenance | core/memory/lattice.py:188-189 | the provenance of a node is the provenance edges around it |
| Lattice.MemoryLattice.SearchIntersect | core/memory/lattice.py:133-174 | the loops compute the intersection recall |
| Lattice.ScoreLayer | core/memory/lattice.py:151-158 | the hit loop makes the layer's items and merges their scores |
| Lattice.LabelOf | core/memory/lattice.py:118 | a node's label is the payload's `label` when it has one, and the layer name otherwise |
| Lattice.LayerHits | core/memory/lattice.py:144-149 | a layer's hits are the vector search's when the service answers; otherwise one hit per hypergraph node found for the layer, each with raw score 0 |
| Lattice.ItemOf | core/memory/lattice.py:152-156 | an item keeps the hit's id and the layer, has no vector, scores in [0, 1] when the bias is not negative, and has the hit's payload or `{}` when that is falsy |
| Lattice.Queried | core/memory/lattice.py:138 | the queried layers are the given ones, or all layer names when none are given; never none |
| Lattice.Canonical | core/memory/lattice.py:194 | canonicalising keeps a list's length and a dictionary's size, and leaves every scalar as it is |
| Lattice.CanonicalSortsKeys | core/memory/lattice.py:194 | a dictionary with distinct keys is written with strictly increasing keys and exactly its canonicalised entries |
| Lattice.MergeStep | core/memory/lattice.py:158 | the first item of a list contributes its id, and its score counts in that id's best score |
| Lattice.ScanAll | core/memory/lattice.py:142-160 | the layer loop computes `Scan` from empty dictionaries |
| Lattice.ScoreHit | core/memory/lattice.py:153-156 | the loop body builds the hit's item |
| Lattice.ScanLayer | core/memory/lattice.py:143-160 | one layer's step assigns its sorted items and merges their scores |
| Lattice.FirstRefused | core/memory/lattice.py:129-130 | the batch stops at the first item whose label the store refuses: every earlier label is accepted |
| Lattice.MemoryLattice.UpsertItem | core/memory/lattice.py:130 | one item of the batch is upserted, or its refused label raises and the tables are unchanged |
| AntiAmnesia.Recent | core/memory/anamnesis_engine.py:386 | the nodes kept are exactly those created at or after the window start |
| AntiAmnesia.AnchorTarget | core/memory/anamnesis_engine.py:392 | the anchor target is never below 3 |
| AntiAmnesia.AnchorTargetIsShare | core/memory/anamnesis_engine.py:392 | the target is the truncated share of the total, but at least 3 |
| AntiAmnesia.CountLayers | core/memory/anamnesis_engine.py:380-388 | the loop tabulates each layer's count in the window and adds them up |
| AntiAmnesia.Check | core/memory/anamnesis_engine.py:372-406 | `check_amnesia` builds the report from those counts |
| AntiAmnesia.LayerNamesDistinct | core/memory/lattice.py:23-26 | the sixteen layer names are distinct and include L10 |
| AntiAmnesia.ReportLayers | core/memory/anamnesis_engine.py:384-387 | the report has one count per layer, in order, each counting the listed rows created in the window |
| AntiAmnesia.ReportAnchors | core/memory/anamnesis_engine.py:391 | the anchor count is the count of L10, which is at most the total |
| AntiAmnesia.ReportVerdict | core/memory/anamnesis_engine.py:392-395 | anchors are asked for exactly when there are fewer of them than a target of at least 3 |
| AntiAmnesia.NoneRecent | core/memory/anamnesis_engine.py:384-388 | layers whose rows all predate the window add up to 0 |
| AntiAmnesia.EmptyWindowNeedsAnchors | core/memory/anamnesis_engine.py:372-406 | a store with nothing created in the window has total 0 and always asks for anchors |
| Anamnesis.FindAt | core/memory/anamnesis_engine.py:112 | the cache position of an id holds that id, and there is none exactly when the id is not cached |
| Anamnesis.PutAtom | core/memory/anamnesis_engine.py:411 | a cached id is overwritten in place and a new one is appended |
| Anamnesis.PutFacts | core/memory/anamnesis_engine.py:411 | `cache[mem.id] = mem` keeps ids unique and leaves exactly the new atom and the other ids' atoms |
| Anamnesis.DeleteMembers | core/memory/anamnesis_engine.py:420 | `Delete`, modelling `del`, removes exactly the atom of the id |
| Anamnesis.DeleteAbsent | core/memory/anamnesis_engine.py:420 | deleting an id that is not there changes nothing |
| Anamnesis.DeleteAt | core/memory/anamnesis_engine.py:420 | deleting a cached id removes its one entry |
| Anamnesis.WithoutFacts | core/memory/anamnesis_engine.py:420 | removing one entry keeps ids unique, shrinks the cache by one and keeps every other id |
| Anamnesis.DeleteAllMembers | core/memory/anamnesis_engine.py:418-420 | the eviction loop removes exactly the atoms whose ids it is given |
| Anamnesis.DeleteAllCount | core/memory/anamnesis_engine.py:418-420 | evicting distinct cached ids shrinks the cache by their number |
| Anamnesis.EvictCount | core/memory/anamnesis_engine.py:417 | never more are evicted than are cached |
| Anamnesis.EvictedFacts | core/memory/anamnesis_engine.py:416-417 | the atoms chosen for eviction are distinct, cached, and as many as the cache is over its limit |
| Anamnesis.EvictOrder | core/memory/anamnesis_engine.py:416 | every evicted atom is at least as old as every kept one |
| Anamnesis.EvictFacts | core/memory/anamnesis_engine.py:413-420 | `Evict`: after eviction the cache has unique ids, is at its limit, keeps exactly the atoms not chosen, and only older atoms went |
| Anamnesis.OldestFirst | core/memory/anamnesis_engine.py:416 | the first atom in timestamp order is the oldest |
| Anamnesis.OldestGoes | core/memory/anamnesis_engine.py:414-420 | one over the limit, the newest atom is not the one evicted when an older one exists |
| Anamnesis.NewestStays | core/memory/anamnesis_engine.py:409-420 | a new atom cached below the limit stays |
| Anamnesis.CachedFacts | core/memory/anamnesis_engine.py:409-420 | `Cached`, modelling `_cache_memory`, keeps ids unique, never leaves more than the limit, keeps only the new atom and older ones, and keeps the new atom when the put fits |
| Anamnesis.MemIdOfUnnamedContent | core/memory/anamnesis_engine.py:122 | `MemId`: content without an id is named `<layer>:<content hash>`, whatever its key order |
| Anamnesis.MemIdOfNamedContent | core/memory/anamnesis_engine.py:122 | content with a non-empty id is named by it, whatever the layer |
| Anamnesis.ReverbCountIsFlattened | core/memory/anamnesis_engine.py:180 | the reverberation count is the number of reverberated items over all layers |
| Anamnesis.TopIds | core/memory/anamnesis_engine.py:178 | the reverberation seeds are the ids of the first three matches (or all of them if fewer) |
| Anamnesis.Engine.constructor | core/memory/anamnesis_engine.py:106-112 | a new engine has the lattice and the settings and an empty cache |
| Anamnesis.Engine.CacheMemory | core/memory/anamnesis_engine.py:409-420 | `_cache_memory` puts the atom and evicts the oldest over the limit |
| Anamnesis.Engine.DeleteFirst | core/memory/anamnesis_engine.py:418-420 | the guarded loop deletes the first `to_evict` atoms of the sorted list |
| Anamnesis.Engine.StoreMemory | core/memory/anamnesis_engine.py:115-144 | `store_memory` succeeds exactly when the input is `Storable`: an unknown layer raises AssertionError and a label the node table refuses raises its error, both with nothing written; a repeated source raises IntegrityError after the node and the edge row are written; on success it returns the memory id, upserts the node, adds one provenance edge when there are sources, and caches the atom (kept when the cache had room); a failure leaves the cache as it was; the whole new state (tables, vector requests sent, cache) is `StoreStep` of the old one, and on success with sources the connection rows gained are one source row per source id and one target row for the new id |
| Anamnesis.Engine.StoreRows | core/memory/anamnesis_engine.py:124-133 | the lattice half of `store_memory` succeeds exactly when the input is `Storable`; an unknown layer or a refused label raises with nothing written, a repeated source raises IntegrityError after the node and the edge row are written, and otherwise the node is upserted and one provenance edge added when there are sources; the tables are `StoredTables` of the old ones, with one source row per source id and one target row on success, and the vector request for a given vector is sent first whether or not the rest succeeds |
| Anamnesis.Engine.BatchStore | core/memory/anamnesis_engine.py:146-153 | `batch_store` succeeds exactly when every item is `Storable`, and then returns each item's memory id in order; its new state is `BatchStored`, the per-item `store_memory` steps in order up to and including the first item that raises |
| Anamnesis.StoreStepFacts | core/memory/anamnesis_engine.py:122-142 | after one `store_memory` step a stored memory reads back as its node with the new payload, layer and time, other nodes read as before, with sources it has one source row per source and one target row on a fresh provenance edge, and the cache keeps one atom per id, holding the new atom when it had room |
| Anamnesis.StoredTablesWellFormed | core/memory/anamnesis_engine.py:124-133 | storing keeps node ids unique, edge ids dense, and connection rows unique and on existing edges |
| Anamnesis.BatchStoredSplit | core/memory/anamnesis_engine.py:146-153 | a batch whose first `k` items can be stored runs those, then the rest from the state they leave |
| Anamnesis.FirstFailureState | core/memory/anamnesis_engine.py:146-153 | when item `k` is the first that raises, the batch leaves the state that item's own `store_memory` call leaves after the earlier items were stored: its vector request, node and edge rows stay, its atom is not cached, and later items are not touched |
| Anamnesis.BatchStoredFindsAll | core/memory/anamnesis_engine.py:146-153 | after a batch that stores every item, each returned id names a node, every node known before is still there, and the cache keeps one atom per id |
| Anamnesis.Engine.VisitEndpoints | core/memory/anamnesis_engine.py:221-229 | the endpoint loop groups each related node by its layer |
| Anamnesis.Engine.VisitAround | core/memory/anamnesis_engine.py:211-229 | the edge loop groups the related nodes of every edge |
| Anamnesis.Engine.ItemsOf | core/memory/anamnesis_engine.py:233-242 | the items of one layer are its grouped nodes with the decay as score |
| Anamnesis.Engine.DecayItems | core/memory/anamnesis_engine.py:254-263 | the loop multiplies every score by the decay |
| Anamnesis.Engine.MergeNext | core/memory/anamnesis_engine.py:253-268 | the deeper reverberations are decayed and appended to their layers |
| Anamnesis.Engine.Convert | core/memory/anamnesis_engine.py:232-244 | the grouped nodes become the first hop's items |
| Anamnesis.Engine.Reverberate | core/memory/anamnesis_engine.py:194-270 | `reverberate` computes the spreading activation to the given depth |
| Anamnesis.Engine.Provenances | core/memory/anamnesis_engine.py:183-185 | each match's provenance edges, keyed by its id |
| Anamnesis.Engine.RecallAround | core/memory/anamnesis_engine.py:172-192 | reverberations from the top three matches and provenance of each match, each only when asked and there are matches, with diagnostics counting both |
| Anamnesis.Engine.Recall | core/memory/anamnesis_engine.py:156-192 | `recall` returns the lattice's intersection recall as primary matches, with reverberations and provenance around them |
| Anamnesis.Engine.AddLink | core/memory/anamnesis_engine.py:315-325 | one association edge from the item to the other is written and its id recorded |
| Anamnesis.Engine.LinkItem | core/memory/anamnesis_engine.py:310-329 | the inner loop writes the item's planned links, to in-range partners |
| Anamnesis.Engine.LinkLayer | core/memory/anamnesis_engine.py:306-333 | the loops over one layer write exactly that layer's planned links |
| Anamnesis.Engine.LinkGroup | core/memory/anamnesis_engine.py:301-303 | a layer with fewer than two items is skipped, and otherwise linked |
| Anamnesis.Engine.LinkAll | core/memory/anamnesis_engine.py:301-333 | the layer loop writes exactly the planned links, in order |
| Anamnesis.Engine.Reimplic | core/memory/anamnesis_engine.py:273-369 | without a high-scoring memory nothing changes; otherwise the planned association edges are written and their ids returned with the diagnostics, then the synthetic L11 memory is stored when due (or its error returned); `linked` is the tables after the association edges (nodes as before, the planned link rows and their connection rows appended), the state is `linked` with the old requests and cache when no synthetic memory is stored, and otherwise `StoreStep` of that state for the L11 payload, the top concepts as sources and the synthetic id |
| Anamnesis.Engine.Synthesize | core/memory/anamnesis_engine.py:335-358 | with two high-scoring memories and L8 concepts, the synthetic memory is stored from the top three concepts: the state is `StoreStep` for the L11 payload, and on success the L11 node is upserted, the provenance edge appended with one source row per concept and one target row, and the atom cached; otherwise nothing changes |
| Anamnesis.Engine.CheckAmnesia | core/memory/anamnesis_engine.py:372-406 | `check_amnesia` reports on the store's rows with the settings' window and ratio |
| Anamnesis.Engine.LinkRow | core/memory/anamnesis_engine.py:310-329 | one round of the item loop writes that item's planned links after those written so far |
| Anamnesis.Engine.LinkEach | core/memory/anamnesis_engine.py:306-333 | the loop over a layer's items writes exactly the pairs planned for the layer, stopping once `max_edges` edges exist |
| Reimplication.Targets | core/memory/anamnesis_engine.py:310-329 | the inner loop only offers partners that are items of the layer |
| Reimplication.RowPairs | core/memory/anamnesis_engine.py:310-325 | one (item, other) pair per partner |
| Reimplication.LayerFrom | core/memory/anamnesis_engine.py:308-333 | the item loop only pairs items of the layer |
| Reimplication.LayerPairs | core/memory/anamnesis_engine.py:301-333 | the pairs of one layer name items of it |
| Reimplication.Links | core/memory/anamnesis_engine.py:311-312 | one link per pair |
| Reimplication.LinkRows | core/memory/anamnesis_engine.py:315-324 | one `reimplic_assoc` edge row per link |
| Reimplication.LinkIds | core/memory/anamnesis_engine.py:325 | one new edge id per link |
| Reimplication.Components | core/memory/anamnesis_engine.py:347 | `c.payload.get("label", "concept")` yields one component per concept and fails exactly when some concept's payload is not a dictionary |
| Reimplication.IdList | core/memory/anamnesis_engine.py:346 | `derived_from` lists one id per concept |
| Reimplication.Ids | core/memory/anamnesis_engine.py:356 | the synthetic memory's sources are one id per concept |
| Reimplication.TopNotEmpty | core/memory/anamnesis_engine.py:336-341 | when there are L8 concepts the synthetic memory derives from one to three of them |
| Reimplication.LayerKeys | core/memory/anamnesis_engine.py:366 | `layers_processed` has one entry per layer |
| Reimplication.HighScoreMembers | core/memory/anamnesis_engine.py:285-286 | exactly the memories scoring at least the threshold take part, and none does exactly when every score is below it |
| Reimplication.AddToLayerFacts | core/memory/anamnesis_engine.py:296-298 | appending a memory adds it to its own layer's list only, keeping layers distinct |
| Reimplication.GroupByLayerFacts | core/memory/anamnesis_engine.py:294-298 | each layer's list is the high-scoring memories of that layer in order, and layers are distinct |
| Reimplication.Row | core/memory/anamnesis_engine.py:310-311 | each item is offered `min(max_per_item, n - 1)` others |
| Reimplication.RowDistinct | core/memory/anamnesis_engine.py:311 | `(i + j + 1) % n` never names the item itself and never names the same other twice |
| Reimplication.TargetsPrefix | core/memory/anamnesis_engine.py:310-329 | the edge cap only cuts an item's partners short |
| Reimplication.OthersAppend | core/memory/anamnesis_engine.py:308-333 | an item's partners in two runs of pairs are those of each run, in order |
| Reimplication.OthersOfRow | core/memory/anamnesis_engine.py:310-325 | an item's inner loop only gives partners to that item |
| Reimplication.OthersOwnRound | core/memory/anamnesis_engine.py:308-333 | an item's partners over the whole layer are a prefix of its own offered row |
| Reimplication.OthersInLayer | core/memory/anamnesis_engine.py:308-333 | from any starting item on, an item's partners are a prefix of its offered row |
| Reimplication.PerItemLinks | core/memory/anamnesis_engine.py:306-312 | no item is linked to itself or to the same other twice, and each gets at most `max_connections_per_item` and at most `n - 1` others |
| Reimplication.TargetsWithinCap | core/memory/anamnesis_engine.py:327-329 | below the cap, one item's loop never takes the count past `max_edges` |
| Reimplication.LayerFromWithinCap | core/memory/anamnesis_engine.py:327-333 | below the cap, the item loop never takes the count past `max_edges` |
| Reimplication.LayerWithinCap | core/memory/anamnesis_engine.py:301-333 | a layer started below the cap never takes the count past `max_edges` |
| Reimplication.LayerAddsOne | core/memory/anamnesis_engine.py:301-333 | a layer of two or more always adds at least one edge, whatever the count so far |
| Reimplication.PlanAtLeastOnePerLayer | core/memory/anamnesis_engine.py:301-333 | every layer with two or more memories gets an edge, so the cap only stops the current layer |
| Reimplication.TwoLayersPassTheCap | core/memory/anamnesis_engine.py:301-333 | with `max_edges = 1`, two layers of two memories give two edges |
| Reimplication.TopConceptsFacts | core/memory/anamnesis_engine.py:341 | the top concepts are the first three (or all) of the concepts sorted by descending score |
| Reimplication.LinksAppend | core/memory/anamnesis_engine.py:308-333 | the links of two runs of pairs are their links in order |
| Reimplication.LinkedAppend | core/memory/anamnesis_engine.py:315-325 | the rows, connections and ids written for two runs of links follow each other |
| Reimplication.LinkedOne | core/memory/anamnesis_engine.py:315-325 | one link writes one edge row with the next id, a source row for the item and a target row for the other |
| Reimplication.HighScore | core/memory/anamnesis_engine.py:285 | the high-score list is no longer than the memories, and holds only memories of the list scoring at least the threshold |
| Reimplication.GroupByLayer | core/memory/anamnesis_engine.py:294-298 | no layer already grouped is lost, and every grouped memory's layer has an entry |
| Reimplication.Plan | core/memory/anamnesis_engine.py:301-333 | every link joins two memories of the same layer; no link crosses layers |
| Reimplication.TopConcepts | core/memory/anamnesis_engine.py:341 | at most three concepts, at least one when there are any, all taken from the L8 list |
| Reimplication.SynthPayload | core/memory/anamnesis_engine.py:344-349 | the payload is labelled `synthetic_concept` and its `derived_from` lists the ids of the top concepts, one per concept, in order |
| Reimplication.WantsSynthetic | core/memory/anamnesis_engine.py:336-339 | when a synthetic memory is attempted it derives from one to three concepts |
| Reimplication.Top | core/memory/anamnesis_engine.py:338-341 | at most three concepts, each an L8 memory of the grouping |
| Reimplication.Diagnostics | core/memory/anamnesis_engine.py:363-368 | the diagnostics report the number of memories, the number of high scorers, the layer keys and the timestamp |
| Reverberation.ItemsFor | core/memory/anamnesis_engine.py:233-242 | one memory item per reached id of the layer |
| Reverberation.Activate | core/memory/anamnesis_engine.py:232-244 | one entry of `reverbs` per layer reached |
| Reverberation.IdsOf | core/memory/anamnesis_engine.py:250 | one id per item |
| Reverberation.Decayed | core/memory/anamnesis_engine.py:254-263 | one decayed item per item |
| Reverberation.DecayedSnoc | core/memory/anamnesis_engine.py:255-263 | each round of the decay loop appends the item with its score multiplied by the decay |
| Reverberation.AddIdFacts | core/memory/anamnesis_engine.py:227-229 | `AddId`, adding an id to a layer's set, adds exactly that pair and keeps layers and ids distinct |
| Reverberation.AddIdKeepsOk | core/memory/anamnesis_engine.py:227-229 | the set update keeps layers and ids distinct |
| Reverberation.VisitStep | core/memory/anamnesis_engine.py:216-229 | `Visit`: one endpoint is added to its node's layer unless it is the memory itself or has no node |
| Reverberation.VisitAllFacts | core/memory/anamnesis_engine.py:213-229 | `VisitAll`: the endpoints of one edge added are exactly those other than the memory that have a node in that layer |
| Reverberation.OnSomeEdgeCons | core/memory/anamnesis_engine.py:211-213 | an id is on one of the edges exactly when it is on the first or on one of the rest |
| Reverberation.VisitEdgesFacts | core/memory/anamnesis_engine.py:210-229 | the ids grouped for one memory are exactly the other endpoints of its edges with a node in that layer |
| Reverberation.ConnectedFacts | core/memory/anamnesis_engine.py:205-229 | `Connected` builds the dictionary `connected`, which holds exactly the ids other than the seeds' own that share an edge with some seed, under their node's layer |
| Reverberation.LookupActivate | core/memory/anamnesis_engine.py:232-244 | a layer of `reverbs` holds the items of exactly the ids grouped under it, and exists exactly when that group does |
| Reverberation.IdsOfItemsFor | core/memory/anamnesis_engine.py:236-242 | the items keep the grouped ids in order |
| Reverberation.FirstHop | core/memory/anamnesis_engine.py:204-244 | the first hop activates in layer `l` exactly the ids of layer `l` that share an edge with a seed |
| Reverberation.AssignMembers | core/memory/anamnesis_engine.py:244 | setting a key only adds that key's pair |
| Reverberation.LookupMember | core/memory/anamnesis_engine.py:265 | a key found is present with its value |
| Reverberation.MergeAllKeeps | core/memory/anamnesis_engine.py:265-268 | `MergeAll`, merging deeper hops, keeps every first-hop layer and only extends its list |
| Reverberation.PrefixIds | core/memory/anamnesis_engine.py:266 | extending a list keeps every id it had |
| Reverberation.ReverbFirstHop | core/memory/anamnesis_engine.py:194-270 | `Reverb`: every id one hop from a seed is in the result under its layer with score `reverb_decay`, at any depth; at depth 1 exactly those are, without repeats, each scored `reverb_decay` |
| Reverberation.ReverbNothing | core/memory/anamnesis_engine.py:201-202 | `Reverb` with no depth or no seeds is empty |
| Reverberation.LookupOfMember | core/memory/anamnesis_engine.py:244 | with distinct keys, a present pair is the one found |
| Reverberation.ActivateShaped | core/memory/anamnesis_engine.py:232-244 | the first hop has one entry per layer, each item belongs to that layer and is scored `reverb_decay` |
| Reverberation.DecayedOk | core/memory/anamnesis_engine.py:253-263 | decaying items scored `decay^h` of the layer gives `decay^(h+1)` |
| Reverberation.MergeInShaped | core/memory/anamnesis_engine.py:265-268 | `MergeIn`: merging well placed items into one layer keeps the result well placed |
| Reverberation.MergeAllShaped | core/memory/anamnesis_engine.py:253-268 | `MergeAll`, the merge loop, keeps one entry per layer and every item well placed and scored |
| Reverberation.ReverbShape | core/memory/anamnesis_engine.py:194-270 | `Reverb`, the result of `reverberate`, has one entry per layer, every item a node of that layer scored `reverb_decay^h` for some hop `h` between 1 and the depth |
| Reverberation.ReverbHolds | core/memory/anamnesis_engine.py:194-270 | `Reverb` lists `r` under layer `l` with score `s` exactly when `r` is a node of layer `l` reached by a walk of some `h` hops from the seeds, `1 <= h <= depth`, and `s == reverb_decay^h` |
| Reverberation.ReverbScores | core/memory/anamnesis_engine.py:194-270 | for `0 < reverb_decay < 1` and a hop count `h` within the depth: `r` is a node of layer `l` reached in exactly `h` hops exactly when `Reverb` lists it under `l` with score `reverb_decay^h` |
| Reverberation.PowerInjective | core/memory/anamnesis_engine.py:254-263 | with a decay strictly between 0 and 1, a score `decay^h` determines the hop count `h` |
| Reverberation.ReachedAtOne | core/memory/anamnesis_engine.py:204-229 | being reached in one hop is sharing an edge with a seed |
| Reverberation.FirstHopHolds | core/memory/anamnesis_engine.py:204-244 | the first hop lists `r` under `l` with score `s` exactly when `r` shares an edge with a seed, is a node of layer `l`, and `s` is the decay |
| Reverberation.FirstHopScored | core/memory/anamnesis_engine.py:204-244 | the first hop lists exactly the one-hop nodes, scored `reverb_decay^1` |
| Reverberation.FlattenFirst | core/memory/anamnesis_engine.py:248-250 | the next hop's seeds are exactly the nodes one hop from the seeds |
| Reverberation.SeedsAreOneHop | core/memory/anamnesis_engine.py:248-250 | `SeedsOf`, the ids the recursive call starts from, are exactly the one-hop nodes |
| Reverberation.WalkedShift | core/memory/anamnesis_engine.py:248-252 | a walk of `h` hops from the one-hop nodes is a walk of `h + 1` hops from the seeds, and back |
| Reverberation.NoSeedsNoWalk | core/memory/anamnesis_engine.py:201-202 | nothing is reached from no seeds |
| Reverberation.ScoredShift | core/memory/anamnesis_engine.py:252-263 | an item scored `t` by the recursive call and decayed to `t * reverb_decay` is scored for one more hop from the seeds |
| Reverberation.ScoredUnshift | core/memory/anamnesis_engine.py:252-263 | a node reached in `h >= 2` hops is scored `reverb_decay^(h-1)` by the recursive call from the one-hop nodes |
| Reverberation.DeeperSplit | core/memory/anamnesis_engine.py:252-268 | with depth above 1, `Reverb` lists an item exactly when the first hop does or the recursive call lists it before decay |
| Reverberation.DeeperForward | core/memory/anamnesis_engine.py:252-268 | with depth above 1, every item `Reverb` lists is scored by some hop count |
| Reverberation.DeeperBackward | core/memory/anamnesis_engine.py:252-268 | with depth above 1, every node reached in `h` hops within the depth is listed with score `reverb_decay^h` |
| Reverberation.MergeAllHolds | core/memory/anamnesis_engine.py:253-268 | merging lists an item exactly when the first hop does or the layer of the deeper hop lists it once decayed |
| Reverberation.ItemsForHasItem | core/memory/anamnesis_engine.py:236-242 | a layer's first-hop items are exactly its grouped ids, each scored the decay |
| Reverberation.DecayedHasItem | core/memory/anamnesis_engine.py:254-263 | every item appears in the decayed list with its score times the decay |
| Reverberation.HasItemConcat | core/memory/anamnesis_engine.py:266 | extending a layer's list lists exactly the items of both parts |
| Reverberation.FlattenHolds | core/memory/anamnesis_engine.py:248-250 | `Flatten`: the next hop's seeds are exactly the ids activated in some layer |
| Sorting.SortDesc | core/memory/lattice.py:160 | `sorted(..., key=score, reverse=True)` returns a permutation of its input in descending key order |
| Sorting.SortDescMembers | core/memory/anamnesis_engine.py:341 | sorting keeps exactly the elements it was given |
| Sorting.SortAsc | core/memory/anamnesis_engine.py:416 | `sorted(..., key=timestamp)` returns a permutation of its input in ascending key order |
| Sorting.SortDescFirstOfThree | core/memory/anamnesis_engine.py:341 | the sort is stable: of three elements the first is the earliest one with the greatest key |
| Sorting.WithKey | core/memory/lattice.py:160 | the elements with a given key, a subsequence of the input, as stability is stated over |
| Sorting.SortDescStable | core/memory/lattice.py:160 | the descending sort is stable: the elements of each key come out in the order they went in |
| Sorting.SortAscStable | core/memory/anamnesis_engine.py:416 | the ascending sort is stable in the same sense |
| Torsion.In | core/spiral/torsion_modal.py:192 | `key in params` asks a dictionary for the key, and raises TypeError on a value that is not a container |
| Torsion.Index | core/spiral/torsion_modal.py:193 | `params[key]` succeeds exactly on a dictionary holding the key, and gives its value |
| Torsion.Proximity | core/spiral/torsion_modal.py:191-194 | an action without truthy `params` contributes no singularity proximity |
| Torsion.Calculate | core/spiral/torsion_modal.py:156-203 | `_calculate_torsion` raises ValueError for a negative manifold dimension, then fails exactly when reading the action's proximity does, and reports the current field strength |
| Torsion.RequiredIsLargestTerm | core/spiral/torsion_modal.py:167-194 | the torsion required is the largest of 0, 0.7 for discontinuities, `0.8 * paradox_avoidance_strength` for a nearby paradox and the action's proximity |
| Torsion.Singularities | core/spiral/torsion_modal.py:176-181 | the singularities are the state's discontinuities when it has a non-empty list of them, and empty otherwise |
| Torsion.ProximityOfDict | core/spiral/torsion_modal.py:191-194 | a parameter dictionary without `singularity_proximity` gives none, a number gives its value, and a string raises ValueError |
| Torsion.Caution | core/spiral/torsion_modal.py:241-244 | an existing caution is scaled by `1 + avoidance * proximity` (TypeError when it is not a number), and a missing one becomes `avoidance * proximity` |
| Torsion.Transform | core/spiral/torsion_modal.py:205-249 | an action that cannot be copied, or whose params are not a dictionary, is returned as it is |
| Torsion.TransformMarks | core/spiral/torsion_modal.py:216-233 | the copy keeps every other attribute and has `torsion_applied` true and `torsion_strength` the torsion required in its params |
| Torsion.AvoidKeeps | core/spiral/torsion_modal.py:235-247 | `Avoid`, paradox avoidance, touches only `caution` and `reversible_micro_move` |
| Torsion.AvoidUnchanged | core/spiral/torsion_modal.py:236-239 | `Avoid` leaves the params unchanged without a paradox proximity above 0.5 |
| Torsion.AvoidCaution | core/spiral/torsion_modal.py:239-247 | `Avoid` above 0.5: the caution is raised and the move is marked reversible |
| Torsion.CautionNotNumber | core/spiral/torsion_modal.py:241-242 | scaling a caution that is not a number raises TypeError |
| Torsion.RunHooksLast | core/spiral/torsion_modal.py:148-152 | `RunHooks`: a hook registered last runs last, on what the earlier hooks made |
| Torsion.RaisingHooksKeep | core/spiral/torsion_modal.py:148-152 | `RunHooks` with hooks that all raise leaves the action as it was |
| Torsion.RaisingHookSkipped | core/spiral/torsion_modal.py:148-152 | `Step` with a hook that always raises keeps the action, so that hook is the same as no hook there |
| Torsion.RemovalShifts | core/spiral/torsion_modal.py:108-121 | removing a hook shifts the ids of the later hooks down by one |
| Torsion.TorsionModal.constructor | core/spiral/torsion_modal.py:50-61 | the given parameters or the defaults, inactive, no field, no hooks |
| Torsion.TorsionModal.Activate | core/spiral/torsion_modal.py:63-77 | succeeds exactly when the parameters enable the modal, and then it is active at field strength 0.1; otherwise nothing changes |
| Torsion.TorsionModal.Deactivate | core/spiral/torsion_modal.py:79-84 | inactive with no field, hooks kept |
| Torsion.TorsionModal.RegisterHook | core/spiral/torsion_modal.py:94-106 | the hook is appended and its id is its position |
| Torsion.TorsionModal.RemoveHook | core/spiral/torsion_modal.py:108-121 | succeeds exactly for an id in range, and then removes that hook only |
| Torsion.TorsionModal.ApplyTorsion | core/spiral/torsion_modal.py:123-154 | nothing is applied while inactive or passive or below the threshold; torsion is applied exactly when the rest holds and the transformation succeeds, and then the action is transformed and passed through the hooks in order; an error computing the torsion or transforming the action is returned as it is raised |
| Torsion.MarkedFacts | core/spiral/torsion_modal.py:230-233 | `Marked` sets `torsion_applied` to true and `torsion_strength` to the torsion required, and keeps every other parameter |


## Left out

- Values.Float: a string argument always raises ValueError, so `float()`'s parsing of numeric strings is not modelled. This applies to every `float()` call on caller data: core/spiral/torsion_modal.py:193 and 238, core/metrics/energy_delta.py:124 and 186, core/will/kernels.py:27, 32, 42, 51 and 70 and the other kernel parameters at lines 89-130, and apps/contemplator/shadow_twin.py:79. A numeric string there (such as "0.5") converts in Python and raises in the model. Torsion.ProximityOfDict states the same for a string proximity.
- Values.Lower: maps only the ASCII letters A-Z. Python's `str.lower()` also folds other letters, and can change the length: `"İ".lower()` has two characters.
- Values.Upper: maps only the ASCII letters a-z. Python's `str.upper()` also maps other letters: `"ſ".upper()` is `"S"` and `"ß".upper()` is `"SS"`.
- Values.Round4: rounds the exact real number. Python's `round(x, 4)` rounds the binary double nearest to x, so a tie such as 0.00005 can go the other way there.
- UnifiedExternality.ParseExternality: pydantic's lax coercion of numeric strings (`"3"` for an integer count, `"0.5"` for a magnitude) is not modelled: such a dictionary builds no externality in the model. Booleans and integral reals are coerced as pydantic does.
- HypergraphStore.Hypergraph.AddNode: the label is stored as the value given. The `label TEXT NOT NULL` column (core/memory/hyperedges_sqlite.py:50) stores an int, float or bool label as text, so in Python a label of 5 reads back as "5" and True as "1", where the model keeps the number or the boolean.
- HypergraphStore.FindNodes: payloads are stored as values, with JSON encoding taken as the identity. `add_node` stores `json.dumps(payload)` (core/memory/hyperedges_sqlite.py:105 and 110) and `get_node` and `find_nodes` return the stored rows (lines 122 and 150), so in Python each row's payload is JSON text, where the model's row carries the value. `get_node_payload` decodes it, so there the identity is exact for JSON-shaped payloads.
- **Clock.** `now_ts()` and `time.time()` are the `now` argument of each operation.
- **Printing and logging.** They are left out: `print`, `_log`, `_log_event` and the hook-error message.
- **Configuration loading.** Reading YAML (`from_yaml`, `_load_yaml`, `_load_vows`, `_load_rri_config`, `_load_rri_targets`) is replaced by the parsed configuration as a parameter. A file that fails to load is the empty dictionary.
- **Singletons.** Module-level instances and their accessors are left out, because each is only a cached constructor call:
  - `get_instance`, `get_pgl_config`, `get_detector`;
  - `get_torsion_modal`, `activate_torsion_modal`.
- **Self-tests.** `test_*` functions and `__main__` demos are left out, because they only print. The apophatic self-test's nested example is stated as `ApophaticGuard.NestedForbiddenKeyIsAdmitted`.
- **Missing collaborators.** Functions the code imports from modules that do not define them become parameters of `DecisionCore`: the scorers behind `energy_E` and `grace_G`, `price`, `counter_context` and `store`. `kernel_weight` is a parameter that can raise; `DecisionCore.KernelWeight` instantiates it with `WillKernels.WeightFor`, so its KeyError and ValueError reach `minimal_clean_move`. The energy and grace scorers, `price`, `counter_context` and `store` are total functions, so an error one of them would raise is not modelled. The thin wrappers `price_externalities`, `antimemory_countercontext` and `attach_pca` are therefore not modelled separately.
- **Undefined ledger and engine methods.** Results of `HarmsLedger.compute_index` and `penalties`, `AnamnesisEngine.compute_rri` and `Hypergraph.iter_ledger_recent` are inputs. None of them is defined in the code.
- **Hashing.** `blake`, `content_hash` and the digests behind them are hash functions given as parameters. Only their determinism is used.
- **Vector search.** The vector service (`qdrant_client`, `_ensure_all_collections`) is not part of this model. Searches are a function parameter, and upserts are the list of requests sent. `generate_embedding` is a random stand-in, so it is left out.
- **`exp(-x)`** in the lattice's score normalisation is an input with the exponential's range.
- **SQLite housekeeping.** `_init_schema`, `backup`, `close` and `__del__` are storage housekeeping with nothing to state. `get_edge` is a lookup read that no modelled operation uses.
- **SQLite ordering.** The tables are sequences in rowid order. `ORDER BY` on equal timestamps keeps rowid order, which SQLite does not promise. The endpoint lists of an edge (`source_ids`, `target_ids`) come in connection rowid order, which the join that builds them does not promise either; the order of `Reverb`'s items and of the next hop's seeds follows from it.
- **Python sets.** Set iteration order is fixed to the order the sets are written in. For the reverberation's `connected` sets no property depends on it. For `FORBIDDEN_KEYS`, `CONSTRAINT_ONLY` and `WARN_MARKERS` (core/logic/apophatic_guard.py:14-37, iterated at lines 88-100) and `CONSTRAINT_ONLY` in core/proofs/proof_carrying_advice.py:22 (iterated at line 30) it decides the order of the returned reasons and warnings: the model lists them in written order, where Python's order depends on string hashing. Which reasons appear, and the verdict, do not depend on it.
- **Getters.** `get_layer_info`, `is_active`, `get_field_strength`, the Paradox-Gate condition getters and `get_transitions` only return a field. The modelled operations read those fields directly.
- **`ParadoxType.get_severity`** is never called by the detector, so it is left out.
- **Consent delegates.** `validate_ticket` and `validate_scope_escalation` return `is_valid` and `can_escalate` unchanged. They are covered by `ConsentChecker.IsValid` and `ConsentChecker.CanEscalate`.
- **`ProofCarryingAdvice.commit`** writes to the proof store, which is not part of this model.
- **Numpy.** The torsion `twist_vector` is a numpy vector. Its values are left out, and no other output depends on them. Its one failure, `np.zeros` of a negative manifold dimension raising ValueError, is modelled in `Torsion.Calculate`.
- **`_singularity_map`** is initialised and never read, so it is left out.
- **Aliasing in `_apply_transformation`.** The shallow copy shares the `params` dictionary with the original action, so the source also rewrites the caller's action. The model returns the rewritten copy and does not capture that aliasing. Likewise, a hook is a pure function of its arguments: its side effects are not modelled, and a hook that raises is one that returns nothing.
- **Aliasing in `resolve_event`.** The ledger holds the caller's `HarmEvent` objects, so resolving one also changes the object the caller registered. HarmsLedger.ResolveEvent updates the ledger's own copy only.
- **Aliasing in the pricer registries.** `ExternalityPricer.register` and `UnifiedExternalityPricer.register` keep the caller's objects. The model stores values, so a later change to a registered object is not seen through the registry.
- ShadowTwin.Invert: on a budget line that does not convert, the lines before it are already hardened in the caller's shared budget dictionary. The model states the caller's plan only after a successful inversion.
- ConsentChecker.Extracted: a ticket field given explicitly as None, or as a value that is not a number, is not representable. In Python `c.get("issued_at", ...)` then returns that value and the ticket's comparisons raise TypeError.
- Anamnesis.MemId: `text()` of the content is a parameter, like the hash functions. A truthy `content["id"]` that is not a string is named through its `text()`; Python returns, caches and stores the raw object, and a list or dict id fails to bind as a SQLite parameter, which the model does not raise.
- **Integer width in SQLite.** Integers beyond 64 bits, which SQLite refuses, are not modelled: ids and counts are unbounded.
- **Concurrency and SQLite transactions** are not modelled. Every operation runs to completion alone.
