# Navigan verification models

Dafny models of the six parts of Navigan whose correctness rests on more than one function, with
proofs of what each part is for.

- **DEV release protocol** (`ReleaseProtocol`, `ReleaseInvariant`, `ReleaseSafety`, `ReleaseRestores`,
  `ReleaseChecks`, `ReleaseMoves`, `ReleaseOperator`).
  Any number of prepared plans share a lock object and the `CURRENT` record, and each has a journal file.
  `ReleaseProtocol` is the transition system: one step touches one shared object or writes the journal once,
  plans interleave freely, and a crash may come between any two steps. `ReleaseInvariant` holds the
  invariant, `ReleaseSafety`, `ReleaseRestores` and `ReleaseChecks` the theorems over all runs. `ReleaseOperator` is the script
  itself, with its storage calls, journal writes and loops; every run of it is a run of the transition system,
  so its success means what the theorems say of that run. Where its contracts say "without interference", no
  call fails, no other plan moves and CloudFormation completes what was requested (`calm`). A version of
  `CURRENT` stands for its ETag, and a raised error counts as a crash: memory is lost, what was written stays.
- **Dependency proof** (`CloudExpression`, `CloudMeaning`, `DependencyProof`). An evaluator for the
  CloudFormation intrinsics with its laws, the collector of free references, and the check that gives evidence that a resource means
  the same before and after a change set. What `Fn::Join`, `Fn::Select`, `Fn::Split`, `Fn::FindInMap` and
  `Fn::Base64` compute is any function of their argument and the mappings. `KeepsAttributes` and `Deployed`
  state what CloudFormation itself guarantees: attributes of unchanged resources that exist, and `Arn` and
  `Ref` of those modified without replacement under the same naming properties, keep their values;
  pseudo-parameters stay.
- **WebSocket client** (`WebSocketFrames`, `WebSocketClient`, `WebSocketSenders`). The frames of RFC 6455,
  sections 5.2 and 5.3, the buffered reader over a socket that cuts the stream anywhere, the handshake
  leftover, and several threads sending under one lock with partial writes. Bytes are numbers below 256, so
  joining bit fields that do not overlap is addition; the exclusive or of masking is spelled out bit by bit.
- **Access reconciliation** (`Rbac`). Roles and bindings of a cluster, applied and pruned by calls that may
  fail before or after they took effect. Two things are assumed of the cluster before a run: assignment ids
  stay distinct under `resource_name`, and every object labelled as managed by the connector already carries
  the name that `resource_name` gives its assignment, a binding granting the role of its own name (`Named`);
  every call of the connector keeps this.
- **PostgreSQL splitter** (`SqlLexer`, `SqlSplitter`, `SqlStability`, `SqlRegions`). The flag-driven loop
  against a recursive lexer, what each kind of text in a script comes to, and what splitting keeps.
- **Release planning and manifests** (`ReleasePlanning`, `PlanningRules`, `ReleaseManifests`). Diff-based choice of
  components against the plain tree hash, and manifests over chains of releases. SHA-256 digests are the
  sets of lines they digest, and the YAML reader is a function of file content.
- **Evidence, references and patches** (`DeploymentEvidence`, `ServiceReferences`, `Patching`,
  `PatchRegions`).

`Options`, `Texts` and `PairOrder` are shared helpers. Five properties do not hold everywhere; for each there
is a lemma with a failing case and one with the exact condition: a stale plan can execute its change sets
(`StalePlanExecutes`, `ExecutesOnItsBaseIff`), a computed attribute name escapes the collector
(`ComputedAttributeIsMissed`, `CollectorCoversIff`), a send that raises part way tears the stream for every
other thread (`TornRun`, `WholeFramesIff`), access objects of an assignment that moved to another scope stay
behind (`MovedAssignmentStays`, `ExactIffNoneMisplaced`), and the two inventory collectors differ on cron
jobs (`CronJobDiffers`, `CronJobsAgreeIff`).

## Model

| member | source | states |
|---|---|---|
| `ReleaseSafety.OneHolder` | scripts/deploy-release-dev.py:527-543 | at any moment of any run at most one plan relies on the lock, and the lock object is the version that plan created |
| `ReleaseSafety.PublishedUnderOwnLock` | scripts/deploy-release-dev.py:637-652 | `CURRENT` changes only by one record of the plan that owns the lock, which has held it since before the version it writes on |
| `ReleaseSafety.FreedByOwner` | scripts/deploy-release-dev.py:533-543 | only the owner's own step ever removes the lock object |
| `ReleaseSafety.ReleaseSitsOnItsBase` | scripts/deploy-release-dev.py:645-646 | a plan's record follows exactly the version the plan was prepared from, and its manifest and configuration hash are the plan's, each artifact in its place |
| `ReleaseSafety.PublishedOnce` | scripts/deploy-release-dev.py:637-648 | no plan's release record, and no plan's rollback record, occurs twice, whatever crashes fall between the put and the journal write |
| `ReleaseSafety.RollbackPlacement` | scripts/deploy-release-dev.py:671-680 | a rollback record sits directly on the record it rolls back, or on that plan's base when it was never published |
| `ReleaseSafety.NoReleaseAfterRollback` | scripts/deploy-release-dev.py:594 | once a plan is rolled back its release is not published; the rollback record comes immediately after it |
| `ReleaseSafety.RollbackRestores` | scripts/deploy-release-dev.py:739-750 | a rollback record, of a published plan or not, has the application and configuration of the version under the plan, with that version's database unless the plan journaled its migrations, then with the plan's; or it says the baseline was restored when there was no such version |
| `ReleaseSafety.InterruptedPublicationIsAdopted` | scripts/deploy-release-dev.py:638-646 | a rerun finds its record exactly when it was put before, then it is current and adopting it cannot fail |
| `ReleaseSafety.OwnRecordIsCurrent` | scripts/deploy-release-dev.py:638-639 | while a plan publishes, its record is somewhere in the history exactly if it is the current one |
| `ReleaseSafety.OwnRecordIsAdoptable` | scripts/deploy-release-dev.py:639-643 | a record found under the plan's own label agrees with what the plan would write |
| `ReleaseSafety.ExecutedAtMostOnce` | scripts/deploy-release-dev.py:576-581 | over all crashes and reruns each prepared change set is requested at most once |
| `ReleaseSafety.RestoredAtMostOnce` | scripts/deploy-release-dev.py:682-702 | of all restore change sets created for a stage at most one is ever requested, and once |
| `ReleaseSafety.ReleaseIsComplete` | scripts/deploy-release-dev.py:614-617 | a published release stands on change sets that were each requested once and completed |
| `ReleaseRestores.RollbackIsComplete` | scripts/deploy-release-dev.py:682-702 | a rollback record stands on all rollback stages: each was journaled as completed, and its restore set was requested once and completed, or had no changes and was never requested |
| `ReleaseRestores.StepRestores` | scripts/deploy-release-dev.py:660-766 | every step of every plan, crashes included, keeps what completed rollback stages and rollback records stand on |
| `ReleaseSafety.StalePlanExecutes` | scripts/deploy-release-dev.py:553-570 | a run in which a plan executes its change set although `CURRENT` has moved on: the checks come before the lock |
| `ReleaseSafety.ExecutesOnItsBaseIff` | scripts/deploy-release-dev.py:553-581 | a plan works on the version it was prepared from for as long as it executes, if and only if that version was current when it took the lock |
| `ReleaseSafety.HeldSinceTheLock` | scripts/deploy-release-dev.py:568-581 | in every reachable world, until it publishes an executing plan holds the lock it journaled, and `CURRENT` is as it was when the lock was taken |
| `ReleaseSafety.Evolves` | scripts/deploy-release-dev.py:527-543 | over any continuation `CURRENT` only grows, plans keep their content, and a lock version never returns |
| `ReleaseChecks.ChecksComeFirst` | scripts/deploy-release-dev.py:546-570 | no plan takes the lock or writes its journal unless, at some earlier moment of the run, it was not blocked, `CURRENT` was its base and each change set it needs was available |
| `ReleaseChecks.BlockedNeverExecutes` | scripts/deploy-release-dev.py:549 | over all runs a blocked plan journals nothing and requests nothing |
| `ReleaseChecks.NeverExecutedTwice` | scripts/deploy-release-dev.py:550 | with a journal no command executes a plan again |
| `ReleaseChecks.ClosedForGood` | scripts/deploy-release-dev.py:664 | once a rollback is complete every command of the plan is refused |
| `ReleaseChecks.StagesInOrder` | scripts/deploy-release-dev.py:571-585 | a change set is asked for only when every stage before it is journaled, in the order of the plan, and its change set has completed |
| `ReleaseChecks.FoundRecord` | scripts/deploy-release-dev.py:638-646 | in any state: a record found under the plan's own label must have the plan's artifacts and configuration, or for a rollback the status it would write; any other record leads to the conditional write |
| `ReleaseChecks.FoundLock` | scripts/deploy-release-dev.py:533-543 | in any state: only the journaled lock version is deleted, and only when it carries the plan's id |
| `ReleaseChecks.PreparedFrom` | scripts/deploy-release-dev.py:316 | a plan's base is the version of `CURRENT` that preparation saw, and preparing executes nothing |
| `ReleaseSafety.LabelsAsTexts` | scripts/deploy-release-dev.py:742 | comparing the plan id texts of records, with and without the rollback prefix, is comparing the records' labels |
| `ReleaseInvariant.StepKeeps` | scripts/deploy-release-dev.py:546-766 | every step of every plan, crashes included, keeps the protocol invariant |
| `ReleaseInvariant.ReachableInv` | scripts/deploy-release-dev.py:546-766 | the invariant holds in every reachable world |
| `ReleaseInvariant.OthersKept` | scripts/deploy-release-dev.py:527-543 | a step of one plan leaves everything the other plans rely on alone |
| `ReleaseInvariant.ChainKept` | scripts/deploy-release-dev.py:637-648 | every step keeps the history one chain of records that sit where their plans said |
| `ReleaseInvariant.NotYetPublished` | scripts/deploy-release-dev.py:645-646 | while `CURRENT` is the version a record is to sit on, that record is not in the history |
| `ReleaseOperator.Operator.TakeLock` | scripts/deploy-release-dev.py:527-530 | taking the lock is one step of the protocol: refused when an object is there, else a fresh version |
| `ReleaseOperator.Operator.FindRecord` | scripts/deploy-release-dev.py:638-641 | reading `CURRENT` and deciding between adopting and writing is one step of the protocol; a record of the plan's own is always fit to be adopted |
| `ReleaseOperator.Operator.PutRecord` | scripts/deploy-release-dev.py:645-646 | the conditional write of the record is one step of the protocol, for verify and for rollback |
| `ReleaseOperator.Operator.Publish` | scripts/deploy-release-dev.py:637-648 | the publishing tail of verify and rollback: adopt or write, then journal; without interference it succeeds when `CURRENT` is the plan's record or the version it is to be written on |
| `ReleaseOperator.Operator.FindLock` | scripts/deploy-release-dev.py:536-541 | reading the journaled lock version is one step; when it is there it is the plan's own |
| `ReleaseOperator.Operator.Unlock` | scripts/deploy-release-dev.py:533-543 | unlock is a run of the protocol; on success the release of the lock is journaled |
| `ReleaseOperator.Operator.Inspect` | scripts/deploy-release-dev.py:589-617 | verify goes on only without a requested rollback and with all its change sets completed |
| `ReleaseOperator.Operator.Verify` | scripts/deploy-release-dev.py:589-652 | verify is a run of the protocol; on success the journal changes in the two facts of publication and release only, and the plan's record stands in the history on its base, with its content and on change sets each requested once and completed; without interference it succeeds when its checks pass and `CURRENT` is the plan's record or its base |
| `ReleaseOperator.Operator.BeginExecute` | scripts/deploy-release-dev.py:549-559 | the checks of execute that come before the lock |
| `ReleaseOperator.Operator.Execute` | scripts/deploy-release-dev.py:546-586 | execute is a run of the protocol that refuses a second execution and changed baselines without a trace; on success every stage was journaled in order, the release stands as after verify and the lock is given back; without interference a plan that passes the checks succeeds when the lock is free |
| `ReleaseOperator.Operator.ExecuteStages` | scripts/deploy-release-dev.py:571-585 | the loop over the stages adds exactly the plan's stages, in order, to the journal; without interference every change set it needs completes |
| `ReleaseOperator.Operator.ExecuteOne` | scripts/deploy-release-dev.py:576-581 | one stage: request, wait, journal; without interference it turns a stage that was not requested into a completed one and leaves the others |
| `ReleaseOperator.Operator.AwaitStage` | scripts/deploy-release-dev.py:579 | waiting ends well only with the change set completed |
| `ReleaseOperator.Operator.Rollback` | scripts/deploy-release-dev.py:660-766 | rollback is a run of the protocol; on success the rollback record stands in its place with the restored content, every rollback stage is complete and the lock is given back; without interference it succeeds unless a newer release, another lock or a restore set in doubt stands in the way, whatever crashes came before |
| `ReleaseMoves.RecordedStands` | scripts/deploy-release-dev.py:637-648 | a journal that says published means that a record with the plan's manifest and configuration hash stands on the plan's base, on change sets each requested once and completed |
| `ReleaseMoves.CompleteStands` | scripts/deploy-release-dev.py:761-766 | a journal that says rolled back means that the rollback record stands in the history on completed stages |
| `ReleaseOperator.Operator.RequestRollback` | scripts/deploy-release-dev.py:670-680 | the request of a rollback ends journaled, with the lock taken again when the release was published |
| `ReleaseOperator.Operator.BeginRollback` | scripts/deploy-release-dev.py:663-676 | the checks of rollback and where it goes on |
| `ReleaseOperator.Operator.RestoreOne` | scripts/deploy-release-dev.py:682-702 | a restore stage is a run of the protocol from wherever the journal stands; on success its entry is completed and those of the other stages are as before; without interference it succeeds unless its request is in doubt |
| `ReleaseOperator.Operator.CreateRestore` | scripts/deploy-release-dev.py:686-690 | creating and journaling a restore change set; a crash in between leaves one that is never requested |
| `ReleaseOperator.Operator.RequestRestore` | scripts/deploy-release-dev.py:692-695 | the request is journaled before the call |
| `ReleaseOperator.Operator.ResumeRestore` | scripts/deploy-release-dev.py:696-699 | a journaled request is never repeated: it must be under way or done |
| `ReleaseOperator.Operator.AwaitRestore` | scripts/deploy-release-dev.py:700 | waiting ends well only with the restore completed |
| `CloudExpression.Coincidence` | scripts/prepare-sam-baseline-release.py:96-122 | evaluation depends only on the attributes read, the conditions and the mappings |
| `CloudExpression.CollectorCovers` | scripts/prepare-sam-baseline-release.py:96-122 | whatever evaluation reads was collected, or belongs to a resource for which computed attribute names are admitted |
| `CloudExpression.CollectorCoversIff` | scripts/prepare-sam-baseline-release.py:103-108 | in every stack the collector covers what an expression reads, but for the resources of a set, if and only if attribute names are computed for resources of that set only; for the empty set, if and only if all are literal |
| `CloudExpression.ComputedEscapes` | scripts/prepare-sam-baseline-release.py:103-108 | any attribute name computed for a resource outside the set lets some stack read an attribute the collector does not list |
| `CloudMeaning.ReferencesIff` | scripts/prepare-sam-baseline-release.py:96-122 | a pair is collected exactly when some value inside is the Ref, the Fn::GetAtt in either form, or a Fn::Sub text with the variable that names it |
| `CloudMeaning.PiecesOfVariable` | scripts/prepare-sam-baseline-release.py:116 | a name in braces behind a dollar sign is one variable of the text |
| `CloudMeaning.PiecesOfLetter` | scripts/prepare-sam-baseline-release.py:116 | every character that starts no such variable stands for itself |
| `CloudMeaning.SplitDotIff` | scripts/prepare-sam-baseline-release.py:119-120 | a name is cut at its first dot |
| `CloudMeaning.SupportedIff` | scripts/prepare-sam-baseline-release.py:137-145 | a value passes exactly when every function it calls anywhere is one of the eight supported ones |
| `CloudMeaning.GetAttLaw` | scripts/prepare-sam-baseline-release.py:103-108 | the evaluator gives both forms of Fn::GetAtt the attribute they name |
| `CloudMeaning.IfLaw` | scripts/prepare-sam-baseline-release.py:141 | the evaluator takes the branch of the condition |
| `CloudMeaning.PieceLaw` | scripts/prepare-sam-baseline-release.py:116-120 | what each piece of a Fn::Sub text stands for: itself, an override, a parameter or resource |
| `DependencyProof.DependencyProof` | scripts/prepare-sam-baseline-release.py:125-181 | evidence is given exactly when the definition is the same and every reference that needs one has an explanation; it has one entry for each of these, in ascending order, with the replacement of a listed target |
| `DependencyProof.Explain` | scripts/prepare-sam-baseline-release.py:156-178 | the loop over the references stops at the first one without an explanation and else lists all that need one |
| `DependencyProof.ProvenIff` | scripts/prepare-sam-baseline-release.py:125-181 | evidence is given exactly for a modified resource with the same definition, conditions and mappings, supported functions only and some reference, when every reference besides pseudo-parameters and parameters is to a resource that exists and is left alone, or is the Arn or Ref of one modified without replacement under the same naming properties and condition |
| `DependencyProof.ExplainedIff` | scripts/prepare-sam-baseline-release.py:156-175 | the check of one reference agrees with what CloudFormation guarantees of it |
| `DependencyProof.SameNamingIff` | scripts/prepare-sam-baseline-release.py:148-155 | for each of the six kinds the fields compared are those that name the resource |
| `DependencyProof.ParametersStay` | scripts/prepare-sam-baseline-release.py:199-206 | when the parameter checks pass every parameter has the same effective value before and after |
| `DependencyProof.ProofIsSound` | scripts/prepare-sam-baseline-release.py:125-206 | whenever evidence is given, the parameter checks pass and attribute names are computed only for resources the change set leaves alone, the properties have the same value before and after; the guarantee assumed of CloudFormation is written out without the check |
| `DependencyProof.ComputedAttributeIsMissed` | scripts/prepare-sam-baseline-release.py:103-108 | a family of templates, change sets and parameters, all admitted by the checks and by what CloudFormation guarantees, where evidence is given and the value changes: a bucket listed as modified gets another name, and an attribute name computed for it hides it from the collector |
| `WebSocketFrames.ParseOfEncode` | connector/agent.py:304-345 | reading gives back a frame written in any way section 5.2 of RFC 6455 allows, up to the limit, and leaves what follows |
| `WebSocketFrames.ParsedIsEncoded` | connector/agent.py:306-320 | the reader accepts nothing but such frames |
| `WebSocketFrames.ParseExtends` | connector/agent.py:306-320 | bytes that arrive later change nothing about a frame already read or refused |
| `WebSocketFrames.ReadsUpToLimit` | connector/agent.py:313-314 | a sent frame is read exactly up to 8 MiB and refused as too long above |
| `WebSocketFrames.ShortestLength` | connector/agent.py:333-340 | no masked way to write a frame takes fewer bytes, and the chosen length form is the only shortest one |
| `WebSocketFrames.DecodeOfWire` | connector/agent.py:304-348 | round trip for any list of frames with any bytes after it |
| `WebSocketFrames.PartIsNoWire` | connector/agent.py:346-348 | frames followed by a part of one more are not the wire of any list of frames, however written |
| `WebSocketFrames.SentIsEncode` | connector/agent.py:329-345 | what send_frame writes is one frame a peer may write |
| `WebSocketFrames.MaskedTwice` | connector/agent.py:318-320 | masking undoes itself |
| `WebSocketFrames.XorTwice` | connector/agent.py:320 | masking a byte twice gives it back |
| `WebSocketFrames.XorBit` | connector/agent.py:320 | a bit of the masked byte is set when exactly one of the two bits is |
| `WebSocketFrames.MaskedBit` | connector/agent.py:318-320 | each payload byte is combined so with the mask byte of its position modulo four |
| `WebSocketFrames.ByteOfBits` | connector/agent.py:320 | and a byte is determined by its eight bits |
| `WebSocketFrames.FrameBytes` | connector/agent.py:305-316 | the bytes of a frame by position: opcode, mask bit, the length itself or 126 or 127 with two or eight bytes in network order |
| `WebSocketFrames.BodyBytes` | connector/agent.py:316-320 | behind them the mask, and the payload with the bits of the mask flipped |
| `WebSocketFrames.SentForm` | connector/agent.py:331-340 | send_frame writes the form of the fewest length bytes, with the final bit and a mask |
| `WebSocketFrames.Opcodes` | connector/agent.py:321-329 | the numbers of text, close, ping and pong in the first byte |
| `WebSocketFrames.NumberOfBigEndian` | connector/agent.py:337-340 | lengths packed in network order read back |
| `WebSocketFrames.BigEndianOfNumber` | connector/agent.py:309-312 | and each length field is the packing of the number read from it |
| `WebSocketClient.ApplyMask` | connector/agent.py:342-344 | the in-place loop combines every byte by exclusive or with the mask byte of its position |
| `WebSocketClient.FrameHeader` | connector/agent.py:331-340 | the first bytes of a sent frame in its shortest form |
| `WebSocketClient.Client.SendFrame` | connector/agent.py:329-348 | when sendall returns the bytes written since the handshake are the frames sent, one more than before; when it raises a part of that frame stands behind them |
| `WebSocketClient.Client.Handshake` | connector/agent.py:272-277 | however the answer is cut, what arrived behind the first empty line stays in the buffer and nothing is lost |
| `WebSocketClient.EmptyLine` | connector/agent.py:272-277 | the header ends at the bytes of two line ends |
| `WebSocketClient.Client.Read` | connector/agent.py:295-302 | read bytes, buffer and unread stream together stay the stream; an error only when it ends first |
| `WebSocketClient.Client.ReadFrame` | connector/agent.py:306-320 | one frame of the stream, whatever the chunks |
| `WebSocketClient.Client.Receive` | connector/agent.py:304-327 | the result depends only on the stream, JSON errors included; each ping met is answered by one pong of equal payload, in order, up to one whose send raises |
| `WebSocketClient.Client.Serve` | connector/agent.py:375-383 | the tunnel loop: the requests handed to the workers are those of the stream's messages in order, and the frames sent are one heartbeat and then, in the order of the stream, a pong for each ping frame and a heartbeat for each ping message |
| `WebSocketClient.Client.ServeOne` | connector/agent.py:376-383 | one turn adds one message to what was said and answers it; a message that does not decode ends the loop |
| `WebSocketClient.SessionOfWire` | connector/agent.py:304-327 | for any frames of a peer without a close whose texts decode: exactly the messages in order, the answers due in order, and what follows is left |
| `WebSocketClient.NextOfWire` | connector/agent.py:304-327 | one call passes over everything before the next text |
| `WebSocketSenders.StepKeeps` | connector/agent.py:346-348 | under any schedule with partial writes the wire is whole turns followed by the turn under way |
| `WebSocketSenders.OwnOrder` | connector/agent.py:329-348 | each thread's frames take their turns in the order the thread sent them |
| `WebSocketSenders.WholeFramesIff` | connector/agent.py:347-348 | between sends the wire is the whole frames in lock order if and only if no send raised part way |
| `WebSocketSenders.TornRun` | connector/agent.py:346-348 | one send that raises after any part of its bytes leaves the lock free and a wire that is no sequence of frames at all |
| `WebSocketSenders.WireDecodes` | connector/agent.py:347-348 | then it decodes to those frames, whatever follows |
| `WebSocketSenders.SendersInterleave` | connector/agent.py:371-446 | every schedule without a raise decodes to an interleaving that keeps each thread's own order |
| `Rbac.ReconcileAssignment` | connector/agent.py:930-971 | role first, then binding: at every state in between, failures included, each managed binding grants a role that exists at its place |
| `Rbac.PrunePath` | connector/agent.py:986-998 | one path loses exactly its stale objects, and no state in between leaves a managed binding without the role it grants |
| `Rbac.Prune` | connector/agent.py:979-998 | the four paths in order remove exactly the objects labelled with an id that is not desired |
| `Rbac.Reconcile` | connector/agent.py:1001-1021 | the step invariant over a whole run with failures anywhere; a run without failure reaches the converged state |
| `Rbac.DesiredInPlace` | connector/agent.py:1008-1011 | after a run without failure every desired pair is there |
| `Rbac.Granted` | connector/agent.py:930-971 | then for each assignment a binding at its place grants, to its user or group, a role at that place that holds exactly its rules, both labelled with its id |
| `Rbac.NameLaw` | connector/agent.py:846-847 | names are "navigan-" and the id without "KAA-", upper-case letters lowered |
| `Rbac.PrunedIs` | connector/agent.py:986-998 | what one path takes away: its kind, in namespaces or cluster-wide, labelled by the connector with an id that is not desired |
| `Rbac.LabelsDesired` | connector/agent.py:989-998 | whatever is labelled as managed then carries a desired id |
| `Rbac.OthersUntouched` | connector/agent.py:979-998 | an object at any other key stays as it was unless it is stale, so unlabelled objects are not touched |
| `Rbac.ConvergedTwice` | connector/agent.py:1001-1021 | a second run changes nothing |
| `Rbac.ExactIffNoneMisplaced` | connector/agent.py:990-991 | exactly the desired managed objects remain if and only if no managed object of a desired id sat in another scope or namespace before |
| `Rbac.MovedAssignmentStays` | connector/agent.py:989-991 | the pair of an assignment that moved under the same id is still there after a run without failure |
| `Rbac.Deleted` | connector/agent.py:854-858 | deleting a stale object, bindings before roles, keeps the role of every managed binding |
| `SqlSplitter.SplitScript` | scripts/migrate_data_api.py:33-144 | the loop with its flags computes the recursive specification, errors included |
| `SqlSplitter.Turn` | scripts/migrate_data_api.py:44-136 | a turn of the loop that is not at a separator keeps the segments of the script, as seen from the index, the mode and the text so far |
| `SqlSplitter.OneTurn` | scripts/migrate_data_api.py:44-136 | so does every turn with its flags, separators included, and it moves the index on |
| `SqlSplitter.InRegion` | scripts/migrate_data_api.py:45-99 | a turn inside a quote, comment or dollar block consumes what the lexical rules say and leaves the flags of the mode they lead to |
| `SqlSplitter.OutsideRegions` | scripts/migrate_data_api.py:101-136 | so does a turn outside, at anything but a semicolon |
| `SqlRegions.DollarBlock` | scripts/migrate_data_api.py:30-31 | from a tag, empty or an identifier between dollar signs, to its next occurrence everything is one text, semicolons included |
| `SqlRegions.DollarUnclosed` | scripts/migrate_data_api.py:139-140 | a tag that does not occur again leaves the script without an end |
| `SqlRegions.Quoted` | scripts/migrate_data_api.py:81-99 | quoted text with its marks doubled is one text, for both quotes |
| `SqlRegions.QuoteUnclosed` | scripts/migrate_data_api.py:139-140 | without the closing mark the script has no end |
| `SqlRegions.LineComment` | scripts/migrate_data_api.py:45-51 | a line comment reaches to its line end |
| `SqlRegions.LastLineComment` | scripts/migrate_data_api.py:45-51 | or to the end of the script |
| `SqlRegions.BlockComment` | scripts/migrate_data_api.py:53-66 | a block comment ends where as many marks have closed as have opened, and not before |
| `SqlRegions.BlockUnclosed` | scripts/migrate_data_api.py:139-140 | one that never gets there leaves the script without an end |
| `SqlRegions.PlainCharacter` | scripts/migrate_data_api.py:136-137 | a character that opens none of these stands for itself |
| `SqlRegions.Separator` | scripts/migrate_data_api.py:128-135 | a semicolon outside of them separates |
| `SqlRegions.StatementsAre` | scripts/migrate_data_api.py:128-144 | statements are the stripped segments that are not blank, in order |
| `SqlRegions.StripIs` | scripts/migrate_data_api.py:129-141 | stripping takes the white space at both ends and nothing else |
| `SqlStability.Lossless` | scripts/migrate_data_api.py:128-144 | the script is its raw segments joined by semicolons |
| `SqlStability.KeptSemicolons` | scripts/migrate_data_api.py:44-136 | a semicolon that does not separate lies in a quote, comment or dollar block |
| `SqlStability.SegmentsHoldTheRest` | scripts/migrate_data_api.py:128-136 | the raw segments hold the text of all other tokens, in order |
| `SqlStability.RaisesIff` | scripts/migrate_data_api.py:139-140 | the error is raised exactly when a quote, block comment or dollar block that opens at a token has no end |
| `SqlStability.SplittingIsStable` | scripts/migrate_data_api.py:33-144 | each statement of the result splits to itself |
| `SqlStability.JoiningSplitsBack` | scripts/migrate_data_api.py:33-144 | the statements joined by a line end and a semicolon split to the same list, even after a trailing line comment |
| `SqlStability.SegmentAlone` | scripts/migrate_data_api.py:128-136 | each raw segment read by itself is one segment |
| `SqlStability.Closed` | scripts/migrate_data_api.py:45-51 | a line end and a semicolon close any single segment, an open line comment included |
| `ReleasePlanning.ParseChanges` | scripts/plan-release.py:43-62 | the loop over the fields decodes the change records or refuses |
| `ReleasePlanning.WrittenReadBack` | scripts/plan-release.py:48-61 | records written as fields read back |
| `ReleasePlanning.ReadIsWritten` | scripts/plan-release.py:48-61 | and every decoded list is what the fields were written from |
| `ReleasePlanning.ComputeHash` | scripts/plan-release.py:177-192 | one pass over the listing selects exactly the lines of the tree that belong to the component, with the build contracts for the backend |
| `ReleasePlanning.FindOwners` | scripts/plan-release.py:198-217 | the owners are exactly the components some recorded path affects; review is asked for exactly when some path needs it |
| `ReleasePlanning.BuildPlan` | scripts/plan-release.py:195-231 | what is built, reused, hashed and held for review; refused exactly for a manifest of another revision |
| `ReleasePlanning.UnaffectedKeepsHash` | scripts/plan-release.py:177-217 | when the records cover every differing entry, a component that is not affected has the same hash at base and head |
| `ReleasePlanning.HashSameIff` | scripts/plan-release.py:177-192 | the hash of a component is the same on two trees exactly when all files it owns are, and for the backend the relevant build contracts of all templates |
| `ReleasePlanning.BuildOrReuse` | scripts/plan-release.py:221-231 | a component whose earlier manifest recorded the base hash lands in exactly one of build and reuse |
| `ReleasePlanning.ReadyIsClassified` | scripts/plan-release.py:204-209 | a plan ready for a build has only known paths, all whose owners it builds, no change of file type, and touches migrations only by adding well-named ones |
| `PlanningRules.ChangedContextIsBuilt` | scripts/plan-release.py:65-99 | a change to any file of a directory that components are built from, other than documentation and the frontend's own tests and checks, builds each of them again |
| `PlanningRules.OwnedExactly` | scripts/plan-release.py:73-99 | a file of such a directory is owned by exactly the components built from it |
| `PlanningRules.OwnedByNothing` | scripts/plan-release.py:67-98 | documentation, tests and checks of the frontend, scripts and workflows go into no artifact |
| `PlanningRules.OwnedMigration` | scripts/plan-release.py:79-80 | the migration executor belongs to the database |
| `PlanningRules.ReviewIff` | scripts/plan-release.py:202-209 | a path needs a review exactly when no rule knows it, it is a migration not added under a proper name, or its file type changes |
| `PlanningRules.MigrationRead` | scripts/plan-release.py:24 | a proper name is digits, an underscore and a word |
| `PlanningRules.MigrationNamed` | scripts/plan-release.py:24 | and every such name is proper |
| `PlanningRules.RecordLaw` | scripts/plan-release.py:51-61 | a rename or copy has two paths, the other changes one; an unsafe path refuses the list |
| `PlanningRules.OtherRecords` | scripts/plan-release.py:57 | any other status refuses it |
| `PlanningRules.SafePathIff` | scripts/plan-release.py:58-60 | a path is refused exactly when it is rooted, has a backslash or has two dots for a part |
| `ReleaseManifests.BuildManifest` | scripts/build-release.py:254-318 | retained components stay, selected ones carry the hash of this tree and the backend of this manifest and equal the receipt stored under their recipe, whether built now or before; locks are given back in any case and receipts only grow |
| `ReleaseManifests.Build` | scripts/build-release.py:287-314 | a build happens under the lock of its recipe, which is given back on every way out |
| `ReleaseManifests.ClosureIsComplete` | scripts/build-release.py:339-345 | a release that touches backend or infrastructure carries backend, database and infrastructure, and infrastructure points at that backend |
| `ReleaseManifests.ClosureIsLeast` | scripts/build-release.py:339-345 | and no more is selected than completeness takes |
| `ReleaseManifests.SelectedIsLeast` | scripts/build-release.py:265-268 | a new backend takes infrastructure with it and nothing else |
| `ReleaseManifests.NextReuses` | scripts/plan-release.py:221-231 | from a consistent manifest every recorded component is in exactly one of build and reuse |
| `ReleaseManifests.FollowsConsistent` | scripts/build-release.py:254-318 | a planned release on a consistent manifest gives a consistent manifest |
| `ReleaseManifests.ChainConsistent` | scripts/build-release.py:254-345 | over every chain of releases infrastructure's recorded backend is the manifest's own, and every recorded input hash is that of the manifest's revision |
| `DeploymentEvidence.Walk` | migration_connector/deployment_evidence.py:95-101 | the walk ends on any owner map and finds exactly the targets on the pod's controller chain, each once |
| `DeploymentEvidence.AddStatuses` | migration_connector/deployment_evidence.py:108-112 | appending with the cap keeps the first 500 of the full list and marks it partial exactly when more follow |
| `DeploymentEvidence.ReadOwners` | migration_connector/deployment_evidence.py:69-79 | the owners of a listing, and whether it was refused or goes on |
| `DeploymentEvidence.AddPod` | migration_connector/deployment_evidence.py:92-124 | one pod extends the evidence of exactly the targets on its chain |
| `DeploymentEvidence.CollectRuntime` | migration_connector/deployment_evidence.py:58-128 | each target's evidence is the capped full list, sorted, with the status its completeness deserves |
| `DeploymentEvidence.SortedByKey` | migration_connector/deployment_evidence.py:126 | the final sort puts pods, container types and names in order and keeps the containers of each key as they were, in order |
| `DeploymentEvidence.RecordedIff` | migration_connector/deployment_evidence.py:92-124 | a container belongs to a target's full list exactly when its live pod's controller chain passes through the target |
| `DeploymentEvidence.ChainLaw` | migration_connector/deployment_evidence.py:95-101 | a target is on a pod's chain when it owns the pod or is on the chain of the owner |
| `DeploymentEvidence.DeploymentHasItsPods` | migration_connector/deployment_evidence.py:69-112 | so a deployment shows the containers of the live pods of its listed replica sets |
| `DeploymentEvidence.PartialIff` | migration_connector/deployment_evidence.py:69-110 | the status is PARTIAL exactly when a listing was refused or cut or more than 500 containers are there |
| `DeploymentEvidence.ObservedIsWhole` | migration_connector/deployment_evidence.py:109-128 | lists stay within 500, and the status is OBSERVED or NO_RUNNING_EVIDENCE only when nothing was dropped by the cap or by a listing; then the list is the full one, sorted |
| `ServiceReferences.TruncatingTwice` | migration_connector/inventory.py:356 | the smallest references, with matches added and cut again, are the smallest of the whole union |
| `ServiceReferences.SmallestUnique` | migration_connector/inventory.py:356 | the first n of the sorted set is the only increasing list below all the rest |
| `ServiceReferences.BuildInventory` | migration_connector/inventory.py:737-773 | the references one collector reports for every workload |
| `ServiceReferences.CollectInventory` | migration_connector/agent.py:404-498 | the references the other collector reports |
| `ServiceReferences.BuiltReport` | migration_connector/inventory.py:741-770 | a reference is reported exactly when it is the workload's own or a service of its namespace selects its pod labels, and fewer than 500 come before it |
| `ServiceReferences.CollectedReport` | migration_connector/agent.py:404-498 | the other collector reports the same of the labels of the pod template, for a cron job of its job template |
| `ServiceReferences.NamesReported` | migration_connector/inventory.py:748-750 | services without a name are never reported |
| `ServiceReferences.CollectorsAgree` | migration_connector/agent.py:435-497 | both report the same for every workload other than a cron job, for names within the limits |
| `ServiceReferences.CronJobsAgreeIff` | migration_connector/agent.py:446-450 | on a cron job they agree exactly when every service its job template selects would be cut off anyway |
| `ServiceReferences.CronJobDiffers` | migration_connector/inventory.py:756-758 | a cron job whose job template a service selects gets different references from the two collectors |
| `Patching.ApplyEdits` | scripts/cluster-bootstrap-patch.py:50-54 | edits that do not overlap, listed in any order, have the effect of all of them at once on the original lines |
| `Patching.FirstLast` | scripts/cluster-bootstrap-patch.py:52-53 | applying an edit after all later ones is applying it together with them |
| `PatchRegions.ApartAscends` | scripts/cluster-bootstrap-patch.py:52 | edits at different places that do not overlap are in the order they are sorted into |
| `Patching.FindClose` | scripts/cluster-bootstrap-patch.py:256-261 | the scan finds the first position where the braces balance, or none |
| `Patching.CloseIsBrace` | scripts/cluster-bootstrap-patch.py:256-260 | from an opening brace that position is a closing brace at depth one |
| `Patching.DepthCounts` | scripts/cluster-bootstrap-patch.py:258 | the depth is the number of opening braces less that of closing ones |
| `PatchRegions.StringLaw` | scripts/cluster-bootstrap-patch.py:254 | a string with its escapes is blanked out |
| `PatchRegions.OpenQuoteLaw` | scripts/cluster-bootstrap-patch.py:254 | a quote that starts no string stays |
| `PatchRegions.LineLaw` | scripts/cluster-bootstrap-patch.py:254 | a line comment of either kind is blanked up to its line end |
| `PatchRegions.CommentLaw` | scripts/cluster-bootstrap-patch.py:254 | a block comment is blanked up to its first closing mark |
| `PatchRegions.OpenCommentLaw` | scripts/cluster-bootstrap-patch.py:254 | an opening mark that is never closed stays |
| `PatchRegions.PlainLaw` | scripts/cluster-bootstrap-patch.py:254-255 | everything else stays |
| `Patching.MaskConcat` | scripts/cluster-bootstrap-patch.py:254-255 | a text with all strings and comments finished can be masked apart from what follows |
| `Patching.InsertedFragment` | scripts/cluster-bootstrap-patch.py:264-286 | a balanced fragment before the closing brace moves the end of the block by its length and leaves the text around it |

## Left out

- Progress of the release protocol under interference: success is claimed for undisturbed runs only, and a crash between taking the lock and the first journal write leaves the lock for manual inspection, as in the source.
- Journal writes are atomic in the model; a torn `execution.json` is not considered. Digests and ETags are injective.
- Live DEV checks around the protocol steps (snapshots, workers, containers, smoke checks, authentication) are errors that may be raised at any step.
- ReleaseOperator.Operator.Continue: other plans and CloudFormation move between the calls of a command only as its contract allows; that they do so by protocol steps is part of the contract.
- CloudFormation intrinsics outside the supported list, `AWS::NoValue` and transforms: the check refuses the former, the evaluator does not give the others a meaning.
- `package`, `restore_package_metadata` and nested change sets of `prepare-sam-baseline-release.py`: file handling and recursion over AWS answers.
- WebSocket fragmentation, the accept-key check and TLS; the header terminator of the handshake is assumed to arrive.
- WebSocketClient.Client.SendFrame: the mask is any four bytes; its randomness is not modelled.
- WebSocketClient.Client.Serve: the frames that worker threads send in between are those of `WebSocketSenders`; JSON decoding is any function of the text, and the time in a heartbeat is any number.
- Server-side apply in `Rbac` replaces an object's labels, rules and subject as a whole; pagination of listings, other field managers and the connector's own upgrade are not modelled.
- `Rbac.ResourceName` lowers ASCII letters only.
- `workspace_statements`: it looks at the first characters of statements only, so nothing is claimed about SQL meaning.
- Validation families and printed reasons of the planner, `promotion_plan`, `validate_manifest` formats, and YAML files the reader refuses.
- Template publishing (`template_files`, `publish_templates`), container builds and artifact verification stand as calls that may fail.
- The order of `build` and `reuse` lists in a plan: they are sets.
- DeploymentEvidence.CollectRuntime: of the cuts at 100 statuses, 2000 owners and 2000 pods only the last is reported, as in the source; the status does not claim more.
- `dependency_references` is a set per workload: reading it out of a pod specification is field access with limits.
- Node, namespace and cluster-scoped resources of the inventories, their sanitizers and the size limit of the payload.
- Patching.InsertedFragment: `block` is modelled from the position of the opening brace on; the regular expression that finds the header, and the particular text `patch_module` inserts, are not, so the fragment is any balanced one with its strings and comments finished.
- PlanningRules.ChangedContextIsBuilt: documentation and the frontend's own tests and checks are left out because the planner gives them no owner; a Docker build context may still contain them.
- `patch_handler`, `patch_installer`, `patch_runner` and `patch_package`: they work on Python syntax trees and archives.
- The audit and production deployment scripts, the OpenAPI generators and the frontend.
