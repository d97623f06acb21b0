# XCP in Dafny

XCP nodes act on each other's word: a receipt, a charter, an introduction, a policy someone else wrote.
This project models the code that decides when such a word is believed, charged for or acted on, and
proves what follows for every input and every sequence of calls. One file models each component.

| file | component |
|---|---|
| `Common.dfy`, `Reals.dfy`, `Text.dfy` | optional values, errors, sums over a map; real products; ASCII text and decimal numerals |
| `Hashing.dfy`, `Signing.dfy` | the digest as an ideal hash with a total order on its values; EIP-712 signatures as a sign/recover pair |
| `Merkle.dfy` | the sorted-pair tree behind billing and membership: what a root and a proof are, and what they prove |
| `Transport.dfy` | private billing receipts, the epoch ledger, the four fraud provers |
| `Cluster.dfy` | membership by Merkle root, the signed charter, claims, access requests |
| `Receipts.dfy`, `Escrow.dfy` | the task commitment, the hash chain of calls, the signed receipt; conditional settlement |
| `Federation.dfy`, `Rotation.dfy` | the peer table with hop decay and revocation; certificate renewal under one identity |
| `Questions.dfy`, `Cascade.dfy` | verdicts that abstain below their own bar; the tiered, cached, budgeted cascade |
| `Routing.dfy`, `Header.dfy`, `PolicyLanguage.dfy` | peer selection and concentration; the agent-identity header; the policy language |

Whatever the program does step by step is written as a method or a class with the same loops and
assignments, and proved equal to a function on values; the laws are then proved about that function,
over every input and every sequence of calls. `now`, clock readings, random draws and entropy are
parameters. A digest is a free term over its preimage, so digests collide only when the preimages are
equal; a tree pair is the digest of two ordered words; a signature recovers its signer's address only
for the message that was signed.

Where the code and its own documentation disagree the model follows the code:

- `federation/README.md` line 135 says a peer refuses any lower sequence; the previous binding is
  checked with no minimum, and `Rotation.ReplayedSetWindow` states exactly what that lets through.
- `AgentIdentityHeader.format` promises `parse(format(x)) == x` for every x, and the parser's rule 3
  asks for canonical decimals; `Header.FormatReadsBackIff` and `Header.ParsePrintsBackIff` give the
  exact conditions (a leading zero is taken).
- `Cascade.ask` says it never raises; it raises exactly when the cache size is negative and a question
  misses (`Cascade.RaisesOnlyOnNegativeSize`). It says one expensive question cannot starve the others of
  tier 0; `Cascade.EarlierQuestionStarves` gives a call in which the first question spends what the
  second needed, and `Cascade.BudgetSufficesIff` says exactly which budgets leave nobody short.
- A closed billing epoch can still change: a receipt that names no epoch is checked before its epoch
  is filled in (`Transport.RecordFreezes` says when, `Transport.UnnamedEpochThaws` gives such a run).
- `federation/transport.py` lines 122-125 and `federation/README.md` lines 328-329 say a node cannot invent
  traffic somebody else has to sign for. Nothing ties the payer number billed to the address that signs
  (`Transport.PayerNumberUnchecked`, `Transport.AnyKeyBillsAnyPayer`); the promise holds exactly for a
  caller who checks the declared address against a table of who holds which number
  (`Transport.HolderSignedIff`, `Transport.HoldersBilledIff`).
- `Escrow.deliver` verifies a receipt without expecting its payee (`Escrow.AnyKeyDelivers`);
  `Escrow.PayeeSignedIff` says when it was the payee who signed.
- An incumbent is kept within the smaller of the tolerance and the switch margin, not within the
  switch margin alone (`Routing.IncumbentKeptIff`; `Routing.SwitchMarginNotEnough` is an instance).
- A rule may be written with the effect REQUIRE_APPROVAL, which `evaluate` never reads
  (`PolicyLanguage.WrittenApprovalIsPermission`).
- A revoked node stays unreachable only until it is verified directly again, and only under the spelling
  that was revoked (`Federation.RevokedReachableIff`, `Federation.EverySpellingRevokedIff`).
- A policy's printed title is a comment only while its name and version read as one
  (`PolicyLanguage.ExplainPreservesMeaningIff`).

## Model

| member | source | states |
|---|---|---|
| Merkle.ProofComplete | federation/transport.py:240-263 | every leaf of every nonempty list has a proof that folds to the root, of length k with 2^k < 2n |
| Merkle.PathClimbs | federation/transport.py:240-263 | at any level and index, folding the collected siblings gives the root, odd promoted nodes included |
| Merkle.PathShort | federation/transport.py:240-256 | the number of siblings is logarithmic in the level's width |
| Merkle.OrderIrrelevant | federation/transport.py:227-256 | root and proofs depend only on the multiset of leaves |
| Merkle.RootLeaves | federation/transport.py:227-237 | the leaves can be read back from a root over words that are not tree pairs |
| Merkle.RootBinds | federation/transport.py:227-237 | two roots, empty trees included, are equal exactly when the leaf multisets are |
| Merkle.ProofSound | federation/transport.py:259-263 | a word that is not a tree pair and has any verifying proof, of any length, is a leaf |
| Merkle.ProvableIffLeaf | federation/transport.py:240-263 | for such words, some proof verifies exactly for the leaves |
| Merkle.ProvableIffWithin | federation/transport.py:259-263 | without that condition, some proof verifies exactly for the words inside the tree, inner nodes included |
| Merkle.MerkleRootWellPaired | federation/transport.py:222-237 | every honest root is built of ordered pairs only, which is what the previous row asks |
| Hashing.SortedSorts | federation/transport.py:230 | the sorted leaf list is ordered and keeps every occurrence |
| Hashing.SortedCanonical | federation/transport.py:230 | sorting forgets the order the leaves were given in |
| Signing.RecoverPinsMessage | federation/transport.py:196-217 | one signature recovers one address for two messages only if they are the same message |
| Transport.MerkleRootLoop | federation/transport.py:227-237 | the loop over shrinking levels computes the tree's root |
| Transport.LevelUp | federation/transport.py:231-236 | one pass pairs neighbours and promotes an odd last node unchanged |
| Transport.MerkleProofLoop | federation/transport.py:240-256 | a proof for every leaf, an error for anything else |
| Transport.SiblingsAbove | federation/transport.py:245-256 | the level/index walk collects exactly the siblings on the path to the root |
| Transport.VerifyProofLoop | federation/transport.py:259-263 | accepts exactly the proofs that fold to the root |
| Transport.BucketCount | federation/transport.py:301-309 | the published count is the least multiple of the bucket not below the true one |
| Transport.RunIsHonest | federation/transport.py:330-359 | over every sequence of record and commit: claimed routes are exactly the stored ids, each stored once across all epochs, and each commitment covers stored receipts |
| Transport.NeverConvictedOfTotal | federation/transport.py:345-359 | for every commitment of every run and every disclosed receipt list whatsoever, the wrong-total prover says no |
| Transport.SameLeavesSameTotal | federation/transport.py:420-426 | receipt lists with the same leaves have the same total, because a leaf fixes its price |
| Transport.NeverConvictedOfDoubleClaim | federation/transport.py:408-417 | over every run, no two disclosures whose leaf is the digest of their receipt make the double-claim prover say yes |
| Transport.UncheckedLeafConvicts | federation/transport.py:408-417 | that condition is needed: the prover never checks it, so any two commitments of different epochs can be made to look like fraud |
| Transport.EachLeafCheckNeeded | federation/transport.py:408-417 | on each side: in any run, for any two committed epochs, a matching disclosure of one and one unchecked leaf in the other convict |
| Transport.DisclosedIsStored | federation/transport.py:361-376 | a disclosure that reaches a committed root shows a receipt stored in that epoch |
| Transport.RouteIdOfPayload | federation/transport.py:140-153 | the route id a prover reads from a disclosed payload is the receipt's |
| Transport.RecordFreezes | federation/transport.py:330-343 | recording keeps every committed root, count and total equal to the stored receipts, unless the receipt names no epoch and the clock's is closed: exactly then it does not |
| Transport.UnnamedEpochThaws | federation/transport.py:330-359 | an input that breaks it: two receipts that name no epoch, before and after the clock's commit |
| Transport.RunFreezesIff | federation/transport.py:330-359 | over all runs, committed epochs stay as committed exactly when no accepted record named no epoch while the clock's was closed |
| Transport.RunFreezes | federation/transport.py:330-359 | in particular when every receipt names its epoch |
| Transport.MoneyConserved | federation/transport.py:345-384 | in every reachable ledger whose committed epochs are as committed, committed totals plus uncommitted prices are all earnings |
| Transport.DeclaredAddressSigned | federation/transport.py:182-343 | over every run whose receipts name their epoch, what is stored with a declared payer address was signed by that address's key, every billable field of it; the address, not the payer number |
| Transport.PayerNumberUnchecked | federation/transport.py:196-217 | the payer number is not bound to the key: signed by any one key, a receipt is accepted or refused alike whatever number it names |
| Transport.AnyKeyBillsAnyPayer | federation/transport.py:196-399 | exactly which self-declared receipts are accepted, key and payer number being free; and the signature prover finds nothing as long as the epoch is named |
| Transport.UndeclaredPayerUnchecked | federation/transport.py:206-216 | nor is the number bound when no address is declared |
| Transport.HolderSignedIff | federation/transport.py:196-217 | for an accepted receipt that declares an address, and any table of who holds which number: the address is the holder's exactly when the holder signed |
| Transport.HoldersBilledIff | federation/transport.py:330-359 | over every run whose receipts name their epoch and declare an address, nobody is billed for what it did not sign exactly when every accepted receipt declared the holder's address |
| Transport.SignedReceiptVerifies | federation/transport.py:182-217 | a signed receipt verifies exactly when it has a route, no negative price and the right node |
| Transport.StoredIsProvable | federation/transport.py:361-376 | every stored route can be disclosed; its proof reaches its own root, and the committed one while the ledger is frozen |
| Transport.SignatureDefensible | federation/transport.py:389-399 | an accepted receipt's disclosure survives the signature prover exactly when the payer was declared and the epoch filed is the epoch signed |
| Transport.RoutingLedger.constructor | federation/transport.py:315-325 | a ledger starts empty |
| Transport.RoutingLedger.RecordReceipt | federation/transport.py:330-343 | returns every refusal, and files the receipt only when there is none |
| Transport.RoutingLedger.CommitEpoch | federation/transport.py:345-359 | an epoch is committed once and only if it holds receipts; nothing else changes |
| Transport.RoutingLedger.Prove | federation/transport.py:361-376 | discloses the stored receipt of that route, or reports that there is none |
| Transport.RoutingLedger.Earnings | federation/transport.py:378-384 | the total of one epoch or the sum over all of them |
| Cluster.RootLoop | federation/cluster.py:137-145 | computes the same root as the billing tree, over normalised ids; errors on no leaves or a malformed id |
| Cluster.ComprehensionIsAbove | federation/cluster.py:142-144 | this module's comprehension and the billing loop build the same level |
| Cluster.ProofLoop | federation/cluster.py:152-162 | collects the same siblings as the billing proof |
| Cluster.ProveMembership | federation/cluster.py:148-162 | the billing proof of the normalised target, or the error for a malformed id or a stranger |
| Cluster.VerifyLoop | federation/cluster.py:165-169 | the membership fold with its normalisation and its two ways of raising |
| Cluster.SignedCharterVerifies | federation/cluster.py:308-383 | a charter the authority signs verifies exactly during its validity and while no higher epoch is required |
| Cluster.VerifiedCharterIsTheAuthoritys | federation/cluster.py:337-383 | a charter that verifies for a key was signed by it; equal signatures, equal charters |
| Cluster.VerifyMemberSteps | federation/cluster.py:427-457 | the checks in order, appending to the list of problems |
| Cluster.IssuedClaimVerifies | federation/cluster.py:420-457 | every issued claim at the charter's epoch or later verifies, for members and pads, in any letter case |
| Cluster.AdmittedIffWithin | federation/cluster.py:427-457 | some claim for an id verifies exactly when the id is a word inside the charter's tree |
| Cluster.OnlyLeavesVerify | federation/cluster.py:427-457 | an id that is not a tree pair is admitted, by any proof, only as a leaf of the charter's set |
| Cluster.RemovedNodeIsRefused | federation/cluster.py:427-457 | after a re-issue without a node no claim about it verifies, its old one or any other |
| Cluster.RootClaimsItself | federation/cluster.py:165-169 | the condition on ids is needed: the root with an empty proof passes as a member |
| Cluster.RaisesIffNotHexReached | federation/cluster.py:131-169 | verification raises exactly when hashing reaches a well-sized text that is not hex before a malformed one |
| Cluster.RootIsNoMember | federation/cluster.py:207-222 | padding keeps a fresh set's root from being a member's own id |
| Cluster.AccessMeansMember | federation/cluster.py:574-621 | a verified access request was signed for this audience and time by the holder of a listed node's key |
| Cluster.AccessSignatureCoversClaim | federation/cluster.py:515-621 | two verified requests with one signature make the same claim, node and proof included, to one audience at the same times; node ids being digests of the addresses of keys |
| Receipts.TaskDigestInjective | receipts/receipt.py:82-102 | the task digest pins every field of the task |
| Receipts.HeadPinsRecords | receipts/receipt.py:149-168 | equal heads, equal call records in equal order: edits, reorderings, insertions, deletions and truncations all show |
| Receipts.AppendedChainVerifies | receipts/receipt.py:153-188 | whatever is appended or refused, the chain verifies and its earlier records stay |
| Receipts.CallChain.constructor | receipts/receipt.py:143-147 | a chain starts at the genesis head |
| Receipts.CallChain.AppendRecord | receipts/receipt.py:153-159 | an in-order record extends the chain, any other raises and changes nothing |
| Receipts.CallChain.Verify | receipts/receipt.py:181-188 | the loop accepts exactly the chains in order whose head is recomputed |
| Receipts.CallChain.Load | receipts/receipt.py:143-159 | a chain from given records, or an error when they are out of order |
| Receipts.VerifyReceiptSteps | receipts/receipt.py:314-375 | terms, evidence, signature and acceptance checked in order, every problem listed |
| Receipts.HonestReceiptVerifies | receipts/receipt.py:270-297 | an honestly built and signed receipt verifies exactly when a call was made, the deadline was kept and the clock is not behind |
| Receipts.ExpectedPayeeIff | receipts/receipt.py:314-375 | expecting a payee adds exactly that its key signed this delivery |
| Receipts.AcceptanceKeepsVerified | receipts/receipt.py:300-311 | the payer's countersignature leaves a verified delivery verified |
| Receipts.VerifiedBundle | receipts/receipt.py:395-405 | a verified bundle holds calls in order whose head, and a task whose digest, are the receipt's |
| Receipts.ReceiptPinsEvidence | receipts/receipt.py:395-405 | two verified bundles with one receipt hold the same task and the same calls |
| Receipts.SignaturePinsEvidence | receipts/receipt.py:226-243 | so do two with only one declared payee's signature, and they agree on output, amount and time |
| Receipts.UnpinnedFields | receipts/receipt.py:395-405 | a bundle's call count, stated root when left out, and output reference are not pinned |
| Escrow.HistoryIsDocumented | receipts/escrow.py:93-171 | over every run, raising and rejected calls included, the history is OPEN+ followed by one documented path, and the state is where it ends |
| Escrow.StepMoves | receipts/escrow.py:93-171 | each call only appends to the history, by one of the diagram's moves or none |
| Escrow.ReleaseNeedsEvidence | receipts/escrow.py:99-176 | ready to release only on a receipt that verified against the task in time, and then the payer's acceptance, an enabled timeout, or the designated arbiter's ruling |
| Escrow.RunAccounted | receipts/escrow.py:93-171 | in every reachable state the receipt, chain and decision held are those of identifiable calls |
| Escrow.SettledForever | receipts/escrow.py:58-171 | a released, refunded or expired escrow never changes again |
| Escrow.DeadlineOutcomes | receipts/escrow.py:109-165 | past the deadline a tick refunds an open escrow; a late delivery strands it in EXPIRED for every later run |
| Escrow.BundleNeedsChain | receipts/escrow.py:181-186 | the bundle of an escrow that holds a receipt, refunded ones included, verifies from its delivery on exactly when the chain itself was presented |
| Escrow.AnyKeyDelivers | receipts/escrow.py:99-121 | no payee is expected: whichever key signs and declares itself, the delivery is taken or refused alike |
| Escrow.PayeeSignedIff | receipts/escrow.py:99-121 | over all runs, a given key signed the receipt held exactly when its delivery would have passed with that payee expected, and exactly when a declared address is that key's |
| Escrow.EscrowAccount.constructor | receipts/escrow.py:205-221 | the account as opening leaves it |
| Escrow.EscrowAccount.DeliverReceipt | receipts/escrow.py:99-121 | late, rejected, raising and accepted deliveries |
| Escrow.EscrowAccount.AcceptDelivery | receipts/escrow.py:123-131 | the payer's acceptance and its two refusals |
| Escrow.EscrowAccount.DisputeDelivery | receipts/escrow.py:133-142 | a dispute and its refusals |
| Escrow.EscrowAccount.ResolveDispute | receipts/escrow.py:144-153 | a ruling and who may give it |
| Escrow.EscrowAccount.AdvanceTime | receipts/escrow.py:155-171 | deadline refund and timeout release |
| Federation.RunWeighs | federation/node.py:425-506 | in every reachable table weight is decay^(hops-1), hops are at least one and, unless direct, within the cap and floor |
| Federation.HopsNeverIncreaseIffStable | federation/node.py:473-506 | a domain's hops never increase, over any run, exactly for the stable settings, the defaults among them |
| Federation.GrowingDecayLengthens | federation/node.py:473-506 | with a decay above one an introduction displaces a direct peer |
| Federation.AlternatingDecayLengthens | federation/node.py:473-506 | with a negative decay a third hop outweighs a second |
| Federation.TrustHasARoot | federation/node.py:425-506 | for the stable settings, following introducers strictly approaches, within the hop cap, a peer some call verified directly |
| Federation.TrustHasARootIffStable | federation/node.py:473-506 | every reachable table has such a path for every peer exactly for the stable settings |
| Federation.RunRoots | federation/node.py:473-506 | for the stable settings, every listed peer is direct by some call or introduced by a listed peer strictly closer |
| Federation.FollowIntroductions | federation/node.py:473-506 | the path of introducers from any peer exists and is no longer than its hops |
| Federation.CliqueStaysOut | federation/node.py:473-506 | identities only vouched for by each other never enter the table, over any run |
| Federation.RevokedForever | federation/node.py:519-538 | a revoked id has no trust after any later calls, direct re-adds included |
| Federation.RevokedNotIntroduced | federation/node.py:473-506 | a revoked id cannot be introduced again |
| Federation.RevokedReachableIff | federation/node.py:434-553 | over any later calls, where the table ends up listing a revoked id under a domain: it is reachable exactly when it was verified directly there and not revoked since, and the floor admits direct peers |
| Federation.EverySpellingRevokedIff | federation/node.py:455-538 | an identity, as rotation compares it, stays without trust over all later calls exactly when every spelling of its id is revoked |
| Federation.RevocationLimits | federation/node.py:434-553 | an instance of each: a re-add lists the peer again, and the id in other case is trusted |
| Federation.DirectSequenceMonotone | federation/node.py:425-506 | a directly verified peer stays direct and its sequence never goes back, over any later calls, for every decay between -1 and 1, for a lower one with at most two hops, and where nothing can be introduced |
| Federation.DirectSequenceMonotoneIff | federation/node.py:425-506 | that holds over all runs exactly for those settings |
| Federation.FederationNode.constructor | federation/node.py:405-424 | a node starts with no peers and no revocations |
| Federation.FederationNode.AddPeer | federation/node.py:425-440 | adds or replaces a direct peer, or raises on a replayed sequence and changes nothing |
| Federation.FederationNode.Rotated | federation/node.py:455-470 | accepts only a higher sequence of the same identity |
| Federation.FederationNode.Ingest | federation/node.py:473-506 | adds the introduced peer when every gate passes and it is preferred |
| Federation.FederationNode.RevokeNode | federation/node.py:526-538 | marks every peer of that id, remembers the id, and names the gateways still trusted to pass it on to |
| Federation.FederationNode.Gossip | federation/node.py:540-547 | a revocation is taken only from a peer trusted enough |
| Rotation.VerifyBindingSteps | federation/identity.py:207-244 | the binding's problems, appended check by check |
| Rotation.AcceptedWasSigned | federation/identity.py:292-318 | an accepted certificate is one the expected identity's key signed, active now or within the grace |
| Rotation.RenewalsKeepOrder | federation/identity.py:275-289 | after n renewals the set holds numbers n and n-1 under one node id |
| Rotation.AcceptIff | federation/identity.py:292-318 | exactly which certificate is accepted after n renewals, and as which of the two |
| Rotation.OlderCertificatesRefused | federation/identity.py:292-318 | none older than the last two is accepted, at any time |
| Rotation.ReplayedSetWindow | federation/identity.py:309-312 | a replayed older set is accepted exactly for its previous certificate within its grace |
| Questions.AnsweredIsDistribution | engine/questions.py:283-360 | a verdict that does not abstain is a distribution over the question's own answers |
| Questions.AnsweredClearsFloors | engine/questions.py:283-360 | each other answer trails the top one by the margin, for every kind; and for yes/no and choice questions the top answer clears the confidence floor |
| Questions.SeverityNearAnswer | engine/questions.py:242-431 | a usable severity's expected level is within f + (1-f)(n-1) of the level it reports |
| Questions.ScaleInvariant | engine/questions.py:283-360 | raw scores times a positive constant give the same verdict |
| Cascade.SortByCostSorts | engine/cascade.py:382-391 | tiers are tried in ascending typical cost and none is lost |
| Cascade.BudgetNeverOverspent | engine/cascade.py:415-466 | with backends no slower than typical, one call spends at most its budget over all questions and tiers |
| Cascade.BudgetSufficesIff | engine/cascade.py:91-466 | after any calls, with any cache or none, no punctual clock makes a call skip a tier exactly when the budget covers every uncached question's available tiers up to its first answer |
| Cascade.AmpleBudgetSkipsNothing | engine/cascade.py:91-466 | the sufficient half, from any point of a call |
| Cascade.EarlierQuestionStarves | engine/cascade.py:415-466 | one tier, a budget that pays it once, two questions it answers: the second is refused, though alone it is answered |
| Cascade.CheapestAnswers | engine/cascade.py:440-452 | the answer is that of a cheapest tier that answers at all |
| Cascade.SharedKeyIff | engine/features.py:179-195 | exactly which requests share a key: equal ones, and those that shift a NUL-separated part between features and id |
| Cascade.CacheKeyInjective | engine/features.py:179-195 | keys tell requests apart while the features, or the ids, hold no NUL |
| Cascade.CacheKeyCollides | engine/features.py:179-195 | an instance of two that share one |
| Cascade.SessionFaithful | engine/cascade.py:415-466 | over any calls, every reply is what the tiers would have said, and so is every cached verdict |
| Cascade.CacheIsTransparent | engine/cascade.py:415-466 | over any calls with no tier skipped for budget, a cache of any size changes no answer, probability, abstention or reason |
| Cascade.BudgetAbstentionSticks | engine/cascade.py:440-462 | that condition is needed: an abstention forced by budget is cached and returned to a call that could pay |
| Cascade.CacheIsLeastRecentlyUsed | engine/cascade.py:427-462 | over any calls the cache holds exactly the most recently used keys, oldest first, never above its size |
| Cascade.AskFromCounts | engine/cascade.py:331-357 | asked equals answered plus abstained, and every question is counted once |
| Cascade.RaisesOnlyOnNegativeSize | engine/cascade.py:415-466 | a call raises exactly when the cache size is negative and a question misses |
| Cascade.CascadeEngine.constructor | engine/cascade.py:382-392 | tiers sorted, cache and statistics empty |
| Cascade.CascadeEngine.AskAll | engine/cascade.py:415-466 | the replies, cache and statistics after a whole call; a call that raises leaves the cache empty |
| Cascade.CascadeEngine.AskQuestion | engine/cascade.py:428-464 | one question: hit, or first tier that does not abstain, remembered |
| Cascade.CascadeEngine.EvictOldest | engine/cascade.py:459-462 | drops oldest entries down to the size |
| Cascade.CascadeEngine.TryTiers | engine/cascade.py:440-456 | the loop over tiers under the remaining budget |
| Routing.SelectPeer | federation/routing.py:297-339 | the choice, or the reason every single peer was refused |
| Routing.SelectIsSound | federation/routing.py:297-339 | for every draw, none exactly when no peer is admissible; else an admissible peer, the best or within the tolerance |
| Routing.SelectWithinTolerance | federation/routing.py:297-339 | with nonnegative inputs the chosen score is at most (1+tolerance) times every admissible peer's |
| Routing.IncumbentKeptIff | federation/routing.py:326-337 | an incumbent is returned for every draw exactly when within both tolerance and switch margin of the best |
| Routing.SwitchMarginNotEnough | federation/routing.py:326-337 | an incumbent within the switch margin of the best that some draw replaces |
| Routing.SettlementIsDirect | federation/routing.py:107-271 | a settling request only goes to a direct, unrevoked peer of full weight |
| Routing.SmoothedWithinRange | federation/routing.py:180-193 | smoothed latency stays within what was observed, and the success rate is a rate |
| Routing.PeerMetrics.constructor | federation/routing.py:142-170 | a peer starts unobserved |
| Routing.PeerMetrics.Observe | federation/routing.py:185-193 | one observation's effect on every field |
| Routing.TallyHistory | federation/routing.py:342-350 | counts the history by peer in order of first appearance |
| Routing.CounterCounts | federation/routing.py:342-350 | each count is the peer's occurrences, and they sum to the history's length |
| Routing.CauchySchwarz | federation/routing.py:342-361 | the square of the sum is at most the number of peers times the sum of squares |
| Routing.VerdictMeansWhatItSays | federation/routing.py:342-361 | 1/n <= HHI <= top share and topShare^2 <= HHI; "well distributed" means five peers or more and none at half, "concentrated" means one has half |
| Header.StripOws | protocol/identity.py:100-113 | the two loops remove exactly the maximal runs of spaces and tabs at both ends |
| Header.StrippedIsTrim | protocol/identity.py:100-113 | there is only one such result |
| Header.TrimAround | protocol/identity.py:100-113 | added whitespace is not part of the value, and stripping is idempotent |
| Header.ParseHeader | protocol/identity.py:139-161 | the four rules in order with their two reasons |
| Header.HeaderRoundTrip | protocol/identity.py:139-198 | everything the formatter emits reads back, with any spaces and tabs around it; exactly what it refuses |
| Header.FormatReadsBackIff | protocol/identity.py:127-129 | exactly which identities their own text stands for |
| Header.ParsePrintsBackIff | protocol/identity.py:139-161 | printing what was parsed restores the stripped header exactly when neither number has a leading zero |
| Text.DecReadsBack | protocol/identity.py:127-161 | a printed natural reads back as itself |
| Text.ValueWritesBack | protocol/identity.py:150-158 | a numeral with no leading zero is printed back unchanged |
| PolicyLanguage.AllowedIff | policy/language.py:307-365 | allowed exactly when nothing that matches prohibits and the first most specific match permits: tier, amount, currency, domain, approval |
| PolicyLanguage.ApprovalIsAllThatIsMissing | policy/language.py:354-361 | approval is asked for exactly when approval alone would turn the refusal into a permission |
| PolicyLanguage.FloorAlwaysHolds | policy/language.py:127-136 | no policy allows an act below the tier floor of its class, or an irreversible one without a human |
| PolicyLanguage.WrittenApprovalIsPermission | policy/language.py:307-365 | a rule's written effect REQUIRE_APPROVAL decides every request as a plain permission does |
| PolicyLanguage.WrittenApprovalAsksIff | policy/language.py:135-361 | such a rule never lets an unapproved request through exactly when it requires a human by its own flag or its class |
| PolicyLanguage.ProhibitionOnlyRestricts | policy/language.py:319-325 | adding a prohibition takes away exactly what it matches |
| PolicyLanguage.SimilarDecide | policy/language.py:307-365 | rules that agree but for id, note and the way a human is required decide alike |
| PolicyLanguage.ParsePolicy | policy/language.py:377-406 | the loop over lines collects the rules or stops at the first bad line |
| PolicyLanguage.ParsedLines | policy/language.py:377-406 | what a rule read from text can look like |
| PolicyLanguage.ExplainPolicy | policy/language.py:409-421 | the loop builds the header and one line a rule |
| PolicyLanguage.PrintedMatches | policy/language.py:370-375 | the statement pattern reads a printed rule's words back as its own parts |
| PolicyLanguage.NotIsNoModal | policy/language.py:370-375 | a permission for an action called "not" is never read as a prohibition |
| PolicyLanguage.RuleLineReadsBack | policy/language.py:377-421 | a printed rule reads back as itself but for id, note and modal |
| PolicyLanguage.SplitAtLineFeed | policy/language.py:387 | splitting into lines distributes over a line feed, whatever breaks the text before it holds |
| PolicyLanguage.PrintedReadsBack | policy/language.py:377-421 | a printed policy reads back as what its title says, then its own rules |
| PolicyLanguage.ExplainPreservesMeaning | policy/language.py:377-421 | for every policy that can be read from text, printing and reading back gives the same decision on every request |
| PolicyLanguage.TitleStatementsChangeMeaning | policy/language.py:411 | a name or version whose lines are not all comments always changes some decision |
| PolicyLanguage.ExplainPreservesMeaningIff | policy/language.py:377-421 | meaning is preserved for all policies and requests exactly when every line of the title is blank up to its first hash |
| PolicyLanguage.CommentsSayNothing | policy/language.py:387-390 | lines read as no rule, and without error, exactly when each is blank up to its first hash |
| PolicyLanguage.OneLineTitleIsComment | policy/language.py:411 | a name and a version on one line always do |

## Left out

- Cryptography and encoding: keccak, EIP-712 and JSON are the ideal hash, the abstract signature and
  the JSON value itself; the order of digests in the tree is a structural total order on terms, and
  ABI range errors for out-of-range integers are not modelled.
- eth-account is taken to be installed. Without it the source checks only that a receipt, charter,
  binding or request carries some signature, and what is said of signers here does not hold.
- Text is ASCII: Unicode digits, spaces, line breaks and case folding, and the limit on the length of
  an integer literal, are not modelled.
- Floats are reals; the rounding of published HHI, shares and probabilities is not modelled.
- Sharing: receipts, records, peers and chains are values held by the classes, so a caller changing an
  object after handing it over (a receipt whose `epoch` the ledger fills in, a chain an escrow holds, a
  `Peer` taken from the table) is not captured.
- Transport.RoutingLedger.Earnings: leaves out the counts by route class and adds amounts whatever
  their currency, as the source does, without reporting the currency.
- Transport.NeverConvictedOfDoubleClaim: asks that each disclosed leaf be the digest of the disclosed
  receipt, which the prover does not check; `Transport.UncheckedLeafConvicts` shows why.
- Transport.RunFreezes: asks that receipts name their epoch; `Transport.RunFreezesIff` is the exact condition.
- Transport.HoldersBilledIff: asks that receipts name their epoch and declare an address; one filed under the
  clock's epoch no longer carries a signature of its own payload (`Transport.SignatureDefensible`).
- Cluster.RootLoop: with two leaves or more, a leaf that is not hex raises before the first level is
  built, not while it is; the outcome is the same. So for `Cluster.ProveMembership`.
- Escrow.EscrowAccount.DeliverReceipt: the note of a rejected delivery does not carry the first problem's
  text; the problems are returned in full.
- Ids of the right length that hold spaces, which `bytes.fromhex` skips, count as not hex.
- Cluster.OnlyLeavesVerify: asks that the claimed id is not itself a tree pair; `Cluster.AdmittedIffWithin`
  says what holds without that.
- Cascade.CacheIsTransparent: asks that no tier was skipped for budget, that an id names one question
  and that features or ids hold no NUL; `Cascade.BudgetAbstentionSticks` and `Cascade.SharedKeyIff` show why.
- Cascade.CacheKeyInjective: the SHA-256 of the key text is taken to be the key text.
- PolicyLanguage.ExplainPreservesMeaning: compares what is allowed, the effect, the class and whether a
  human is required; the wording, the rule id and the policy digest change with the text.
- PolicyLanguage.ParsePolicy: works on the words of a line; the statement pattern is made of whole words,
  so the words decide the match.
- Policy documents as dictionaries, `validate` and `shadowed`.
- Peer records, bootstrap, bond weight, `serving`, the order of the list `revoke` returns, revocation documents and
  their signatures; the order of `reachable`.
- Loading a cluster posture from the environment; charters and claims as dictionaries.
- The delegation tier algebra, model backends beyond pure functions, diagnostics, feature extraction.
- HTTP, TLS, environment variables, connectors, compliance tables, privacy transformations, scripts.
