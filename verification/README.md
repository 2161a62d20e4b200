# A verified model of the multi-pipeline HotStuff replica

Two protocols of the repository, MTchs (`mthotstuff/`) and MHotStuff (`mhotstuff/`), run on one block
store (`blockchain/`), one pacemaker (`pacemaker/`) and one replica loop (`replica/`). The project
models them in three layers and proves what every run keeps.

1. **Block store.** `ForestModel` and `ChainModel` describe the levelled forest and the block chain as
   values, and prove whole-run properties of them. `LevelledForests`, `Quorums` and `BlockChains` hold
   the program's classes, changed in place and tied operation by operation to those values.
2. **One replica.** `ReplicaModel` describes every handler as a function on replica values, with the
   protocol as a parameter; the protocols differ in the lock a certificate moves, in the voting and
   commit rules, and in what a block's timeout certificates do. `Replicas.HotStuff` is the object with
   the program's fields; each method is proved equal to its function.
3. **n replicas.** `ReplicaSystem` lets any replica run any handler on any message ever sent, in any
   order, any number of times or never. `Invariants` and `Handlers` hold the inductive invariant;
   `Safety`, `Predecessors` and `ReplicaChains` state what it gives for every state of every run, and
   `InOrderRuns` what it gives for runs that store blocks in order. `Decisions`, `EarlyBlocks` and
   `Histories` prove the other direction, that replicas move on: what makes a replica of a run accept a
   certificate or a block, commit, vote, build a certificate or leave a view, in terms of views, Seqs,
   stored IDs and the messages delivered so far. `LateRuns` and `FailingRuns` hold one particular run each,
   built with the steps in `Reachability`.

Four side components stand alone: the rate limiter (`Limiters`), the key-value store (`Databases`), the
mempool queue and its share batches (`Mempools`), and the Bloom filter (`BloomFilters`).

How to read the model:

- A block ID is the constructor `BlockHash` applied to the hashed fields, that is, a hash without
  collisions; View, TC and TCs are not hashed, as in `blockchain/block.go:52-67`. A signature is the
  pair of signer and ID: what `PrivSign` makes, `PubVerify` accepts, and nothing else.
- A handler function returns `None` (or `Panic`, `Stuck`) where the program dereferences nil, indexes
  past the end of a list or loops for ever. The class methods require that this does not happen;
  `Safety.OnlyPruningFails` shows that in a run it can happen in one place only.
- The order in which a certificate lists its signers is the order of a map iteration, so a certificate
  is any value that satisfies `Quorums.Certificate`.
- Clocks and payloads are parameters. Channels between goroutines are sequences or, for `proposeChan`,
  a choice whether a built certificate is processed or dropped.

Where code and comments differ, the model follows the code:

- `GetChildren` promises an empty iterator for an unknown ID (`blockchain/leveled_forrest.go:125-131`);
  the code dereferences the missing container, so the model requires that it exists.
- `getOrCreateVertexContainer` promises an error when an ID is known at another level
  (`blockchain/leveled_forrest.go:204-205`); the code returns the container at the level it has.
- `PruneUpToLevel` assumes one vertex per level (`blockchain/leveled_forrest.go:70`). At most one full
  vertex per Seq is proved, but `BlockContainer.Parent` pairs `PrevID` with the Seq of the QC
  (`blockchain/container.go:15-17`), so a block that arrives after its child is filed at another level
  than its Seq, and committing it makes the code index an empty list. `LateParents.FilingLevel` and
  `LateParents.LateParentStuckIff` say exactly when, `FailingRuns.ProcessingFails` gives a run of four
  nodes in which it happens, and `InOrderRuns.InOrderNeverFails` a condition under which it never does.
- The forest's contract, parents strictly below children (`blockchain/leveled_forrest.go:12-18`), does
  not hold of every proposal: an announced view can be taken off its channel late.
  `Predecessors.AbovePredecessorIff` and `Predecessors.PredecessorsBelowIffTimely` give the exact
  condition, for one proposal and for whole runs, and `LateRuns.BelowPredecessor` a run that breaks it.
- `Conflict` speaks of different end states (`db/db.go:165`); two writes of one value end in the same
  state and differ only in what they return. `Databases.NoConflictIffCommute` counts both.

## Model

| member | source | states |
|---|---|---|
| ForestModel.RunIndexedAndConserved | blockchain/leveled_forrest.go:60-220 | In every run of adds and prunes, whatever levels the vertices claim: each stored ID is listed exactly once, at its container's level, none below the lowest; containers created = containers stored + counts returned by the prunes |
| ForestModel.PruneConserves | blockchain/leveled_forrest.go:60-97 | One prune keeps the index exact and loses no container uncounted |
| ForestModel.AddVertexIndexed | blockchain/leveled_forrest.go:170-220 | Adding any vertex, empty parent containers included, keeps the index exact |
| ForestModel.RunRepresents | blockchain/leveled_forrest.go:12-18 | Under the documented level contract, the forest after any run is the one determined by the set of offered vertices and the lowest level: which IDs have containers, which are full, their levels and children |
| ForestModel.Confluence | blockchain/leveled_forrest.go:60-220 | Any two interleavings offering the same vertices, children before parents included, and ending at one lowest level, have the same IDs, levels, vertices, child sets and level lists |
| ForestModel.ChildrenAreStored | blockchain/leveled_forrest.go:126-146 | After any run under the contract, the children kept for an ID are exactly the stored full vertices naming it as parent, each once |
| LevelledForests.LevelledForest.AddVertex | blockchain/leveled_forrest.go:170-182 | The heap containers, ID map, level index and child lists end as the value function says, and stay consistent with each other |
| LevelledForests.LevelledForest.RegisterWithParent | blockchain/leveled_forrest.go:184-200 | A full container above the lowest level is appended to its parent's children, creating an empty parent when unknown |
| LevelledForests.LevelledForest.GetOrCreateVertexContainer | blockchain/leveled_forrest.go:206-220 | Returns the live container of the ID; a new one is listed at the requested level, a known one keeps its own |
| LevelledForests.LevelledForest.CommittedLevels | blockchain/leveled_forrest.go:69-79 | The loop collects the levels of the stored ancestors it walks over, when it meets a full first container at every level |
| LevelledForests.LevelledForest.PruneUpToLevel | blockchain/leveled_forrest.go:60-97 | Refuses exactly a level below the lowest, unchanged; otherwise drops every level below it from both indexes and returns the forked blocks in order and the number of containers dropped |
| LevelledForests.LevelledForest.GetVertex | blockchain/leveled_forrest.go:114-122 | Finds the vertex exactly of full containers |
| LevelledForests.LevelledForest.GetChildren | blockchain/leveled_forrest.go:126-132 | The iterator has exactly the children of the container left, in order |
| LevelledForests.LevelledForest.GetNumberOfChildren | blockchain/leveled_forrest.go:135-146 | The count is the number of those children |
| LevelledForests.VertexIterator.PreLoad | blockchain/vertex.go:27-37 | The look-ahead loop skips empty containers and loses no full one |
| LevelledForests.VertexIterator.NextVertex | blockchain/vertex.go:40-44 | Yields the first vertex left and drops it; nothing once none is left |
| LevelledForests.VertexIterator.HasNext | blockchain/vertex.go:47-49 | True exactly while a vertex is left |
| BlockChains.BlockChain.GetChildrenBlocks | blockchain/blockchain.go:103-110 | Returns the blocks of the children of the container, each once, in order |
| BlockChains.BlockChain.AddBlock | blockchain/blockchain.go:32-35 | Stores any block, whatever its ID, as the vertex that pairs PrevID with the QC's Seq |
| BlockChains.BlockChain.CommitBlock | blockchain/blockchain.go:71-101 | Not found: nothing changes. Refused by pruning: counters and votes already changed, nothing reported. Otherwise returns the walked blocks and the forked ones, forgets the walked blocks' votes, prunes and updates every counter |
| BlockChains.BlockChain.WalkToLowest | blockchain/blockchain.go:79-93 | Whenever the loop over PrevID ends, it has returned the blocks it passed, forgotten their votes and counted them |
| ChainModel.LinkedWalkEnds | blockchain/blockchain.go:79-93 | The loop ends whenever stored blocks are kept under the hash of their fields, because hash links have no cycles |
| ChainModel.WalkIsPath | blockchain/blockchain.go:79-93 | With stored parents below their children, the committed blocks are exactly the stored PrevID ancestors above the lowest level, from the target down, strictly falling, inside (lowest, target Seq] |
| ChainModel.NoBlockCommittedTwice | blockchain/blockchain.go:71-101 | Over any such run of adds and commits, committed Seqs are pairwise different and never above the lowest level |
| ChainModel.PruneWalkEnds | blockchain/leveled_forrest.go:69-79 | With one container per level, at its block's level, and parents below children, the pruning walk from any stored block never meets an empty level or goes round |
| ChainModel.WalkMarksAncestors | blockchain/leveled_forrest.go:69-79 | Then the levels it marks, from 2 up, are exactly those of the target's proper stored ancestors |
| ChainModel.CommittedOrForkedOnce | blockchain/blockchain.go:71-101 | Over a run of tidy commits, every block of level 2 or above that was pruned was reported exactly once, as committed or as forked, and besides those only the last target was reported |
| ChainModel.NeverBoth | blockchain/leveled_forrest.go:80-96 | Then no block of level 2 or above is reported both committed and forked |
| LateParents.FilingLevel | blockchain/container.go:13-17 | A parent added after its child sits at its own Seq if and only if the child's QC has that Seq; added first, it always does |
| LateParents.LateParentStuckIff | blockchain/leveled_forrest.go:69-73 | In a forest with one container per level, at its block's level, and parents below children, let a block arrive after its child, its own predecessor stored or not, and any blocks be stored on top of it later. Committing it then fails in the pruning walk if and only if the child's QC filed it at another Seq or an empty container already held its level |
| Quorums.CompletesIff | blockchain/quorum.go:91-127 | Over any history of Add and RemoveVote, a certificate is built exactly by the vote of a new voter that brings the distinct voters since the last removal to total*2/3+1 |
| Quorums.AtMostOneCertificate | blockchain/quorum.go:91-122 | Without a removal in between, no second certificate is built for a block |
| Quorums.CountsHistory | blockchain/quorum.go:83-122 | The votes kept for a block are those of its voters until a quorum is complete, never more than a quorum |
| Quorums.CertificateVerifies | blockchain/quorum.go:107-119 | A built certificate has a quorum of distinct signers and, if each vote verified, passes VerifyQuorumSignature |
| Quorums.QuorumsIntersect | blockchain/quorum.go:125-127 | Two quorums among n nodes share more than n/3 nodes |
| Quorums.VerifyQuorumSignature | crypto/sign.go:109-122 | Accepts exactly if every signer's signature at its own index verifies |
| Quorums.Quorum.Add | blockchain/quorum.go:91-122 | New votes, whether a certificate is built, and that it lists the voters with index-aligned signatures; the kick-off vote yields its certificate at once |
| Quorums.Quorum.GetSigs | blockchain/quorum.go:136-151 | In any iteration order, signers and signatures are aligned and cover the votes once each |
| Quorums.Quorum.RemoveVote | blockchain/quorum.go:83-88 | Forgets exactly the votes of one block |
| Election.OneLeaderPerView | election/rotation.go:22-46 | For any hash, exactly one of the nodes leads a view, the one FindLeaderFor names |
| Election.LeaderByHash | election/rotation.go:22-46 | The last node leads views 0..3; from view 4 on a node leads exactly the views v for which the hash of v+1 is one less than its number modulo n, so two views have one leader exactly if these hashes agree modulo n |
| Pacemakers.Pacemaker.AdvanceView | pacemaker/pacemaker.go:36-45 | Never goes back; sets view and Seq together and announces them |
| Pacemakers.Pacemaker.ProcessRemoteTmo | pacemaker/pacemaker.go:28-33 | Ignores timeouts of left views; otherwise builds the pair exactly on the timeout that completes its view |
| Pacemakers.TimeoutController.AddTmo | pacemaker/timeoutController.go:24-50 | Keeps one timeout per node until a view is complete, then none; builds the pair once |
| Pacemakers.BuildsPairIff | pacemaker/timeoutController.go:24-50 | After any history of timeouts and view changes, the pair is built exactly by a timeout of a view not yet left that comes from a new node and brings the distinct nodes heard for its view to n*2/3+1; it is for the two blocks the timeout names |
| Pacemakers.AtMostOnePair | pacemaker/timeoutController.go:28-30 | Whatever follows, no second pair is built for a view |
| ReplicaModel.FewerKeys | mthotstuff/mthotstuff.go:85-90 | The recursion of ProcessBlock over buffered blocks leaves strictly fewer buffered views from its own on |
| ReplicaModel.OneKeepsBuffer | mthotstuff/mthotstuff.go:85-90 | Processing any block keeps every buffered block one view ahead of its key |
| ReplicaModel.OneKeepsSound | mthotstuff/mthotstuff.go:79-233 | Processing a block kept under its hash keeps all stored and buffered blocks so |
| EarlyBlocks.EarlyDeliveryLosesNothing | mthotstuff/mthotstuff.go:85-90 | Blocks of consecutive views that a replica votes for in their turn: delivered ahead of their turn in any order and any number of times, and the first of them last, they leave the replica in the very state that delivery in their turn leaves it in |
| Histories.EarlyBlockStays | mthotstuff/mthotstuff.go:227-231 | Whatever a replica of a run does, a block buffered under a view stays so until the replica votes for a block of that view |
| Replicas.AwaitSignal | mthotstuff/mthotstuff.go:256-268 | The decision is that of the first signal that counts: a continue, or a drop for a later view |
| Replicas.HotStuff.ProcessCertificate | mthotstuff/mthotstuff.go:419-443 | Stale or unverified: nothing; a block missing: buffered; else lock, highest certificates and view change together |
| Replicas.HotStuff.UpdatePreferredSeq | mhotstuff/mhotstuff.go:512-530 | The lock moves to the grandparent's Seq (MHotStuff) or to the certificate's with the old lock second (MTchs); not found when a block is missing |
| Replicas.HotStuff.FollowTC | mthotstuff/mthotstuff.go:106-134 | What a validator does with a block's pair of timeout certificates, in both protocols |
| Replicas.HotStuff.CollectTCs | mthotstuff/mthotstuff.go:152-178 | What the next leader does with them |
| Replicas.HotStuff.CommitRule | mhotstuff/mhotstuff.go:455-474 | The block two links down QC chains (MTchs one), if every block on the way is stored |
| Replicas.HotStuff.Commit | mthotstuff/mthotstuff.go:180-196 | Reports exactly the committed and forked blocks of the store, and whether processing goes on |
| Replicas.HotStuff.VotingRule | mthotstuff/mthotstuff.go:446-467 | Decides by the stored parent of the QC and the lock of the context |
| Replicas.HotStuff.ProcessBlock | mthotstuff/mthotstuff.go:79-233 | The whole handler, with its recursion over buffered blocks, changes the object as the value function says |
| Replicas.HotStuff.CollectVote | mthotstuff/mthotstuff.go:235-254 | Collects a verified vote and waits with the certificate it completes |
| Replicas.HotStuff.FinishVote | mthotstuff/mthotstuff.go:256-279 | Processes, buffers or drops the waiting certificate by the first signal that counts |
| Replicas.HotStuff.ProcessRemoteTmo | mthotstuff/mthotstuff.go:281-296 | Uses the timeout's certificate, then its timeout; a built pair is kept and followed |
| Replicas.HotStuff.MakeProposal | mthotstuff/mthotstuff.go:312-340 | QC, predecessor and timeout certificates of the three kinds of proposal, and which kind clears the pair |
| Replicas.HotStuff.ProcessNewView | replica/replica.go:209-230 | Takes the oldest announced view; proposes exactly if it leads that view |
| Replicas.HotStuff.KickOff | replica/replica.go:286-296 | Enters view 1 and sends the kick-off vote exactly at view 0 at the leader of view 1 |
| Handlers.CertificateGood | mthotstuff/mthotstuff.go:376-443 | Accepting, ignoring or buffering any good certificate keeps the replica's invariant and never goes back |
| Handlers.AcceptedLocks | mthotstuff/mthotstuff.go:505-519 | An accepted certificate moves the locks together with the two highest certificates |
| Handlers.BuiltTCsGood | pacemaker/timeoutController.go:37-39 | The pair built from a quorum of timeouts is for two consecutive views that a quorum of nodes timed out in |
| Handlers.BuiltQCGood | mthotstuff/mthotstuff.go:248-254 | A certificate built from collected votes is one whose signers all sent their vote for exactly that block |
| Histories.VoteBuildsIff | mthotstuff/mthotstuff.go:235-254 | In a run, a delivered vote leaves the collector with a certificate exactly if it is the kick-off vote or comes from a new voter that brings the distinct voters for its block since they were last forgotten to n*2/3+1; the certificate is for that block, lists exactly these voters, and its holder leads the view it lets it enter |
| Histories.TimeoutsEndView | pacemaker/timeoutController.go:36-46 | In every run, with either protocol, a replica to which timeouts of n*2/3+1 distinct nodes for a view were delivered has left the view of the first block they name, whatever else happened |
| Histories.TimeoutBuildsIff | mthotstuff/mthotstuff.go:281-296 | In a run, a delivered timeout gives the replica the pair of certificates for the two blocks it names, and the view after the first to propose in, exactly if its view was not left and its node is the one that brings those delivered to n*2/3+1 |
| Handlers.CommitEvidence | mhotstuff/mhotstuff.go:455-474 | Whatever the commit rule picks is backed by the certificates it followed |
| Handlers.AcceptGood | mthotstuff/mthotstuff.go:144-225 | Storing, collecting, committing and voting keep the invariant, and fail exactly if the pruning walk gets stuck |
| Decisions.CertificateOutcome | mthotstuff/mthotstuff.go:419-443 | What any certificate of a run does: nothing if its view was left; it waits under its block's ID if a block the lock needs is not stored; else its view is left and the next announced, it is the highest and the former highest the second, and the lock moves to its Seq (MTchs) or up to the Seq certified inside its block (MHotStuff) |
| Decisions.OnlySignedCounts | mthotstuff/mthotstuff.go:419-429 | In any state, whoever sent it: a certificate another node built changes nothing unless every signer signed at its own position, and another node's vote nothing unless it signed it; for a certificate of its own a node does not look at the signatures |
| Decisions.OnlyLeadersBlocksCount | mthotstuff/mthotstuff.go:136-144 | In any state, no block is stored, voted for or made to commit others unless its proposer leads its view and its view is the current one or the next |
| Decisions.AcceptsIff | mthotstuff/mthotstuff.go:79-143 | A block that was sent is accepted if and only if its view is the current one or the next and neither its QC, if the blocks the lock needs are stored, nor its timeout certificate takes another node past that view |
| Decisions.CommitsIff | mthotstuff/mthotstuff.go:180-196 | An accepted block commits if and only if it lies two Seqs above its QC of Seq 4 (MHotStuff 6) or more, the blocks two (three) QC links down are stored, and the last of them, the target, is not below the lowest level; processing fails if the pruning walk from there does not end, and else reports the walk and the forked blocks, forgets the votes for the former and counts what was committed and dropped |
| Decisions.VotesIff | mhotstuff/mhotstuff.go:441-453 | For both protocols, an accepted block whose commit, if it may trigger one, was made is voted for if and only if its view is below 3 (MHotStuff 5), or the block its QC names is stored and the QC's Seq reaches the lock; that one vote is all that changes in the votes sent |
| Decisions.VoteIsSent | mthotstuff/mthotstuff.go:213-232 | The vote is sent, and the reports stay, whatever blocks buffered behind the block are processed after it |
| Decisions.VoteTypeFollows | mthotstuff/mthotstuff.go:98-134 | For an accepted block, the vote type a node decides with is that of the block's timeout certificate, unless its view was left, and the second of two certificates makes it give up its pair |
| Decisions.ValidatorFollowsLeader | mthotstuff/mthotstuff.go:115-133 | With MTchs, a validator that has not left the view of a proposal's certificate takes exactly the type its leader announced and proposed for |
| Decisions.NextLeaderTakesPair | mthotstuff/mthotstuff.go:152-178 | The next leader enters and announces the view after the second certificate, and what it proposes there carries the same pair with the second as its own; other nodes keep their pair and vote type |
| Decisions.CertificateNotLost | mthotstuff/mthotstuff.go:256-279 | A built certificate that is not dropped takes its holder past its view if the blocks the lock needs are stored, and waits under its block's ID otherwise |
| Decisions.WaitingCertificateUsed | mthotstuff/mthotstuff.go:198-204 | Once its block is stored and the commit made, it waits no longer, and takes the replica past its view if the blocks the lock needs are stored |
| Handlers.ProcessBlockGood | mthotstuff/mthotstuff.go:79-233 | So does the whole recursive handler; it fails if and only if the replica accepts the block, or one buffered behind those it votes for, and that block triggers a commit whose pruning walk gets stuck in the forest the replica then holds |
| ReplicaSystem.NextGood | replica/replica.go:115-138 | Every step of the system keeps the invariant of all replicas and of all messages |
| ReplicaSystem.RunGood | replica/replica.go:299-357 | Every state of every run satisfies it, and every vote in the pool was cast by its voter |
| Safety.OneBlockPerSeq | replica/replica.go:209-230 | In a run, at most one block is ever proposed per View and per Seq, by the leader of its View |
| Histories.ProposedOnce | mthotstuff/mthotstuff.go:312-340 | Every block of a run comes from one step of it and only one: its proposer took its View and Seq off the channel, and the block carries that step's payload and the QC its kind of proposal takes |
| Histories.PairGivenUp | mthotstuff/mthotstuff.go:330-336 | In a run, taking an announcement off the channel adds a block exactly at the leader of that view, and changes nothing else in a replica except that a proposal with the second of two timeout certificates gives up the pair |
| Safety.OneFullVertexPerSeq | blockchain/leveled_forrest.go:70-71 | A replica's forest holds at most one full vertex per Seq |
| Safety.CommitsAgree | mthotstuff/mthotstuff.go:186-195 | No two replicas, at any two times, report different committed blocks at one Seq |
| Safety.CertificatesAreQuorums | mthotstuff/mthotstuff.go:206-254 | Every certificate found anywhere in a run, bootstrap ones apart, has 2n/3+1 distinct signers, verifies, has the Seq of the block it certifies, and each signer voted for exactly that block with a lock the block's certificate reached |
| Safety.CertificatesAgree | mthotstuff/mthotstuff.go:254-278 | Two certificates of one Seq or View certify the same block |
| Safety.CertificatesShareVoters | blockchain/quorum.go:125-127 | Any two certificates, found anywhere at any two times of a run, share more than n/3 nodes, at least (n-1)/3+1, and each of them voted for both blocks |
| Safety.CertificatesChain | mthotstuff/mthotstuff.go:446-467 | The certificate inside a certified block is certified too, and so on down to the first views; with MTchs each at least two Seqs lower |
| Safety.Lockstep | pacemaker/pacemaker.go:36-45 | curSeq = curView + 1 once started; every block has Seq = View + 1; every certificate has View = Seq; timeouts of one view name the same two Seqs |
| Safety.TCPairFixed | pacemaker/timeoutController.go:37-39 | Whichever timeout completes a view, the pair built is the same, for consecutive views |
| Safety.TCsAreQuorums | mthotstuff/mthotstuff.go:312-340 | Timeout certificates kept or sent in blocks come in consecutive pairs backed by a quorum of nodes |
| Safety.LocksAreCertificates | mthotstuff/mthotstuff.go:505-519 | highQC is of a view already left, secHighQC is older, and with MTchs the two locks are their Seqs, 0 for bootstrap ones |
| Safety.LockIsTwoChain | mhotstuff/mhotstuff.go:512-530 | With MHotStuff the lock is 0 or the Seq of the lower of two chained certificates |
| Safety.LockReachesTwoChain | mhotstuff/mhotstuff.go:512-530 | With MHotStuff, from any state on the lock reaches the Seq certified inside the block that the highest certificate of that state certifies, if that is of Seq 4 or more |
| Safety.NeverBack | mthotstuff/mthotstuff.go:376-383 | Along a run no replica takes back a vote or a report, and its view, lock and highest certificate never fall |
| Safety.HighBlockIsHighest | mthotstuff/mthotstuff.go:393-399 | The highest block was sent, and no stored block is of a higher view |
| Safety.AcceptedCertificate | mthotstuff/mthotstuff.go:376-383 | A certificate that becomes the highest is newer than the one before, which becomes the second |
| Safety.ProposalPassesIff | mthotstuff/mthotstuff.go:312-340 | With MTchs, a proposal of any of the three kinds passes the proposer's own voting rule under the matching vote type if and only if its view is below 3 or the block its QC names is still stored |
| Safety.CommitsAreCertified | mthotstuff/mthotstuff.go:469-480 | Behind every reported commit stands a chain of two certificates (MHotStuff: three) from the trigger's QC to the target, the trigger two Seqs above its QC |
| Safety.OnlyPruningFails | mthotstuff/mthotstuff.go:79-233 | In every reachable state processing any sent block is defined, and fails if and only if the replica accepts that block, or one buffered behind those it votes for, and it triggers a commit whose pruning walk gets stuck in the replica's own forest; no timeout makes its receiver fail |
| FailingRuns.ProcessingFails | blockchain/leveled_forrest.go:69-73 | That does happen: a run of four nodes leads from the initial state to one in which a block that was sent makes a replica fail. The replica misses the first block and stores the third before the second, whose commit the sixth triggers |
| Predecessors.AbovePredecessorIff | mthotstuff/mthotstuff.go:312-340 | A proposal lies above the block it names as predecessor if and only if the highest block (for the first of two timeouts, the highest certificate) is not of a later view |
| Predecessors.PredecessorsBelowIffTimely | mthotstuff/mthotstuff.go:312-340 | In every state of a run all blocks lie above the blocks they name as predecessors, if and only if every proposal of the run meets that condition |
| LateRuns.BelowPredecessor | replica/replica.go:323-328 | A run of two nodes in which a block of Seq 2 names a block of Seq 6 as its predecessor, since its proposer takes the announcement of view 1 off the channel only after storing the block of view 5 |
| ReplicaChains.ReplicaFollows | blockchain/blockchain.go:32-101 | In every state of every run, a replica's forest and reports are those its own sequence of stores and commits leads to, so the run results about the block chain hold of replicas |
| ReplicaChains.ReportsPartition | blockchain/blockchain.go:71-101 | If every proposal is timely and every commit of the replica finds one container per level at its block's Seq and its last target among the ancestors, every block of Seq 2 or above that left the replica's forest was reported exactly once, committed or forked, never both |
| ReplicaChains.NeverCommittedTwice | blockchain/blockchain.go:71-101 | If every proposal of a run meets that condition, every stored parent lies below its children and no replica ever reports two committed blocks of one Seq, nor one block twice |
| InOrderRuns.InOrderNeverFails | mthotstuff/mthotstuff.go:144-150 | If every proposal of a run is timely and neither a block a replica stores nor an empty container made for its predecessor goes to a level in use, the replica's forest has one container per level, at its block's level, and parents below children, and no block that was sent makes it fail if what it would store fits in the same way |
| InOrderRuns.InOrderPartition | blockchain/blockchain.go:71-101 | If besides each commit target has the last one among its ancestors, every block of Seq 2 or above that left the replica's forest was reported exactly once, committed or forked, never both |
| Limiters.Limiter.Wait | benchmark/rate.go:26-52 | The new state, and that the permit time is the call time plus the pause |
| Limiters.PermitsApart | benchmark/rate.go:26-52 | Any permits i < j of a run are at least (j - i) intervals plus the (negative) slack apart, whatever the clock shows and whatever is clamped |
| Limiters.WindowBound | benchmark/rate.go:18-52 | A window of length w sees at most 1 + (w - slack) / interval permits |
| Limiters.DelayBound | benchmark/rate.go:37-51 | A call after the last permit is delayed by at most one interval |
| Limiters.PermitEarliest | benchmark/rate.go:18-52 | A permit is given at the earliest time that is not before its call, nor before the first permit plus the intervals in between, nor before any later call plus these intervals less ten: idle time is granted up to ten intervals and not beyond |
| Databases.ConflictBatch | db/db.go:176-185 | True exactly if some pair of commands conflicts |
| Databases.NoConflictIffCommute | db/db.go:165-185 | No conflict if and only if both orders give the same data, version, history and per-command results, from every database and already from every one that commands lead to from the empty one |
| Databases.Database.Execute | db/db.go:104-135 | Returns the value before and writes; a nil value writes nothing, an empty one does |
| Databases.HoldsLastWrite | db/db.go:124-156 | From the empty database, any commands leave the last value written to each key, the number of writes as version, and with multiple versions every value written to each key in order |
| Databases.ReturnsLastWrite | db/db.go:104-116 | Every command returns the last value written to its key before it, or none |
| Mempools.Backend.InsertBack | mempool/backend.go:30-43 | Appends within the limit; the index stays exact exactly if the ID was not queued |
| Mempools.Backend.Remove | mempool/backend.go:56-65 | Removes the indexed element; if no ID is queued twice, this is deletion by ID |
| Mempools.Backend.Some | mempool/backend.go:95-114 | Hands out the first min(n, size) transactions in order and keeps the rest |
| Mempools.Backend.Front | mempool/backend.go:81-93 | Takes the first transaction, none of an empty queue |
| Mempools.SharingLosesNothing | mempool/mempool.go:33-52 | All emitted batches followed by the buffer are the accepted transactions in order; bufferSize is the buffer's bytes and stays within deliverSize for a buffer of several |
| Mempools.EmitsIff | mempool/mempool.go:38-51 | After any accepted transactions, the next has exactly the buffer emitted if the bytes waiting, its own included, exceed the size to deliver or the share interval is over, and else only joins the buffer |
| Mempools.MemPool.AddNew | mempool/mempool.go:33-52 | One call emits and buffers as shared; a refused transaction changes nothing |
| BloomFilters.Hash | mempool/bloom.go:45-51 | The loop in wrapping 64-bit words computes the seed polynomial of the bytes modulo 2^25 |
| BloomFilters.BloomFilter.Add | mempool/bloom.go:28-32 | After it exactly the bits of the added values are set |
| BloomFilters.BloomFilter.Contains | mempool/bloom.go:34-43 | Every added value but the empty one is reported present |

## Left out

- Sockets, encoding, HTTP, configuration, logging, statistics and the timers' lengths: plumbing and wall-clock matters.
- Real hashing and cryptography: IDs and signatures are symbolic; a hash collision or a forged signature is outside the model. The block signature check is left out because the code only logs its failure.
- Faulty replicas, the FORK strategy and silence, and `forkChoice`, which is never called: every replica of a run follows the handlers.
- Races between the goroutines of one replica: a handler is one step. ProcessVote is two, cut where it waits for a signal.
- `proposeChan` as a queue: whether a waiting certificate is processed or dropped is a free choice of the run, and channels never fill up.
- The gates of `HandleBlock`, `HandleVote` and `HandleTmo`: they only drop messages, which the network may do anyway.
- A block without a QC, and nil transactions: values of the model always carry them.
- The timeouts a TC carries along: no code reads them.
- Static election, `GetChainGrowth` and `GetBlockIntervals`, and the setters that are never called (`updateLastVotedSeq`, `updateLastVotedView`, `updatePreferredView`); voting at most once per Seq is therefore not claimed.
- Agreement of replicas beyond one block per Seq: the commit rules do not check that the links are adjacent, so that one replica's committed chain extends another's is not claimed.
- Liveness of the system as a whole: proved is what a replica does with the messages delivered to it, not that messages are delivered.
- Safety.ProposalPassesIff: covers MTchs, where the locks are the Seqs of the certificates proposed with; MHotStuff compares with the lock of Safety.LockIsTwoChain, and no order between that lock and the QC of its proposals is claimed.
- ChainModel.NoBlockCommittedTwice: takes as a condition on the run that stored parents lie below their children, the contract the forest documents; ReplicaChains.NeverCommittedTwice derives it for runs of replicas whose proposals are timely.
- ChainModel.CommittedOrForkedOnce: takes one container per level, containers at the level of their block and the last target among the ancestors of the next as conditions on each commit; ReplicaChains.ReportsPartition keeps these for runs of replicas, where late parents and skipped targets break them, and InOrderRuns.InOrderPartition derives the level conditions from the order of storing.
- Limiters.Limiter.Wait: durations are unbounded integers, not 64-bit counts of nanoseconds.
- BloomFilters.Hash: masking with the capacity less one is written as the remainder, the capacity being a power of two.
