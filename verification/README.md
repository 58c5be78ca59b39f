# Verification of the agent core

A Dafny model of the parts of this repository whose correctness spans several functions, with
proofs of what those parts promise. `dafny verify dfyconfig.toml` checks everything.

| file | models |
|---|---|
| `Rewriting.dfy` | the string-rewriting engine: leftmost normalisation, overlap enumeration, the confluence report |
| `PrefixSet.dfy` | the last-writer-wins set of cached prefixes, with tombstones, and networks of replicas that gossip |
| `Mersenne.dfy`, `Division.dfy` | the modulus `2^61 - 1` of the sequence hash is prime |
| `Order.dfy` | the order of the hash base: exactly which powers of it are one |
| `SeqHash.dfy`, `Blocks.dfy` | the positional hash of a block sequence |
| `ContextSet.dfy` | the additive hash of a multiset of blocks, its in-place kernels, eviction |
| `Wrappers.dfy` | an optional value |
| `Text.dfy` | UTF-8, JSON escaping length, greedy splitting |
| `Turns.dfy` | session turns, wire messages, truncation at a character boundary |
| `Projection.dfy` | projection of a session to wire messages, and the tool-answer invariant |
| `Assembly.dfy` | preparation of a request, prefix stability, compaction and the session goal |
| `Summary.dfy` | the checkpoint text written by a compaction |
| `Batch.dfy` | the tool-batch executor under every interleaving and every drop point |
| `AgentLoop.dfy` | the agent turn: budgets, terminal results for every call, totals |
| `Cost.dfy` | saturating usage totals and truncating cost |
| `Journal.dfy` | the change journal behind `/rewind`, its durable lines and their replay |
| `LatinSquare.dfy` | the benchmark orders |

Conventions. Code that updates an object in place is a class (`Session`, `PrefixSet`, `SeqHash`,
`LtHash`, `ContextSet`, `ChangeJournal`) whose methods equate the new state with a function of the
old one; the lemmas are about those functions. Cryptographic hashes, tools, the model, the prompter,
the permission engine, the clock, JSON checking of tool arguments and the expansion of `@file`
mentions are parameters, so every statement holds for all of them. Concurrency is modelled by
arbitrary choice: between two actions of the batch executor the live tasks take any finite number
of steps in any order, and at every await the batch may be dropped. A member whose name ends in `Told`
says what an operation does from its inputs alone, without the functions the operation is modelled by.

## Where the code and its comments disagree

The model follows the code.

- `is_confluent` says that a positive report means unique normal forms. The enumeration covers only
  proper suffix/prefix overlaps, so a left-hand side inside another one is missed
  (`Rewriting.ReportMissesInnerMatches`). Exactly what is needed besides the report is stated by
  `Rewriting.UniqueNormalFormsExactly`. The other direction fails too: on left-hand sides longer than
  the step bound the report can reject a confluent system (`Rewriting.ReportStopsEarly`).
- The join of the prefix set is called commutative. It keeps the right operand on equal epochs, and a
  deserialised left operand's entries below its own tombstone; it commutes exactly when there is no
  such tie and no such entry (`PrefixSet.JoinCommutesExactly`, `PrefixSet.TiesDiverge`).
- The cost is called a monoid homomorphism. Per-response truncation loses up to `n - 1` micro-USD
  (`Cost.TruncationIsNotAdditive`), and a response that reports more cached than prompt tokens makes
  the sum cheaper than its parts (`Cost.CachedBeyondPrompt`). Exactly when the two agree is stated by
  `Cost.RoundingGap`.
- `BASE` is described as below `p`; it is above it (`SeqHash.BASE`, `Mersenne.P`), and the code reduces
  it to 2177342782468422681 on the first product (`Order.IsBase`). Its powers cycle through one 806th
  of the non-zero elements (`Order.WeightIsOne`).
- An eviction is documented to hide entries of strictly smaller epoch; the code also drops an entry of
  the same epoch, and refuses an add at the tombstone's own epoch (`PrefixSet.EvictionHidesExactly`).
- A swap of two blocks is said to be noticed with overwhelming probability. It is noticed exactly
  when the words differ and the distance is no multiple of 2860847405972325
  (`Order.SwapMissedExactly`).
- `2x != 0` is claimed for every non-zero multiset element; it fails exactly when every limb is `0`
  or `0x8000` (`ContextSet.TwiceVanishesExactly`, `ContextSet.SelfInverseElement`).
- `blocks()` is documented as insertion order. An eviction keeps that order exactly when the blocks
  behind the evicted one are all equal (`ContextSet.OrderKeptExactly`).
- The README of the repository describes one permission pass before a batch. The executor authorises
  each stretch of parallel calls, and each barrier call, just before it runs; the reference in
  `Batch.RunsInOrder` does the same.
- A malformed last journal line is said to be ignored after a crash. The reopened journal appends
  behind it, and no later replay sees those lines. A last line that only lost its newline is
  recovered, but the next entry is written onto it, and then both are lost (`Journal.LostNewline`).
  Exactly when an entry after reopening is seen is stated by `Journal.AppendSeenExactly`; a rewind
  that pops something rewrites the file (`Journal.RewindHeals`).
- A rewind that finds the journal empty leaves the turn pointer where it is, so two rewinds need not
  end at the turn one rewind of the sum ends at (`Journal.RewindInSteps`).
- The 16,000-character cap of the compaction summary counts neither separators nor the elision
  marker. Exactly when the text stays within it is stated by `Summary.WithinCapExactly`; it is never
  longer than 21,356 characters (`Summary.SummaryIsBounded`) and does get that long
  (`Summary.BoundIsReached`).
- `verify_invariant` says exactly one tool message per id; it compares sets of ids, so any positive
  number is accepted (`Projection.SeveralMessagesAnswer`). The projection of an oversized result
  depends on that.

## Model

| member | source | states |
|---|---|---|
| Rewriting.FindFirstRedex | crates/rc-algebra/src/rewriting.rs:106-117 | finds the leftmost redex and, there, the first rule that matches; none exactly when the term is normal |
| Rewriting.NormalizeBounded | crates/rc-algebra/src/rewriting.rs:84-102 | the bounded loop returns a term reachable from the input by rewriting, the one the step function gives |
| Rewriting.NormalizeRuns | crates/rc-algebra/src/rewriting.rs:84-117 | the result is the end of the run of leftmost steps, each by the first rule that matches, that stops at a normal term or at the step bound |
| Rewriting.RunEnds | crates/rc-algebra/src/rewriting.rs:84-117 | and that run has no other end |
| Rewriting.NormalizeIsNormal | crates/rc-algebra/src/rewriting.rs:76-102 | for any terminating measure, a bound of at least the measure of the input always reaches a normal form |
| Rewriting.Newman | crates/rc-algebra/src/rewriting.rs:171-174 | Newman's lemma: termination and local confluence join any two terms reachable from one term |
| Rewriting.PeakJoins | crates/rc-algebra/src/rewriting.rs:119-161 | two steps from one term, at any positions, join: disjoint, properly overlapping or nested |
| Rewriting.CriticalPairLemma | crates/rc-algebra/src/rewriting.rs:119-185 | the critical-pair lemma for the overlaps this engine enumerates, plus agreement of inner matches |
| Rewriting.CheckOverlap | crates/rc-algebra/src/rewriting.rs:142-159 | one overlap length reports a pair exactly when the two normalised reducts differ |
| Rewriting.CollectOverlaps | crates/rc-algebra/src/rewriting.rs:135-161 | appends the diverging pairs of two rules for every proper overlap, in order |
| Rewriting.CriticalPairs | crates/rc-algebra/src/rewriting.rs:124-133 | collects them for every ordered pair of rules, a rule with itself included |
| Rewriting.IsConfluent | crates/rc-algebra/src/rewriting.rs:175-185 | positive exactly when no enumerated overlap diverges; the failures listed are exactly the overlaps of any two rules whose reducts have different ends of their leftmost runs of at most 100,000 steps, and each is a term that really reaches two different terms |
| Rewriting.NoFailuresExactly | crates/rc-algebra/src/rewriting.rs:124-161 | the collected list is empty exactly when no overlap of any two rules diverges |
| Rewriting.FailuresTold | crates/rc-algebra/src/rewriting.rs:124-161 | the same of the collected list, told from the rules |
| Rewriting.ConfluenceSound | crates/rc-algebra/src/rewriting.rs:171-185 | for any terminating system: positive report and agreeing inner matches give every term one normal form, and the engine returns it within its step bound |
| Rewriting.UniqueNormalFormsExactly | crates/rc-algebra/src/rewriting.rs:171-185 | for length-decreasing rules a positive report and agreeing inner matches give unique normal forms, and when no left-hand side is longer than half the step bound the converse holds too |
| Rewriting.ReportDecidesConfluence | crates/rc-algebra/src/rewriting.rs:171-185 | when no left-hand side lies inside another, a positive report gives unique normal forms; for left-hand sides within half the step bound the report decides them |
| Rewriting.ReportMissesInnerMatches | crates/rc-algebra/src/rewriting.rs:136-142 | two shrinking rules with a positive report and a term with two normal forms |
| Rewriting.ReportStopsEarly | crates/rc-algebra/src/rewriting.rs:80-102 | a confluent, shrinking system whose report is negative, because both reducts of an overlap are cut off by the step bound |
| Rewriting.DeletingIsConfluent | crates/rc-algebra/src/rewriting.rs:171-174 | whatever is rewritten where in that system, the normal form is the term without its deleted symbol |
| Rewriting.NormalForm | crates/rc-algebra/src/rewriting.rs:76-82 | `normalize` returns the only normal form of every input of up to 100,000 symbols of a confluent shrinking system |
| Rewriting.LengthTerminates | crates/rc-algebra/src/rewriting.rs:229-234 | rules that all shrink terminate, with the length as measure |
| Rewriting.DemoRulesConfluent | crates/rc-algebra/src/rewriting.rs:205-222 | the shipped rules shrink, have no inner matches, pass the report, and so have unique normal forms |
| PrefixSet.PrefixSet.Add | crates/rc-algebra/src/crdt.rs:78-97 | refuses an entry at or below the tombstone, otherwise keeps it unless a strictly newer one is held; other keys unchanged |
| PrefixSet.PrefixSet.Evict | crates/rc-algebra/src/crdt.rs:99-111 | raises the tombstone and drops an entry at or below it |
| PrefixSet.PrefixSet.Contains | crates/rc-algebra/src/crdt.rs:115-121 | live exactly when an entry is held above the tombstone |
| PrefixSet.PrefixSet.Live | crates/rc-algebra/src/crdt.rs:124-130 | exactly the entries that are live |
| PrefixSet.PrefixSet.Join | crates/rc-algebra/src/crdt.rs:142-156 | the merged replica is, key by key, the join of the two cells, whatever the operands hold as long as entries are filed under their own key; the operands are unchanged |
| PrefixSet.JoinCellForm | crates/rc-algebra/src/crdt.rs:78-111 | the join of any two cells in closed form: the later tombstone, and the newer entry if it lies strictly above it; only an entry the left cell itself suppresses may linger |
| PrefixSet.NetworkRepresents | crates/rc-algebra/src/crdt.rs:3-15 | after any interleaving of adds, evictions and gossip in a network of any size, each replica is, per key, the largest tombstone and the newest entry strictly above it of the operations it absorbed |
| PrefixSet.Convergence | crates/rc-algebra/src/crdt.rs:142-156 | strong eventual consistency: replicas that absorbed the same operations in any order and grouping are equal, given that fingerprint and epoch determine the entry |
| PrefixSet.LiveExactly | crates/rc-algebra/src/crdt.rs:115-130 | a fingerprint is live exactly when some absorbed add is newer than every absorbed eviction of it |
| PrefixSet.JoinIdempotent | crates/rc-algebra/src/crdt.rs:142-156 | joining a replica with itself changes nothing if and only if it holds no entry suppressed by its own tombstone |
| PrefixSet.JoinAssociative | crates/rc-algebra/src/crdt.rs:142-156 | associativity on all replicas, ties and suppressed entries included |
| PrefixSet.JoinCommutesExactly | crates/rc-algebra/src/crdt.rs:89-111 | commutativity, for any two replicas, if and only if no fingerprint has two different live entries at one epoch and neither side has a suppressed entry that would survive |
| PrefixSet.ReachableJoinCommutes | crates/rc-algebra/src/crdt.rs:142-156 | on replicas whose operations agree, the direction of a merge does not matter |
| PrefixSet.TiesDiverge | crates/rc-algebra/src/crdt.rs:89-96 | two reachable replicas whose merges differ in the two directions |
| PrefixSet.EvictionHidesExactly | crates/rc-algebra/src/crdt.rs:78-111 | an eviction and an add of one fingerprint, in either order, leave it live if and only if the add's epoch is strictly later |
| Mersenne.PrimeModulus | crates/rc-algebra/src/seqhash.rs:23-24 | `2^61 - 1` has no divisor but one and itself |
| Mersenne.DivisorIsLarge | crates/rc-algebra/src/seqhash.rs:23-24 | the Lucas-Lehmer step: a divisor that sees `-1` at a power of `2 + sqrt 3` is too large to be proper |
| Mersenne.NoZeroDivisors | crates/rc-algebra/src/seqhash.rs:23-33 | a product of field elements vanishes only if a factor does |
| SeqHash.MulMod | crates/rc-algebra/src/seqhash.rs:29-33 | the 128-bit product never wraps; the result is the product modulo p |
| SeqHash.AddMod | crates/rc-algebra/src/seqhash.rs:35-42 | the 64-bit sum of two field elements never wraps; the result is the sum modulo p |
| SeqHash.Coeff | crates/rc-algebra/src/seqhash.rs:44-57 | square-and-multiply computes `BASE^i` modulo p for every `i` |
| SeqHash.BlockWordTold | crates/rc-algebra/src/seqhash.rs:59-65 | the word of a block is the little-endian number of its first eight bytes, modulo 2^61 - 1 |
| SeqHash.SeqHash.Append | crates/rc-algebra/src/seqhash.rs:79-84 | the state becomes the concatenation of the old state with the hash of one block |
| SeqHash.SeqHash.Extend | crates/rc-algebra/src/seqhash.rs:86-91 | appending block by block concatenates the hash of the whole list |
| SeqHash.SeqHash.Op | crates/rc-algebra/src/seqhash.rs:118-131 | the machine steps of `op` compute the concatenation of the two states |
| SeqHash.FromBlocks | crates/rc-algebra/src/seqhash.rs:148-154 | one pass over the blocks gives the weighted sum modulo p and the length |
| SeqHash.Homomorphism | crates/rc-algebra/src/seqhash.rs:115-132 | the hash of a concatenation is the concatenation of the hashes, for all sequences |
| SeqHash.ConcatAssociates | crates/rc-algebra/src/seqhash.rs:115-132 | the monoid operation is associative on every state |
| SeqHash.EmptyIsUnit | crates/rc-algebra/src/seqhash.rs:76-77 | the empty hash is a unit on both sides |
| SeqHash.CommonPartsCancel | crates/rc-algebra/src/seqhash.rs:8-19 | shared blocks in front and behind never matter: two sequences collide exactly when the parts where they differ do |
| SeqHash.SubstitutionSeen | crates/rc-algebra/src/seqhash.rs:59-65 | replacing one block anywhere is unnoticed exactly when the two words are equal |
| SeqHash.SwapSeen | crates/rc-algebra/src/seqhash.rs:14-16 | swapping any two blocks is unnoticed exactly when their words are equal or the weight at their distance is one |
| SeqHash.NeighbourSwapSeen | crates/rc-algebra/src/seqhash.rs:14-16 | swapping neighbours is unnoticed exactly when their words are equal, in sequences of any length |
| SeqHash.TrailingBlockSeen | crates/rc-algebra/src/seqhash.rs:93-96 | the bare fingerprint misses a trailing block exactly when its word is zero |
| Order.WeightIsOne | crates/rc-algebra/src/seqhash.rs:25-27 | `BASE^d` is one modulo p if and only if `d` is a multiple of 2860847405972325 |
| Order.SwapMissedExactly | crates/rc-algebra/src/seqhash.rs:14-16 | swapping any two blocks is unnoticed if and only if their words are equal or their distance is a multiple of that order |
| ContextSet.AddScalar | crates/rc-algebra/src/multiset.rs:91-97 | the scalar loop adds limb by limb modulo 2^16, in place |
| ContextSet.AddStrided | crates/rc-algebra/src/multiset.rs:230-243 | the sixteen-lane loop computes the same sum |
| ContextSet.SubScalar | crates/rc-algebra/src/multiset.rs:99-105 | the scalar loop subtracts limb by limb modulo 2^16, in place |
| ContextSet.SubStrided | crates/rc-algebra/src/multiset.rs:245-258 | the sixteen-lane loop computes the same difference |
| ContextSet.LimbsTold | crates/rc-algebra/src/multiset.rs:91-105 | each limb is added and subtracted modulo 2^16 on its own, and the empty sum is zero |
| ContextSet.ExpandToElement | crates/rc-algebra/src/multiset.rs:299-316 | 2048 stream bytes are read as 1024 limbs, limb `i` from bytes `2i` and `2i + 1`, the low one first |
| ContextSet.LtHash.AddBlock | crates/rc-algebra/src/multiset.rs:43-47 | adds the element of a block, whichever kernel is chosen |
| ContextSet.LtHash.Remove | crates/rc-algebra/src/multiset.rs:49-54 | subtracts the element of a block |
| ContextSet.LtHash.AsBytes | crates/rc-algebra/src/multiset.rs:56-67 | the key is the 1024 limbs, each as its low and its high byte |
| ContextSet.BytesRoundTrip | crates/rc-algebra/src/multiset.rs:56-67 | limbs to bytes and bytes to limbs are inverse, so the key loses nothing |
| ContextSet.MinusInverts | crates/rc-algebra/src/multiset.rs:76-89 | the group inverse: removal undoes addition and addition undoes removal |
| ContextSet.ContextSet.AddBlock | crates/rc-algebra/src/multiset.rs:361-365 | the element is added and the id pushed |
| ContextSet.ContextSet.Evict | crates/rc-algebra/src/multiset.rs:367-373 | the last occurrence is swap-removed and its element subtracted; an absent id changes nothing |
| ContextSet.StepHashes | crates/rc-algebra/src/multiset.rs:361-373 | each operation keeps the hash equal to the sum over the live list and changes the live multiset by that one block |
| ContextSet.TotalIgnoresOrder | crates/rc-algebra/src/multiset.rs:12-14 | lists of the same blocks have the same sum, whatever their order |
| ContextSet.RunHashes | crates/rc-algebra/src/multiset.rs:328-373 | after any adds and evictions, duplicates and absent ids included, the hash is the sum of the elements of the live multiset |
| ContextSet.KeyIgnoresHistory | crates/rc-algebra/src/multiset.rs:380-383 | two histories that leave the same multiset live have the same key |
| ContextSet.KeysAgreeExactly | crates/rc-algebra/src/multiset.rs:380-383 | keys agree if and only if the element sums do |
| ContextSet.EvictUndoesAdd | crates/rc-algebra/src/multiset.rs:361-373 | evicting the block just added restores the hash and the list, order included |
| ContextSet.OrderKeptExactly | crates/rc-algebra/src/multiset.rs:367-378 | an eviction keeps insertion order if and only if the blocks behind the evicted one are all equal |
| ContextSet.TwiceVanishesExactly | crates/rc-algebra/src/multiset.rs:24-29 | an element cancels itself if and only if every limb is zero or 0x8000 |
| ContextSet.SelfInverseElement | crates/rc-algebra/src/multiset.rs:24-29 | a non-zero element that cancels itself exists |
| Text.EscapedLenIsJsonLength | crates/rc-core/src/project.rs:225-251 | the byte fold equals the per-character sum and the length of the string escaped as in section 7 of RFC 8259 |
| Text.ChunkByEscapedLen | crates/rc-core/src/project.rs:253-276 | the pieces concatenate to the input, none is empty, and each fits when every single character does |
| Text.ChunksOptimal | crates/rc-core/src/project.rs:253-276 | no other way of cutting the text into pieces that fit uses fewer pieces |
| Text.Utf8CharTold | crates/rc-core/src/project.rs:225-251 | a character is encoded in one to four bytes by its range, and the bytes can be read back |
| Turns.FloorCharBoundary | crates/rc-core/src/turn.rs:524-535 | walking back from the cap finds the byte length of the longest whole-character head that fits |
| Turns.BoundaryIsPrefix | crates/rc-core/src/turn.rs:524-535 | a byte offset that is a character boundary ends a whole-character prefix |
| Turns.PrefixIsBoundary | crates/rc-core/src/turn.rs:524-535 | and every whole-character prefix ends at a boundary |
| Turns.TruncationIsCut | crates/rc-core/src/turn.rs:222-252 | a body within the cap, and every body that is not `Ok`, comes back unchanged; an oversized one becomes the longest head of whole characters that fits, and behind it the note of the bytes left out, marked truncated |
| Turns.DecimalReads | crates/rc-core/src/turn.rs:241-246 | the number in that note reads back as the bytes left out |
| Turns.WhitespaceTold | crates/rc-core/src/project.rs:113-116 | a text is blank when it holds none but the twenty-five white-space characters |
| Projection.PushUser | crates/rc-core/src/project.rs:204-223 | appends the text as one message or as the greedy split |
| Projection.PushToolResult | crates/rc-core/src/project.rs:136-159 | appends the rendered result as messages that all carry its call id |
| Projection.ProjectWith | crates/rc-core/src/project.rs:50-178 | the loop computes system prompt, re-injected goal, then the messages of each turn from the newest compaction marker on |
| Projection.PiecesFewest | crates/rc-core/src/project.rs:204-223 | no way of sending a text within the limit uses fewer messages |
| Projection.TurnMessagesLossless | crates/rc-core/src/project.rs:93-178 | the run of messages of a user, tool-result or note turn rebuilds its text, keeps role and call id, and stays under the limit |
| Projection.TurnCarried | crates/rc-core/src/project.rs:93-178 | the messages of any turn, told from the turn: an assistant turn is one message with its text whenever it has any, an empty text only when it has neither calls nor visible reasoning, the reasoning unless blank, the calls in order; every other turn a run that reads as its text, role and call id kept; errors and cancellations nothing |
| Projection.ProjectTold | crates/rc-core/src/project.rs:50-178 | a projection is the system prompt, the newest goal note if it lies before the newest compaction note and is not blank, and from there on the run of each turn |
| Projection.ProjectWithinLimit | crates/rc-core/src/project.rs:20-25 | every projected user and tool message is under the limit, for every session |
| Projection.VerifyInvariant | crates/rc-core/src/project.rs:284-317 | accepts exactly the lists whose call sets are each answered by the contiguous tool run behind them; otherwise names the first violation and the missing and extra ids |
| Projection.SeveralMessagesAnswer | crates/rc-core/src/project.rs:278-317 | a call is answered by any positive number of tool messages with its id |
| Projection.CollectAnswers | crates/rc-core/src/project.rs:290-300 | collects the ids of the contiguous tool run |
| Projection.ScanDecides | crates/rc-core/src/project.rs:278-317 | a one-pass automaton decides the invariant, from any starting state |
| Projection.ProjectionAnsweredExactly | crates/rc-core/src/project.rs:39-178 | the projection of a session satisfies the invariant if and only if its turns from the boundary on do, chunking included |
| Assembly.PrepareTurns | crates/rc-ctx/src/lib.rs:370-395 | the last user turn is expanded, every tool result is cut to the cap as told above (not at all when the cap is zero), and every other turn is unchanged |
| Assembly.AssembleTold | crates/rc-ctx/src/lib.rs:370-395 | a request is the projection of the turns so prepared |
| Assembly.AssembledAnsweredExactly | crates/rc-ctx/src/lib.rs:325-328 | expansion and capping never decide the tool-answer invariant of a request |
| Assembly.AppendKeepsPrefix | crates/rc-ctx/src/lib.rs:317-328 | appending turns without user, goal or compaction turns only appends messages |
| Assembly.StablePartSurvives | crates/rc-ctx/src/lib.rs:375-395 | short of a goal or a compaction, whatever is appended leaves every message from before the last user turn unchanged and in place |
| Assembly.NewUserTurnKeepsPrefixExactly | crates/rc-ctx/src/lib.rs:375-395 | whether a new user turn keeps the old request as a prefix is decided from the previous user turn on; when that turn and its expansion take equally many messages, or the message behind it is not a user's, it does so if and only if the turn expands to itself; always when that turn is not sent |
| Assembly.ShrunkTurnKeepsPrefix | crates/rc-ctx/src/lib.rs:375-395 | otherwise it may: an oversized turn that expands to its own first message |
| Assembly.ActiveGoalIsCarried | crates/rc-core/src/project.rs:69-93 | with an active goal, the last goal text in the projection is exactly the one the runtime reports |
| Assembly.NoActiveGoalIsBlank | crates/rc-rt/src/driver.rs:194-206 | with none, no goal reaches the projection or the last one is blank |
| Assembly.OnlyTheGoalCrossesCompaction | crates/rc-core/src/project.rs:54-93 | histories that agree from the newest marker on and have the same active goal project alike |
| Assembly.CompactStep | crates/rc-rt/src/driver.rs:132-148 | a compaction keeps the active goal, and the next request is the goal and the summary and satisfies the invariant, whatever came before |
| Assembly.SetGoalStep | crates/rc-rt/src/driver.rs:149-167 | after setting a goal the runtime reports it exactly when it is not blank |
| Summary.CompactionSummary | crates/rc-rt/src/driver.rs:212-294 | the two loops compute the kept entries, joined, or the fixed text when there is none |
| Summary.EntryIsTold | crates/rc-rt/src/driver.rs:225-262 | the entry of each kind of turn, tools named in call order |
| Summary.EntriesTold | crates/rc-rt/src/driver.rs:225-262 | the entries of a session are those of its turns, one after the other |
| Summary.SummaryTold | crates/rc-rt/src/driver.rs:288-293 | the text is the kept entries joined, or the fixed text exactly when no turn has an entry |
| Summary.JoinTold | crates/rc-rt/src/driver.rs:288-293 | the separator stands between any two neighbours, and the order is kept |
| Summary.NewestWin | crates/rc-rt/src/driver.rs:264-288 | a suffix of the entries is kept whole, the one before it is cut to its tail, and nothing more would fit; short of the cap everything is kept |
| Summary.SummaryIsBounded | crates/rc-rt/src/driver.rs:208-213 | the text is at most 21,356 characters for every session |
| Summary.WithinCapExactly | crates/rc-rt/src/driver.rs:264-293 | the text stays within 16,000 characters if and only if all entries and separators do, or the newest entry fills the cap alone |
| Summary.BoundIsReached | crates/rc-rt/src/driver.rs:264-293 | 2,667 empty user turns give a text of 21,356 characters |
| Batch.AuthorizeCall | crates/rc-core/src/agent.rs:1485-1514 | the decision, the prompt and the new grants; a drop can come only while the prompt is open, and changes nothing |
| Batch.RunsItemRules | crates/rc-core/src/agent.rs:1485-1514 | one call of the reference, from the answers of policy and user alone: `Deny` and `Refuse` give that denial and leave the world alone, a question is counted, only a session-wide answer adds a grant and adds exactly its rule; an unknown tool is reported; any other call is the tool running alone, its body capped |
| Batch.RunsInOrderRules | crates/rc-core/src/agent.rs:1485-1514 | the same of every call of the reference, between carries that chain |
| Batch.AuthorizePhase | crates/rc-core/src/agent.rs:1400-1414 | the slots of a phase are authorised in call order, before any of them runs, each refusal recorded at once; a drop leaves the grants and questions of the slots decided so far, at a call the policy leaves to the user |
| Batch.Interleave | crates/rc-core/src/agent.rs:1516-1566 | any steps of any live tasks in any order: never more than eight at a time, and reads that leave the world alone each stay on their own single run |
| Batch.DisciplineTold | crates/rc-core/src/agent.rs:1516-1535 | never more than eight calls run, and none but parallel ones beside another |
| Batch.RunParallelPhase | crates/rc-core/src/agent.rs:1516-1566 | the allowed calls of a stretch run concurrently and are joined, announced and recorded in call order, the error of a panicked task included; with pure reads, as if one by one; dropped, just the refused calls and those joined before the awaited one are recorded, and grants and questions are exactly those of the slots decided |
| Batch.RunBarrier | crates/rc-core/src/agent.rs:1425-1462 | a write, exclusive or unknown call is authorised and runs with no other call live; dropped, either the prompt was open and nothing has changed, or the call was let through, is cut in mid-run, and grants and questions are those of its authorisation |
| Batch.AccountedSettles | crates/rc-core/src/agent.rs:1568-1584 | at every await just the calls that were refused, joined or, as barriers, finished (or are unknown) are recorded: recording the call just settled keeps that |
| Batch.PhaseStands | crates/rc-core/src/agent.rs:1400-1414 | the slots of a stretch authorised so far are recorded exactly when they are parse errors, refused, or allowed and before the awaited call; refusals, and with pure reads all of them, as the one-by-one run has them |
| Batch.DroppedInPhase | crates/rc-core/src/agent.rs:1382-1424 | a drop inside a parallel stretch leaves exactly what was settled there and before, with the grants and questions of the slots decided |
| Batch.DroppedAtBarrier | crates/rc-core/src/agent.rs:1425-1462 | a drop at a barrier leaves exactly what was settled before it; the world has at most the steps the cut call has taken, and grants and questions are unchanged or those of its authorisation |
| Batch.PhaseInOrder | crates/rc-core/src/agent.rs:1382-1424 | authorising a whole stretch first and running it concurrently equals authorising and running its calls in turn |
| Batch.PublishConsistent | crates/rc-core/src/agent.rs:1568-1584 | announcing and recording a result keeps the checkpoint sound at every await |
| Batch.RunsInOrderDeterministic | crates/rc-core/src/agent.rs:1372-1377 | the one-by-one reference has a single outcome |
| Batch.ExecuteBatch | crates/rc-core/src/agent.rs:1299-1479 | a finished batch has one result per call, in order, announced once, and with pure Parallel tools the world, grants and results of the one-by-one reference; barriers never overlap another call. Dropped, it stands at one of three awaits (a prompt, a join or permit, a running barrier): just the calls refused, joined or finished as barriers are recorded and announced, the joined ones of the open stretch being those before the awaited call; grants and questions are exactly those of the slots decided; with pure Parallel tools every recorded result is the reference's and the world is the reference's after the settled calls plus the steps of a cut barrier. Finished or dropped, and for every host: each call decided on obeys the answers of policy and user at its turn (`Batch.Ruled`), a denied or refused one is recorded as such, a recorded tool body fits the cap, and a tool has started only for a call that was let through |
| Batch.FinishPartialBatch | crates/rc-core/src/agent.rs:1586-1627 | after a drop each call gets one result and one announcement in call order; a recorded result is never replaced by Interrupted |
| AgentLoop.SplitCalls | crates/rc-core/src/agent.rs:849-887 | assistant calls and execution items correspond one to one, malformed arguments becoming parse errors with the same id |
| AgentLoop.Session.SynthesizeInterrupted | crates/rc-core/src/agent.rs:1168-1189 | one Interrupted result and one announcement per call |
| AgentLoop.Session.SynthesizeRetryableUnconfirmed | crates/rc-core/src/agent.rs:1191-1221 | one retryable result and one announcement per unconfirmed call |
| AgentLoop.Session.RunBatch | crates/rc-core/src/agent.rs:1062-1114 | finished or dropped, the session gains one result per call in call order, each announced once; results, world, grants and questions are those of the batch: the one-by-one reference's, or after a drop what `Batch.DroppedAt` says of the trace the calls left, with the recorded results, and Interrupted exactly where none was recorded; for every host the results follow the answers of policy and user |
| AgentLoop.Session.AddTotals | crates/rc-core/src/agent.rs:837-847 | totals grow by the usage and its cost, when the response reports one |
| AgentLoop.Session.OnUnconfirmed | crates/rc-core/src/agent.rs:895-933 | calls without confirmation are answered, never run, and retried once |
| AgentLoop.Session.OnStop | crates/rc-core/src/agent.rs:952-982 | a stop ends the turn, or spends the one completion review after tool work |
| AgentLoop.Session.OnLength | crates/rc-core/src/agent.rs:983-1043 | a length finish spends the one recovery or ends the turn, by visible progress |
| AgentLoop.Session.Respond | crates/rc-core/src/agent.rs:798-1121 | each response appends one assistant turn with every call answered in place; which step follows is fixed by finish reason and budgets; the world, the grants and the questions asked change only when the provider finished with `tool_calls`, and then as running those calls does |
| AgentLoop.Session.Conclude | crates/rc-core/src/agent.rs:937-1121 | follows the finish reason of a response with no unconfirmed calls |
| AgentLoop.Session.TakeReply | crates/rc-core/src/agent.rs:721-1121 | one record per reply: what it found and left of the world, what it appended, and why it went on as it did |
| AgentLoop.Session.Request | crates/rc-core/src/agent.rs:695-703 | the request is the projection of the session for the context of the moment, with the research nudge after three investigation rounds |
| AgentLoop.Session.Run | crates/rc-core/src/agent.rs:622-1122 | for every model, tool, prompter, cancellation and deadline: at most `max_iters` requests; every request and every exit satisfies the tool-answer invariant if the session did before; each result announced once; totals equal the fold over the assistant turns; each iteration finds the world as the last one left it and changes it only by running confirmed calls |
| AgentLoop.EveryRequestCounts | crates/rc-core/src/agent.rs:668-678 | each request but the last leads to a confirmed batch or one of three one-shot budgets; the world, grants and questions change in no iteration but one whose calls the provider confirmed, and those are the calls run; at most two recovery notes |
| AgentLoop.LogToldByReplies | crates/rc-core/src/agent.rs:710-1043 | every record of a turn, from its reply and the records before it: a length finish, and a blank reasoning-only stop at the completion ceiling, spend the recovery once and then end by visible text; a stop ends or spends the review; unconfirmed calls are retried once; a content filter ends the turn; a failed request ends it with its note. The turns appended are the reply, one result per call, and the note of the recovery |
| AgentLoop.NudgedExactly | crates/rc-core/src/agent.rs:695-703 | a request is the assembled or projected session of the moment, with the research nudge exactly when the last three batches of the turn only read |
| AgentLoop.TurnInOrder | crates/rc-core/src/agent.rs:668-1122 | with pure Parallel tools, the world after a turn with no batch cut short, and the results in the session, are those of running all confirmed calls one by one across all its requests |
| AgentLoop.WorldStep | crates/rc-core/src/agent.rs:668-674 | the records of a turn chain: each finds the world the one before it left |
| AgentLoop.PairedKeepsInvariant | crates/rc-core/src/agent.rs:934-936 | appending turns in which every call set is answered in place keeps the invariant, whatever the session held |
| AgentLoop.RequestAnswered | crates/rc-core/src/agent.rs:695-708 | a settled session makes an invariant-satisfying request, with or without assembler and nudge |
| AgentLoop.RoundsBound | crates/rc-core/src/agent.rs:668-674 | the requests of an unfinished turn are exactly the tool rounds plus the budgets spent |
| Cost.MergeOrderFree | crates/rc-proto/src/wire.rs:256-271 | merging usages does not depend on order or grouping, saturation included |
| Cost.CostOrderFree | crates/rc-core/src/cost.rs:47-51 | neither does adding costs |
| Cost.PriceOfATokenMore | crates/rc-core/src/cost.rs:98-109 | nothing costs nothing; one more completion or prompt token adds its price, and one more cached token trades the prompt price for the cached one |
| Cost.CachedTold | crates/rc-proto/src/wire.rs:234-239 | no report of cached tokens counts as none |
| Cost.RawCostOfSum | crates/rc-core/src/cost.rs:98-109 | before the division, the cost of a summed usage is the sum of the costs less the drift: tokens lost to saturation, and tokens only the sum counts as cached |
| Cost.CostsPlusRemainders | crates/rc-core/src/cost.rs:98-109 | truncated costs and thrown-away remainders account for every token-price product, for any responses; the reported total is those costs, saturated |
| Cost.RoundingGap | crates/rc-core/src/cost.rs:89-109 | for any responses, the sum of their costs equals the cost of the sum if and only if remainders less drift are at least zero and below a million, or both sides saturate; without drift it is at most that cost and short by at most `n - 1` |
| Cost.NoDrift | crates/rc-core/src/cost.rs:92-100 | nothing drifts when every cached count is within its prompt count and the totals stay in 64 bits |
| Cost.TruncationIsNotAdditive | crates/rc-core/src/cost.rs:89-109 | two responses whose costs do not add up |
| Cost.CachedBeyondPrompt | crates/rc-core/src/cost.rs:98-109 | two responses whose summed usage is cheaper than they are |
| Journal.ChangeJournal.Open | crates/rc-core/src/state.rs:564-608 | reopening replays the lines up to the first malformed one, skipping changes whose snapshot was never stored |
| Journal.ChangeJournal.AdvanceTurn | crates/rc-core/src/state.rs:612-615 | the counter moves and one line is appended |
| Journal.ChangeJournal.RecordPrior | crates/rc-core/src/state.rs:622-661 | the prior contents are stored by digest or inline, stamped with the turn, in memory and on disk; with a directory that can be written they are stored, under their digest |
| Journal.RecordTold | crates/rc-core/src/state.rs:643-661 | a snapshot is a reference exactly when a blob of its digest and length is in the store or could be written, and else the contents |
| Journal.RecordStoresExactly | crates/rc-core/src/state.rs:620-661 | without collisions: inline exactly when there is no directory, or the store neither holds the contents nor can be written |
| Journal.ChangeJournal.Rewind | crates/rc-core/src/state.rs:716-744 | pops exactly the records of the last turns, newest first, steps the pointer back and rewrites the file |
| Journal.RestoreAll | crates/rc-session/src/rewind.rs:29-60 | restoring record by record is the fold over the popped list |
| Journal.RestoreTold | crates/rc-session/src/rewind.rs:29-60 | restoring a record touches its file only: the recorded contents, removal, or nothing when the stored contents are gone or of another length |
| Journal.RewindRestores | crates/rc-session/src/rewind.rs:3-6 | after any such run, rewinding `n` turns restores every file exactly as it was `n` turns ago |
| Journal.WritableRewindRestores | crates/rc-session/src/rewind.rs:3-6 | the same for every run in which the store can be written, restarts included, with no further hypothesis on the run |
| Journal.UndoneAt | crates/rc-session/src/rewind.rs:29-60 | undoing a list of records leaves in each file what its oldest record holds |
| Journal.RewindAfterLoss | crates/rc-core/src/state.rs:582-592 | after a restart that lost inline snapshots, a rewind leaves in each file what the oldest remaining record holds: the right contents whenever the oldest of all was not lost |
| Journal.RunUndoable | crates/rc-core/src/state.rs:510-521 | every run of turns, journaled mutations, rewinds and restarts keeps: turn stamps nondecreasing and at most the current turn, every snapshot readable, every earlier turn end recoverable, and a durable file that mirrors the memory; restarts with every snapshot stored |
| Journal.MutateUndoable | crates/rc-core/src/state.rs:620-641 | recording the prior contents before a mutation keeps every earlier turn end recoverable |
| Journal.RewindInSteps | crates/rc-core/src/state.rs:716-744 | two rewinds return the same records as one of the sum; the turn pointers agree if and only if the first did not empty the journal too early |
| Journal.ReopenAgrees | crates/rc-core/src/state.rs:564-608 | after any operations, restarts included, on a journal whose file is whole, reopening gives the turn and the records in memory, minus inline snapshots |
| Journal.ReplayTold | crates/rc-core/src/state.rs:564-608 | what reopening shows, read line by line from the front: the turn of the last turn line raised by later changes, and the changes whose snapshot was stored or that found no file |
| Journal.TornTailReplays | crates/rc-core/src/state.rs:561-563 | any part of the lines written since the last rewrite, with a torn line behind it or not, with or without the last newline, reopens to a state the journal passed through |
| Journal.CutWasReached | crates/rc-core/src/state.rs:663-680 | any cut of the lines written since the last rewrite is the file as it was after some of the operations |
| Journal.RewindPersisted | crates/rc-core/src/state.rs:682-744 | the rewritten file replays to the state after the rewind |
| Journal.AppendedReplays | crates/rc-core/src/state.rs:663-680 | what an entry written to a reopened file does to the next replay: seen; or lost; or lost together with the last recovered line |
| Journal.AppendSeenExactly | crates/rc-core/src/state.rs:663-680 | a turn begun after reopening is seen by the next reopening if and only if every line parses and the last has its newline |
| Journal.LostNewline | crates/rc-core/src/state.rs:663-680 | a whole line that lost its newline is recovered, and lost together with the entry written after it |
| Journal.RewindHeals | crates/rc-core/src/state.rs:682-744 | a rewind that pops something leaves a file that replays to the memory, whatever the file held |
| LatinSquare.IsLatinSquare | xtask/src/bench.rs:48-77 | true exactly for non-empty squares whose rows and columns each hold every number once; ragged and out-of-range input is refused |
| LatinSquare.PermutationExactly | xtask/src/bench.rs:55-75 | the running `seen` check and the counting definition of a permutation agree |
| LatinSquare.RotationHolds | xtask/src/bench.rs:22-33 | task `i` is at position `p` of exactly the rotation `(i - p) mod n` |
| LatinSquare.RotationsAreLatin | xtask/src/bench.rs:29-33 | the rotations of any positive number of tasks form a Latin square |
| LatinSquare.SubsetIsDistinct | xtask/src/bench.rs:35-46 | a subset has `min(n, k)` orders, all different, all rotations; the full subset is the whole square |
| LatinSquare.SubsetIsEven | xtask/src/bench.rs:35-46 | the orders of a subset are evenly stepped: each is the last rotation not past its part of the cycle |
| LatinSquare.BalancedExactly | xtask/src/bench.rs:35-39 | every task visits every position if and only if all `n` rotations are taken |

## Left out

- AgentLoop.Session.Run: `max_iters == u32::MAX` is excluded, because there the 32-bit counter wraps before the bound is reached; panics of calls run inline, poisoned locks, streaming deltas and traces are not modelled.
- Rewriting.UniqueNormalFormsExactly: the converse half is stated for left-hand sides of at most half the step bound; `Rewriting.ReportStopsEarly` shows that it fails beyond the bound.
- Rewriting.ReportDecidesConfluence: the converse half has the same limit.
- Prices so large that the 128-bit token-price product overflows.
- PrefixSet.PrefixSet.Join: a deserialised operand whose entries are filed under foreign keys is excluded.
- Journal.RewindRestores: with a digest that never collides; blobs written in part, appends and rewrites that fail, and files changed by the shell are not modelled.
- Journal.AppendSeenExactly: for files whose turn lines never go back, as in every file a journal wrote.
- Usage and cost addition are functions on values, applied to the session's fields by `AgentLoop.Session.AddTotals`.
- The shell's current directory is part of the world; what an assembler makes of it is a parameter.
- SHA-256 and BLAKE3 are parameters; nothing is claimed about collisions of digests or elements.
- The NEON and AVX2 instructions: the sixteen-lane loop is modelled, the instructions and the four-vector assembly are not.
- JSON parsing of tool arguments, the wording of harness notes and the expansion of `@file` mentions are parameters.
- Timestamps, durations, artifacts, request traces and tracing.
- The permission engine and configuration layers: a decision function stands for them.
- HTTP and SSE transport, the sidecar, the CLI, the TUI, MCP, background shells and process control: input and output only.
- Orbit sorting and the tool registry: the work is the standard library's.
- Session persistence and the resume path: file input and output.
