# Tensorium, modelled and proved in Dafny

This project models the consensus core of the Tensorium node and the ledgers built around it, and proves what holds of
them over every run and every input. `dafny verify dfyconfig.toml` checks all of it.

## What is modelled

The centre is the **chain machine**. A node keeps five stored columns (blocks by hash, the height index, the unspent
outputs, and two marks saying which chain the index and the unspent set belong to) and three cached fields. `ForkChoice`
states each operation on these as a function; `ChainState` is the mutable object, proved method by method against those
functions; `Consensus` proves that a submission refines a naive node, which stores every valid block and replays the
heaviest replayable chain from nothing; `Runs` lifts the invariant to every reachable state, crashes between a block's
write and fork choice included; `Submission` says what one call leaves behind. Blocks that fail the unspent-output
checks stay in the store, as they do in the code, and the invariant accounts for them.

Below it: `Emission`, `Difficulty`, `Utxo` and `UtxoSet` (the three-phase block application), `Supply` (exact
conservation), `Validation` (header rules and candidate blocks), `Store` (the block tree), `Storage` (key encodings).
`UtxoRules` and `BlockRules` say in their own words, without those functions, exactly which payments and blocks are
accepted, with which error the others are refused, and what is left; the exact forms of the retarget step, of templates
and of asset operations stand beside the functions they are about.

Around it:

- `Sync`, `SyncFate`, `SyncLoop`, `SyncDrops`: catching up with one peer by a backward search for a common ancestor,
  with the exact conditions under which the loop completes, aborts, or never ends, from any start, and under which a
  completed one keeps the old chain's payments;
- `ChainExamples`, `PeerExamples`, `LossExamples`: runs along any honest chain, first downloads, and reachable states in
  which catching up goes wrong or something is lost;
- `Mempool`, `Template`, `Requeue`: the pool of payments, block templates, and readmission after a reorganisation;
- `Codec`, `Carrier`, `Assets`, `Indexer`, `Scan`: asset operations in transactions, the asset ledger, and the indexer
  that follows a reorganising chain with one checkpoint;
- `Settlement`, `SettlementDues`: co-signed sales of assets, the check both parties run, and what a clean check pays;
- `Pool`: the share window, proportional rewards, and the payout ledger and cycle;
- `TensorHash`: the accumulator fold inside the proof-of-work hash;
- `Script`, `StandardScripts`, `MultiSig`, `ScriptLaws`: the script machine, the standard locking scripts, and what else its
  operations keep.

## Form

What the source computes with expressions is a function here. What it computes by updating is a class or a method with
the same fields, loops and early returns, whose postcondition equates the new state with a function of the old one; the
theorems are lemmas about those functions. Each database batch is one atomic step. A map iterated in hash order is
iterated here in an arbitrary order.

`World` is a record of functions left uninterpreted: header, transaction and Merkle hashing, proof of work, the printed
coinbase note, UTF-8 repair, script execution and the address codec. Every theorem holds for every such record.
`StandardScripts.Interpreted` puts the modelled script machine and address scripts into it, and
`StandardScripts.InterpretedMeetsAssumptions` proves the two facts about scripts that other theorems assume.

## Assumptions

- No header hashes to the all-zero digest (the type `BlockId`). Absence of hash collisions is assumed only where it is
  written: that no different block is stored under a mined block's hash (`Runs.MinesNoCollision`,
  `Templates.MinedTemplateIsNew`), and that the stored block under a peer's hash is the peer's block
  (`Sync.KnownIsPrefix`). The hash covers the header only, so this is not a fact about the code.
- Timestamps and heights are unbounded naturals; a transaction has fewer than 2^32 outputs; cumulative work fits 128
  bits where strict growth is claimed. Amounts are 64-bit, and saturation or wrap-around is written out where the code
  has it.
- `Params.WellFormed` states what the arithmetic needs of a network's parameters: at most 64 eras, bits in order and
  below 128, and allocations within 64 bits.
- The clock is read afresh at each submission, and one submission sees one value of it.
- `SyncLoop.SyncBlocks` assumes nothing of the peer: it may answer a fetch with any blocks, and any fetch may fail.
  Where a peer is called honest its chain is linked, replayable and has distinct hashes and work within 128 bits, at
  every reading of the clock its blocks keep every rule but the proof of work, and it reports that chain's height and
  answers from it. Whether a block meets its target under the seed that the node reads is not assumed: it is part of
  what `SyncFate.SyncTheorem` decides by.
- During one scan the served chain is fixed, any fetch may fail, and an equal hash at a height means an equal history
  below it.

## Where the code does less than one might expect

- The era is cast to 32 bits, so the subsidy comes back after interval * 2^32 heights
  (`Emission.RewardReturnsAfterEraWrap`).
- Difficulty is not constant in the first window (`Difficulty.BootstrapVaries`; the exact condition is
  `Difficulty.BootstrapHolds`).
- Transaction ids are not recomputed on validation, so a later output may overwrite an earlier entry
  (`LossExamples.CoinbaseOverwritten`, on a chain a node can reach). Supply is a bound, met exactly when nothing is lost
  or left unclaimed (`Supply.SupplyTheorem`; per block `Supply.BlockConserves`).
- A block is written before fork choice (crates/tensorium-core/src/state.rs:552). A crash in between leaves a stored,
  replayable block that outweighs the tip exactly when the block passes the checks before the write and its chain
  replays and outweighs the tip, and submitting it again does nothing (`Runs.CrashStrands`), until a block stacked on it
  becomes the tip (`Runs.ChildHeals`). Meanwhile catching up with a peer that has no block above it never ends
  (`LossExamples.CrashStarves`).
- The epoch seed is read from the height index and not from the block's own branch
  (crates/tensorium-core/src/state.rs:313-322). So an honest block above an epoch boundary may be refused while a
  branch of ours that forks below it is followed (`PeerExamples.EpochForkRefused`); `Sync.SameSeedExactly` says when the
  two seeds are the same, and `SyncFate.SyncTheorem` what this means for catching up. A first download is not affected
  (`PeerExamples.FirstDownload`).
- The disconnected list describes the latest submission only (`Submission.ExtensionForgets`), while a catch-up drains it
  once, after its last submission (crates/tensorium-node/src/main.rs:1469-1474). So payments of the old chain are lost
  unless the peer's last block is the one that makes us switch, or they are on the peer's chain as well
  (`SyncDrops.CatchUpKeepsPayments`; a reachable loss is `LossExamples.PaymentLost`). A catch-up that ends in an error
  is not drained at all.
- Catching up with a taller but lighter peer never ends (`Sync.SyncLivelock`, `PeerExamples.LighterPeerNeverEnds`).
- The settlement check can be satisfied by one output for two amounts owed, exactly on the terms that
  `SettlementDues.CleanPaysAllExactly` lists. Building wraps around on amounts beyond 64 bits: what is built then may
  fail its own check (`Settlements.BuiltVerifiesClean` says exactly when, `Settlements.BuiltUnclean` is such an input)
  or pay out a word more than comes in (`Settlements.BuiltConserves`, `Settlements.BuiltFromNothing`).
- Only the innermost condition decides whether a script's operations run, so the alternative of a conditional nested in a
  branch not taken is run (`ScriptLaws.NestedElseRuns`); without alternatives such a branch is skipped whole
  (`ScriptLaws.SkippedWhole`).
- An address in a non-canonical spelling can be paid but reads back differently (`StandardScripts.PayableIffCanonical`,
  `StandardScripts.UpperCaseUnpayable`).

## Model

| member | source | states |
|---|---|---|
| `Emission.HalvingsIsQuotient` | crates/tensorium-core/src/emission.rs:12-14 | counting whole halving intervals is the division the code performs |
| `Emission.ShiftedIsQuotient` | crates/tensorium-core/src/emission.rs:3-10 | halving era times, as the right shift does, is division by 2^era |
| `Emission.EmittedSupplyUntilHeight` | crates/tensorium-core/src/emission.rs:16-32 | the emission loop returns the sum of per-height subsidies, capped by the word and the mining allocation, over all heights asked for until the era cast wraps, and up to the last era for any input |
| `Emission.SumByEras` | crates/tensorium-core/src/emission.rs:3-32 | summing by whole eras equals summing height by height |
| `Emission.SumAfterLastEra` | crates/tensorium-core/src/emission.rs:3-14 | nothing is emitted between the last era and the wrap of the era cast |
| `Emission.MainnetSupplyCap` | crates/tensorium-core/src/emission.rs:3-32 | MAINNET schedules at most 3,299,999,986,972,800 atoms, and exactly that once ten eras have passed |
| `Emission.RewardReturnsAfterEraWrap` | crates/tensorium-core/src/emission.rs:12-14 | because the era is cast to 32 bits the schedule is periodic: the same subsidy returns interval * 2^32 heights later |
| `Emission.RewardIsZero` | crates/tensorium-core/src/emission.rs:3-14 | at any height the subsidy is zero if and only if the wrapped era is past the last or the shift has emptied the initial reward |
| `Utxo.SeededVerdict` | crates/tensorium-core/src/state.rs:686-698 | checking a block against only the entries it spends gives the verdict and fees of checking it against the whole set |
| `Utxo.SeededTx` | crates/tensorium-node/src/main.rs:502-510 | the same for one payment |
| `Utxo.CheckTxsLocal` | crates/tensorium-core/src/utxo.rs:104-206 | a block's verdict depends on no entry outside the outpoints it spends |
| `Utxo.CheckTxsClaims` | crates/tensorium-core/src/utxo.rs:104-206 | an accepted transaction list has claimed exactly the outpoints it spends, each once |
| `UtxoRules.ValidExactly` | crates/tensorium-core/src/utxo.rs:59-102 | a payment is valid if and only if every spent output exists, is unlocked by its script at the height, is mature if a coinbase's, none is spent twice, and the 64-bit input sum covers the output sum; its fee is the difference |
| `UtxoRules.ValidFault` | crates/tensorium-core/src/utxo.rs:59-102 | refused, it is for its first input out of order: spent twice, missing, immature, or else not unlocked; with none, because its outputs exceed its inputs |
| `UtxoRules.AppliesExactly` | crates/tensorium-core/src/utxo.rs:104-206 | a block is accepted if and only if it has a coinbase within subsidy, premint and fees, and its payments are each valid against the set before it and spend disjoint outputs |
| `UtxoRules.AcceptedSpends` | crates/tensorium-core/src/utxo.rs:118-147 | so every spend of an accepted block was of an existing, mature output, and its script accepted the unlocking one under the payment's signature hash at the block's height |
| `UtxoRules.BlockFault` | crates/tensorium-core/src/utxo.rs:104-206 | a block with a payment out of order is refused for the first such payment's first fault, outputs spent earlier in the block counting as spent twice |
| `UtxoRules.AppliedLeaves` | crates/tensorium-core/src/utxo.rs:174-206 | an accepted block removes exactly the outputs its payments spend and puts exactly its spendable outputs, with its height and whether a coinbase made them, later ones over earlier ones |
| `UtxoRules.SignedFields` | crates/tensorium-core/src/block.rs:122-132 | the hash that inputs sign commits to the outpoints spent, the outputs and the payload, and to no unlocking script |
| `UtxoRules.RootOfIds` | crates/tensorium-core/src/block.rs:223-243 | the Merkle root commits to the transactions' ids in order |
| `UtxoSets.UtxoSet.ValidateTransaction` | crates/tensorium-core/src/utxo.rs:59-102 | the validation loop computes the verdict or fee that `UtxoRules.ValidExactly` and `ValidFault` pin down, and changes nothing |
| `UtxoSets.UtxoSet.CheckTransactions` | crates/tensorium-core/src/utxo.rs:104-160 | phase one computes the specified verdict and total fees with one spent set for the whole block |
| `UtxoSets.UtxoSet.SpendInputs` | crates/tensorium-core/src/utxo.rs:174-206 | the spending loop removes exactly the outpoints of the non-coinbase inputs |
| `UtxoSets.UtxoSet.CreateOutputs` | crates/tensorium-core/src/utxo.rs:174-206 | the creating loop adds every output that is no data carrier, later ones over earlier ones |
| `UtxoSets.UtxoSet.ApplyBlock` | crates/tensorium-core/src/utxo.rs:104-206 | the three phases give the set that `UtxoRules.AppliesExactly` and `AppliedLeaves` pin down, or the error with the set untouched |
| `Supply.InputsConserve` | crates/tensorium-core/src/utxo.rs:104-160 | claimed and unclaimed value add up to a constant, and the saturating input sum is exact |
| `Supply.BlockConserves` | crates/tensorium-core/src/utxo.rs:104-206 | per block: saturating and unbounded arithmetic agree, and the new unspent total plus what overwritten or data outputs lose plus what the coinbase leaves unclaimed equals the old total plus what the height issues |
| `Supply.SupplyTheorem` | crates/tensorium-core/src/utxo.rs:50-206 | along every replayable chain the unspent total and what was lost or left unclaimed make up exactly the scheduled rewards plus premint, and no saturating addition ever saturates |
| `Supply.MainnetSupply` | crates/tensorium-core/src/emission.rs:3-32 | no replayable MAINNET chain holds more unspent atoms than the schedule's total |
| `Difficulty.EpochIsQuotient` | crates/tensorium-core/src/state.rs:426-429 | counting whole windows is the division the code performs |
| `Difficulty.WindowStartIs` | crates/tensorium-core/src/state.rs:461-463 | the sampled window starts where the code's formula says |
| `Difficulty.BitsInRange` | crates/tensorium-core/src/difficulty.rs:17-62 | along a chain that follows the retarget rule every block's bits lie between minimum and maximum |
| `Difficulty.AdjacentBits` | crates/tensorium-core/src/difficulty.rs:17-62 | adjacent blocks differ by at most one bit, across window boundaries too |
| `Difficulty.WindowConstant` | crates/tensorium-core/src/state.rs:461-489 | all blocks of one window after the first carry equal bits |
| `Difficulty.BootstrapHolds` | crates/tensorium-core/src/state.rs:430-460 | in the first window a block keeps its parent's bits if and only if the chain since activation is neither too fast nor too slow, or a bound is reached |
| `Difficulty.BootstrapVaries` | crates/tensorium-core/src/state.rs:430-460 | a concrete MAINNET chain whose first window holds two difficulties |
| `Difficulty.RetargetExactly` | crates/tensorium-core/src/state.rs:461-489 | from the second window on, a block's bits are one more than those of the last block of the window before if and only if that window took less than half its expected time and there is room, one fewer if and only if it took more than twice that time and there is room, and else equal |
| `Difficulty.BootstrapExactly` | crates/tensorium-core/src/state.rs:430-460 | the same step in the first window, from the parent's bits by the time since activation |
| `Difficulty.InitialBits` | crates/tensorium-core/src/state.rs:422-460 | every block before the first step carries the initial bits |
| `Validation.CandidateCoinbase` | crates/tensorium-core/src/block.rs:33-99 | every candidate's coinbase is one and pays at most what its height allows, premint included |
| `Validation.CandidateApplies` | crates/tensorium-core/src/state.rs:770-806 | a candidate whose extra transactions check with exactly the credited fees passes block application |
| `Validation.CandidatePays` | crates/tensorium-core/src/state.rs:770-806 | above genesis a candidate's coinbase pays subsidy plus fees, all of it and nothing else, to the miner's script, and the header has the height, parent hash, time, chain id and Merkle root that belong there |
| `Validation.GenesisPays` | crates/tensorium-core/src/block.rs:57-95 | at genesis it pays the miner, then exactly the allocations that are not zero in order, or else the founder |
| `Store.ChainToLinked` | crates/tensorium-core/src/state.rs:637-653 | the parent walk ends, and yields a genesis-first chain linked by hash with heights as indices |
| `Store.ChainToPrefix` | crates/tensorium-core/src/state.rs:637-653 | the walk from an ancestor is a prefix of the walk from its descendant |
| `Store.ChainToUnique` | crates/tensorium-core/src/state.rs:637-653 | a linked stored chain is the one the parent walk finds |
| `Store.ChainToGrows` | crates/tensorium-core/src/state.rs:422-490 | storing more blocks never changes a stored block's ancestry, so never the difficulty required on it |
| `Store.WorkStrict` | crates/tensorium-core/src/state.rs:622-635 | cumulative work grows strictly along a chain, as long as it fits 128 bits |
| `ForkChoice.KeyOrderIteration` | crates/tensorium-core/src/state.rs:191-202 | iterating the height index in key order yields the chain it indexes |
| `ForkChoice.IndexIteration` | crates/tensorium-core/src/state.rs:191-202 | for the followed chain, key-order iteration is the parent walk |
| `ForkChoice.SyncNeverFails` | crates/tensorium-core/src/state.rs:733-747 | in every state that keeps the invariant, bringing the unspent set up to date succeeds and leaves the replay of the followed chain |
| `ForkChoice.InsertKeepsStore` | crates/tensorium-core/src/state.rs:531-562 | filing a validated block keeps the store parent-closed, rule-abiding and with one genesis |
| `Consensus.FastPath` | crates/tensorium-core/src/state.rs:564-586 | checking on seeded entries and applying the difference equals applying the block to the full set |
| `Consensus.ExtendMeetsSpec` | crates/tensorium-core/src/state.rs:564-586 | the tip-extension branch moves to the replay of the longer chain, or fails as that replay does |
| `Consensus.IndexOfReorg` | crates/tensorium-core/src/state.rs:587-617 | writing the new chain's heights and deleting those above it turns the old index into the new chain's, also when it is shorter |
| `Consensus.ChooseMeetsSpec` | crates/tensorium-core/src/state.rs:564-617 | fork choice by cases is: take the block's chain if it has strictly more work and replays |
| `Consensus.SubmitRefines` | crates/tensorium-core/src/state.rs:531-620 | one submission with all its caches and incremental updates gives the result and, seen through the abstraction, the state of a naive node that stores the block and replays the heavier chain |
| `Runs.GenesisKeepsInv` | crates/tensorium-core/src/state.rs:354-378 | creating genesis establishes the invariant |
| `Runs.MiningKeepsInv` | crates/tensorium-core/src/state.rs:380-400 | mining on the tip, which skips fork choice and the unspent column, keeps the invariant unless a different block is stored under the mined hash |
| `Runs.SubmitKeepsInv` | crates/tensorium-core/src/state.rs:531-620 | every submission, accepted or refused, keeps the invariant, UTXO-invalid stored blocks included |
| `Runs.StepKeepsInv` | crates/tensorium-core/src/state.rs:149-173 | so does every step: genesis, mining, submitting, bringing the unspent set up to date, a submission cut short by a crash, reopening, draining the requeue list |
| `Runs.RunInv` | crates/tensorium-core/src/state.rs:531-635 | in every reachable state, crashes included, the store is sound, the height index is the tip's chain, that chain replays, and the unspent set is a replay of the chain it is marked with |
| `Runs.RunTopped` | crates/tensorium-core/src/state.rs:531-620 | in every reachable state no stored block with a replayable chain has more work than the tip, except blocks whose own submission a crash cut short |
| `Runs.RunHeaviest` | crates/tensorium-core/src/state.rs:531-620 | so in runs without such a crash there is none at all |
| `Runs.CrashStrands` | crates/tensorium-core/src/state.rs:540-562 | a crash between a block's write and fork choice leaves a replayable block above the tip if and only if the block passes every check before the write and, on its parent's chain, replays and outweighs the tip, that is if and only if the whole submission would have moved the tip; and submitting the block again changes nothing |
| `Runs.ChildHeals` | crates/tensorium-core/src/state.rs:552-620 | once a block stacked on the stranded one becomes the tip, nothing replayable is above the tip again |
| `Runs.TipWorkNeverFalls` | crates/tensorium-core/src/state.rs:552-635 | over any run, through mining, reopening, draining and crashes, the tip's work never falls |
| `Submission.TipMovesUpOnly` | crates/tensorium-core/src/state.rs:552-620 | a failed submission moves neither tip nor index; a successful one moves the tip only to the submitted block and only to strictly more work |
| `Submission.IndexIsExact` | crates/tensorium-core/src/state.rs:299-305 | reading by height gives the parent walk's block at that height and nothing above it |
| `Submission.SharedPrefix` | crates/tensorium-core/src/state.rs:587-599 | two stored chains share exactly the blocks below their fork index |
| `Submission.DroppedIsOldMinusNew` | crates/tensorium-core/src/state.rs:562-599 | after a successful submission the disconnected list holds exactly the old chain's blocks absent from the new one, in height order |
| `Submission.CandidatesExactly` | crates/tensorium-core/src/state.rs:149-155 | the requeue candidates are exactly the dropped blocks' transactions that are no coinbases |
| `Submission.ExtensionForgets` | crates/tensorium-core/src/state.rs:556-586 | the list describes the latest submission only: after a successful one it is empty if and only if the old chain is a prefix of the new one, whatever it held before |
| `Submission.NoPaymentLost` | crates/tensorium-core/src/state.rs:149-155 | every non-coinbase transaction of the old chain is in a block of the new chain or among the requeue candidates |
| `Submission.StoredChainsFollowBits` | crates/tensorium-core/src/state.rs:422-490 | every stored chain obeys the retarget rule of its own ancestry at every height |
| `Submission.StoredChainsRetarget` | crates/tensorium-core/src/state.rs:422-490 | so on stored chains bits stay in range, step by at most one, and are constant in each window after the first |
| `BlockRules.StoredExactly` | crates/tensorium-core/src/state.rs:531-562 | a block not yet known is stored if and only if its parent is and chain id, height, time against the clock, Merkle root, required bits, work under the seed of the followed chain, and a leading coinbase are all in order; else it is refused for the first of these that is not, and nothing is stored |
| `BlockRules.EarlyBlockRefused` | crates/tensorium-core/src/validation.rs:55-57 | a block that breaks only the clock rule is refused for its timestamp, leaves the store as it was, and is stored once its time is near enough |
| `BlockRules.MinedExactly` | crates/tensorium-core/src/state.rs:380-400 | mining on the tip files a block that pays exactly the subsidy to the miner, carries the required bits and the least nonce that meets its work, and makes it the tip; it fails only if every nonce up to the limit does |
| `BlockRules.GenesisExactly` | crates/tensorium-core/src/state.rs:354-378 | genesis is made once, with the given time and nonce, pays exactly the subsidy and the premint, and fails only if it exists or its nonce does not meet the target |
| `ChainStates.ChainState.ChainWork` | crates/tensorium-core/src/state.rs:622-635 | the saturating 128-bit walk returns the work of the stored chain |
| `ChainStates.ChainState.BuildCanonicalChain` | crates/tensorium-core/src/state.rs:637-653 | the walk and reversal return the stored chain, genesis first |
| `ChainStates.ChainState.CanonicalBlocksIter` | crates/tensorium-core/src/state.rs:191-202 | iteration returns the indexed blocks in height order, skipping missing ones |
| `ChainStates.ChainState.ExpectedLeadingZeroBitsFor` | crates/tensorium-core/src/state.rs:422-490 | the retarget walk always finds its sample where one is due, and returns the bits required by the parent's ancestry, as `Difficulty.RetargetExactly` states them |
| `ChainStates.ChainState.ReplayUtxo` | crates/tensorium-core/src/state.rs:656-662 | rebuilding from nothing is the replay of the given chain |
| `ChainStates.ChainState.ValidateBlockUtxo` | crates/tensorium-core/src/state.rs:686-698 | validation on a temporary seeded set gives the full set's verdict |
| `ChainStates.ChainState.UtxoDelta` | crates/tensorium-core/src/state.rs:701-722 | the batch of deletions and insertions is the block's effect on the full set |
| `ChainStates.ChainState.EnsureUtxoSynced` | crates/tensorium-core/src/state.rs:733-747 | afterwards the unspent set is the replay of the followed chain and is marked with the tip |
| `ChainStates.ChainState.ExtendTip` | crates/tensorium-core/src/state.rs:564-586 | the extension branch as one batch: index, set, tip, caches, and an empty disconnected list |
| `ChainStates.ChainState.ReorgTip` | crates/tensorium-core/src/state.rs:587-617 | the reorganisation branch as one batch, or an untouched state when the new chain does not replay |
| `ChainStates.ChainState.SubmitBlock` | crates/tensorium-core/src/state.rs:531-620 | the object's result and new state are those of the specified submission, which `BlockRules.StoredExactly` and `Consensus.SubmitRefines` pin down, and the invariant is kept |
| `ChainStates.ChainState.InitGenesisNonce` | crates/tensorium-core/src/state.rs:354-378 | genesis from a given nonce, with the invariant established |
| `ChainStates.ChainState.MineNextBlock` | crates/tensorium-core/src/state.rs:380-400 | mining as `BlockRules.MinedExactly` states it, keeping the invariant unless a different block is stored under the mined hash |
| `ChainStates.ChainState.FindNonce` | crates/tensorium-core/src/pow.rs:16-26 | the nonce search returns the header with the first nonce that meets its work, every lower one failing, or nothing if none does |
| `ForkChoice.MineHeaderFirst` | crates/tensorium-core/src/pow.rs:16-26 | the specified search finds the least nonce from any start, and fails only if every nonce does |
| `ChainStates.ChainState.CandidateBlockWithMempool` | crates/tensorium-core/src/state.rs:508-520 | the template on the tip is the specified candidate, which `Validation.CandidatePays` pins down, with the bits its ancestry requires |
| `ChainStates.ChainState.ReloadCaches` | crates/tensorium-core/src/state.rs:157-173 | reopening rebuilds the caches from the stored columns |
| `ChainStates.ChainState.TakeReorgRequeueCandidates` | crates/tensorium-core/src/state.rs:149-155 | draining returns every non-coinbase transaction of the disconnected blocks, in order, and empties the list |
| `ChainStates.ChainState.EpochSeedForHeight` | crates/tensorium-core/src/state.rs:313-322 | the seed is the hash at the last height of the previous epoch of the indexed chain |
| `Sync.KnownIsPrefix` | crates/tensorium-node/src/main.rs:1362-1416 | what we hold of an honest peer's chain with our genesis is a prefix of it |
| `Sync.SubmitPeerBlock` | crates/tensorium-node/src/main.rs:1384-1400 | whatever chain we follow, a peer block is already known, or ahead and refused for its parent, or next, and then accepted exactly when it meets its target under the seed our height index gives, the heavier chain being followed, and else refused for its proof of work |
| `Sync.SubmitInTurn` | crates/tensorium-node/src/main.rs:1384-1400 | so along the loop the chain followed is always the heavier of ours and what we hold of the peer's |
| `Sync.SameSeedExactly` | crates/tensorium-core/src/state.rs:313-322 | our index seeds a height as the peer's branch does exactly in the first epoch, once the peer's branch is followed, or where ours holds the peer's block at the seed height; there a block meets the one if it meets the other |
| `Sync.RoundStep` | crates/tensorium-node/src/main.rs:1370-1416 | a round aborts exactly when its batch holds a block whose seed is not met; it is the last exactly when it brings the rest of a chain that outweighs ours; otherwise it steps the search back by one, or takes a whole batch and moves on |
| `Sync.SyncEnds` | crates/tensorium-node/src/main.rs:1362-1416 | against a heavy peer, or with an unmet seed within reach, the loop ends after some number of rounds: on the peer's chain if all seeds are met, and else with an error |
| `Sync.SyncLivelock` | crates/tensorium-node/src/main.rs:1362-1416 | against a light peer whose seeds are met within reach the loop is still running after any number of rounds |
| `Sync.SyncGivesUp` | crates/tensorium-node/src/main.rs:1388-1396 | a fork deeper than the search depth ends the loop with an error |
| `SyncFate.SyncTheorem` | crates/tensorium-node/src/main.rs:1362-1416 | from any start, stranded blocks included, against an honest taller peer the loop completes if and only if the fork is within the search depth, the peer's chain up to the horizon outweighs ours, a stranded chain leaves a new block below the horizon, and every block to come meets its target under the seed read at its turn; aborts if and only if the fork is too deep or a seed it tries is not met; and otherwise never ends. Completing means following the peer's chain |
| `SyncFate.SettledFate` | crates/tensorium-node/src/main.rs:1362-1416 | its case where no block we hold of the peer's chain outweighs our tip |
| `SyncFate.StrandedFate` | crates/tensorium-node/src/main.rs:1362-1416 | its case where a crash left such a block: a new block below the horizon settles it, and without one the loop fetches the same known blocks for ever |
| `SyncFate.SettledUnlessStranded` | crates/tensorium-core/src/state.rs:540-562 | wherever no crash has stranded a block, the blocks we hold of the peer's chain do not outweigh our tip |
| `SyncDrops.RoundsAlong` | crates/tensorium-node/src/main.rs:1362-1416 | wherever the loop stops, after any number of rounds, the disconnected list is what the last accepted peer block took off the chain followed before it |
| `SyncDrops.CatchUpLeaves` | crates/tensorium-node/src/main.rs:1457-1474 | a completed catch-up leaves the old chain's blocks above the fork for requeueing if the peer's chain without its last block does not outweigh ours or that block is the only new one, and nothing otherwise |
| `SyncDrops.CatchUpKeepsPayments` | crates/tensorium-node/src/main.rs:1469-1474 | so every payment of the old chain is on the peer's chain or up for requeueing if and only if the peer's last block is the one that makes us switch, or the payments above the fork are all on the peer's chain |
| `ChainExamples.HonestReachable` | crates/tensorium-core/src/state.rs:531-620 | any honest chain whose blocks meet their targets on their own branch can be followed from an empty database: creating genesis and submitting it block by block is a run that ends on exactly that chain |
| `PeerExamples.FirstDownload` | crates/tensorium-node/src/main.rs:1427-1495 | from the shared genesis alone, the download of any honest chain whose blocks meet their targets on their own branch completes, over any number of epochs, and counts each of its blocks once |
| `PeerExamples.LighterPeerNeverEnds` | crates/tensorium-node/src/main.rs:1405-1414 | a MAINNET state reached without a crash, and an honest peer one block taller with less work, against which the loop never ends |
| `PeerExamples.EpochForkRefused` | crates/tensorium-core/src/state.rs:313-322 | a TESTNET state reached without a crash, and an honest, taller, heavier peer that forks just below an epoch boundary, whose block above it is refused under our seed though it meets its own |
| `LossExamples.PaymentLost` | crates/tensorium-node/src/main.rs:1469-1474 | a TESTNET state reached without a crash, and an honest, taller, heavier peer with whose chain the catch-up completes, leaving a payment of our old chain neither on the new chain nor up for requeueing, although it is still valid there |
| `LossExamples.CutStrands` | crates/tensorium-core/src/state.rs:540-562 | a crash strands the next block of any honest chain we hold a prefix of, if that block makes the chain outweigh ours |
| `LossExamples.CrashStarves` | crates/tensorium-node/src/main.rs:1405-1414 | a TESTNET run with one crash, after which catching up with the peer whose chain is stranded here never ends, and with the same peer one block later completes |
| `LossExamples.CoinbaseOverwritten` | crates/tensorium-core/src/utxo.rs:174-206 | a MAINNET chain reached without a crash on which two coinbases with one transaction id, each claiming its whole subsidy, leave one entry: the first block's subsidy is lost and the total falls below the schedule |
| `SyncLoop.SubmitAll` | crates/tensorium-node/src/main.rs:1384-1400 | the inner loop submits a batch as specified and says whether it met a fork or a refusal |
| `SyncLoop.OneRound` | crates/tensorium-node/src/main.rs:1370-1416 | one turn of the loop on the chain object is one round of the machine |
| `SyncLoop.SyncBlocks` | crates/tensorium-node/src/main.rs:1362-1416 | against any peer, and whichever fetch fails, the loop on the chain object ends and returns as the machine does on the same answers |
| `SyncLoop.ExchangeIsRounds` | crates/tensorium-node/src/main.rs:1370-1416 | answers from one chain make it the machine whose rounds the fate theorem is about |
| `SyncLoop.EnoughAnswers` | crates/tensorium-node/src/main.rs:1362-1416 | so against an honest taller peer it returns what the fate theorem says once enough fetches have been answered, on the peer's chain if without error |
| `Mempools.AdmissionKeepsInv` | crates/tensorium-core/src/mempool.rs:78-139 | admitting a conflict-free payment keeps pending inputs disjoint, fees at the relay minimum and the cap |
| `Mempools.FullPoolFloor` | crates/tensorium-core/src/mempool.rs:104-124 | adding to a full pool never lowers its minimum fee |
| `Mempools.ConfirmationKeepsInv` | crates/tensorium-core/src/mempool.rs:178-197 | dropping confirmed and conflicting payments keeps the invariant |
| `Mempools.RemainsExactly` | crates/tensorium-core/src/mempool.rs:178-197 | confirmation keeps exactly the pending payments whose id no confirmed one has and whose outpoints no confirmed one spends |
| `Mempools.PoolRun` | crates/tensorium-core/src/mempool.rs:78-197 | every pool reachable from the empty one keeps the invariant |
| `Mempools.GreedyDisjoint` | crates/tensorium-core/src/mempool.rs:146-171 | the selected payments never spend an outpoint twice, whatever the pool |
| `Mempools.GreedyTakesAll` | crates/tensorium-core/src/mempool.rs:146-171 | from a pool that keeps the invariant selection takes every payment once, in fee order, with the exact fee sum |
| `Mempools.Mempool.Add` | crates/tensorium-core/src/mempool.rs:78-139 | each refusal in its order, or admission with eviction of a lowest fee; a refusal changes nothing |
| `Mempools.Mempool.RemoveConfirmed` | crates/tensorium-core/src/mempool.rs:178-197 | what remains is exactly what the block neither confirms nor conflicts with |
| `Mempools.Mempool.SelectForBlock` | crates/tensorium-core/src/mempool.rs:146-171 | the selection loop is the greedy choice along some order by falling fee |
| `Templates.RevalidateExactly` | crates/tensorium-node/src/main.rs:1675-1690 | revalidation keeps exactly the payments that validate, in order, with their fees' saturated sum |
| `Templates.TemplatePays` | crates/tensorium-node/src/main.rs:1669-1695 | a template holds exactly the selected payments that validate, and its coinbase pays the subsidy and their fees, all of it, to the miner who asked, at the time given |
| `Templates.InputsLater` | crates/tensorium-core/src/utxo.rs:59-102 | inputs valid at one height stay valid, with the same value, at every later one |
| `Templates.RevalidatedCheck` | crates/tensorium-node/src/main.rs:1669-1695 | the payments that survive revalidation pass the whole-block check together, with exactly their summed fees |
| `Templates.TemplateApplies` | crates/tensorium-node/src/main.rs:1669-1695 | any template so assembled passes block application at the next height |
| `Templates.TemplateValid` | crates/tensorium-core/src/state.rs:770-806 | and, given its proof of work, every header rule |
| `Templates.MinedTemplateBecomesTip` | crates/tensorium-node/src/main.rs:1669-1695 | so a mined template, submitted to the node that made it, is accepted and becomes its tip if and only if no block is stored under its hash; else it is taken for known |
| `Templates.MinedTemplateIsNew` | crates/tensorium-core/src/state.rs:531-542 | with nothing replayable above the tip and no hash collision, none is stored there |
| `Templates.AssembleTemplate` | crates/tensorium-node/src/main.rs:1669-1695 | the endpoint's steps on the live objects return the template that `Templates.TemplatePays` pins down |
| `Templates.SeedUtxosForTx` | crates/tensorium-node/src/main.rs:502-510 | the temporary set holds exactly the live entries the payment spends |
| `Templates.RevalidateAll` | crates/tensorium-node/src/main.rs:1675-1690 | the revalidation loop keeps what validates against the live set, with the summed fees |
| `Requeues.RequeueOne` | crates/tensorium-node/src/main.rs:536-548 | one payment is readmitted with its recomputed fee, or left out for a stated reason |
| `Requeues.RequeueReorged` | crates/tensorium-node/src/main.rs:525-550 | only payments still valid on the new chain are readmitted; while the pool has room none is dropped without reason and nothing is evicted |
| `Codec.BytesRoundTrip` | crates/tensorium-core/src/assets/codec.rs:25-61 | a number that fits its width survives encoding |
| `Codec.IssueRoundTrip` | crates/tensorium-core/src/assets/codec.rs:31-110 | an issue within field limits decodes to itself and fits the payload cap |
| `Codec.NftRoundTrip` | crates/tensorium-core/src/assets/codec.rs:31-110 | so does a mint |
| `Codec.TransferRoundTrip` | crates/tensorium-core/src/assets/codec.rs:31-110 | so does a transfer |
| `Codec.DecodedIsEncoded` | crates/tensorium-core/src/assets/codec.rs:63-110 | whatever decodes is within the cap, has magic, version and opcode, a royalty within 10,000 basis points, and starts with its own encoding as far as its text is valid and short enough for the encoder |
| `Carrier.CarrierRoundTrip` | crates/tensorium-core/src/assets/codec.rs:111-158 | data survives its OP_RETURN carrier if and only if it has 1 to 65535 bytes, through all push sizes |
| `Carrier.DataIsPush` | crates/tensorium-core/src/assets/codec.rs:111-158 | a script carries data if and only if it starts with OP_RETURN, one of the three push headers with that length, and the data |
| `Carrier.ExtractCarried` | crates/tensorium-core/src/assets/codec.rs:161-170 | behind outputs that are no carriers the carried operation is what is extracted |
| `Carrier.ExtractsFirst` | crates/tensorium-core/src/assets/codec.rs:161-170 | what is extracted is the operation of the first output that carries a valid one, whatever else the outputs hold |
| `Carrier.BuiltCarriesOp` | crates/tensorium-core/src/assets/mod.rs:74-110 | extracting from built outputs returns the operation they were built for |
| `Carrier.BuiltPays` | crates/tensorium-core/src/assets/mod.rs:74-110 | outputs are built if and only if the inputs cover them and the addresses can be paid; they pay the destination and return the rest less the fee as change |
| `Carrier.Decoder.TakeBytes` | crates/tensorium-core/src/assets/codec.rs:10-17 | the cursor reads only inside the buffer and stays put at its end |
| `Carrier.DecodeOp` | crates/tensorium-core/src/assets/codec.rs:63-109 | for any byte string the cursor decoder returns the specified operation or error, in range throughout |
| `Carrier.ExtractAssetOp` | crates/tensorium-core/src/assets/codec.rs:161-170 | the search loop returns the first output that carries a valid operation |
| `Storage.HeightKeysSort` | crates/tensorium-core/src/storage/mod.rs:18-24 | encoded heights compare as byte strings exactly as the heights do |
| `Storage.OutpointRoundTrip` | crates/tensorium-core/src/storage/mod.rs:38-53 | an outpoint survives its 36-byte key, so distinct outpoints have distinct keys |
| `Assets.CirculatingPut` | crates/tensorium-core/src/assets/state.rs:40-46 | setting one balance moves its asset's total by the difference and no other's |
| `Assets.MoveFits` | crates/tensorium-core/src/assets/state.rs:102-122 | crediting a transfer never overflows: both balances lie within one issued supply |
| `Assets.ApplyConserves` | crates/tensorium-core/src/assets/state.rs:47-135 | every operation keeps each asset's balances summing to its supply and every NFT owned once; ignored ones change nothing |
| `Assets.AppliedExactly` | crates/tensorium-core/src/assets/state.rs:47-135 | an operation is applied if and only if its source is entitled: an unused id with fields in range, or a known asset, a destination, and of the source a positive amount it holds or the NFT itself |
| `Assets.IgnoredFor` | crates/tensorium-core/src/assets/state.rs:47-135 | and else ignored for the first reason in the source's order |
| `Assets.OnlyOwnerMoves` | crates/tensorium-core/src/assets/state.rs:122-132 | an NFT changes hands if and only if its owner transfers it, and then to the destination; a new one is its minter's |
| `Assets.OnlySourcePays` | crates/tensorium-core/src/assets/state.rs:102-122 | a balance falls only for the source of a transfer and rises only for its destination, by the amount, or for an issuer, to the supply |
| `Assets.RecordsStay` | crates/tensorium-core/src/assets/state.rs:47-100 | a known asset's record never changes, and a new one is what its issuer or minter stated |
| `Assets.AssetState.ApplyOp` | crates/tensorium-core/src/assets/state.rs:47-135 | the in-place update is the specified one, which `Assets.AppliedExactly`, `OnlyOwnerMoves` and `OnlySourcePays` pin down, and no lookup in it can fail |
| `Assets.BalanceWithinCirculating` | crates/tensorium-core/src/assets/state.rs:40-46 | no balance exceeds its asset's circulating total |
| `Indexers.NetRecord` | crates/tensorium-indexer/src/index.rs:126-159 | recording an entry moves each named party's net by its delta and nobody else's |
| `Indexers.BalanceDelta` | crates/tensorium-indexer/src/index.rs:95-120 | an applied operation changes a balance by exactly its history delta |
| `Indexers.RecordKeepsBalances` | crates/tensorium-indexer/src/index.rs:95-159 | after applying and recording, every balance is again the signed net of its address's history |
| `Indexers.OnlySpenderMoves` | crates/tensorium-indexer/src/index.rs:95-124 | indexing a transaction moves an NFT only from the recorded owner of the output its first input spends to the address of the output it names, and only that owner's balances can fall |
| `Indexers.HistoryGrows` | crates/tensorium-indexer/src/index.rs:95-159 | it enters at most one entry, which names height, transaction, asset, amount and parties, at the end of the parties' histories only |
| `Indexers.IndexTxsKeepsInv` | crates/tensorium-indexer/src/index.rs:95-124 | indexing any transactions keeps conservation and the balance of history |
| `Indexers.Indexer.ApplyBlock` | crates/tensorium-indexer/src/index.rs:95-124 | the block loop on the object is the specified indexing |
| `Indexers.Indexer.RecordOutputsOf` | crates/tensorium-indexer/src/index.rs:78-85 | the loop sets exactly the outputs whose scripts bear an address, each to that address, and changes no other entry |
| `Indexers.RecordedExactly` | crates/tensorium-indexer/src/index.rs:78-85 | the same of the specified recording, after any number of outputs |
| `Indexers.Indexer.Restore` | crates/tensorium-indexer/src/index.rs:66-74 | restoring gives back the snapshot and keeps the checkpoint |
| `Scans.PrepareHolds` | crates/tensorium-indexer/src/sync.rs:24-38 | after the reorganisation check the state is the from-genesis index of a prefix of the served chain |
| `Scans.ForwardHolds` | crates/tensorium-indexer/src/sync.rs:39-52 | the forward loop extends that prefix to the tip; a fetch error leaves a prefix; a checkpoint always indexes a prefix |
| `Scans.ScanHolds` | crates/tensorium-indexer/src/sync.rs:24-69 | one scan from any such state, by extension, rollback or rebuild |
| `Scans.ScanRunHolds` | crates/tensorium-indexer/src/sync.rs:24-69 | over any history of scans, reorganisations and errors the state is the from-genesis index of a prefix of a served chain |
| `Scans.ScanEqualsReplay` | crates/tensorium-indexer/src/sync.rs:24-69 | a scan that succeeds leaves exactly the from-genesis replay of its chain up to the tip or further |
| `Scans.ForwardExactly` | crates/tensorium-indexer/src/sync.rs:39-52 | a forward loop that succeeds counts its blocks and leaves as checkpoint the highest of them that is a multiple of the interval and buried by the safety depth |
| `Scans.IndexChainInv` | crates/tensorium-indexer/src/index.rs:95-159 | every from-genesis index conserves its assets and balances its history |
| `Scans.OutpointsOfChain` | crates/tensorium-indexer/src/index.rs:78-124 | the recorded outpoints of a chain are exactly the address-bearing outputs of all its transactions |
| `Scans.AssetsOfChain` | crates/tensorium-indexer/src/index.rs:95-124 | every asset of a chain was issued or minted by one of its transactions, at the height recorded |
| `Scans.TryRollbackTo` | crates/tensorium-indexer/src/sync.rs:55-69 | rollback happens exactly when the checkpoint's block is still canonical |
| `Scans.ScanTo` | crates/tensorium-indexer/src/sync.rs:24-52 | the scan on the object returns and leaves what is specified |
| `Settlements.ProductIs` | crates/tensorium-core/src/settlement.rs:31-36 | adding up the price basis point by basis point is the multiplication the code performs |
| `Settlements.CutsRoundDown` | crates/tensorium-core/src/settlement.rs:29-37 | platform fee and royalty are the exact cuts rounded down |
| `Settlements.BuiltVerifiesClean` | crates/tensorium-core/src/settlement.rs:42-126 | a settlement that could be built verifies clean if and only if the seller's coin and net price fit 64 bits together, or the carrier, the change or the platform's fee happens to pay the seller that much; else only the seller's proceeds are missing |
| `Settlements.BuiltUnclean` | crates/tensorium-core/src/settlement.rs:42-126 | a concrete sale that is built and fails its own check |
| `Settlements.BuiltConserves` | crates/tensorium-core/src/settlement.rs:42-87 | inputs minus outputs is the miner fee if and only if proceeds and change have wrapped as often forwards as backwards, as when every sum fits 64 bits; the difference is exactly that many words |
| `Settlements.BuiltFromNothing` | crates/tensorium-core/src/settlement.rs:53-60 | a concrete price just below 2^64 for which 20000 atoms build a settlement that pays out 2^64 atoms more than comes in |
| `Settlements.CleanMeans` | crates/tensorium-core/src/settlement.rs:91-126 | the list of mismatches is empty if and only if carrier, transfer, both cuts and the seller's net are all there |
| `SettlementDues.CleanPaysAll` | crates/tensorium-core/src/settlement.rs:91-138 | where no output can answer for two amounts owed, a clean settlement pays every address the sum of what it is owed in all its roles, and carrier, cuts and net price in all |
| `SettlementDues.CleanPaysAllExactly` | crates/tensorium-core/src/settlement.rs:91-138 | where the parties' addresses read back, every clean settlement pays every address the sum of its dues if and only if no two dues to one address can share an output: fee and royalty equal, net price within the fee or within the carrier, or a cut equal to the carrier |
| `SettlementDues.LeanVerifiesClean` | crates/tensorium-core/src/settlement.rs:91-138 | in each of those cases a settlement that leaves one payment out verifies clean |
| `SettlementDues.LeanPays` | crates/tensorium-core/src/settlement.rs:91-138 | and pays its payee exactly that much less than it is owed, everyone else in full |
| `Settlements.SettlementMovesFungible` | crates/tensorium-indexer/src/index.rs:95-120 | indexed where the first input is the owning seller's, a clean settlement moves exactly the amount from seller to buyer and changes no other balance |
| `Settlements.SettlementMovesNft` | crates/tensorium-indexer/src/index.rs:95-120 | and an NFT from seller to buyer |
| `Settlements.BuildSettlementTx` | crates/tensorium-core/src/settlement.rs:42-87 | the building steps give the specified transaction or error, with wrap-around arithmetic |
| `Settlements.VerifySettlement` | crates/tensorium-core/src/settlement.rs:91-138 | the checks give the specified mismatches in order |
| `Pool.WeightDoubles` | crates/tensorium-pool/src/accounting.rs:31-33 | a share with k more bits weighs 2^k times as much, and the weights start again after 64 bits |
| `Pool.WindowIsLast` | crates/tensorium-pool/src/accounting.rs:57-62 | the window is always the last n shares pushed, or the last one if n is zero |
| `Pool.WeightsPartition` | crates/tensorium-pool/src/accounting.rs:65-78 | per-miner weights, in any order, sum to the window's total |
| `Pool.SplitConserves` | crates/tensorium-pool/src/accounting.rs:289-306 | a split pays at most the reward and keeps back fewer atoms than there are miners; an empty window pays it all to the fallback |
| `Pool.SplitFeeExact` | crates/tensorium-pool/src/accounting.rs:151-155 | fee and net make up the gross, with the fee rounded down |
| `Pool.EntriesAccountSplit` | crates/tensorium-pool/src/stratum.rs:622-630 | a block's ledger entries account in fees and nets for its split to the atom |
| `Pool.EntriesOwe` | crates/tensorium-pool/src/stratum.rs:622-630 | each part becomes one unpaid entry of its block and miner, with a twentieth taken off as fee, rounded down |
| `Pool.MarkedIsPayable` | crates/tensorium-pool/src/accounting.rs:210-249 | marking up to a payable amount marks exactly that amount, whatever was appended in between |
| `Pool.PaymentSettles` | crates/tensorium-pool/src/accounting.rs:210-249 | and lowers that miner's unpaid net by it, touching nothing else |
| `Pool.CycleWithinBudget` | crates/tensorium-pool/src/payout.rs:100-140 | a cycle's payments and fees are exactly what left the starting balance |
| `Pool.CycleSettles` | crates/tensorium-pool/src/payout.rs:100-140 | every miner's unpaid net falls by exactly what the cycle paid it, with entries arriving meanwhile |
| `Pool.CyclePaysInFull` | crates/tensorium-pool/src/payout.rs:100-140 | with a balance that covers the due miners and a wallet that sends, each is paid its whole unpaid net once, in order |
| `Pool.ShareWindow.Push` | crates/tensorium-pool/src/accounting.rs:57-62 | one push drops the oldest share of a full window and appends the new one |
| `Pool.ShareWindow.TotalWeight` | crates/tensorium-pool/src/accounting.rs:65-69 | the saturating sum of all weights |
| `Pool.ShareWindow.MinerWeights` | crates/tensorium-pool/src/accounting.rs:72-78 | exactly the window's miners, each with its (wrapped) weight |
| `Pool.PayoutLedger.PplnsSplit` | crates/tensorium-pool/src/accounting.rs:289-306 | the collecting and sorting loops give a split as specified, each miner once, largest first |
| `Pool.PayoutLedger.CreditBlock` | crates/tensorium-pool/src/stratum.rs:615-630 | the winning share joins the window before the split, and one entry per part is appended |
| `Pool.PayoutLedger.PayableAtoms` | crates/tensorium-pool/src/accounting.rs:210-223 | the loop sums whole unpaid entries oldest first while they stay within the limit |
| `Pool.PayableIsLargest` | crates/tensorium-pool/src/accounting.rs:210-223 | what it returns is the unpaid net of a first part of the entries, within the limit, and every longer part exceeds it |
| `Pool.PayoutLedger.MarkPaidUpTo` | crates/tensorium-pool/src/accounting.rs:236-249 | the in-place loop marks entries oldest first until the amount is covered |
| `Pool.PayoutLedger.CollectDue` | crates/tensorium-pool/src/payout.rs:66-81 | exactly the miners whose unpaid net reaches the threshold, each once |
| `Pool.PayoutLedger.RunCycle` | crates/tensorium-pool/src/payout.rs:66-141 | one cycle against a wallet that may fail is the specified one |
| `TensorHash.RotationMoves` | crates/tensorium-tensorhash/src/lib.rs:80-86 | rotating moves bit i of a word to position i + 13 round the word |
| `TensorHash.MixReads` | crates/tensorium-tensorhash/src/lib.rs:80-86 | a round's word is its own accumulator word times its own element word made odd, plus the next element word rotated, the last one's next being the first |
| `TensorHash.OddInverseCorrect` | crates/tensorium-tensorhash/src/lib.rs:80-86 | every odd word has a multiplicative inverse modulo 2^64 |
| `TensorHash.RoundTrips` | crates/tensorium-tensorhash/src/lib.rs:80-87 | each round can be undone and redone |
| `TensorHash.FoldBijective` | crates/tensorium-tensorhash/src/lib.rs:70-87 | for any fixed dataset elements the fold is a bijection on the accumulator |
| `TensorHash.FoldInjective` | crates/tensorium-tensorhash/src/lib.rs:70-87 | different accumulators stay different under the same elements |
| `TensorHash.FoldRounds` | crates/tensorium-tensorhash/src/lib.rs:72-88 | the array loop computes the fold |
| `Scripts.RunMonotone` | crates/tensorium-core/src/script/vm.rs:45-325 | a script that runs through at one height runs through at every later one, to the same stack |
| `Scripts.ExecuteMonotone` | crates/tensorium-core/src/script/vm.rs:14-39 | so a verdict once reached stays, through script hashes too |
| `Scripts.GreedyMatches` | crates/tensorium-core/src/script/vm.rs:250-283 | first-fit signature matching succeeds if and only if some order-preserving assignment of signatures to keys exists |
| `Scripts.MatchSignatures` | crates/tensorium-core/src/script/vm.rs:250-283 | the nested matching loops decide that |
| `Scripts.RunScript` | crates/tensorium-core/src/script/vm.rs:45-325 | the machine's loop computes the specified outcome, reading only inside the script |
| `StandardScripts.P2pkhUnlocks` | crates/tensorium-core/src/script/standard.rs:14-57 | a pay-to-address output opens to an unlocking script of any form if and only if that runs through to a stack with a key that hashes to the address on top of a signature it verifies |
| `StandardScripts.CltvUnlocks` | crates/tensorium-core/src/script/standard.rs:371-385 | a vesting output opens so exactly from its height on, to any unlocking script |
| `StandardScripts.HtlcUnlocks` | crates/tensorium-core/src/script/standard.rs:251-312 | any unlocking script opens a contract exactly by a claim, with a preimage and the recipient's signature at any height, or by a refund, from its height on with the refund key's signature; the item on top chooses |
| `StandardScripts.HtlcClaims` | crates/tensorium-core/src/script/standard.rs:251-301 | pushing signature, key and preimage claims a contract exactly when they fit it, at any height |
| `StandardScripts.HtlcRefunds` | crates/tensorium-core/src/script/standard.rs:251-312 | pushing signature and key refunds it exactly from its height on |
| `MultiSigs.MultiSigUnlocks` | crates/tensorium-core/src/script/standard.rs:159-181 | an m-of-n output opens, to an unlocking script of any form, if and only if that leaves m signatures on top, each verified by a later key than the one before |
| `MultiSigs.P2shUnlocks` | crates/tensorium-core/src/script/vm.rs:14-39 | a script-hash output opens if and only if the unlocking script leaves on top a script of that hash which accepts the rest of the stack |
| `MultiSigs.P2shMultiSigUnlocks` | crates/tensorium-core/src/script/standard.rs:91-142 | with an m-of-n script on top, exactly when the signatures below satisfy it |
| `MultiSigs.P2shMultiSigOpens` | crates/tensorium-core/src/script/standard.rs:140-157 | the built unlocking script, signatures and then the script itself, opens the output of its hash exactly when the last m signatures satisfy it, through both push sizes |
| `ScriptLaws.StackLaws` | crates/tensorium-core/src/script/vm.rs:143-165 | swapping twice changes nothing, dropping twice is dropping two, and what is duplicated can be dropped again |
| `ScriptLaws.VerifyLaws` | crates/tensorium-core/src/script/vm.rs:191-300 | the verifying forms of equality and multi-signature checks are the plain ones followed by a check |
| `ScriptLaws.SkippedWhole` | crates/tensorium-core/src/script/vm.rs:110-138 | in a branch not taken, complete pushes, operations and nested conditionals without an alternative have no effect, at any depth |
| `ScriptLaws.NestedElseRuns` | crates/tensorium-core/src/script/vm.rs:57-61 | but the alternative of a conditional nested in a branch not taken is run |
| `StandardScripts.EncodeLocktimeBytes` | crates/tensorium-core/src/script/standard.rs:236-243 | the trimming loop gives the shortest little-endian encoding |
| `StandardScripts.InterpretedMeetsAssumptions` | crates/tensorium-core/src/script/vm.rs:14-325 | script acceptance is monotone in height and address scripts carry no data, as the other modules assume |
| `StandardScripts.PayableIffCanonical` | crates/tensorium-core/src/script/standard.rs:28-80 | an address reads back as itself if and only if it is the canonical encoding of its hash |
| `StandardScripts.UpperCaseUnpayable` | crates/tensorium-core/src/script/standard.rs:28-80 | under a codec that reads either case, an address in upper case is paid by the same script as in lower case and reads back as the latter |

## Left out

- SyncFate.SyncTheorem: says nothing of a peer that is not honest, whose blocks the loop handles as
  `SyncLoop.SyncBlocks` states, nor of work beyond 128 bits.
- SyncLoop.SyncBlocks: takes the number of fetches that are answered as a parameter, of any size; that the loop never
  ends is a statement about all of them.
- Runs.MiningKeepsInv: assumes that no different block is stored under the mined block's hash, which the code does not
  check and which does not follow from the hash, since it does not cover the transactions.
- RocksDB tuning, lock retries, compaction, JSON files and migration.
- The height and chain-id meta values: they repeat what the tip's header and the parameters say.
- Sockets, HTTP and RPC routing, peer bans, Stratum threads and miner clients.
- SHA-256, Blake2b, ECDSA, Argon2, bech32 and wallet encryption: uninterpreted functions.
- The genesis and mining entry points that search with other nonce ranges, and candidate blocks without extra
  transactions: the same code with other arguments.
- The parsers that recognise standard scripts, and the builders of unlocking scripts for multisignature.
- The dataset elements and the two outer hashes of the proof-of-work hash; the GPU versions of the same fold.
- Fee statistics, fee tiers, vardiff, pool and window statistics, the web marketplace, Solidity bridge scripts.
- Wall-clock time: a parameter of validation.
- The order of equal fees or equal parts after sorting, and which of several lowest-fee payments is evicted, are left
  open, as hash-map order leaves them in the source.
- The wallet command's result in a payout cycle is an arbitrary boolean per send; a broadcast that reports the payment
  as already pending counts as sent, as in the source.
