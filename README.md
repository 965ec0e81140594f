# QuantumFuse ledger and explorer, modelled in Dafny

QuantumFuse is a mostly presentational web dapp with three small prototype back-ends.
This project models the parts of it that hold logic, and proves what they promise:

- **Explorer view model** (`src/quantumfuse_blockchain_react.js`, module `Explorer`).
  - The component keeps a newest-first log of the blocks a WebSocket feed delivers (as
    written, the feed is closed after the first re-render; see "## Left out").
  - From the log it derives a line-chart series, a per-transaction bar series, and the
    blocks matching a case-sensitive substring query on sender or recipient.
  - The log and the derived views are fields of `ExplorerView`; each derivation is a function.
- **Proposal form** (`quantumfuse_dapp/src/Governance.js`, module `ProposalForm`). A
  draft is appended only when both its fields are non-empty, and is then cleared.
- **Sharded ledger** (`quantumfuse_core.py`, modules `CoreChain` for values and
  specification functions and `CoreLedger` for the objects):
  - staking pool and treasury;
  - load-driven shard creation and removal;
  - stake-weighted governance;
  - cross-shard transfers;
  - QFC transactions with fees, the QFC balance over every chain, mining, and chain validation.
- **Go node** (`node/src/main.go`, module `NodeChain`):
  - sharded chain construction and shard adjustment;
  - weighted governance with expiry;
  - the oracle-quorum bridge and threshold signing.
- **IPFS prototype chain** (`core/src/ipsf.py`, module `IpsfChain`):
  - majority multisig validity and one-vote-per-voter governance;
  - mining with a reward transaction, and balances;
  - smart-contract deployment and execution.

Module `Common` holds the `Option` type.

Conventions:

- **Hashing.** `calculate_hash` / `CalculateHash` is an uninterpreted function `hash`
  over a record of the hashed fields.
- **Proof of work.** The nonce a mining loop stops at is a parameter.
- **Time, randomness and configuration.** The clock reading (`now`), oracle verdicts
  (a `seq<bool>`) and environment configuration are parameters.
- **Exceptions.** A Python exception is a returned `Error` (`IndexError`, `KeyError`,
  `ValueError(message)`, `AttributeError`), and the state is left as the source leaves it
  at the raise.
- **List indexing.** Python list indexing, including negative indices, is `CoreChain.PyIndex`.
- **Amounts.** Amounts are `real` where the source uses floats and `int` in `ipsf.py`.

In `quantumfuse_core.py`, `get_qfc_balance` reads `tx["fee"]` for every QFC debit of the
address. Cross-shard legs and mining rewards carry no fee. Once such a debit of an address is
mined, that address's balance raises `KeyError`. `CoreChain.TxsBalanceRaisesIff` states exactly
when this happens.

## Model

| member | source | states |
|---|---|---|
| Explorer.Receive | src/quantumfuse_blockchain_react.js:18-21 | a decoded block becomes element 0 and the old log follows unchanged (length + 1); a failed decode leaves the log unchanged |
| Explorer.ReceiveAll | src/quantumfuse_blockchain_react.js:18-21 | reference definition: the log after each message of a stream is handled by `Receive` in arrival order |
| Explorer.ReceiveAllNewestFirst | src/quantumfuse_blockchain_react.js:18-21 | after a stream of messages the log is the decoded blocks, newest first, followed by the old log |
| Explorer.DecodedAll | src/quantumfuse_blockchain_react.js:19-20 | when every message decodes, the stream contributes exactly its blocks in arrival order |
| Explorer.ReceiveAllValid | src/quantumfuse_blockchain_react.js:18-21 | N decodable messages into an empty log give N blocks with the last one received at the head |
| Explorer.IndexSeries | src/quantumfuse_blockchain_react.js:23 | one entry per block, entry i is block i's index |
| Explorer.TimestampSeries | src/quantumfuse_blockchain_react.js:24 | one label per block, label i comes from block i's timestamp |
| Explorer.Chart | src/quantumfuse_blockchain_react.js:23-36 | labels and data both have the log's length and are positionally aligned with it |
| Explorer.Flatten | src/quantumfuse_blockchain_react.js:38 | the flattened list has as many entries as there are transactions in the log |
| Explorer.FlattenAppend | src/quantumfuse_blockchain_react.js:38 | flattening and counting distribute over concatenation of logs |
| Explorer.FlattenAt | src/quantumfuse_blockchain_react.js:38 | transaction t of block j sits at position (transactions before block j) + t: block order, then in-block order |
| Explorer.Senders | src/quantumfuse_blockchain_react.js:41 | label k is the sender of transaction k |
| Explorer.Amounts | src/quantumfuse_blockchain_react.js:39 | data k is the amount of transaction k |
| Explorer.TxSeries | src/quantumfuse_blockchain_react.js:38-51 | labels and data have the total transaction count; entry k is the sender and amount of the same k-th transaction, with no grouping |
| Explorer.Includes | src/quantumfuse_blockchain_react.js:57 | reference definition of `String.prototype.includes`: the query occurs at some position (see `IncludesIff`) |
| Explorer.IncludesIff | src/quantumfuse_blockchain_react.js:57 | the substring test holds exactly when the query occurs at some position |
| Explorer.IncludesEmpty | src/quantumfuse_blockchain_react.js:57 | the empty query occurs in every string |
| Explorer.AnyMatches | src/quantumfuse_blockchain_react.js:55-58 | holds exactly when some transaction's sender or recipient contains the query |
| Explorer.FilterBlocks | src/quantumfuse_blockchain_react.js:53-60 | the view is an order-preserving subsequence of the log; a block is in it iff it is in the log and some transaction matches |
| Explorer.FilterAppend | src/quantumfuse_blockchain_react.js:53-60 | filtering distributes over concatenation: blocks are kept or dropped independently, in log order |
| Explorer.EmptyQueryKeepsNonEmpty | src/quantumfuse_blockchain_react.js:55-58 | with the empty query the view is exactly the blocks that have at least one transaction |
| Explorer.EmptyLogViews | src/quantumfuse_blockchain_react.js:23-60 | an empty log gives empty chart, transaction and filtered views |
| Explorer.ExplorerView.constructor | src/quantumfuse_blockchain_react.js:8-12 | empty log, empty query, empty views, and the views agree with the log |
| Explorer.ExplorerView.OnMessage | src/quantumfuse_blockchain_react.js:18-21 | the log becomes `Receive(old log, decoded)`: prepend on success, unchanged on a decode failure |
| Explorer.ExplorerView.RecomputeViews | src/quantumfuse_blockchain_react.js:23-60 | afterwards chart, transaction and filtered views are the derivations of the current log and query; log and query untouched |
| Explorer.ExplorerView.SetSearchTerm | src/quantumfuse_blockchain_react.js:96 | the query becomes the input's text and nothing else changes |
| Explorer.ExplorerView.HandleSearch | src/quantumfuse_blockchain_react.js:67-76 | the filtered view is the same filter the effect applies; when the views are current it changes nothing (idempotent) |
| ProposalForm.Submit | quantumfuse_dapp/src/Governance.js:75-78 | a complete draft is appended and the draft reset; an incomplete one leaves both unchanged |
| ProposalForm.SubmitKeepsProposalsComplete | quantumfuse_dapp/src/Governance.js:75-76 | stored proposals stay complete, earlier entries keep their order, and the list grows by at most one |
| ProposalForm.SubmitTwiceAddsOnce | quantumfuse_dapp/src/Governance.js:73-79 | a second submit right after the first changes nothing |
| ProposalForm.GovernanceForm.constructor | quantumfuse_dapp/src/Governance.js:70-71 | no proposals and an empty draft |
| ProposalForm.GovernanceForm.HandleSubmit | quantumfuse_dapp/src/Governance.js:73-79 | appends exactly the draft and resets it when both fields are non-empty; otherwise proposals and draft unchanged; only complete proposals are stored |
| ProposalForm.GovernanceForm.EditTitle | quantumfuse_dapp/src/Governance.js:90 | the title changes and the description is kept |
| ProposalForm.GovernanceForm.EditDescription | quantumfuse_dapp/src/Governance.js:95 | the description changes and the title is kept |
| IpsfChain.IsValid | core/src/ipsf.py:22-23 | valid iff the signatures are a strict majority of the receivers: `len(sigs) >= len(receivers) // 2 + 1` |
| IpsfChain.MakeBlock | core/src/ipsf.py:27-37 | the block holds the given index, timestamp, transactions, predecessor and nonce, and its hash is the hash of those fields |
| IpsfChain.Linked | core/src/ipsf.py:105-124 | reference definition of the chain shape that genesis and mining build: block i has index i, carries its own hash and names block i−1's hash |
| IpsfChain.TxDelta | core/src/ipsf.py:128-133 | reference definition of one transaction's effect: + amount when the address receives, − amount when it sends (both for a self-transfer) |
| IpsfChain.Balance | core/src/ipsf.py:126-134 | reference definition of `get_balance`: the sum of `TxDelta` over every transaction of every block, in chain order |
| IpsfChain.TxsDeltaAppend | core/src/ipsf.py:126-134 | the balance change of concatenated transaction lists is the sum of their changes |
| IpsfChain.BalanceAppend | core/src/ipsf.py:126-134 | the balance over concatenated chains is the sum of the balances |
| IpsfChain.SelfTransferNetsZero | core/src/ipsf.py:126-134 | a block holding only a self-transfer leaves the address's balance unchanged |
| IpsfChain.MinedBlockBalance | core/src/ipsf.py:116-134 | for every address, a mined block adds the pending transactions' net effect plus the reward transaction's effect: + reward for the reward address, − reward for "0" |
| IpsfChain.Tallied | core/src/ipsf.py:71-72 | the option's count rises by one (from 0 when absent), the voter's key is set to 1, no other key changes |
| IpsfChain.Governance.constructor | core/src/ipsf.py:56-58 | no proposals, count 0 |
| IpsfChain.Governance.CreateProposal | core/src/ipsf.py:60-63 | appends a proposal with id = old count and empty votes, then increments the count; ids stay 0, 1, 2, … in order |
| IpsfChain.Governance.FindProposal | core/src/ipsf.py:66 | the `next(...)` search: the first proposal with that id, or None iff there is none |
| IpsfChain.Governance.FindProposalById | core/src/ipsf.py:66 | because ids are positions, a proposal is found iff 0 <= id < number of proposals, and it is the one at that position |
| IpsfChain.Governance.Vote | core/src/ipsf.py:65-74 | no change for an unknown id or a voter already among the vote keys; otherwise the proposal's votes become `Tallied(...)` and nothing else changes |
| IpsfChain.Governance.GetResults | core/src/ipsf.py:76-78 | the votes of the first proposal with that id, None iff there is none |
| IpsfChain.SmartContract.constructor | core/src/ipsf.py:82-86 | stores id, code and owner with an empty state |
| IpsfChain.SmartContract.Execute | core/src/ipsf.py:88-90 | records the input under "last_input" and returns "Executed with input: " + input |
| IpsfChain.GenesisBlock | core/src/ipsf.py:105-107 | index 0, no transactions, predecessor "0", nonce 0, and a linked one-block chain |
| IpsfChain.QuantumFuseBlockchain.constructor | core/src/ipsf.py:94-103 | exactly one block, the genesis block; empty pools, contracts and governance |
| IpsfChain.QuantumFuseBlockchain.AddGenesisBlock | core/src/ipsf.py:105-107 | appends a genesis block |
| IpsfChain.QuantumFuseBlockchain.AddTransaction | core/src/ipsf.py:109-110 | appends the transaction to the pending pool |
| IpsfChain.QuantumFuseBlockchain.AddMultisigTransaction | core/src/ipsf.py:112-114 | appends a valid multisig transaction; an invalid one leaves the list unchanged |
| IpsfChain.QuantumFuseBlockchain.MinePendingTransactions | core/src/ipsf.py:116-124 | one block appended with index = old length, the old pool plus the reward ("0" → address) as its transactions, and the old last hash as predecessor; the pool is emptied and a linked chain stays linked |
| IpsfChain.QuantumFuseBlockchain.GetBalance | core/src/ipsf.py:126-134 | the loop's result is the total received minus total sent over all blocks |
| IpsfChain.QuantumFuseBlockchain.DeploySmartContract | core/src/ipsf.py:136-137 | the contract is stored under its id, replacing any earlier one |
| IpsfChain.QuantumFuseBlockchain.ExecuteSmartContract | core/src/ipsf.py:139-143 | a deployed contract executes and returns its output; an unknown id returns "Smart contract not found" and changes nothing |
| NodeChain.NewBlock | node/src/main.go:94-104 | the block holds the given transactions, predecessor, shard id, time and nonce 0, and its hash is the hash of its fields |
| NodeChain.CreateGenesisBlock | node/src/main.go:125-127 | no transactions, predecessor "0", the shard's id |
| NodeChain.NewShard | node/src/main.go:130-135 | the given id, an empty pool and a one-block chain whose genesis has no transactions, predecessor "0", the shard's id and its own hash |
| NodeChain.Adjusted | node/src/main.go:173-188 | reference definition of `AdjustShards`: one new shard when pending > threshold·n, the last shard dropped when pending < threshold·(n−1) and n > 1, otherwise unchanged (properties in `AdjustedInvariants`) |
| NodeChain.AdjustedInvariants | node/src/main.go:173-188 | adds shard `NewShard(n)` iff pending > threshold·n; drops the last iff pending < threshold·(n−1), pending <= threshold·n and n > 1; keeps shard i at position i, never leaves zero shards, and keeps the earlier shards |
| NodeChain.SumWeights | node/src/main.go:255-258 | reference definition of the tally loop's sum: the recorded weights added up, in any order (see `SumWeightsRemove`) |
| NodeChain.SumWeightsRemove | node/src/main.go:255-258 | the weight sum is independent of iteration order: it is any one voter's weight plus the sum of the rest |
| NodeChain.Governance.constructor | node/src/main.go:157-160 | no proposals and no votes |
| NodeChain.Governance.Propose | node/src/main.go:232-240 | stores the proposal not executed with a fresh empty vote map, replacing any earlier one with that id |
| NodeChain.Governance.Vote | node/src/main.go:242-252 | "Proposal not found" for an unknown id and "Proposal expired" when now > expiry, both without changing votes; otherwise records the weight, replacing an earlier vote of that address |
| NodeChain.Governance.TallyVotes | node/src/main.go:254-265 | passes iff the sum of the recorded weights is > 0, whatever each vote's `voteFor` was |
| NodeChain.Governance.ExecuteProposal | node/src/main.go:268-274 | as written: only a local copy is marked executed; the proposals map is left unchanged |
| NodeChain.ExecuteProposalRunsTwice | node/src/main.go:268-274 | as written, executing the same proposal twice runs its body both times |
| NodeChain.Governance.ExecuteProposalIntended | node/src/main.go:268-274 | corrected: an existing, unexecuted proposal is marked executed in the map; otherwise nothing changes |
| NodeChain.ExecuteProposalIntendedRunsOnce | node/src/main.go:268-274 | corrected, the second execution of the same proposal does nothing |
| NodeChain.CrossChainBridge.constructor | node/src/main.go:78-81 | stores the oracles and the quorum |
| NodeChain.CrossChainBridge.TransferAssets | node/src/main.go:277-289 | nil iff at least max(quorum, 1) oracles verify, having consulted oracles up to the quorum-th success; otherwise the error after consulting all |
| NodeChain.CountTrue | node/src/main.go:280-285 | the number of oracles that verified, never more than the number consulted |
| NodeChain.CountTrueMonotone | node/src/main.go:277-289 | successes among the oracles consulted so far never exceed the successes among all |
| NodeChain.Signed | node/src/main.go:299-302 | reference definition of the signature store after signing: the transaction's signer map is created when missing and the address's signature stored |
| NodeChain.SignerCount | node/src/main.go:303-308 | reference definition of the number of distinct signers of a transaction, 0 when it has none |
| NodeChain.SignedCount | node/src/main.go:298-309 | a signature counts its signer once: re-signing keeps the count, a new signer adds one |
| NodeChain.SecureEnclave.constructor | node/src/main.go:154-156 | no signatures |
| NodeChain.SecureEnclave.SignTransaction | node/src/main.go:298-309 | the signature is stored under (transaction, address) and the result is true iff the distinct signers reach the threshold |
| NodeChain.ShardedBlockchain.constructor | node/src/main.go:138-162 | n shards, shard i is `NewShard(i)` with a one-block chain whose predecessor is "0"; difficulty 4, bridge with two oracles and quorum 2, empty enclave and governance |
| NodeChain.ShardManager.constructor | node/src/main.go:43-46 | stores the blockchain and the threshold |
| NodeChain.ShardManager.CountPending | node/src/main.go:174-177 | the loop counts every pending transaction of every shard |
| NodeChain.ShardManager.AdjustShards | node/src/main.go:173-188 | the shards become `Adjusted(old shards)` |
| CoreChain.MakeBlock | quantumfuse_core.py:21-31 | the block holds the given fields and its hash is the hash of those fields |
| CoreChain.NewShard | quantumfuse_core.py:41-47 | the given id, an empty pool and a one-block chain whose genesis has no transactions, predecessor "0", nonce 0, the creation time, the shard's id and its own hash |
| CoreChain.PyIndex | quantumfuse_core.py:354-355 | `shards[i]` succeeds iff -n <= i < n, negative indices counting from the end |
| CoreChain.TxBalance | quantumfuse_core.py:372-375 | reference definition of one transaction's effect in a token: − (amount + fee) when the address sends, None (KeyError) when that debit has no fee, + amount when it receives |
| CoreChain.ShardsBalance | quantumfuse_core.py:367-376 | reference definition of the balance over every block of every shard's chain, in loop order, None when a step raises; pending pools are not read |
| CoreChain.QfcBalance | quantumfuse_core.py:367-376 | `get_qfc_balance` is the `ShardsBalance` of the token "QFC" |
| CoreChain.TxsBalanceRaisesIff | quantumfuse_core.py:367-376 | the balance loop raises KeyError exactly when one of the address's debits in that token has no fee |
| CoreChain.OtherTokenIgnored | quantumfuse_core.py:372-375 | a transaction in another token adds nothing to the balance |
| CoreChain.TxsBalanceAppend | quantumfuse_core.py:367-376 | the balance over concatenated transaction lists is the sum of the parts (or raises) |
| CoreChain.BlocksBalanceAppend | quantumfuse_core.py:367-376 | appending a block adds its transactions' balance |
| CoreChain.ShardsBalanceExtend | quantumfuse_core.py:367-376 | a block appended to any one shard adds its transactions' balance to the total |
| CoreChain.ShardsBalancePendingIrrelevant | quantumfuse_core.py:367-376 | changing a pending pool changes no balance: only chains are summed |
| CoreChain.EmptyBlocksBalance | quantumfuse_core.py:367-376 | blocks without transactions add nothing |
| CoreChain.FreshShardsBalance | quantumfuse_core.py:336 | every balance over freshly created shards is 0 |
| CoreChain.ChainValid | quantumfuse_core.py:390-398 | reference definition of one shard's check: every block after the first carries its own hash and names its predecessor's hash |
| CoreChain.AllChainsValid | quantumfuse_core.py:388-399 | reference definition of `is_chain_valid`: `ChainValid` holds of every shard's chain |
| CoreChain.ChainValidExtend | quantumfuse_core.py:388-399 | a block carrying its own hash and naming the last block's hash keeps a valid chain valid |
| CoreChain.NewShardValid | quantumfuse_core.py:43-47 | a fresh shard's chain passes `is_chain_valid` |
| CoreChain.Adjusted | quantumfuse_core.py:99-108 | reference definition of `adjust_shards`: shard n appended when pending > threshold·n, the last shard dropped when pending < threshold·(n−1) and n > 1, otherwise unchanged (properties in `AdjustedShape`) |
| CoreChain.AdjustedShape | quantumfuse_core.py:99-108 | adds shard n iff pending > 100·n; drops the last iff pending < 100·(n−1), pending <= 100·n and n > 1; keeps the other shards, never leaves zero shards, and keeps ids at positions and chains valid |
| CoreChain.WithPending | quantumfuse_core.py:365 | exactly the one pool gains the transaction at its end; all chains and other pools unchanged |
| CoreChain.WithPendingKeeps | quantumfuse_core.py:365 | appending to a pool keeps the shards well formed, chains valid and every balance unchanged |
| CoreChain.Transferred | quantumfuse_core.py:83-88 | each pool gains exactly the legs addressed to it (the debit to the source, the credit to the target, in that order) and nothing else changes |
| CoreChain.TransferredKeeps | quantumfuse_core.py:83-88 | a transfer keeps the shards well formed, chains valid and every balance unchanged |
| CoreChain.RewardTxs | quantumfuse_core.py:383-386 | exactly two rewards from "SYSTEM" to the miner, one QFC and one QET, neither with a fee |
| CoreChain.Mine | quantumfuse_core.py:378-386 | only the mined shard changes: one block appended holding the whole old pool, naming the old last hash and carrying its own hash; the pool becomes the two rewards |
| CoreChain.MineKeeps | quantumfuse_core.py:378-386 | mining keeps ids at positions and chains valid, and every balance gains exactly the mined pool's transactions |
| CoreChain.Staked | quantumfuse_core.py:145-149 | the address's stake rises by the amount (from 0 when absent); no other entry changes |
| CoreChain.Withdrawn | quantumfuse_core.py:152-157 | succeeds iff the address has an entry covering the amount, and then decreases it by the amount; ValueError when the stake (0 when absent) is short; KeyError for an absent address and an amount <= 0 |
| CoreChain.StakeThenWithdraw | quantumfuse_core.py:145-157 | withdrawing what was just staked restores the earlier (non-negative) stake |
| CoreChain.StakesStayNonNegative | quantumfuse_core.py:145-157 | non-negative stakes stay so under a non-negative stake and under every successful withdrawal |
| CoreChain.TreasuryWithdrawn | quantumfuse_core.py:167-172 | succeeds iff the funds cover the amount and subtracts it (never negative from a non-negative start); ValueError otherwise |
| CoreChain.DepositThenWithdraw | quantumfuse_core.py:163-172 | withdrawing a deposit just made gives back the earlier funds exactly when those were non-negative |
| CoreLedger.StakingPool.constructor | quantumfuse_core.py:142-143 | no stakers |
| CoreLedger.StakingPool.Stake | quantumfuse_core.py:145-149 | the stakers become `Staked(old stakers, address, amount)` and stay non-negative for a non-negative amount |
| CoreLedger.StakingPool.WithdrawStake | quantumfuse_core.py:152-157 | succeeds iff the stake covers the amount, decreasing it; on a raise the stakers are unchanged |
| CoreLedger.Treasury.constructor | quantumfuse_core.py:160-161 | funds 0 |
| CoreLedger.Treasury.Deposit | quantumfuse_core.py:163-165 | funds rise by the amount |
| CoreLedger.Treasury.Withdraw | quantumfuse_core.py:167-172 | ValueError and unchanged funds when funds < amount; otherwise funds drop by the amount, never below 0 from a non-negative start |
| CoreLedger.ShardedBlockchain.constructor | quantumfuse_core.py:335-347 | max(n, 0) fresh shards with shard i = `Shard(i)`, valid chains, the configured rewards, fees and difficulty, empty staking pool and treasury |
| CoreLedger.ShardedBlockchain.AddQfcTransaction | quantumfuse_core.py:357-365 | in order: IndexError, ValueError for another token, KeyError from the balance, ValueError when balance < amount + fee; otherwise the transaction with the fee set joins the shard's pool; no balance changes |
| CoreLedger.ShardedBlockchain.GetQfcBalance | quantumfuse_core.py:367-376 | the loop's result is the QFC balance: + amount where `to` matches, − (amount + fee) where `from` matches, other tokens ignored, KeyError for a fee-less debit |
| CoreLedger.ShardedBlockchain.GetBalance | quantumfuse_core.py:367-376 | the three nested loops compute the balance of any token over every chain |
| CoreLedger.ShardedBlockchain.ChainBalance | quantumfuse_core.py:370-375 | the block loop continues the running balance over one chain |
| CoreLedger.ShardedBlockchain.TransactionsBalance | quantumfuse_core.py:371-375 | the transaction loop continues the running balance over one block |
| CoreLedger.ShardedBlockchain.MinePendingTransactions | quantumfuse_core.py:378-386 | IndexError for a bad shard id; otherwise the shards become `Mine(...)`: one linked block of the whole pool, then the two rewards as the pool |
| CoreLedger.ShardedBlockchain.IsChainValid | quantumfuse_core.py:388-399 | true iff every block after the first of every shard carries its own hash and names its predecessor's hash |
| CoreLedger.ShardManager.constructor | quantumfuse_core.py:95-97 | threshold 100 |
| CoreLedger.ShardManager.AdjustShards | quantumfuse_core.py:99-108 | the shards become `Adjusted(old shards, 100)`; ids stay at positions and valid chains stay valid |
| CoreLedger.Cast | quantumfuse_core.py:303-307 | a vote raises exactly one side of the tally by the voter's stake |
| CoreLedger.Passes | quantumfuse_core.py:315 | a proposal passes iff "for" strictly exceeds "against"; a tie fails |
| CoreLedger.Governance.constructor | quantumfuse_core.py:283-286 | no proposals and no tallies |
| CoreLedger.Governance.Propose | quantumfuse_core.py:288-297 | stores the data and sets both tallies to 0, replacing any earlier proposal with that id |
| CoreLedger.Governance.Vote | quantumfuse_core.py:299-308 | KeyError and no change for an unknown id; otherwise adds the voter's stake (0 if not staking) to exactly one side |
| CoreLedger.Governance.TallyVotes | quantumfuse_core.py:310-319 | KeyError for an unknown id; Ok(false) and no change unless for > against strictly (so a tie fails); Ok(true) exactly when it passes and the execution does not raise, and then a "shard_creation" proposal has appended shard n to n shards while any other type leaves the shards unchanged; valid chains stay valid |
| CoreLedger.Governance.ExecuteProposal | quantumfuse_core.py:321-331 | KeyError without a proposal or a "type"; "shard_creation" appends shard n to n shards; other types change no modelled state |
| CoreLedger.CheckAsWritten | quantumfuse_core.py:72-81 | as written a QFC transfer proceeds iff the sender's QFC balance exists and covers the amount; QET always raises AttributeError; other tokens are not checked |
| CoreLedger.CheckIntended | quantumfuse_core.py:72-81 | corrected, QFC and QET transfers proceed iff that token's balance exists and covers the amount |
| CoreLedger.CrossShardTransaction.constructor | quantumfuse_core.py:59-66 | stores the fields with status "pending" |
| CoreLedger.CrossShardTransaction.Debit | quantumfuse_core.py:83-85 | the fee-less leg from the sender to "SYSTEM" for the amount and token |
| CoreLedger.CrossShardTransaction.Credit | quantumfuse_core.py:86-88 | the fee-less leg from "SYSTEM" to the receiver for the amount and token |
| CoreLedger.CrossShardTransaction.Execute | quantumfuse_core.py:68-91 | IndexError for either shard; a refused check raises, appends nothing and sets "failed" only for an insufficient balance; otherwise exactly one debit joins the source pool and one credit the target pool, and the status is "completed" |
| CoreLedger.CrossShardTransaction.ExecuteIntended | quantumfuse_core.py:68-91 | the same with the QET balance checked like the QFC one |
| CoreLedger.CrossShardTransaction.Append | quantumfuse_core.py:83-90 | both legs join their pools and the status is "completed"; no balance changes |
| CoreLedger.QetTransferAsWritten | quantumfuse_core.py:77-78 | as written, a QET transfer raises AttributeError and stays "pending" |
| CoreLedger.QetTransferIntended | quantumfuse_core.py:77-81 | corrected, the same transfer from an address without QET is refused with "failed" |

## Left out

- SHA-256 hashing and proof-of-work loops (`calculate_hash`, `mine_block`, `CalculateHash`, `MineBlock`): the hash is uninterpreted and the nonce a parameter.
  - Difficulty is therefore not enforced on mined hashes.
  - Go's `MineBlock` compares against a string of NUL bytes, which a hex digest never matches, so it does not terminate for difficulty > 0.
- Go `Shard.AddBlock`: it calls the non-terminating `MineBlock`.
- Randomness-driven selection: `ProofOfStake`, `ProofOfAuthority`, Python `CrossChainBridge`/`Oracle`, and Go `SelectValidator`/`SelectAuthority`/`Oracle.VerifyTransaction`. Oracle verdicts are an input sequence for `TransferAssets`.
- `AIAnalytics` (floating-point statistics), `RegulatoryModule`, `ProxyContract` and the Python `SmartContract`: not part of the named core.
- `MultiSignatureEnclave` (its base `SecureEnclave` is not defined in that file), `Consensus` (constructed but not defined) and `LoadBalancer` (used in `main` but not defined): that code cannot run as shown.
- `CoreLedger.Governance.ExecuteProposal`: the "consensus_change" branch calls `Consensus`, which is not defined, so the model returns `ConsensusChange` and changes nothing. Whether that branch raises is not modelled.
- Line 362 of `quantumfuse_core.py` reads `self.q fc_transaction_fee`, which is a syntax error. The model takes the evident `qfc_transaction_fee`.
- The caller's transaction dict gains a "fee" key in place: the model appends the transaction with the fee set but does not model that aliasing.
- `add_qfc_transaction` checks the balance over mined blocks only. That is what the source does; pending debits are not counted.
- Cross-shard `ValueError` messages carry the shard id and address; the model keeps only their fixed text.
- Logging, `print`, WebSocket construction/open/close, `JSON.parse` (a decode is an `Option` input), IPFS storage, dotenv configuration (constructor parameters) and the clock (`now` parameter).
- `new Date(timestamp)`: chart labels keep the feed's timestamp text.
- Initial `chartData`/`transactionData` of `{}`: modelled as empty series.
- `Explorer.ExplorerView.RecomputeViews` models the effect body that React runs after `blocks` or `searchTerm` changes. The scheduling of effects is not modelled.
- Go `NewBlockchain`: one `now` is used for every genesis block. The zero-valued `ShardManager` it leaves in the struct and the Go `StakingPool` are not modelled.
- `ipsf.py` keeps option counts and voter keys in one dict, so a voter named like an option collides with it. The model keeps that single map exactly as the source does.
- `ipsf.py` `store_data_on_ipfs`: network I/O.
- The pytest file `core/src/test_quantumfuse_core_main.py`: it imports a module that is not shown, and its shard-creation test contradicts `adjust_shards`.
- Presentational components (App, Header, Hero, Footer, NavBar, Features, Technology, Tokenomics, UseCases, FusionReactor, AdvancedFeatures, ARVRXRSection, CommunityWallet, FounderWallet, LiveData, Sustainability) and the wallet, reactor and grid-event Python files.
- `Explorer.ExplorerView.OnMessage`: React batches state updates. The model applies each message immediately.
- `Explorer.ExplorerView.OnMessage`, `Explorer.ReceiveAll`, `Explorer.ReceiveAllNewestFirst`, `Explorer.ReceiveAllValid`: the socket `client` is one module-level object (js:5). The effect's cleanup `client.close()` (js:62-64) runs whenever `blocks` or `searchTerm` changes, and nothing reopens the socket. As written, the feed therefore stops after the first block or the first keystroke in the search box. The stream lemmas describe a feed that keeps delivering, which the program as written does only until its first re-render. The model has no connection state.
- Go `NewBlockchain` takes `numShards int`, and `make([]Shard, numShards)` panics for a negative count. The model's count is a `nat`, which the only call site, `NewBlockchain(2)`, meets.
- Python `ShardedBlockchain.__init__` reads `time.time()` once per shard. The model gives every genesis block the same `now`.

## Findings

| source | as written | input that shows it | evidently intended | confidence | as-written member | corrected member |
|---|---|---|---|---|---|---|
| node/src/main.go:268-274 | `proposal` is a copy of the map entry, so `proposal.Executed = true` is lost and the stored proposal stays unexecuted | propose "p", then call `ExecuteProposal("p")` twice: the body runs both times | mark the stored proposal executed so that it runs at most once | high, not executed | NodeChain.ExecuteProposalRunsTwice | NodeChain.ExecuteProposalIntendedRunsOnce |
| quantumfuse_core.py:77-78 | the QET branch calls `blockchain.get_qet_balance`, which `ShardedBlockchain` does not define, so every QET transfer raises `AttributeError` and stays "pending" | `CrossShardTransaction(0, 1, "Alice", "Bob", 5, "QET").execute(ShardedBlockchain(2))` | check the sender's QET balance like the QFC one: fail with "failed" when short, transfer otherwise | high, not executed; the module as shown does not load: line 362 is a syntax error, line 222 subclasses the undefined `SecureEnclave`, and line 352 constructs the undefined `Consensus`. The input assumes those three are repaired | CoreLedger.QetTransferAsWritten | CoreLedger.QetTransferIntended |
