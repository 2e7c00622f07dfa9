# The Sovrin token and fees plugins: batch protocol, UTXO index and value accounting

A Dafny model of the two plugins' ledger logic on one node, and proofs about all of its runs.

**What is modelled.** A node keeps a token state (`address:seqNo -> amount`), a token ledger with an
uncommitted tail, a tracker of uncommitted roots, a UTXO cache (for each address one colon-joined
string of unspent seqNos and amounts, layered by uncommitted batch), and a fees tracker with a
never-erased table of charged slots. Domain transactions may pay fees, which become transactions of
the token ledger. Batches of either ledger are applied optimistically, committed first-in-first-out
and rejected last-in-first-out; a node may also catch up.

**How it is laid out.**

- `Text`, `Entries`: decimal printing, joining and splitting; lists of unspent entries, their text,
  searching and summing them.
- `Stores`, `UtxoCache`: the layered store; the classes `UTXOAmounts` and `UTXOCache` over real strings.
- `TokenLedger`, `Handlers`: what a mint, transfer or fee transaction does to state and cache; the
  update loops of the write handlers.
- `Replay`, `Accounting`: the books a whole ledger amounts to, and the laws of every valid ledger.
- `Requests`, `Authorizer`: field validators and the acceptance rule.
- `Protocol`, `BatchHandlers`: the batch protocol as functions on values, and the handler classes
  proved to compute them.
- `Served`: what a batch does with each of its requests.
- `Invariant`, `Alignment`, `Runs`, `Rejects`, `Commits`, `RunTheorems`, `StaleSlots`, `StaleExample`,
  `TombstoneRuns`: what every event keeps and what holds over whole runs.
- `GetUtxo`, `FeeConfig`: paged reads; the fee table and the rules that refer to it.

**The central idea.** `Replay.Replayed(l)` is the state and index obtained by applying the token
ledger `l` in order. `Runs.NodeOk` says that head state, uncommitted index, committed state, committed
index, every tracker entry and every cache layer are what `Replayed` gives for the corresponding
prefix of the ledger. Every event keeps it (`Runs`, `Rejects`, `Commits`, `RunTheorems`), and the run
theorems are read off from it.

**Assumptions about plenum**, which is not part of the repository: a root hash is the contents it
names; the optimistic store is a base map, a queue of (root, changes) batches and the current
changes; the tracker's `reject_batch` answers with the entry below the newest and the size
difference; `_commit` moves the given number of transactions, compares the ledger root and commits
the state root; plenum itself takes back state and ledger tail of a rejected token batch; a batch is
applied as a whole; `heapq` pops a least item; the integers of a request are true ints (a Python
bool is an int to `isinstance`, and would be found by comparing integers but not by its printed
text); each request is validated on the uncommitted view just before it is applied, and dropped if
refused. An exception leaving a handler ends the run.

**Where the code does less than one would expect.** Each is kept as the code has it, with an input
that shows it and the exact condition:

- A slot charged in a rejected batch stays in the table. If an unpaid transaction of the same type
  takes the same seqNo, committing its batch raises (`StaleSlots.StaleSlotRaises`,
  `StaleExample.CommitCanRaise`). `Commits.CommitDomainExactly`: committing succeeds if and only if no
  unpaid transaction of the batch has its slot in the table.
- GET_UTXO with a `from` at or below the address's first output answers with nothing, because
  position 0 reads as "not found" (`GetUtxo.FromMissesTheFirst`; `GetUtxo.FromRule` gives the exact
  condition). Following `next` from a first question without `from` never meets that case
  (`GetUtxo.ConversationComplete`).
- An alias called "fees" shares its key with the whole fee table, so its own fee cannot be read
  (`FeeConfig.FeesAliasCollides`; `FeeConfig.AliasKeysAgree` gives the exact condition).

## Model

| member | source | states |
|---|---|---|
| Text.StateKeyRoundTrip | sovtoken/sovtoken/request_handlers/token_utils.py:35-41 | parsing a created state key gives back address and seqNo |
| Text.PrefixFindsAddress | sovtoken/sovtoken/request_handlers/read_req_handler/get_utxo_handler.py:46-48 | scanning keys by an address as prefix finds that address's keys and no others |
| Text.SlotKeyInjective | sovtokenfees/sovtokenfees/req_handlers/fees_utils.py:13-18 | the text key of a charged slot determines type and seqNo |
| Entries.EncodingRoundTrip | sovtoken/sovtoken/utxo_cache.py:114-139 | for every list, the empty one included, reading back what is stored gives the list |
| Entries.EncodeInjective | sovtoken/sovtoken/utxo_cache.py:200-204 | two lists have the same string exactly when they are equal |
| Entries.TextSearchAgrees | sovtoken/sovtoken/utxo_cache.py:146-149 | the even position holding the printed seqNo is the position of the entry found by comparing integers |
| Entries.TextSearchMissAgrees | sovtoken/sovtoken/utxo_cache.py:151-155 | no match in the text means no entry with that seqNo, so amounts are never taken for seqNos |
| Entries.TextRemovalAgrees | sovtoken/sovtoken/utxo_cache.py:157-160 | cutting the two pieces out of the text is removing the entry from the list |
| Entries.RemoveKeepsOrder | sovtoken/sovtoken/utxo_cache.py:141-162 | removal keeps the rest in increasing order |
| Entries.RemovalLowersTotal | sovtoken/sovtoken/utxo_cache.py:141-180 | removal lowers the total of any naming of the entry by exactly its amount, for any list without a second entry of that seqNo; with one, that entry counts in its place |
| Entries.SumAmountsMeaning | sovtoken/sovtoken/utxo_cache.py:164-180 | on any list, despite consuming the set and stopping early, the loop answers the total of the named seqNos (the first entry of each) if all are there, an error otherwise |
| UtxoCache.UTXOAmounts.AddAmount | sovtoken/sovtoken/utxo_cache.py:132-139 | appends seqNo and amount at the end, in that order |
| UtxoCache.UTXOAmounts.RemoveSeqNo | sovtoken/sovtoken/utxo_cache.py:141-162 | cuts out the first match at an even position and the piece after it; which error otherwise, list unchanged |
| UtxoCache.UTXOAmounts.SumAmounts | sovtoken/sovtoken/utxo_cache.py:164-180 | answers what the summing specification gives for any pieces, malformed ones included |
| UtxoCache.UTXOAmounts.AsOutputList | sovtoken/sovtoken/utxo_cache.py:182-198 | gives the entries the pieces encode, in order, or an error exactly when they encode none |
| UtxoCache.UTXOCache.Get | sovtoken/sovtoken/utxo_cache.py:101-112 | a read sees the newest layer holding the address, or the committed value alone |
| UtxoCache.UTXOCache.AddOutput | sovtoken/sovtoken/utxo_cache.py:41-50 | appends the entry to the address's list in the chosen view and changes nothing else |
| UtxoCache.UTXOCache.SpendOutput | sovtoken/sovtoken/utxo_cache.py:52-63 | removes exactly the named entry, or raises the right error and changes nothing |
| UtxoCache.UTXOCache.GetUnspentOutputs | sovtoken/sovtoken/utxo_cache.py:65-70 | lists the address's entries, none for an unknown address |
| UtxoCache.UTXOCache.SumInputs | sovtoken/sovtoken/utxo_cache.py:72-87 | for any index, the value of the set of named outputs if and only if all are listed, however inputs are ordered, repeated or grouped |
| UtxoCache.UTXOCache.CommitRoot | sovtoken/sovtoken/request_handlers/token_utils.py:96-106 | commits the oldest cache batch exactly when it carries the given root |
| Stores.OverlayCommit | sovtoken/sovtoken/utxo_cache.py:13-34 | committing the oldest layer does not change what readers of the uncommitted view see |
| Handlers.SpendInput | sovtoken/sovtoken/request_handlers/token_utils.py:16-24 | removes or tombstones the state key, then spends in the cache; the whole new state, also when the cache raises |
| Handlers.AddNewOutput | sovtoken/sovtoken/request_handlers/token_utils.py:26-33 | writes state key and cache entry for the output |
| Handlers.XferHandler.UpdateState | sovtoken/sovtoken/request_handlers/write_request_handler/xfer_handler.py:50-71 | the loops compute the transaction's effect on state and cache in either view, half-done effects on an exception included |
| Handlers.XferHandler100.UpdateState | sovtoken/sovtoken/request_handlers/write_request_handler/xfer_handler_1_0_0.py:14-36 | the same with tombstones for spent keys |
| Handlers.MintHandler.UpdateState | sovtoken/sovtoken/request_handlers/write_request_handler/mint_handler.py:46-58 | adds every output under the transaction's seqNo |
| Handlers.UpdateState | sovtokenfees/sovtokenfees/req_handlers/write_handlers/fee_txn_handler.py:12-18 | a replayed fee transaction goes through the transfer update, others through their own handler |
| Replay.SpendableIsLive | sovtoken/sovtoken/utxo_cache.py:15-18 | in agreeing books an input is listed exactly when the state holds it live, with the same amount |
| Replay.SpendAllWorks | sovtoken/sovtoken/request_handlers/write_request_handler/xfer_handler.py:53-59 | distinct live inputs are all spent, the loop raises nothing, index and state stay in agreement |
| Replay.AddAllWorks | sovtoken/sovtoken/request_handlers/write_request_handler/xfer_handler.py:60-68 | outputs at distinct addresses under a new seqNo keep the lists strictly increasing and in agreement with the state |
| Replay.ApplyWorks | sovtoken/sovtoken/request_handlers/write_request_handler/xfer_handler.py:50-71 | an accepted transaction is applied entirely and moves exactly its inputs and outputs |
| Replay.LedgerCoherent | sovtoken/sovtoken/request_handlers/token_utils.py:16-33 | along every valid ledger each address's list is exactly the live entries of the state in strictly increasing seqNo |
| Accounting.Conservation | sovtoken/sovtoken/request_handlers/write_request_handler/mint_handler.py:46-55 | live outputs, recorded FEES and transfer differences add up to what was minted |
| Accounting.LiveIsCreatedNotSpent | sovtoken/sovtoken/request_handlers/token_utils.py:16-33 | the live outputs are exactly those created and not spent; nothing is spent that was not created |
| Accounting.SingleSpend | sovtoken/sovtoken/utxo_cache.py:52-63 | a spent output is spent by that transaction only, and was created by exactly one, an earlier one |
| Accounting.CreatedOnce | sovtoken/sovtoken/request_handlers/write_request_handler/xfer_handler.py:60-68 | no output is created twice |
| Accounting.ChargeChangesRoot | sovtokenfees/sovtokenfees/req_handlers/batch_handlers/fee_batch_handler.py:47-51 | a batch that charged a fee always changes the state root |
| Accounting.TombstoneStep | sovtoken/sovtoken/request_handlers/token_utils.py:16-24 | tombstoning or removing: same exceptions, same cache, same live outputs, for any transaction |
| Accounting.TombstonesInvisible | sovtoken/sovtoken/request_handlers/write_request_handler/xfer_handler_1_0_0.py:14-33 | any ledger gives the same cache and live outputs with the current handler throughout |
| Accounting.TombstoneStaysInState | sovtoken/sovtoken/request_handlers/token_utils.py:19-22 | the raw states do differ after a valid legacy transfer |
| Accounting.TombstonesExactly | sovtoken/sovtoken/request_handlers/token_utils.py:16-24 | along a valid ledger the tombstones of the state are exactly the outputs that legacy transfers spent; fee payments and current transfers remove their keys |
| Accounting.NoLegacyNoTombstones | sovtokenfees/sovtokenfees/req_handlers/write_handlers/domain_fee_handler.py:66-75 | without legacy transfers the raw state holds the live outputs and nothing else |
| Requests.OutputsAccepted | sovtoken/sovtoken/messages/fields.py:51-63 | the validator accepts exactly positive amounts at pairwise distinct addresses that decode, and refuses as a repeat exactly what is otherwise good |
| Requests.InputsAccepted | sovtoken/sovtoken/messages/fields.py:83-95 | the validator accepts exactly positive seqNos at addresses that decode, without a repeated input, and refuses as a repeat exactly what is otherwise good |
| Requests.RequestAccepted | sovtoken/sovtoken/messages/txn_validator.py:65-84 | validation lets through exactly: mints with at least one good output, transfers with good outputs and inputs however many, and payments of fees with a good input and at most one good change output |
| Authorizer.AuthorizeRule | sovtokenfees/sovtokenfees/fees_authorizer.py:123-141 | acceptance: a transfer pays outputs plus fee exactly; another request owes nothing and attaches nothing, or attaches exactly the fee |
| Authorizer.RefusalRule | sovtoken/sovtoken/request_handlers/token_utils.py:53-93 | which error a refusal carries, if and only if, by comparing what the inputs hold with outputs plus fee |
| Authorizer.AcceptedFee | sovtokenfees/sovtokenfees/req_handlers/write_handlers/domain_fee_handler.py:37-49 | an accepted payment becomes a valid fee transaction whose FEES is the fee in force |
| Authorizer.AcceptedXfer | sovtokenfees/sovtokenfees/fees_authorizer.py:69-108 | an accepted transfer is valid and its inputs exceed its outputs by exactly the fee in force |
| Authorizer.AcceptedMint | sovtoken/sovtoken/messages/txn_validator.py:65-73 | an accepted mint is valid |
| Authorizer.FeesAuthorizer.CalculateFeesFromReq | sovtokenfees/sovtokenfees/fees_authorizer.py:43-58 | over the stored strings: inputs minus outputs, 0 when an input cannot be spent |
| Authorizer.FeesAuthorizer.CanPayFees | sovtokenfees/sovtokenfees/fees_authorizer.py:60-108 | over the stored strings: which error, or acceptance, for the request's inputs and outputs |
| Authorizer.FeesAuthorizer.AuthorizeRequest | sovtokenfees/sovtokenfees/fees_authorizer.py:123-141 | the decision over the stored strings is the decision over the index they encode |
| BatchHandlers.DomainFeeHandler.UpdateTokenState | sovtokenfees/sovtokenfees/req_handlers/write_handlers/domain_fee_handler.py:66-84 | spends the fee transaction's inputs and adds its change, leaving everything else |
| BatchHandlers.DomainFeeHandler.ApplyRequest | sovtokenfees/sovtokenfees/req_handlers/write_handlers/domain_fee_handler.py:33-61 | appends the fee transaction, applies it, counts it and records its slot; nothing for a request without fees |
| BatchHandlers.TrackerBatchHandler.PostBatchApplied | sovtokenfees/sovtokenfees/req_handlers/batch_handlers/tracker_batch_handler.py:22-25 | one tracker entry naming the current roots and size |
| BatchHandlers.UTXOBatchHandler.CommitBatch | sovtoken/sovtoken/request_handlers/batch_req_handler/utxo_batch_handler.py:25-26 | commits the oldest cache batch or raises on another root |
| BatchHandlers.TokenBatchApplied | sovtoken/sovtoken/request_handlers/batch_req_handler/utxo_batch_handler.py:22-23 | a token batch closes one cache batch and one tracker entry with the same root |
| BatchHandlers.TokenBatchRejected | sovtokenfees/sovtokenfees/req_handlers/batch_handlers/tracker_batch_handler.py:27-28 | the newest cache batch and tracker entry go together |
| BatchHandlers.TokenBatchCommitted | sovtokenfees/sovtokenfees/req_handlers/batch_handlers/tracker_batch_handler.py:30-31 | ledger, state, cache and tracker advance by the oldest batch, or which check raises |
| BatchHandlers.DomainFeeBatchHandler.PostBatchApplied | sovtokenfees/sovtokenfees/req_handlers/batch_handlers/fee_batch_handler.py:38-45 | a tracker entry always, a cache batch only if fees were charged |
| BatchHandlers.DomainFeeBatchHandler.PostBatchRejected | sovtokenfees/sovtokenfees/req_handlers/batch_handlers/fee_batch_handler.py:47-55 | early return or full revert, by the three comparisons |
| BatchHandlers.DomainFeeBatchHandler.SeqNosWithFees | sovtokenfees/sovtokenfees/req_handlers/batch_handlers/fee_batch_handler.py:60-61 | the seqNos, in order, whose slot is in the table |
| BatchHandlers.DomainFeeBatchHandler.AttachFees | sovtokenfees/sovtokenfees/req_handlers/batch_handlers/fee_batch_handler.py:76-81 | the loop with its running index pairs replies as specified, or runs out of fee transactions |
| BatchHandlers.DomainFeeBatchHandler.CommitBatch | sovtokenfees/sovtokenfees/req_handlers/batch_handlers/fee_batch_handler.py:57-83 | computes the commit of the protocol, the partial state left by each exception included |
| BatchHandlers.CatchUpTxns | sovtokenfees/sovtokenfees/req_handlers/write_handlers/fee_txn_handler.py:12-18 | replays a ledger in the committed view, transaction by transaction |
| BatchHandlers.PostCatchupComplete | sovtokenfees/sovtokenfees/main.py:93-110 | the tracker restarts from the committed roots |
| Invariant.ChargeKeeps | sovtokenfees/sovtokenfees/req_handlers/write_handlers/domain_fee_handler.py:33-61 | charging an accepted request raises nothing and records the fee in force |
| Invariant.DomainAllKeeps | sovtokenfees/sovtokenfees/req_handlers/write_handlers/domain_fee_handler.py:33-61 | a domain batch of any requests raises nothing; its fee transactions name, in order, exactly the transactions that paid |
| Invariant.TokenAllKeeps | sovtoken/sovtoken/request_handlers/write_request_handler/xfer_handler.py:50-71 | a token batch of any requests raises nothing and extends the books by its transactions |
| Runs.ApplyDomainKeeps | sovtokenfees/sovtokenfees/req_handlers/batch_handlers/fee_batch_handler.py:38-45 | applying a domain batch keeps the four structures aligned |
| Runs.ApplyTokenKeeps | sovtoken/sovtoken/request_handlers/batch_req_handler/utxo_batch_handler.py:22-23 | applying a token batch keeps the four structures aligned |
| Served.ChargeMoves | sovtokenfees/sovtokenfees/req_handlers/write_handlers/domain_fee_handler.py:33-84 | charging an accepted request appends the fee transaction with the request's own inputs and change and the fee in force; the live outputs lose just those inputs and gain just that change under the next seqNo |
| Served.DomainOneTakes | sovtokenfees/sovtokenfees/req_handlers/write_handlers/domain_fee_handler.py:33-61 | a domain request leaves no trace unless its fields are good and it pays the fee or owes none; then it gets the next seqNo and, if it pays, one fee transaction, one count and one slot |
| Served.TokenOneTakes | sovtoken/sovtoken/request_handlers/write_request_handler/mint_handler.py:46-58 | a mint or transfer leaves no trace unless its fields are good and it pays exactly; then it is appended with its own inputs and outputs, and moves just these |
| Served.ApplyDomainServes | sovtokenfees/sovtokenfees/req_handlers/batch_handlers/fee_batch_handler.py:38-45 | a domain batch serves its requests one after another in order, each on what the ones before left, and the pending batch holds just what came of them |
| Served.ApplyTokenServes | sovtoken/sovtoken/request_handlers/batch_req_handler/utxo_batch_handler.py:22-23 | the same of a token batch |
| Alignment.AlignedView | sovtoken/sovtoken/utxo_cache.py:13-34 | the pending cache batches over the committed index give the index of the whole ledger |
| Alignment.AlignedOldest | sovtoken/sovtoken/request_handlers/token_utils.py:96-106 | the oldest pending batch heads the tracker and, if it made one, the cache batches, with the same root |
| Rejects.EarlyReturnIsUncharged | sovtokenfees/sovtokenfees/req_handlers/batch_handlers/fee_batch_handler.py:47-51 | the early return is taken exactly by batches that charged nothing |
| Rejects.RejectKeeps | sovtokenfees/sovtokenfees/req_handlers/batch_handlers/fee_batch_handler.py:47-55 | rejecting raises nothing and restores the books without the newest batch |
| Rejects.RejectUndoesApply | sovtokenfees/sovtokenfees/req_handlers/batch_handlers/fee_batch_handler.py:38-55 | applying any batch and rejecting it gives back the whole node, but for charged slots |
| Rejects.RejectUndoesBatches | sovtokenfees/sovtokenfees/req_handlers/batch_handlers/fee_batch_handler.py:38-55 | applying any number of batches and rejecting as many gives back the whole node, but for charged slots |
| Commits.PairingIsRight | sovtokenfees/sovtokenfees/req_handlers/batch_handlers/fee_batch_handler.py:76-81 | each reply carries a fee transaction exactly when its transaction paid, the one whose REF names it; those carried are, in order and unaltered, the given ones |
| Commits.OvercountRaises | sovtokenfees/sovtokenfees/req_handlers/batch_handlers/fee_batch_handler.py:60-81 | counting more charged transactions than the batch appended always raises, and which exception it is |
| Commits.CommitDomainExactly | sovtokenfees/sovtokenfees/req_handlers/batch_handlers/fee_batch_handler.py:57-83 | commit succeeds if and only if no unpaid transaction has its slot in the table; then the committed ledger grows by exactly the batch's transactions, and the replies carry just these, unaltered and in order, each in the reply to the transaction its REF names |
| Commits.CommitKeeps | sovtoken/sovtoken/request_handlers/token_utils.py:96-106 | a commit that succeeds keeps the alignment; token batches always commit, domain batches exactly without stale slots |
| RunTheorems.Reachable | sovtokenfees/sovtokenfees/req_handlers/batch_handlers/fee_batch_handler.py:38-83 | the alignment holds after every run from an empty node that raised nothing |
| RunTheorems.RejectRestores | sovtokenfees/sovtokenfees/req_handlers/batch_handlers/fee_batch_handler.py:47-55 | over runs mixing applies, commits and rejects: once all newer batches are rejected, uncommitted state, index, ledger and newest roots are what they were |
| RunTheorems.IndexAgreesWithState | sovtoken/sovtoken/request_handlers/token_utils.py:16-33 | in every such node the index agrees with the state in both views |
| RunTheorems.ValueConserved | sovtokenfees/sovtokenfees/fees_authorizer.py:81-108 | live value plus every fee in force when a payment was authorized is what was minted, pending batches included |
| RunTheorems.SingleSpendInRuns | sovtoken/sovtoken/utxo_cache.py:52-63 | across committed and pending batches an output is spent by one transaction only and created by one only, an earlier one |
| RunTheorems.CatchUpEqualsLive | sovtokenfees/sovtokenfees/req_handlers/write_handlers/fee_txn_handler.py:12-18 | replaying a live node's committed ledger gives its committed state and the same string for every address |
| RunTheorems.CatchUpKeeps | sovtokenfees/sovtokenfees/main.py:93-110 | catching up and resetting the tracker keeps the alignment |
| StaleSlots.CleanRunsNeverRaise | sovtokenfees/sovtokenfees/req_handlers/fees_utils.py:13-18 | when charged slots are reused only by paying transactions, no event of any run raises |
| StaleSlots.StaleSlotRaises | sovtokenfees/sovtokenfees/req_handlers/fees_utils.py:13-18 | any accepted payment, rejected and then replaced in its slot by an unpaid transaction, makes the commit raise |
| StaleExample.CommitCanRaise | sovtokenfees/sovtokenfees/req_handlers/batch_handlers/fee_batch_handler.py:60-81 | a concrete legal run from an empty node that raises |
| TombstoneRuns.VersionIgnored | sovtokenfees/sovtokenfees/fees_authorizer.py:123-141 | no validator and no decision reads the transfer version |
| TombstoneRuns.RunsAlike | sovtoken/sovtoken/request_handlers/write_request_handler/xfer_handler_1_0_0.py:14-33 | runs with any mix of the two transfer handlers accept, raise and charge exactly as with the current one throughout |
| TombstoneRuns.AlikeBooks | sovtoken/sovtoken/request_handlers/read_req_handler/get_utxo_handler.py:64-69 | nodes that such runs leave hold the same index and live outputs in both views |
| TombstoneRuns.AlikeAnswers | sovtoken/sovtoken/request_handlers/read_req_handler/get_utxo_handler.py:60-88 | such nodes accept the same requests and give the same answers to every GET_UTXO |
| TombstoneRuns.MixedRuns | sovtoken/sovtoken/request_handlers/token_utils.py:16-24 | any legal run from an empty node, mixing both transfer handlers, raises exactly when the run with removals throughout does, and ends with the same cache, the same decisions and the same GET_UTXO answers |
| GetUtxo.SortedItems.SortedList | sovtoken/sovtoken/util.py:47-53 | drains the heap into all its items sorted by seqNo |
| GetUtxo.CacheIsListing | sovtoken/sovtoken/utxo_cache.py:65-70 | what the cache lists for an address is the listing GET_UTXO takes from the state |
| GetUtxo.ListingUnique | sovtoken/sovtoken/request_handlers/read_req_handler/get_utxo_handler.py:60-63 | states with the same live outputs have one and the same listing of an address, so all nodes holding them answer alike |
| GetUtxo.ListingIgnoresTombstones | sovtoken/sovtoken/request_handlers/read_req_handler/get_utxo_handler.py:64-69 | tombstones do not show in a listing |
| GetUtxo.GetResult | sovtoken/sovtoken/request_handlers/read_req_handler/get_utxo_handler.py:60-88 | the answer is the page of the address's sorted live outputs, whatever order the keys come in |
| GetUtxo.FromRule | sovtoken/sovtoken/request_handlers/read_req_handler/get_utxo_handler.py:73-78 | the selection of the handler starts at `from` exactly when it lies past the first output or there is none |
| GetUtxo.AnswerFromStart | sovtoken/sovtoken/request_handlers/read_req_handler/get_utxo_handler.py:79-88 | without `from`, or with 0, the one answer is the listing if it has at most 1000 outputs, otherwise the first 1000 and the seqNo after them |
| GetUtxo.AnswerFrom | sovtoken/sovtoken/request_handlers/read_req_handler/get_utxo_handler.py:73-88 | from any seqNo past the first output, listed or not, the one answer is all outputs from it on, none below, in order, up to 1000 and then `next`; from one at or below the first output it is empty |
| GetUtxo.FromMissesTheFirst | sovtoken/sovtoken/request_handlers/read_req_handler/get_utxo_handler.py:73-78 | a state and a `from` for which the only answer the handler can give is empty, although two outputs lie past `from` |
| GetUtxo.PagingComplete | sovtoken/sovtoken/request_handlers/read_req_handler/get_utxo_handler.py:71-88 | pages followed by `next` concatenate to all live outputs in order, each once, none too long, in a bounded number of questions |
| GetUtxo.ListingPositive | sovtoken/sovtoken/request_handlers/read_req_handler/get_utxo_handler.py:87-88 | every listed seqNo is positive, so a `next` is never dropped as zero |
| GetUtxo.ConversationComplete | sovtoken/sovtoken/request_handlers/read_req_handler/get_utxo_handler.py:60-88 | over any state: the handler's answers to a client following `next` from the start come to an end, within a bound, and whichever they are they concatenate to the whole listing |
| GetUtxo.PagesOfNode | sovtoken/sovtoken/request_handlers/read_req_handler/get_utxo_handler.py:60-88 | at every node the protocol allows, the same of its committed state, and what the pages give is exactly what the committed cache lists |
| FeeConfig.PathsDiffer | sovtokenfees/sovtokenfees/domain.py:4-7 | each alias's key; distinct aliases have distinct keys, and only "fees" and the empty alias have the whole table's |
| FeeConfig.SetFeesHandler.UpdateState | sovtokenfees/sovtokenfees/req_handlers/write_handlers/set_fees_handler.py:45-58 | for any update, in whatever order the aliases come, the new config state is the old one with each alias's key and then the whole table |
| FeeConfig.TableIsFold | sovtokenfees/sovtokenfees/req_handlers/write_handlers/set_fees_handler.py:45-53 | the table after any updates is their left fold |
| FeeConfig.AliasKeysAgree | sovtokenfees/sovtokenfees/req_handlers/write_handlers/set_fees_handler.py:45-58 | after any updates an alias's key holds the table's entry exactly when the alias is not "fees" (nor empty, which the message schema refuses) |
| FeeConfig.FeeInForce | sovtokenfees/sovtokenfees/fees_authorizer.py:115-141 | after any updates the authorizer demands, and records, exactly the fee that SET_FEES wrote under the alias's key, the latest in the table, or nothing for no alias or one never set |
| FeeConfig.OtherKeysKept | sovtokenfees/sovtokenfees/req_handlers/write_handlers/set_fees_handler.py:51-58 | SET_FEES leaves every other key of the config state alone |
| FeeConfig.FeesAliasCollides | sovtokenfees/sovtokenfees/domain.py:4-7 | after any updates the key of an alias called "fees" holds the whole table, never the fee given to that alias |
| FeeConfig.ValidateMetadata | sovtokenfees/sovtokenfees/req_handlers/write_handlers/auth_rule_fee_handler.py:50-60 | appends exactly the undefined aliases of the role leaves, left to right |
| FeeConfig.FeesSpecificValidation | sovtokenfees/sovtokenfees/req_handlers/write_handlers/auth_rules_fee_handler.py:40-56 | accepts exactly the rules whose aliases are all defined |
| FeeConfig.RoleAliasesAreLeaves | sovtokenfees/sovtokenfees/req_handlers/write_handlers/auth_rule_fee_handler.py:50-60 | the aliases examined are those of the role leaves, at any depth, and no others |
| FeeConfig.ReportedAliases | sovtokenfees/sovtokenfees/req_handlers/write_handlers/auth_rule_fee_handler.py:50-60 | what is reported are exactly the aliases of role leaves, at any depth, that have no fee |
| FeeConfig.SetRulesExactly | sovtokenfees/sovtokenfees/req_handlers/write_handlers/auth_rule_fee_handler.py:36-48 | rules come into force exactly if every alias of every role leaf has a fee |
| FeeConfig.NoDanglingAlias | sovtokenfees/sovtokenfees/req_handlers/write_handlers/auth_rule_fee_handler.py:36-48 | in every state of every run, pending ones included, every alias of every accepted rule is defined |

## Left out

- Consensus, view change, Merkle and trie hashing, role and signature-count evaluation: they belong to plenum and indy-node; `authorize` is modelled as called once, with one constraint's metadata.
- plenum's loop over the requests of a batch: modelled in `Protocol` as a function over values; the handlers it calls are the classes of `Handlers` and `BatchHandlers`.
- The state key and the root hash as bytes: the state is a map from (address, seqNo); `Text.StateKeyRoundTrip` and `Text.PrefixFindsAddress` show that the text keys lose nothing, for addresses without a colon of which none is a prefix of another.
- Spellings other than `str` prints that Python's `int` also reads (spaces, underscores, a plus sign): the cache holds only what `str` printed.
- UtxoCache.UTXOCache.SumInputs: which of the two not-found errors is raised depends on the order of the groups and is left open; every caller treats them alike.
- UtxoCache.UTXOCache.Get: the stored strings are always encodings of lists, as every write makes them; the errors for malformed strings are modelled in `Entries.LoadData` and in `UTXOAmounts` but cannot arise from the cache.
- GetUtxo.SortedItems.SortedList: the heap's internal arrangement is heapq's and not modelled; the order of equal seqNos, which no listing has, is left open.
- Signatures, base58 decoding and verification keys: foreign cryptography; addresses are opaque strings, and which of them decode is a parameter (`Requests.AddressCheck`).
- BLS multi-signatures, state proofs and the message-size branch of GET_UTXO: serialization around the answer.
- A `fees` field of other than three parts: the message schema refuses it.
- The request rewriting of `_req_to_txn` and the metadata of transactions: they carry signatures and times only.
- Restarting a node, which empties the in-memory table of charged slots and all pending batches.
- The 0.9.3 SET_FEES handler, the unused three-phase-commit hook, plugin registration, storage setup and logging: plumbing.
