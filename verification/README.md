# bindex, modelled and proved

bindex keeps a compact index over a hash-linked chain that can reorganize, and serves wallets
from it. Its fast structures stand for simple things: the store for the list of active blocks, a
folded history for a plain replay of the ledger, the mempool maps for a set of transactions, the
watch cache for a recomputation, a notification for the current status. This project models those
structures and proves that each agrees with what it stands for.

| file | what it holds |
|---|---|
| `Ledger.dfy` | transactions, outpoints, plain replay (`Coins`), what a valid history is |
| `Fold.dfy`, `Replay.dfy` | one script's one-pass fold, and that it is a replay; conservation |
| `History.dfy` | finished histories and the listing of unspent outputs |
| `Mempool.dfy`, `MempoolView.dfy` | the mempool's three maps, the poll, one script's view |
| `Wallet.dfy`, `Mining.dfy` | balances and histories of both halves; what a block changes of them, whether the index refresh or the mempool poll comes first |
| `Status.dfy` | the protocol's history of a script, heights included, and when the one sent is that |
| `Chain.dfy`, `Keys.dfy`, `TxPos.dfy`, `IndexRows.dfy` | hash-linked chains, key order and scans, positions, a block's rows and a chain's store |
| `Sync.dfy`, `Secondary.dfy` | the index writer over a reorganizing node; the read-only follower |
| `ScriptRefs.dfy`, `ScriptCache.dfy`, `ScriptQuery.dfy` | from rows to transactions; the fold cache; concurrent queries |
| `TxLookup.dfy` | finding a confirmed transaction by its txid |
| `WatchRows.dfy`, `WatchCache.dfy` | the SQLite watch cache against recomputation |
| `Subscriptions.dfy`, `Service.dfy` | refresh, poll, subscribe and wake as one state machine; what its statuses say of the ledger, given the queries |
| `Merkle.dfy` | branches and roots |
| `Collections.dfy` | sums over maps, ascending listings |

`dafny verify dfyconfig.toml` checks everything.

## How the model reads the code

- Code that updates fields is a class or a method with loops (`Fold`, `Index`, `IndexedChain`,
  `Follower`, `ScriptCache`, `ChainAdapter`, `Cache`, `Connection`), each proved against a function
  or predicate on values; properties of those values are lemmas.
- The node is a map from block hashes to blocks, whose contents never change, together with an
  active chain that may be any other known chain at each request. A query's surroundings are a
  `World`: the index contents at each instant, which requests fail, and what other threads do to
  the cache in between. Every interleaving is some such world, so theorems over all worlds are
  theorems over all interleavings. Other threads are assumed to put only sound folds into the
  cache. The cache records everything ever put (`ScriptCaches.ScriptCache.puts`), and every query
  leaves only sound folds in that record, so the assumption holds of a server made of these queries.
- The index writer's surroundings are a `Node`: which header requests and block requests succeed,
  and when the store accepts a batch. A batch is accepted whole or not at all.
- Scripts stand for their hashes, txids and block hashes for themselves, and a status for the
  history list it hashes. Index prefixes may collide: nothing is assumed about them but their
  length.
- Ordered maps and sets are listed ascending (`SortSet`). Sorting something the model shows to be
  ascending already (index locations, history rows) is left out of the methods;
  `Histories.RowsInOrder` and `Keys.Scan` are the reasons.

## What the theorems assume

- A valid chain: unique txids; each input spends an output created earlier and not yet spent; the
  spent stream lists the scripts of those outputs (`Ledger.Valid`, `ScriptRefs.ListsSpent`).
- Content addressing: a hash names one block, and no block has the all-zero hash. Within a block the
  bytes of a transaction decide it (`IndexRows.BytesDecide`), which is all that is asked of a parser.
- On Bitcoin every block has a transaction; `IndexRows.EmptyBitcoinBlockCollides` shows what happens
  otherwise. Liquid blocks may be empty.
- Transaction numbers, offsets and sizes fit 32 bits; a chain that outgrows them fails to index.
  Sums of values are unbounded, while the code adds 64-bit numbers.
- `find_by_txnum` subtracts one from the height before checking bounds; at height 0 the first
  number is taken to be 0, which is what a wrapped subtraction gives.
- `drop_tip` pops the header before the fetch and the deletion, which can fail. So a round is stated
  from any store that is the rows of its headers laid over rows left behind
  (`Sync.IndexedChain.Tracks`), and leaves one; when such a store is in step with its headers is
  an if-and-only-if (`Sync.IndexedChain.InStepExactly`).
- The watch cache stops on a spent amount that is not positive, so its success, not its
  correctness, asks for positive values; watched scripts come from addresses and are indexable.
- The subscription theorems are about every run: any refresh may fail and any tip may come back.
  What a session holds is stated with the record (`Subscriptions.Trace`) of the chain each script
  was last read at.
- `Service` takes as given that the histories and statuses of the subscription protocol are the
  answers of the queries (`Service.Serves`): a history read at an instant is the folded history of
  the chain held then, which is what `ScriptQueries.ChainAdapter.ScriptHistory` is proved to answer,
  and a status is what `Service.ScriptStatus` works out. The protocol and the queries are not joined in
  one machine.
- The history a status stands for (`Statuses.IsLedgerStatus`) is the protocol's own: the rows of a
  replay in chain order, then the waiting transactions that touch the script, with height 0 when all
  their inputs are confirmed and -1 otherwise, by height and then txid (Electrum Protocol 1.6,
  "Protocol Basics", section "Status").

## Results about the code

- A Liquid transaction with a peg-in before the spending input reports a different input number
  for a confirmed spend (`find_spender`) than for an unconfirmed one: the confirmed number counts
  parsed inputs only. `ScriptQueries.VinIsRaw` says exactly when the two agree.
- A session remembers the tip its scripts were checked at, but not the tip each script was read
  under, and these can differ: a script may be read, by a subscription or in a wake, when the index
  is already ahead of the published tip. If that tip is then left for the one checked before, the
  wake finds the tip unchanged and does not read the script again. Once nothing is waiting, a
  script that was not skipped is up to date if and only if the tip it was last read under is the
  current one (`Subscriptions.UpToDateExactly`, where tips tell the script's histories apart).
  `RecurringTipIsMissed` and `ReadAheadIsMissed` are runs, with every tip published, that end
  with a wrong status.
- Headers do not share this weakness: they are compared with the last one sent. Where every tip is
  published before the next refresh the last header sent is current whenever nothing is waiting
  (`Subscriptions.HeaderIsCurrent`). A tip that could not be read to be published
  (`bindex-electrum/src/server.rs`:264-270) can leave a session with a wrong header, but only one it
  was replied (`Subscriptions.HeaderAheadIsMissed`, `Subscriptions.NoticedHeaderIsCurrent`).
- A script whose refresh fails keeps its history until a wake with a changed tip, or a new
  subscription, reads it again (`Subscriptions.FailedUntilReadAgain`).
- After an index refresh and before the next poll a transaction may be sent with height -1 although
  all its inputs are confirmed: an input's transaction is in the chain, but is still in the mempool
  index, and is not among this script's rows (`Statuses.StaleParentHeight`). That is the only way a
  height is wrong (`Statuses.HeightExactly`), so the history sent is the protocol's if and only if
  it does not happen to a transaction of the script (`Statuses.StatusExactly`). It cannot happen
  once the mempool was polled after the refresh.
- When a block is announced the poll runs at once and the refresh may come seconds later. In between
  a mined transaction is in neither half: a coin it spends is shown as unspent again, and an output
  it pays is not shown (`Mining.PollFirstHidesPayment`); nor does a history have it, or those linked
  to the script only through it (`Statuses.AheadStatus`). What is shown stays the same if and only if
  no mined transaction spends a coin the script has in the chain, and every output they pay it is
  spent in the mempool (`Mining.PollFirstExactly`). Refreshing first shows the same money
  throughout, but for what the coinbase pays (`Mining.MiningChangesNoMoney`).
- When the fetch of a dropped block or the deletion of its rows fails, the store keeps those rows
  while the headers do not have the block. Opening the index again before another round succeeds
  repairs this (`Sync.Follow`). Trying again on the same index, as `bindex-web/src/main.rs`:269-292
  does, does not: the rows stay but for those overwritten by other blocks, or deleted when such a
  block is dropped (`Sync.Retry`). The store is in step again exactly when every key left behind is
  a key of an active block (`Sync.IndexedChain.InStepExactly`), as when the node comes back to the
  dropped block (`Sync.InStepAgain`), and not when a block with fewer transactions has taken
  its place (`IndexRows.StaleRowsStay`).

## Model

| member | source | states |
|---|---|---|
| Ledger.CoinsClosedForm | bindex-electrum/src/chain.rs:361-365 | in a valid history a coin is live exactly when something created it and nothing spends it, and nothing is spent that was not created |
| Ledger.UniqueSpender | bindex-electrum/src/chain.rs:422-428 | an outpoint has at most one spender in a chain |
| ScriptFold.Fold.SpendInputs | bindex-electrum/src/chain.rs:579-585 | sums and counts exactly the inputs that spend an output recorded as funded, and removes exactly those from the live set |
| ScriptFold.Fold.FundOutputs | bindex-electrum/src/chain.rs:586-609 | records exactly the outputs paying the script, by outpoint, as funded and live |
| ScriptFold.Fold.Apply | bindex-electrum/src/chain.rs:561-620 | one fold step as a whole: rows, counters, funded, live set and peak |
| Replay.FoldIsReplay | bindex-electrum/src/chain.rs:561-627 | folding every transaction of a valid chain gives the replayed rows, the script's unspent coins, counters that sum the rows, and the largest live size ever reached |
| Replay.RowsSay | bindex-electrum/src/chain.rs:569-618 | the rows are one for each transaction that touches the script, in chain order, each with its place, the value and number of the coins it creates for the script, and the value and number of the script's coins it spends |
| Replay.FundedInAll | bindex-electrum/src/chain.rs:612-617 | the sum and count of what was funded are those of all outputs ever paid to the script |
| Replay.SelectionIsEnough | bindex-electrum/src/chain.rs:361-366 | folding any ascending selection that keeps what touches the script gives the fold of the whole chain: prefix collisions and skipped transactions change nothing |
| Replay.FoldAppend | bindex-electrum/src/chain.rs:372-375 | folding a tail on from a cached fold is folding everything from empty |
| Replay.Conservation | bindex-electrum/src/chain.rs:612-618 | after every valid history funded minus spent is the value, and in number the size, of what the script still holds |
| Replay.LiveIsMoney | bindex-electrum/src/chain.rs:580-609 | the live set is exactly the script's unspent outpoints |
| Replay.LiveBelongsToRow | bindex-electrum/src/chain.rs:586-618 | every live output was paid by a recorded row, at that row's height and position |
| Histories.FinishLists | bindex-electrum/src/chain.rs:622-627 | a finished history lists exactly the live outputs, each once, ascending by outpoint |
| Histories.RowsInOrder | bindex-electrum/src/chain.rs:624 | rows are in chain order already, so sorting them by place changes nothing |
| Histories.ListingIsUnspent | bindex-electrum/src/server.rs:729-756 | `listunspent` has exactly the unspent outpoints of both halves, each once, with its value |
| Histories.ListingInOrder | bindex-electrum/src/server.rs:727-756 | confirmed outputs come first with their heights, by height, position in the block and output index; then the pending ones at height 0, by txid and output index |
| Mempool.BuildTx | bindex-electrum/src/mempool.rs:420-449 | the entry of a parsed transaction lists exactly what it spends, its outputs by index and the scripts they pay |
| Mempool.InsertKeepsInverse | bindex-electrum/src/mempool.rs:92-104 | inserting a new transaction keeps the three maps inverse if and only if nothing indexed spends what it spends |
| Mempool.RemoveKeepsInverse | bindex-electrum/src/mempool.rs:106-120 | removal keeps the three maps inverse, whatever is removed |
| Mempool.RemoveUndoesInsert | bindex-electrum/src/mempool.rs:92-120 | removing what was just inserted gives back the maps |
| Mempool.ReplacementNeedsRemovalFirst | bindex-electrum/src/mempool.rs:523-540 | inserting a replacement before removing what it conflicts with loses the spent outpoint |
| Mempool.Index.Insert | bindex-electrum/src/mempool.rs:92-104 | the whole new state of the three maps after an insertion |
| Mempool.Index.Remove | bindex-electrum/src/mempool.rs:106-120 | the whole new state after a removal, with empty script entries dropped, and whether there was one |
| Mempool.Index.ReplaceAll | bindex-electrum/src/mempool.rs:82-90 | the index holds exactly the given conflict-free transactions, and the maps are inverse |
| Mempool.FetchWanted | bindex-electrum/src/mempool.rs:485-519 | exactly the wanted transactions the node still answers for, each once, with the fee and time it reported |
| Mempool.Poll | bindex-electrum/src/mempool.rs:459-543 | every poll keeps the maps inverse and leaves the listed transactions that were indexed or answered for, the old ones unchanged and the new ones with the fee and time reported, with the numbers added and removed; replacements included |
| Mempool.PollReports | bindex-electrum/src/mempool.rs:479-487 | over any number of polls each transaction keeps the fee and time reported when it arrived |
| MempoolView.ScriptTxids | bindex-electrum/src/mempool.rs:145-171 | exactly the mempool transactions paying the script or spending one of its confirmed or unconfirmed outputs |
| MempoolView.ScriptView | bindex-electrum/src/mempool.rs:179-244 | entries of all unmined such transactions in canonical order, the unspent pending outputs, the confirmed ones spent, and the net effect on the balance; what the entries' heights mean is `Statuses.HeightExactly` |
| MempoolView.ViewSays | bindex-electrum/src/mempool.rs:210-243 | the confirmed outputs marked spent are those some transaction not yet mined spends, and the outputs listed are those of such transactions that pay the script and that none of them spends |
| MempoolView.ViewFees | bindex-electrum/src/mempool.rs:205-209 | every entry of a view has the fee the node reported when its transaction arrived |
| Wallet.NoOutpointTwice | bindex-electrum/src/mempool.rs:179-200 | no outpoint is both confirmed and pending, thanks to the filter on mined transactions |
| Wallet.BalanceIsUnspent | bindex-electrum/src/server.rs:719-756 | confirmed plus unconfirmed balance is the sum of the unspent listing |
| Wallet.NoTxidTwice | bindex-electrum/src/server.rs:949-961 | no transaction appears twice in a script's history |
| Wallet.RowTxidsDistinct | bindex-electrum/src/chain.rs:611-618 | rows are exactly the transactions that touch the script, once each |
| Mining.ShownIsReplayed | bindex-electrum/src/server.rs:729-756 | what a wallet is shown is a replay of the chain followed by the waiting transactions, even while the mempool index still has mined ones |
| Mining.MiningChangesNoMoney | bindex-electrum/src/server.rs:802-822 | for any ancestor-closed set that is mined, the script's unspent outpoints and values after the refresh but before the poll, and after the poll, are those before the block plus what the coinbase pays the script |
| Mining.BalanceIsShown | bindex-electrum/src/server.rs:719-725 | confirmed plus unconfirmed balance is the value of what is shown, at any moment |
| Mining.PollFirst | bindex-electrum/src/server.rs:280-292 | when the poll comes before the refresh, the outpoints shown, one by one: those mined transactions spend of the chain's coins are back, and those they pay are missing |
| Mining.PollFirstExactly | bindex-electrum/src/server.rs:280-292 | polling first leaves what is shown the same if and only if no mined transaction spends a coin the script has in the chain and every output they pay it is spent in the mempool |
| Mining.PollFirstHidesPayment | bindex-electrum/src/server.rs:280-292 | the one transaction of a mempool pays the script and is mined: its output was shown and, after the poll and before the refresh, is not |
| Mining.FullPollHolds | bindex-electrum/src/mempool.rs:459-543 | a poll in which the node answers for all it lists leaves an index that holds exactly the listed transactions, as the mining results ask |
| Statuses.WaitingInHistory | bindex-electrum/src/mempool.rs:145-171 | a waiting transaction is in the script's unconfirmed history exactly when it touches the script in a replay of the chain and the mempool |
| Statuses.HeightExactly | bindex-electrum/src/mempool.rs:199-208 | the height sent for a waiting transaction is the protocol's if and only if, when its inputs are all confirmed, none comes from a transaction that is still indexed and not among the script's rows |
| Statuses.AheadHeight | bindex-electrum/src/mempool.rs:199-208 | after a poll that is ahead of the refresh, heights are those of the chain with the new block |
| Statuses.AheadInHistory | bindex-electrum/src/mempool.rs:145-171 | after such a poll a waiting transaction is in the script's unconfirmed history exactly when it pays the script or spends a coin of it that no mined transaction created |
| Statuses.AheadStatus | bindex-electrum/src/server.rs:280-292 | so the unconfirmed part of the history sent in that window is exactly those transactions, with those heights |
| Statuses.StatusExactly | bindex-electrum/src/server.rs:802-832 | the history sent is the protocol's, which the ledger alone determines, if and only if every waiting transaction of the script whose inputs are all confirmed has the right height |
| Statuses.PolledHeightsHold | bindex-electrum/src/mempool.rs:199-208 | which is so whenever the mempool was polled after the refresh |
| Statuses.StaleParentHeight | bindex-electrum/src/server.rs:812-821 | a parent of another script is mined, its child is sent with height -1 though its one input is confirmed |
| TxPos.OffsetsRoundTrip | bindex-lib/src/index/txpos.rs:34-103 | decoding an encoded chunk gives its offsets back and no sum on the way passes 32 bits |
| TxPos.EncodeOffsets | bindex-lib/src/index/txpos.rs:34-66 | the encoding loops write what `TxPos.EncodingSays` describes |
| TxPos.DecodeOffsets | bindex-lib/src/index/txpos.rs:68-103 | the decoding loop rebuilds the offsets; `TxPos.OffsetsRoundTrip` and `TxPos.DecodingSays` say which |
| TxPos.EncodingSays | bindex-lib/src/index/txpos.rs:44-66 | the bytes are, in this order, the number of transactions, the size of the smallest, the first offset, and each size above the smallest |
| TxPos.DecodingSays | bindex-lib/src/index/txpos.rs:68-103 | bytes that decode say just that of the result, which ascends within 32 bits |
| TxPos.VarIntIsCompact | bindex-lib/src/index/txpos.rs:50-63 | numbers have Bitcoin's variable-length form, least significant byte first |
| TxPos.VarIntReadsExactly | bindex-lib/src/index/txpos.rs:76-98 | a number is read if and only if its shortest form comes first |
| TxPos.ChunksOf64 | bindex-lib/src/index/txpos.rs:119-139 | every chunk but the last has 64 transactions, and each is keyed by its last number |
| TxPos.RowsAreTable | bindex-lib/src/index/txpos.rs:122-139 | the rows written for the chunks of a block's positions are the table its lookups seek in, which is how a batch is built |
| TxPos.BlockLookup | bindex-lib/src/index/txpos.rs:111-164 | for every transaction of a block, chunking, encoding, the forward seek, decoding and counting back from the last number find exactly its offset and size |
| TxPos.BlockKeys | bindex-lib/src/index/txpos.rs:122-139 | a block's position rows are keyed by its own transaction numbers |
| TxPos.SeekInUnion | bindex-lib/src/db.rs:287-302 | rows of later blocks do not disturb a seek and rows of earlier ones are passed over |
| Keys.KeyOrder | bindex-lib/src/index/mod.rs:110-135 | byte order of keys is prefix order, then numeric order |
| Keys.ForeignEnds | bindex-lib/src/db.rs:254-262 | after the first foreign key only foreign keys follow, so breaking there loses nothing |
| Keys.Scan | bindex-lib/src/db.rs:243-265 | a scan lists exactly the stored numbers of the prefix at or above the start, strictly ascending |
| Keys.ScanRows | bindex-lib/src/db.rs:243-265 | scanning the bytes of a column lists exactly the numbers of the rows it stores |
| Chain.SameBlockSamePast | bindex-lib/src/chain.rs:288-305 | a block common to two known chains stands at one height on one past |
| Chain.SameTipSameChain | bindex-electrum/src/chain.rs:402-404 | chains with one tip hash are one chain |
| Chain.FindInvertsNumbering | bindex-lib/src/headers.rs:93-123 | for every number below the tip's the lookup yields the block and position the number was given to, also among empty blocks |
| Chain.NothingPastTip | bindex-lib/src/headers.rs:100-105 | there is nothing to find at or past the tip's next number |
| Chain.LocAt | bindex-lib/src/chain.rs:99-147 | transaction `p` of block `h` has the number of the block's first plus `p` |
| IndexRows.AddScript | bindex-lib/src/index/scripthash.rs:61-71 | a row is added unless the script is unspendable, or empty on Liquid |
| IndexRows.AddSpentRows | bindex-lib/src/index/scripthash.rs:81-129 | the rows of every output a block spends, under the number of the spending transaction |
| IndexRows.IndexScripts | bindex-lib/src/index/scripthash.rs:131-143 | a block's rows are exactly those of scripts its transactions pay or spend from, and the next number follows |
| IndexRows.IndexTxids | bindex-lib/src/index/txid.rs:12-37 | one row per transaction with its txid's prefix, numbered on in block order, and the next number follows |
| IndexRows.TxidNumbers | bindex-lib/src/db.rs:268-284 | in the store of every chain a scan for a txid lists exactly the numbers of the transactions whose txid has the same prefix |
| IndexRows.StoreListsScripts | bindex-lib/src/index/scripthash.rs:61-142 | in the store of every chain a script row is there exactly when the transaction of that number pays or spends from some script of that prefix that is neither unspendable nor, on Liquid, empty |
| IndexRows.CollectPositions | bindex-lib/src/index/txpos.rs:185-216 | positions are the running sums of sizes after the header and the count |
| IndexRows.PositionsAreSlices | bindex-lib/src/index/txpos.rs:185-202 | in the serialized block, which is its header, its count and its transactions, the bytes at each position are those of that transaction |
| IndexRows.HeaderRoundTrip | bindex-lib/src/index/header.rs:54-111 | reading a header row at its height gives the header back, in both layouts |
| IndexRows.HeaderReadsExactly | bindex-lib/src/index/header.rs:54-111 | a row is read as a header if and only if it is that header's row, at its height |
| IndexRows.StoreNumbers | bindex-lib/src/chain.rs:99-147 | a chain's store holds only numbers below its next one and header keys of its heights |
| IndexRows.DeleteUndoesWrite | bindex-lib/src/chain.rs:307-318 | deleting the rows of a re-indexed tip undoes exactly its write and touches no other block's keys |
| IndexRows.StoresDiffer | bindex-lib/src/chain.rs:307-318 | the store of a chain with one more block is another store |
| IndexRows.EmptyBitcoinBlockCollides | bindex-lib/src/index/header.rs:54-60 | a Bitcoin header of a block without transactions would overwrite its parent's row, and deleting it would remove both |
| IndexRows.OverIsSame | bindex-lib/src/db.rs:212-219 | a store laid over rows left behind is itself if and only if it has all their keys |
| IndexRows.OverDeleted | bindex-lib/src/db.rs:216-219 | deleting a block's batch takes away its own rows, and what is left behind under their keys |
| IndexRows.BlockIsCovered | bindex-lib/src/chain.rs:99-147 | a chain's store has every key of each of its blocks, so rows left behind by one of them do no harm |
| IndexRows.StaleRowsStay | bindex-lib/src/db.rs:216-219 | a block with fewer transactions at the same place does not cover the rows of the one before |
| Sync.WriteExtends | bindex-lib/src/db.rs:160-214 | writing the batches of more blocks makes the store and the headers those of the longer chain |
| Sync.IndexedChain.Index | bindex-lib/src/chain.rs:357-387 | batches are numbered on from the headers; they are returned if and only if every block is served, links to the one before and fits 32 bits |
| Sync.IndexedChain.DropTip | bindex-lib/src/chain.rs:307-318 | the header is popped; the rows are deleted if and only if the node serves the block and the store accepts the deletion, a store in step stays so exactly then, and otherwise the store is untouched and the rows are left behind |
| Sync.IndexedChain.FetchNewHeaders | bindex-lib/src/chain.rs:320-341 | the tip is dropped until the node knows it; what remains is a prefix of the old chain and of the active one, the last block dropped was not active just before, and the loop ends; it succeeds if and only if the last drop and the last header request do; what is left behind is stated exactly |
| Sync.IndexedChain.Sync | bindex-lib/src/chain.rs:389-422 | after a successful round the headers extend the kept blocks by the node's next ones, up to the limit; after any round the store is the rows of the headers over exactly what failed drops left; from a store in step the round leaves one in step if and only if it dropped nothing or the last drop succeeded; a round whose drops succeed fails only if the last header request, a fetch or the write does, or the numbers outgrow 32 bits |
| Sync.IndexedChain.InStepExactly | bindex-lib/src/chain.rs:307-318 | the store is in step with the headers if and only if every key left behind is a key of an active block |
| Sync.IndexedChain.Reopen | bindex-lib/src/chain.rs:259-285 | opening loads the headers of the chain the store has rows for, and the store is in step with them |
| Sync.Follow | bindex-sync/src/main.rs:67-68 | after any number of rounds from an empty store, each failed one followed by opening the index again, the store is exactly the rows of the headers, over any reorganizations and failures; if nothing fails and every chain fits, the last round succeeds |
| Sync.Retry | bindex-web/src/main.rs:269-292 | any number of rounds retried on one index, from a store in step or not and whatever fails: what is left behind is what the failed drops left, less what later drops deleted; there are none over a node that serves stale blocks, and a store in step stays so if no drop failed |
| Sync.InStepAgain | bindex-web/src/main.rs:269-292 | the rows that one failed drop left are covered whenever the index is on that block again, however many rounds later, if no drop has failed since |
| Secondary.StoredHeaders | bindex-lib/src/db.rs:311-340 | the header rows of a chain's store are exactly its headers under their keys |
| Secondary.HeadersFrom | bindex-lib/src/db.rs:311-329 | reads all rows from a key on at consecutive positions, and fails only on a position that does not fit |
| Secondary.Follower.Reload | bindex-lib/src/headers.rs:23-32 | a full reload of a chain's rows gives its headers; whatever the rows, what is loaded links, or the old headers stay |
| Secondary.Follower.Refresh | bindex-lib/src/chain.rs:288-305 | whatever appends or reorganizations the primary made, the incremental refresh leaves the headers a full reload would; and whatever rows it meets, those of a store out of step included, the headers still link afterwards |
| ScriptRefs.ChainLookup | bindex-lib/src/db.rs:287-302 | for every transaction number of any stored chain the seek finds that transaction's offset and size |
| ScriptRefs.GetTxBlockPos | bindex-lib/src/db.rs:287-302 | the lookup method returns the position the seek finds |
| ScriptRefs.BodyOfRef | bindex-electrum/src/chain.rs:539-543 | the bytes of the serialized block that the reference of transaction `n` names are those of transaction `n` |
| ScriptRefs.TouchingIsListed | bindex-lib/src/index/scripthash.rs:61-142 | a transaction that pays an indexable script or spends from it is listed for it |
| ScriptRefs.ListedFoldIsReplay | bindex-electrum/src/chain.rs:376-420 | folding the bodies of the listed references is folding every transaction of the chain |
| ScriptRefs.ListedHistory | bindex-electrum/src/chain.rs:352-366 | so for every indexed chain and indexable script the folded history is the one a plain replay gives |
| ScriptCaches.ScriptCache.Get | bindex-electrum/src/chain.rs:656-661 | returns the entry and stamps only it, keeping the counter exact and the stamps distinct |
| ScriptCaches.ScriptCache.Put | bindex-electrum/src/chain.rs:663-688 | an oversized fold only replaces its own entry; otherwise the new entry stays and the least recently used others go, as few as make it fit |
| ScriptCaches.ScriptCache.Evict | bindex-electrum/src/chain.rs:675-687 | the loop ends, within the bound, without evicting the latest entry, and the last evicted one was needed |
| ScriptCaches.EvictStep | bindex-electrum/src/chain.rs:675-687 | over the bound the least recently used entry is never the latest one, and removing it keeps the counter and the order of eviction |
| ScriptQueries.FetchBodies | bindex-electrum/src/chain.rs:502-537 | the workers' answers, joined, are the bodies of the references in order |
| ScriptQueries.ListRefs | bindex-electrum/src/chain.rs:477-499 | the references of exactly the listed transactions from a height on, with the tip they belong to |
| ScriptQueries.FoldedOn | bindex-electrum/src/chain.rs:387-416 | extending a cached fold by the bodies of the remaining references is the fold of all of them |
| ScriptQueries.SoundAnswer | bindex-electrum/src/chain.rs:387-395 | a sound fold of the listed references is the history of the chain they were listed in |
| ScriptQueries.ChainAdapter.Attempt | bindex-electrum/src/chain.rs:382-417 | one attempt answers for the chain last looked at, fails only when something failed, and is given up only if the chain moved |
| ScriptQueries.ChainAdapter.ScriptHistory | bindex-electrum/src/chain.rs:376-420 | under any interleaving a successful answer is the replayed history of a chain held during the call; every fold put into the cache meanwhile, and every entry left there, is the fold of its own references; `Reorg` only if the chain moved three times over, any other error only if its cause occurred |
| ScriptQueries.ChainAdapter.FindSpender | bindex-electrum/src/chain.rs:429-464 | what is found spends the outpoint in the chain last looked at, and for an output of the script something is found exactly when a transaction at the starting height or above it spends it, or anywhere if that height is past the next block; errors as for histories |
| ScriptQueries.SpenderIsUnique | bindex-electrum/src/chain.rs:422-428 | the spender, its input and everything reported of it are unique |
| ScriptQueries.NothingBeforeFunding | bindex-electrum/src/chain.rs:424-426 | a scan from the funding block, or an earlier one, skips no spender |
| ScriptQueries.VinIsRaw | bindex-lib/src/fmt.rs:225-237 | the reported input number is the raw one if and only if no input that is filtered out comes before it |
| ScriptQueries.PegInShiftsVin | bindex-lib/src/fmt.rs:225-237 | a peg-in first, then the spending input: 1 in the transaction, 0 as reported |
| TxLookups.LocateTx | bindex-electrum/src/chain.rs:289-308 | finds the chain's transaction with the txid, with its bytes, place and confirmations, whatever else shares its prefix, and finds nothing only if there is none |
| TxLookups.FoundIsUnique | bindex-electrum/src/chain.rs:289-308 | there is only one such answer |
| WatchRows.RowsBelow | bindex-lib/src/cache/schema.sql:9-29 | dropping a script's rows from a height on leaves the rows of the blocks below it |
| WatchRows.RowsSayMoves | bindex-lib/src/cache/mod.rs:247-301 | a transaction has a row for each output paying the script, with its value, and for each input spending a coin of it, with the value negated, and no other |
| WatchRows.RowsAddUp | bindex-cli/src/bin/bindex-cli.rs:105-109 | a script's amounts add up to what it holds |
| WatchCaches.StaleIsTop | bindex-lib/src/cache/mod.rs:107-141 | below an active cached header every cached header is active: stale ones form a top suffix |
| WatchCaches.DeleteFits | bindex-lib/src/cache/mod.rs:132-140 | deleting from the lowest stale header, with cascades, leaves tables that fit the active chain and exactly the active headers |
| WatchCaches.Cache.DropStaleBlocks | bindex-lib/src/cache/mod.rs:108-141 | stopping at the first active header leaves exactly the active headers, their transactions and their rows, and the tables fit the active chain |
| WatchCaches.Cache.SyncHistory | bindex-lib/src/cache/mod.rs:143-185 | each watched script is complete up to where its scan starts, and its new locations are all the index lists from there |
| WatchCaches.LookupsRight | bindex-lib/src/cache/mod.rs:241-273 | looking an input up by txid and then by place finds the amount exactly when it spends one of the script's outputs |
| WatchCaches.Cache.AddHeaders | bindex-lib/src/cache/mod.rs:187-203 | exactly the headers of new locations are added, and none is missing because an insert was ignored |
| WatchCaches.Cache.AddTransactions | bindex-lib/src/cache/mod.rs:205-221 | likewise for their transactions; fails only when a body is not served |
| WatchCaches.Cache.AddScriptRows | bindex-lib/src/cache/mod.rs:231-301 | the script's rows become those of the whole chain, no key is inserted twice and no other script's rows change |
| WatchCaches.Cache.Sync | bindex-lib/src/cache/mod.rs:74-105 | on success every watched script's rows equal recomputation on the active chain; on failure nothing has changed |
| WatchCaches.Run | bindex-lib/src/cache/mod.rs:74-105 | the same after any sequence of watch additions and synchronizations over extended and reorganized chains |
| WatchCaches.QueriesAddUp | bindex-cli/src/bin/bindex-cli.rs:105-114 | on complete tables a script's amounts add up to its balance, and their signs to the number of its unspent outputs where outputs have a value |
| Subscriptions.StepKeeps | bindex-electrum/src/server.rs:839-870 | every step of server and session, failed refreshes included, keeps the session's scripts at the history last read and the status last worked out from it, and what it consumed no newer than what is published |
| Subscriptions.WhatIsHeld | bindex-electrum/src/server.rs:834-870 | in every run, whenever nothing is waiting, each script holds the history of the chain it was last read at, and the last status sent is that history's with the current mempool, or with an earlier one if the latest wake skipped the script |
| Subscriptions.UpToDateExactly | bindex-electrum/src/server.rs:848-868 | in every run, whenever nothing is waiting, a script not skipped is up to date if and only if the tip it was last read under is the current one, where tips tell its histories apart; in general if and only if the histories are equal, and for a skipped script its status too with both mempools |
| Subscriptions.NothingIsLost | bindex-electrum/src/server.rs:56-63 | in every run, whenever nothing is waiting and the tip is new, the last status sent for each script but those whose refresh failed is that of the current chain and mempool, and the last header sent to a session that asked for headers is the tip |
| Subscriptions.SmoothRunsLoseNothing | bindex-electrum/src/server.rs:56-63 | so in a run without failed refreshes every script is up to date whenever nothing is waiting and the tip is new |
| Subscriptions.FailedUntilReadAgain | bindex-electrum/src/server.rs:851-868 | a script whose refresh failed keeps its history until a wake with a changed tip or a new subscription reads it again |
| Subscriptions.NoticeIffDiffers | bindex-electrum/src/server.rs:834-866 | in every run a notification goes out exactly when the status differs from the last one sent for the script |
| Subscriptions.HeaderIffDiffers | bindex-electrum/src/server.rs:841-846 | in every run, when a change is consumed, a header goes out exactly when the session asked for headers, there is a tip, and it differs from the last header sent |
| Subscriptions.HeadersAskedExactly | bindex-electrum/src/server.rs:515-526 | a session has been sent a header if and only if it asked for headers |
| Subscriptions.NothingElseIsSent | bindex-electrum/src/server.rs:767-790 | everything else sent is one reply per subscription, with the status of the history read when it began, and the tip a session asks for |
| Subscriptions.HeaderIsCurrent | bindex-electrum/src/server.rs:839-846 | in every run in which each tip is published before the next refresh, whatever tips come back, whenever nothing is waiting the last header sent to a session that asked has the current tip |
| Subscriptions.NoticedHeaderIsCurrent | bindex-electrum/src/server.rs:841-846 | in every run, whenever nothing is waiting, a last header that is wrong was a reply, not a notification |
| Subscriptions.SubscribedExactly | bindex-electrum/src/server.rs:550-556 | in every run a session holds exactly the scripts it subscribed to and has not unsubscribed from since |
| Subscriptions.NeverStuck | bindex-electrum/src/server.rs:357-378 | a session in the middle of subscribing or waking can always go on |
| Subscriptions.RecurringTipIsMissed | bindex-electrum/src/server.rs:848-850 | a run with every tip published in which a script subscribed under a tip that is then left ends with a wrong status sent last |
| Subscriptions.ReadAheadIsMissed | bindex-electrum/src/server.rs:848-852 | the same for a script subscribed long before, read in a wake under a tip that is then left |
| Subscriptions.FailedRefreshIsForgotten | bindex-electrum/src/server.rs:848-868 | a run with one failed refresh ends with the tip recorded as checked and a wrong status sent last |
| Subscriptions.HeaderAheadIsMissed | bindex-electrum/src/server.rs:515-526 | a run in which one tip is not published, the header replied is that tip's, and it stays the last one sent after the tip is gone |
| Subscriptions.Connection.PublishTip | bindex-electrum/src/server.rs:263-278 | publishes the tip and wakes sessions unless it is the one published last |
| Subscriptions.Connection.Subscribe | bindex-electrum/src/server.rs:767-790 | the history is that of the chain held at the start, the status is worked out from it and a mempool polled no earlier, and is what is recorded and replied, whatever other tasks do in between |
| Subscriptions.Connection.Unsubscribe | bindex-electrum/src/server.rs:553-556 | the script is no longer held, and the reply says whether it was |
| Subscriptions.Connection.SubscribeHeaders | bindex-electrum/src/server.rs:515-526 | replies the index's tip and remembers it, or fails when the chain is empty |
| Subscriptions.Connection.Notifications | bindex-electrum/src/server.rs:839-870 | consumes the latest change, sends a header exactly when the last one sent differs, goes through every script while other tasks act, skips only scripts whose refresh failed, and records the tip as checked |
| Service.StatusIsLedgers | bindex-electrum/src/server.rs:802-832 | a status worked out from a folded history is the protocol's history of the replayed ledger if and only if the heights hold |
| Service.ScriptStatus | bindex-electrum/src/server.rs:802-832 | works out from a finished history and the mempool index the entries of its rows, then those of the mempool view over its unspent outputs |
| Service.SessionsSeeTheLedger | bindex-electrum/src/server.rs:834-870 | given that the queries stand behind the protocol: in every run, whenever nothing is waiting, the last status sent is the protocol's, for the chain the script was last read at and the current mempool unless it was skipped, if and only if the heights hold; that chain is the current one if and only if its tip is |
| Service.NewTipsAreSeen | bindex-electrum/src/server.rs:834-870 | so it is the current ledger's whenever the tip is new, the script's refresh has not failed and the heights hold, which they do once the mempool was polled after the refresh |
| Merkle.BranchAndRoot | bindex-electrum/src/merkle.rs:9-41 | the root is the top of the duplicate-last tree whatever the index, and climbing the branch from the leaf rebuilds it |
| Merkle.ThreeLeaves | bindex-electrum/src/merkle.rs:9-41 | root and branches for three leaves, spelled out |
| Merkle.ClimbBinds | bindex-electrum/src/merkle.rs:21-34 | with an injective hash two climbs of one length at one position to one root have the same leaf and branch |
| Merkle.NoOtherLeaf | bindex-electrum/src/merkle.rs:9-41 | with an injective hash no other leaf verifies at a position against the root with a branch of that length |

## Left out

- HTTP, ZMQ, TLS, SOCKS, RPC and REST transport, sessions' request parsing, the subscription limit and batches: input and output.
- The REST API's shapes, Liquid JSON, asset metadata, fee histograms, the recent-transactions queue (and with it the arrival order of a poll), monitors and configuration.
- RocksDB (flush, compaction, column options) and SQLite: column families are ordered keys, batches are atomic, cascades follow the foreign keys of the schema. The header bytes in the watch cache's rows are not modelled.
- Parsing of blocks, transactions and headers: blocks come as transactions with sizes and spent scripts. Parse errors of a fetched body are not modelled.
- SHA-256: scripts, txids and block hashes are names; the Merkle hash is any function, injective where a theorem says so.
- Fetching in chunks of ten blocks and in thread pools on the writer's side: blocks are fetched one after another in order.
- `block_txids_at_height`, header chunks and checkpoint proofs: they follow from the numbering and the Merkle results.
- Values on Liquid that are confidential count as 0 in the code; values here are whatever the parser gives.
- Reopen: asks for a store that is the rows of some chain; opening one that is out of step after a later round succeeded is not modelled.
- Sync: a flush or the start of compactions that fails after the batch is written fails the round in the code although its work is done; here only the writes can fail.
- StatusIsLedgers: is about a mempool index that is not ahead of the chain; while a poll is ahead of the refresh, `Statuses.AheadStatus` and `Mining.PollFirst` say what is sent and shown.
- MiningChangesNoMoney: a block is a coinbase followed by mempool transactions in the mempool's order; transactions the mempool never saw are not part of it.
- Finish: keeps the rows as folded, because `Histories.RowsInOrder` shows that sorting them changes nothing.
- Attempt: a failed body and a failed worker are one error.
