/** The handlers that run the protocol over the node's shared objects: domain_fee_handler.py,
    fee_batch_handler.py, tracker_batch_handler.py, utxo_batch_handler.py and fees_utils.py,
    each proved to compute the corresponding function of Protocol. */
module BatchHandlers {
  import opened Types
  import Text
  import opened Stores
  import UtxoCache
  import Requests
  import Authorizer
  import T = TokenLedger
  import H = Handlers
  import P = Protocol

  // ----- plenum's ledger and tracker, as far as they are used -----

  class Ledger {
    var committed: seq<T.TokenTxn>
    var uncommitted: seq<T.TokenTxn>

    constructor ()
      ensures committed == [] && uncommitted == []
    {
      committed, uncommitted := [], [];
    }

    function UncommittedRoot(): seq<T.TokenTxn> reads this { committed + uncommitted }

    function UncommittedSize(): nat reads this { |committed| + |uncommitted| }

    method AppendTxn(txn: T.TokenTxn)
      modifies this`uncommitted
      ensures uncommitted == old(uncommitted) + [txn]
    {
      uncommitted := uncommitted + [txn];
    }

    method DiscardTxns(count: int)
      modifies this`uncommitted
      ensures uncommitted == P.DropLast(old(uncommitted), count)
    {
      uncommitted := P.DropLast(uncommitted, count);
    }

    method CommitTxns(count: nat) returns (txns: seq<T.TokenTxn>)
      modifies this
      ensures var k := P.Min(count, |old(uncommitted)|);
        txns == old(uncommitted)[..k] && committed == old(committed) + txns && uncommitted == old(uncommitted)[k..]
    {
      var k := if count < |uncommitted| then count else |uncommitted|;
      txns := uncommitted[..k];
      committed, uncommitted := committed + txns, uncommitted[k..];
    }
  }

  class LedgerUncommittedTracker {
    var lastCommitted: P.TrackEntry
    var unCommitted: seq<P.TrackEntry>

    constructor (start: P.TrackEntry)
      ensures lastCommitted == start && unCommitted == []
    {
      lastCommitted, unCommitted := start, [];
    }

    method ApplyBatch(stateRoot: State, txnRoot: seq<T.TokenTxn>, size: int)
      modifies this`unCommitted
      ensures unCommitted == old(unCommitted) + [P.TrackEntry(stateRoot, txnRoot, size)]
    {
      unCommitted := unCommitted + [P.TrackEntry(stateRoot, txnRoot, size)];
    }

    method RejectBatch() returns (below: P.TrackEntry, txnCount: int)
      requires unCommitted != []
      modifies this`unCommitted
      ensures below == P.NewestBelow(P.Tracker(lastCommitted, old(unCommitted)))
      ensures txnCount == old(unCommitted)[|old(unCommitted)| - 1].size - below.size
      ensures unCommitted == old(unCommitted)[..|old(unCommitted)| - 1]
    {
      var newest := unCommitted[|unCommitted| - 1];
      unCommitted := unCommitted[..|unCommitted| - 1];
      below := if unCommitted == [] then lastCommitted else unCommitted[|unCommitted| - 1];
      txnCount := newest.size - below.size;
    }

    method CommitBatch() returns (entry: P.TrackEntry)
      requires unCommitted != []
      modifies this
      ensures entry == old(unCommitted)[0] && lastCommitted == entry && unCommitted == old(unCommitted)[1..]
    {
      entry := unCommitted[0];
      lastCommitted, unCommitted := entry, unCommitted[1..];
    }

    method SetLastCommitted(entry: P.TrackEntry)
      modifies this`lastCommitted
      ensures lastCommitted == entry
    {
      lastCommitted := entry;
    }
  }

  class BatchFeesTracker {
    var feesInCurrentBatch: nat
    var deductedFees: map<string, int>

    constructor ()
      ensures feesInCurrentBatch == 0 && deductedFees == map[]
    {
      feesInCurrentBatch, deductedFees := 0, map[];
    }

    method AddDeductedFees(txnType: string, seqNo: int, fees: int)
      modifies this`deductedFees
      ensures deductedFees == old(deductedFees)[Text.SlotKey(txnType, seqNo) := fees]
    {
      deductedFees := deductedFees[Text.SlotKey(txnType, seqNo) := fees];
    }

    predicate HasDeductedFees(txnType: string, seqNo: int)
      reads this
    {
      Text.SlotKey(txnType, seqNo) in deductedFees
    }
  }

  // ----- the shared objects -----

  class TokenDatabase {
    const state: H.PruningState
    const ledger: Ledger
    const tracker: LedgerUncommittedTracker
    const utxoCache: UtxoCache.UTXOCache
    const feesTracker: BatchFeesTracker
    const objects: set<object>

    constructor ()
      ensures Valid() && fresh(objects) && AsSide() == P.Fresh
    {
      state := new H.PruningState();
      ledger := new Ledger();
      tracker := new LedgerUncommittedTracker(P.TrackEntry(map[], [], 0));
      utxoCache := new UtxoCache.UTXOCache();
      feesTracker := new BatchFeesTracker();
      objects := {state, ledger, tracker, utxoCache, feesTracker};
    }

    ghost predicate Valid()
      reads utxoCache
    {
      objects == {state, ledger, tracker, utxoCache, feesTracker} && utxoCache.Valid()
    }

    ghost function AsSide(): P.Side
      reads state, ledger, tracker, utxoCache, feesTracker
    {
      P.Side(state.head, state.committedHead, ledger.committed, ledger.uncommitted,
             P.Tracker(tracker.lastCommitted, tracker.unCommitted), utxoCache.view,
             feesTracker.feesInCurrentBatch, feesTracker.deductedFees)
    }
  }

  // ----- DomainFeeHandler -----

  class DomainFeeHandler {
    const db: TokenDatabase

    constructor (db: TokenDatabase)
      ensures this.db == db
    {
      this.db := db;
    }

    /** update_token_state */
    method UpdateTokenState(txn: T.TokenTxn) returns (error: Option<Error>)
      requires db.Valid() && txn.Fee?
      modifies db.state`head, db.utxoCache
      ensures db.Valid()
      ensures var d := T.ApplyTxn(P.Uncommitted(old(db.AsSide())), txn);
        error == d.error
        && db.AsSide() == old(db.AsSide()).(head := d.state, cache := Write(old(db.AsSide()).cache, d.writes, false))
    {
      error := H.SpendInputs(db.state, db.utxoCache, txn.inputs, false, true);
      if error.None? {
        ghost var index := View(old(db.utxoCache.view), false);
        ghost var d := T.SpendAll(index, T.Start(old(db.state.head)), txn.inputs, true);
        H.AddAllKeepsError(index, d, txn.outputs, txn.seqNo);
        H.AddOutputs(db.state, db.utxoCache, txn.outputs, txn.seqNo, false, old(db.utxoCache.view), d);
      }
    }

    /** The fee transaction of apply_request, with the amount calculated over the cache. */
    method BuildFeeTxn(request: Requests.Request, seqNo: int) returns (txn: T.TokenTxn)
      requires db.Valid() && request.fees.Some?
      ensures txn == P.ChargeTxn(db.AsSide(), request, seqNo)
    {
      var authorizer := new Authorizer.FeesAuthorizer(db.utxoCache);
      var fees := authorizer.CalculateFeesFromReq(request);
      var n := db.ledger.UncommittedSize() + 1;
      txn := T.Fee(n, request.fees.value.inputs, request.fees.value.change, seqNo, fees);
    }

    /** apply_request, after the domain ledger has given the transaction `seqNo`. */
    method ApplyRequest(request: Requests.Request, seqNo: int) returns (error: Option<Error>)
      requires db.Valid()
      modifies db.objects
      ensures db.Valid()
      ensures request.fees.None? ==> error == None && db.AsSide() == old(db.AsSide())
      ensures request.fees.Some? ==> (db.AsSide(), error) == P.Charge(old(db.AsSide()), request, seqNo)
    {
      hide T.ApplyTxn, View, Write, Text.SlotKey, P.ChargeTxn;
      if request.fees.None? {
        return None;
      }
      var txn := BuildFeeTxn(request, seqNo);
      db.ledger.AppendTxn(txn);
      error := UpdateTokenState(txn);
      if error.Some? {
        return;
      }
      db.feesTracker.feesInCurrentBatch := db.feesTracker.feesInCurrentBatch + 1;
      db.feesTracker.AddDeductedFees(request.txnType, seqNo, txn.fees);
    }
  }

  // ----- TrackerBatchHandler and UTXOBatchHandler -----

  class TrackerBatchHandler {
    const db: TokenDatabase

    constructor (db: TokenDatabase)
      ensures this.db == db
    {
      this.db := db;
    }

    method PostBatchApplied()
      requires db.Valid()
      modifies db.tracker
      ensures db.Valid() && db.AsSide() == P.Track(old(db.AsSide()))
    {
      db.tracker.ApplyBatch(db.state.head, db.ledger.UncommittedRoot(), db.ledger.UncommittedSize());
    }

    method PostBatchRejected() returns (error: Option<Error>)
      requires db.Valid()
      modifies db.tracker
      ensures db.Valid()
      ensures var s := old(db.AsSide());
        if s.tracker.queue == [] then error == Some(NothingPending) && db.AsSide() == s
        else error == None && db.AsSide() == s.(tracker := P.TrackerReject(s.tracker))
    {
      if db.tracker.unCommitted == [] {
        return Some(NothingPending);
      }
      var below, count := db.tracker.RejectBatch();
      return None;
    }

    method CommitBatch() returns (error: Option<Error>)
      requires db.Valid()
      modifies db.tracker
      ensures db.Valid()
      ensures var s := old(db.AsSide());
        if s.tracker.queue == [] then error == Some(NothingPending) && db.AsSide() == s
        else error == None && db.AsSide() == s.(tracker := P.TrackerCommit(s.tracker))
    {
      if db.tracker.unCommitted == [] {
        return Some(NothingPending);
      }
      var entry := db.tracker.CommitBatch();
      return None;
    }
  }

  class UTXOBatchHandler {
    const db: TokenDatabase

    constructor (db: TokenDatabase)
      ensures this.db == db
    {
      this.db := db;
    }

    method PostBatchApplied(stateRoot: State)
      requires db.Valid()
      modifies db.utxoCache
      ensures db.Valid() && db.AsSide() == old(db.AsSide()).(cache := CreateBatch(old(db.AsSide()).cache, stateRoot))
    {
      db.utxoCache.CreateBatchFromCurrent(stateRoot);
    }

    method PostBatchRejected() returns (error: Option<Error>)
      requires db.Valid()
      modifies db.utxoCache
      ensures db.Valid()
      ensures var s := old(db.AsSide());
        if s.cache.pending == [] then error == Some(NothingPending) && db.AsSide() == s
        else error == None && db.AsSide() == s.(cache := RejectBatch(s.cache))
    {
      error := db.utxoCache.RejectBatch();
    }

    method CommitBatch(stateRoot: State) returns (error: Option<Error>)
      requires db.Valid()
      modifies db.utxoCache
      ensures db.Valid() && (db.AsSide(), error) == P.CacheCommitted(old(db.AsSide()), stateRoot)
    {
      error := db.utxoCache.CommitRoot(stateRoot);
    }
  }

  /** plenum's BatchRequestHandler._commit */
  method Commit(db: TokenDatabase, count: nat, stateRoot: State, txnRoot: seq<T.TokenTxn>)
      returns (r: Result<seq<T.TokenTxn>>)
    requires db.Valid()
    modifies db.ledger, db.state
    ensures db.Valid() && (db.AsSide(), r) == P.LedgerCommitted(old(db.AsSide()), count, stateRoot, txnRoot)
  {
    var txns := db.ledger.CommitTxns(count);
    if db.ledger.committed != txnRoot {
      return Err(TxnRootMismatch);
    }
    db.state.Commit(stateRoot);
    return Ok(txns);
  }

  // ----- what the registered handlers of the token ledger do together -----

  method TokenBatchApplied(db: TokenDatabase)
    requires db.Valid()
    modifies db.objects
    ensures db.Valid() && db.AsSide() == P.TokenApplied(old(db.AsSide()))
  {
    var utxo := new UTXOBatchHandler(db);
    var tracker := new TrackerBatchHandler(db);
    utxo.PostBatchApplied(db.state.head);
    tracker.PostBatchApplied();
  }

  method TokenBatchRejected(db: TokenDatabase) returns (error: Option<Error>)
    requires db.Valid()
    modifies db.objects
    ensures db.Valid() && (db.AsSide(), error) == P.TokenRejected(old(db.AsSide()))
  {
    var utxo := new UTXOBatchHandler(db);
    var tracker := new TrackerBatchHandler(db);
    error := utxo.PostBatchRejected();
    if error.None? {
      error := tracker.PostBatchRejected();
    }
  }

  method TokenBatchCommitted(db: TokenDatabase, count: nat, stateRoot: State, txnRoot: seq<T.TokenTxn>)
      returns (error: Option<Error>)
    requires db.Valid()
    modifies db.objects
    ensures db.Valid() && (db.AsSide(), error) == P.TokenCommitted(old(db.AsSide()), count, stateRoot, txnRoot)
  {
    hide P.LedgerCommitted, P.CacheCommitted;
    var utxo := new UTXOBatchHandler(db);
    var tracker := new TrackerBatchHandler(db);
    var moved := Commit(db, count, stateRoot, txnRoot);
    if moved.Err? {
      return Some(moved.error);
    }
    error := utxo.CommitBatch(stateRoot);
    if error.None? {
      error := tracker.CommitBatch();
    }
  }

  // ----- DomainFeeBatchHandler -----

  class DomainFeeBatchHandler {
    const db: TokenDatabase

    constructor (db: TokenDatabase)
      ensures this.db == db
    {
      this.db := db;
    }

    method PostBatchApplied()
      requires db.Valid()
      modifies db.objects
      ensures db.Valid() && db.AsSide() == P.DomainApplied(old(db.AsSide()))
    {
      db.tracker.ApplyBatch(db.state.head, db.ledger.UncommittedRoot(), db.ledger.UncommittedSize());
      if db.feesTracker.feesInCurrentBatch > 0 {
        db.utxoCache.CreateBatchFromCurrent(db.state.head);
        db.feesTracker.feesInCurrentBatch := 0;
      }
    }

    method PostBatchRejected() returns (error: Option<Error>)
      requires db.Valid()
      modifies db.objects
      ensures db.Valid() && (db.AsSide(), error) == P.DomainRejected(old(db.AsSide()))
    {
      if db.tracker.unCommitted == [] {
        return Some(NothingPending);
      }
      var below, txnCount := db.tracker.RejectBatch();
      if txnCount == 0 || db.ledger.UncommittedRoot() == below.txnRoot || db.state.head == below.stateRoot {
        return None;
      }
      db.state.RevertToHead(below.stateRoot);
      db.ledger.DiscardTxns(txnCount);
      error := db.utxoCache.RejectBatch();
    }

    /** The seqNos of committed transactions whose slot is in the table. */
    method SeqNosWithFees(txns: seq<P.DomainTxn>) returns (seqNos: seq<int>)
      ensures seqNos == P.ChargedSeqNos(db.feesTracker.deductedFees, txns)
    {
      seqNos := [];
      for i := 0 to |txns|
        invariant seqNos == P.ChargedSeqNos(db.feesTracker.deductedFees, txns[..i])
      {
        assert txns[..i + 1][..i] == txns[..i];
        if db.feesTracker.HasDeductedFees(txns[i].txnType, txns[i].seqNo) {
          seqNos := seqNos + [txns[i].seqNo];
        }
      }
      assert txns[..|txns|] == txns;
    }

    /** The loop that puts fee transactions into replies, with its running index. */
    method AttachFees(txns: seq<P.DomainTxn>, charged: seq<int>, committed: seq<T.TokenTxn>)
        returns (r: Result<seq<P.Reply>>)
      ensures r == P.PairReplies(txns, charged, committed)
    {
      var replies: seq<P.Reply> := [];
      var i := 0;
      assert txns[0..] == txns && committed[0..] == committed;
      NoReplyYet(P.PairReplies(txns, charged, committed));
      for j := 0 to |txns|
        invariant i <= |committed|
        invariant P.PairReplies(txns, charged, committed)
          == AfterReplies(replies, P.PairReplies(txns[j..], charged, committed[i..]))
      {
        PairStep(replies, txns[j..], charged, committed[i..]);
        assert txns[j..][1..] == txns[j + 1..];
        if txns[j].seqNo in charged {
          if i >= |committed| {
            return Err(IndexOutOfRange);
          }
          assert committed[i..][1..] == committed[i + 1..];
          replies := replies + [P.Reply(txns[j], Some(committed[i]))];
          i := i + 1;
        } else {
          replies := replies + [P.Reply(txns[j], None)];
        }
      }
      assert replies + [] == replies;
      return Ok(replies);
    }

    method CommitBatch(txns: seq<P.DomainTxn>) returns (r: Result<seq<P.Reply>>)
      requires db.Valid()
      modifies db.objects
      ensures db.Valid() && (db.AsSide(), r) == P.DomainCommitted(old(db.AsSide()), txns)
    {
      if db.tracker.unCommitted == [] {
        return Err(NothingPending);
      }
      var entry := db.tracker.CommitBatch();
      var withFees := SeqNosWithFees(txns);
      if withFees == [] {
        return Ok(P.Unpaired(txns));
      }
      var moved := Commit(db, |withFees|, entry.stateRoot, entry.txnRoot);
      if moved.Err? {
        return Err(moved.error);
      }
      var error := db.utxoCache.CommitRoot(entry.stateRoot);
      if error.Some? {
        return Err(error.value);
      }
      r := AttachFees(txns, withFees, moved.value);
      if r.Ok? {
        db.feesTracker.feesInCurrentBatch := 0;
      }
    }
  }

  function AfterReplies(done: seq<P.Reply>, r: Result<seq<P.Reply>>): Result<seq<P.Reply>> {
    if r.Ok? then Ok(done + r.value) else r
  }

  lemma NoReplyYet(r: Result<seq<P.Reply>>)
    ensures AfterReplies([], r) == r
  {
    if r.Ok? { assert [] + r.value == r.value; }
  }

  /** One round of the pairing loop. */
  lemma {:induction false} PairStep(done: seq<P.Reply>, txns: seq<P.DomainTxn>, charged: seq<int>, committed: seq<T.TokenTxn>)
    requires txns != []
    ensures var mine := txns[0].seqNo in charged;
      AfterReplies(done, P.PairReplies(txns, charged, committed)) ==
      if mine && committed == [] then Err(IndexOutOfRange)
      else AfterReplies(done + [P.Reply(txns[0], if mine then Some(committed[0]) else None)],
                    P.PairReplies(txns[1..], charged, if mine then committed[1..] else committed))
  {
    var mine := txns[0].seqNo in charged;
    if !(mine && committed == []) {
      var rest := P.PairReplies(txns[1..], charged, if mine then committed[1..] else committed);
      var reply := P.Reply(txns[0], if mine then Some(committed[0]) else None);
      if rest.Ok? { assert done + ([reply] + rest.value) == done + [reply] + rest.value; }
    }
  }

  // ----- catch-up -----

  /** A caught-up token transaction: added to the ledger, applied with is_committed=True, state committed. */
  method CatchUpTxn(db: TokenDatabase, txn: T.TokenTxn) returns (error: Option<Error>)
    requires db.Valid()
    modifies db.objects
    ensures db.Valid() && (db.AsSide(), error) == P.CatchUpOne(old(db.AsSide()), txn)
  {
    db.ledger.committed := db.ledger.committed + [txn];
    error := H.UpdateState(db.state, db.utxoCache, txn, true);
    if error.None? {
      db.state.Commit(db.state.head);
    }
  }

  /** Replaying a token ledger. */
  method CatchUpTxns(db: TokenDatabase, txns: seq<T.TokenTxn>) returns (error: Option<Error>)
    requires db.Valid()
    modifies db.objects
    ensures db.Valid() && (db.AsSide(), error) == P.CatchUpAll(old(db.AsSide()), txns)
  {
    error := None;
    for i := 0 to |txns|
      invariant db.Valid() && error == None
      invariant (db.AsSide(), error) == P.CatchUpAll(old(db.AsSide()), txns[..i])
    {
      assert txns[..i + 1][..i] == txns[..i];
      error := CatchUpTxn(db, txns[i]);
      if error.Some? {
        CatchUpStops(old(db.AsSide()), txns, i + 1);
        return;
      }
    }
    assert txns[..|txns|] == txns;
  }

  lemma {:induction false} CatchUpStops(s: P.Side, txns: seq<T.TokenTxn>, i: nat)
    requires i <= |txns| && P.CatchUpAll(s, txns[..i]).1.Some?
    ensures P.CatchUpAll(s, txns) == P.CatchUpAll(s, txns[..i])
    decreases |txns| - i
  {
    if i < |txns| {
      assert txns[..i + 1][..i] == txns[..i];
      CatchUpStops(s, txns, i + 1);
    } else {
      assert txns[..i] == txns;
    }
  }

  /** postCatchupCompleteClbk */
  method PostCatchupComplete(db: TokenDatabase)
    requires db.Valid()
    modifies db.tracker
    ensures db.Valid() && db.AsSide() == P.TrackerReset(old(db.AsSide()))
  {
    db.tracker.SetLastCommitted(P.TrackEntry(db.state.committedHead, db.ledger.UncommittedRoot(), |db.ledger.committed|));
  }
}
