/** What a batch does with each of its requests, stated over the requests themselves. */
module Served {
  import opened Types
  import Text
  import opened Stores
  import opened TokenLedger
  import opened Replay
  import opened Requests
  import opened Authorizer
  import opened Protocol
  import opened Invariant
  import opened Runs

  // ----- what a transaction moves -----

  /** The named outputs are gone, the payments are there under the seqNo, and nothing else changed. */
  ghost predicate Moved(before: Live, after: Live, inputs: seq<Ref>, outputs: seq<Payment>, n: int) {
    forall r: Ref, amount: int :: (r in after && after[r] == amount) <==>
      (r in before && before[r] == amount && r !in inputs) || (r.seqNo == n && Payment(r.address, amount) in outputs)
  }

  lemma {:induction false} CreatedLiveIs(outputs: seq<Payment>, n: int, r: Ref, amount: int)
    requires DistinctAddresses(outputs)
    ensures var created := CreatedLive(outputs, n);
      (r in created && created[r] == amount) <==> r.seqNo == n && Payment(r.address, amount) in outputs
  {
    if outputs != [] {
      var init, last := outputs[..|outputs| - 1], outputs[|outputs| - 1];
      CreatedLiveIs(init, n, r, amount);
      LastIsNew(outputs, n);
      CreatedNames(init, n);
      assert outputs == init + [last];
      if r == Ref(last.address, n) {
        forall p | p in init ensures p.address != last.address { PaidApart(outputs, p); }
      }
    }
  }

  lemma PaidApart(outputs: seq<Payment>, p: Payment)
    requires outputs != [] && DistinctAddresses(outputs) && p in outputs[..|outputs| - 1]
    ensures p.address != outputs[|outputs| - 1].address
  {
    var i :| 0 <= i < |outputs| - 1 && outputs[i] == p;
  }

  lemma NextLiveMoves(live: Live, txn: TokenTxn)
    requires DistinctAddresses(txn.outputs) && forall r :: r in live ==> r.seqNo < txn.seqNo
    ensures Moved(live, NextLive(live, txn), TxnInputs(txn), txn.outputs, txn.seqNo)
  {
    hide DistinctAddresses, CreatedLive, TxnInputs;
    forall r: Ref, amount: int
      ensures var after := NextLive(live, txn);
        (r in after && after[r] == amount) <==>
        (r in live && live[r] == amount && r !in TxnInputs(txn)) || (r.seqNo == txn.seqNo && Payment(r.address, amount) in txn.outputs)
    {
      CreatedLiveIs(txn.outputs, txn.seqNo, r, amount);
      CreatedNames(txn.outputs, txn.seqNo);
    }
  }

  /** Appending a valid transaction moves exactly its inputs and outputs. */
  lemma AppendMoves(s: Side, txn: TokenTxn)
    requires Synced(s) && ValidTxn(Uncommitted(s), txn, |Full(s)| + 1)
    ensures var t := AppendTxn(s, txn).0;
      && LiveMap(t.head) == NextLive(LiveMap(s.head), txn)
      && Moved(LiveMap(s.head), LiveMap(t.head), TxnInputs(txn), txn.outputs, |Full(s)| + 1)
  {
    var n := |Full(s)| + 1;
    LedgerCoherent(Full(s));
    LiveBounded(s.head, n);
    ValidOutputs(Uncommitted(s), txn, n);
    hide Coherent, LiveMap, Bounded, ApplyTxn, ValidTxn, NextLive, Moved, Replayed, ValidLedger, View;
    ApplyWorks(Uncommitted(s), txn, n);
    NextLiveMoves(LiveMap(s.head), txn);
  }

  lemma LiveBounded(state: State, n: int)
    requires Bounded(state, n - 1)
    ensures forall r :: r in LiveMap(state) ==> r.seqNo < n
  {
  }

  lemma ValidOutputs(v: TokenView, txn: TokenTxn, n: int)
    requires ValidTxn(v, txn, n)
    ensures DistinctAddresses(txn.outputs) && txn.seqNo == n
  {
  }

  // ----- requests to the domain ledger -----

  /** A request goes through exactly if its fields are good and it pays the fee, or owes none. */
  ghost predicate GoesThrough(s: Side, table: FeeTable, q: Asked) {
    GoodRequest(q.request, q.decodes) && MayPay(View(s.cache, false), q.request, FeeFor(table, q.alias))
  }

  lemma AcceptedGoesThrough(s: Side, table: FeeTable, q: Asked)
    ensures Accepted(s, table, q) <==> GoesThrough(s, table, q)
  {
    hide GoodRequest, ValidateRequest, Authorize, MayPay, FeeFor;
    RequestAccepted(q.request, q.decodes);
    AuthorizeRule(View(s.cache, false), table, q.alias, q.request);
  }

  /** One more transaction at the end of the token ledger, the fee due for it, and its inputs and
      outputs moved; of the rest only the fees tracker may have changed. */
  ghost predicate Appends(a: Applied, b: Applied, txn: TokenTxn, due: nat) {
    && b.error == None && b.appended == a.appended + [txn] && b.due == a.due + [due]
    && b.side.tail == a.side.tail + [txn] && SameFrame(a.side, b.side) && Synced(b.side)
    && Moved(LiveMap(a.side.head), LiveMap(b.side.head), TxnInputs(txn), txn.outputs, |Full(a.side)| + 1)
  }

  /** A request to the domain ledger is dropped without a trace, or its transaction gets the next
      seqNo; the payment attached becomes the fee transaction with the request's own inputs and
      change, naming that seqNo and recording the fee in force, and is counted once. */
  ghost predicate TakesDomain(a: Applied, b: Applied, first: int, table: FeeTable, q: Asked) {
    var r, n, fee := q.request, first + |a.txns|, FeeFor(table, q.alias);
    if r.txnType == MINT_PUBLIC || r.txnType == XFER_PUBLIC || !GoesThrough(a.side, table, q) then b == a
    else
      && b.txns == a.txns + [DomainTxn(r.txnType, n, r.fees.Some?)]
      && if r.fees.None? then b == a.(txns := b.txns)
         else
           && Appends(a, b, Fee(|Full(a.side)| + 1, r.fees.value.inputs, r.fees.value.change, n, fee), fee)
           && b.side.feesInBatch == a.side.feesInBatch + 1
           && b.side.deducted == a.side.deducted[Text.SlotKey(r.txnType, n) := fee]
  }

  /** Charging an accepted request takes its inputs out of the live outputs and adds its change
      under the next seqNo of the token ledger. */
  lemma ChargeMoves(s: Side, table: FeeTable, q: Asked, n: int)
    requires Synced(s) && !IsToken(q.request) && q.request.fees.Some? && Accepted(s, table, q)
    ensures var (t, error) := Charge(s, q.request, n);
      var inputs, change := q.request.fees.value.inputs, q.request.fees.value.change;
      && error == None
      && ChargeTxn(s, q.request, n) == Fee(|Full(s)| + 1, inputs, change, n, FeeFor(table, q.alias))
      && t.tail == s.tail + [ChargeTxn(s, q.request, n)]
      && LiveMap(t.head) == (LiveMap(s.head) - Elements(inputs)) + CreatedLive(change, |Full(s)| + 1)
      && Moved(LiveMap(s.head), LiveMap(t.head), inputs, change, |Full(s)| + 1)
  {
    var txn := ChargeTxn(s, q.request, n);
    FeeTxnIs(s, q.request, n);
    ChargeTxnIsValid(s, table, q, n);
    hide Synced, Accepted, FeeFor, Difference, ValidTxn, ChargeTxn, AppendTxn, LiveMap, Moved, CreatedLive, SameFrame;
    ChargeKeeps(s, table, q, n);
    AppendMoves(s, txn);
  }

  lemma FeeTxnIs(s: Side, r: Request, n: int)
    requires r.fees.Some?
    ensures ChargeTxn(s, r, n)
      == Fee(|Full(s)| + 1, r.fees.value.inputs, r.fees.value.change, n, CalculateFees(View(s.cache, false), r))
  {
  }

  lemma DomainOneTakes(a: Applied, first: int, table: FeeTable, q: Asked)
    requires Synced(a.side) && a.error == None
    ensures TakesDomain(a, ApplyDomainOne(a, first, table, q), first, table, q)
  {
    hide Synced, SameFrame, GoesThrough, Accepted, Charge, FeeFor, LiveMap, Moved, CreatedLive, Text.SlotKey;
    AcceptedGoesThrough(a.side, table, q);
    if !IsToken(q.request) && Accepted(a.side, table, q) && q.request.fees.Some? {
      ChargeMoves(a.side, table, q, first + |a.txns|);
      ChargeKeeps(a.side, table, q, first + |a.txns|);
    }
  }

  /** How the requests of a domain batch are served: each in turn, on what the ones before it left. */
  ghost predicate ServesDomain(trace: seq<Applied>, s: Side, first: int, table: FeeTable, qs: seq<Asked>) {
    && |trace| == |qs| + 1 && trace[0] == Applied(s, [], [], [], None)
    && forall i :: 0 <= i < |qs| ==> TakesDomain(trace[i], trace[i + 1], first, table, qs[i])
  }

  lemma {:induction false} DomainBatchServed(s: Side, first: int, table: FeeTable, qs: seq<Asked>)
      returns (trace: seq<Applied>)
    requires Synced(s)
    ensures ServesDomain(trace, s, first, table, qs) && trace[|qs|] == ApplyDomainAll(s, first, table, qs)
  {
    hide Synced, TakesDomain, ApplyDomainOne;
    if qs == [] {
      trace := [Applied(s, [], [], [], None)];
    } else {
      var init, q := qs[..|qs| - 1], qs[|qs| - 1];
      var before := DomainBatchServed(s, first, table, init);
      DomainAllSynced(s, first, table, init);
      DomainOneTakes(before[|init|], first, table, q);
      trace := before + [ApplyDomainOne(before[|init|], first, table, q)];
      forall i | 0 <= i < |qs|
        ensures TakesDomain(trace[i], trace[i + 1], first, table, qs[i])
      {
        if i < |init| { assert qs[i] == init[i]; }
      }
    }
  }

  lemma DomainAllSynced(s: Side, first: int, table: FeeTable, qs: seq<Asked>)
    requires Synced(s)
    ensures var a := ApplyDomainAll(s, first, table, qs); Synced(a.side) && a.error == None
  {
    hide Synced, SameFrame, DuesMatch;
    DomainAllKeeps(s, first, table, qs);
  }

  /** Applying a domain batch serves its requests in order; the batch recorded as pending holds
      just the transactions that came of them. */
  lemma ApplyDomainServes(n: Node, table: FeeTable, asked: seq<Asked>) returns (trace: seq<Applied>)
    requires NodeOk(n)
    ensures Step(n, ApplyDomain(table, asked)).Ok?
    ensures ServesDomain(trace, n.side, |DomainTxns(History(n))| + 1, table, asked)
    ensures var m, last := Step(n, ApplyDomain(table, asked)).value, trace[|asked|];
      && m.done == n.done && m.pending == n.pending + [DomainBatch(last.txns, last.appended, last.due)]
      && Uncommitted(m.side) == Uncommitted(last.side) && m.side.tail == last.side.tail
      && m.side.ledger == n.side.ledger && m.side.deducted == last.side.deducted
  {
    var first := |DomainTxns(History(n))| + 1;
    NodeSynced(n);
    DomainAllSynced(n.side, first, table, asked);
    DomainAllKeeps(n.side, first, table, asked);
    trace := DomainBatchServed(n.side, first, table, asked);
    var a := ApplyDomainAll(n.side, first, table, asked);
    CreateBatchKeepsView(a.side.cache, a.side.head);
    hide NodeOk, ServesDomain, ApplyDomainAll, DomainTxns, Synced, CreateBatch, View, DuesMatch;
  }

  lemma NodeSynced(n: Node)
    requires NodeOk(n)
    ensures Synced(n.side)
  {
    hide Synced, RecordsOk, QueuesOk;
  }

  // ----- requests to the token ledger -----

  /** A request to the token ledger is dropped without a trace, or becomes the next transaction,
      with its own inputs and outputs. */
  ghost predicate TakesToken(a: Applied, b: Applied, table: FeeTable, q: Asked) {
    var r, n := q.request, |Full(a.side)| + 1;
    if (r.txnType != MINT_PUBLIC && r.txnType != XFER_PUBLIC) || !GoesThrough(a.side, table, q) then b == a
    else
      && b.txns == [] && b.side.feesInBatch == a.side.feesInBatch && b.side.deducted == a.side.deducted
      && if r.txnType == MINT_PUBLIC then Appends(a, b, Mint(n, r.outputs), 0)
         else Appends(a, b, Xfer(n, r.inputs, r.outputs, r.legacy), FeeFor(table, q.alias))
  }

  lemma TokenTxnIs(s: Side, q: Asked, table: FeeTable)
    ensures TokenTxnOf(s, q.request) ==
      if q.request.txnType == MINT_PUBLIC then Mint(|Full(s)| + 1, q.request.outputs)
      else Xfer(|Full(s)| + 1, q.request.inputs, q.request.outputs, q.request.legacy)
    ensures TokenDue(table, q) == if q.request.txnType == MINT_PUBLIC then 0 else FeeFor(table, q.alias)
  {
  }

  lemma TokenOneTakes(a: Applied, table: FeeTable, q: Asked)
    requires Synced(a.side) && a.error == None
    ensures TakesToken(a, ApplyTokenOne(a, table, q), table, q)
  {
    hide Synced, SameFrame, GoesThrough, Accepted, AppendTxn, FeeFor, LiveMap, Moved, TokenTxnOf, TokenDue, ValidTxn, Difference;
    AcceptedGoesThrough(a.side, table, q);
    TokenTxnIs(a.side, q, table);
    if IsToken(q.request) && Accepted(a.side, table, q) {
      var txn := TokenTxnOf(a.side, q.request);
      TokenTxnIsValid(a.side, table, q);
      AppendMoves(a.side, txn);
      AppendKeeps(a.side, txn);
    }
  }

  ghost predicate ServesToken(trace: seq<Applied>, s: Side, table: FeeTable, qs: seq<Asked>) {
    && |trace| == |qs| + 1 && trace[0] == Applied(s, [], [], [], None)
    && forall i :: 0 <= i < |qs| ==> TakesToken(trace[i], trace[i + 1], table, qs[i])
  }

  lemma {:induction false} TokenBatchServed(s: Side, table: FeeTable, qs: seq<Asked>) returns (trace: seq<Applied>)
    requires Synced(s)
    ensures ServesToken(trace, s, table, qs) && trace[|qs|] == ApplyTokenAll(s, table, qs)
  {
    hide Synced, TakesToken, ApplyTokenOne;
    if qs == [] {
      trace := [Applied(s, [], [], [], None)];
    } else {
      var init, q := qs[..|qs| - 1], qs[|qs| - 1];
      var before := TokenBatchServed(s, table, init);
      TokenAllSynced(s, table, init);
      TokenOneTakes(before[|init|], table, q);
      trace := before + [ApplyTokenOne(before[|init|], table, q)];
      forall i | 0 <= i < |qs|
        ensures TakesToken(trace[i], trace[i + 1], table, qs[i])
      {
        if i < |init| { assert qs[i] == init[i]; }
      }
    }
  }

  lemma TokenAllSynced(s: Side, table: FeeTable, qs: seq<Asked>)
    requires Synced(s)
    ensures var a := ApplyTokenAll(s, table, qs); Synced(a.side) && a.error == None
  {
    hide Synced, SameFrame, DuesMatch;
    TokenAllKeeps(s, table, qs);
  }

  /** Applying a token batch serves its requests in order. */
  lemma ApplyTokenServes(n: Node, table: FeeTable, asked: seq<Asked>) returns (trace: seq<Applied>)
    requires NodeOk(n)
    ensures Step(n, ApplyToken(table, asked)).Ok?
    ensures ServesToken(trace, n.side, table, asked)
    ensures var m, last := Step(n, ApplyToken(table, asked)).value, trace[|asked|];
      && m.done == n.done && |m.pending| == |n.pending| + 1 && m.pending[..|n.pending|] == n.pending
      && m.pending[|n.pending|].TokenBatch? && m.pending[|n.pending|].appended == last.appended
      && m.pending[|n.pending|].due == last.due
      && Uncommitted(m.side) == Uncommitted(last.side) && m.side.tail == last.side.tail
      && m.side.ledger == n.side.ledger && m.side.deducted == last.side.deducted
  {
    NodeSynced(n);
    TokenAllSynced(n.side, table, asked);
    TokenAllKeeps(n.side, table, asked);
    trace := TokenBatchServed(n.side, table, asked);
    var a := ApplyTokenAll(n.side, table, asked);
    CreateBatchKeepsView(a.side.cache, a.side.head);
    hide NodeOk, ServesToken, ApplyTokenAll, Synced, CreateBatch, View, DuesMatch;
  }
}
