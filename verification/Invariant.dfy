/** What every protocol event keeps: the four structures of the token side stay aligned. */
module Invariant {
  import opened Types
  import Text
  import Stores
  import opened TokenLedger
  import opened Replay
  import Requests
  import opened Authorizer
  import opened Protocol

  // ----- inside a batch -----

  /** The uncommitted books are what the whole ledger, tail included, amounts to. */
  ghost predicate Synced(s: Side) {
    ValidLedger(Full(s)) && Uncommitted(s) == Replayed(Full(s))
  }

  /** The fee in force when each transaction was authorized is its difference. */
  ghost predicate DuesMatch(l: seq<TokenTxn>, due: seq<nat>) {
    && |l| == |due|
    && forall i :: 0 <= i < |l| && !l[i].Mint? ==> Difference(Replayed(l[..i]).index, l[i]) == due[i]
  }

  lemma DuesSnoc(l: seq<TokenTxn>, due: seq<nat>, txn: TokenTxn, d: nat)
    requires DuesMatch(l, due) && (!txn.Mint? ==> Difference(Replayed(l).index, txn) == d)
    ensures DuesMatch(l + [txn], due + [d])
  {
    var m := l + [txn];
    forall i | 0 <= i < |m| && !m[i].Mint?
      ensures Difference(Replayed(m[..i]).index, m[i]) == (due + [d])[i]
    {
      assert m[..i] == if i < |l| then l[..i] else l;
    }
  }

  /** What no event of applying a batch touches. */
  ghost predicate SameFrame(s: Side, t: Side) {
    && t.ledger == s.ledger && t.committedHead == s.committedHead && t.tracker == s.tracker
    && t.cache.base == s.cache.base && t.cache.pending == s.cache.pending
  }

  /** Appending a valid transaction raises nothing and keeps the books in step. */
  lemma AppendKeeps(s: Side, txn: TokenTxn)
    requires Synced(s) && ValidTxn(Uncommitted(s), txn, |Full(s)| + 1)
    ensures var (t, error) := AppendTxn(s, txn);
      error == None && Synced(t) && SameFrame(s, t) && t.tail == s.tail + [txn] && Full(t) == Full(s) + [txn]
      && t.feesInBatch == s.feesInBatch && t.deducted == s.deducted
  {
    hide Coherent, ApplyTxn, LiveMap, Bounded, ValidTxn, Difference, Stores.View, NextLive;
    var l, d := Full(s), ApplyTxn(Uncommitted(s), txn);
    LedgerCoherent(l);
    ApplyWorks(Replayed(l), txn, |l| + 1);
    ExtendLedger(l, txn);
    Stores.ViewOfWrite(s.cache, d.writes, false);
    assert s.ledger + (s.tail + [txn]) == l + [txn];
  }

  // ----- the domain batch being applied -----

  function PaidSeqNos(txns: seq<DomainTxn>): seq<int> {
    if txns == [] then []
    else
      var init, t := txns[..|txns| - 1], txns[|txns| - 1];
      PaidSeqNos(init) + if t.paid then [t.seqNo] else []
  }

  function Refs(fees: seq<TokenTxn>): seq<int>
    requires forall i :: 0 <= i < |fees| ==> fees[i].Fee?
  {
    if fees == [] then [] else Refs(fees[..|fees| - 1]) + [fees[|fees| - 1].ref]
  }

  /** The token transactions of a domain batch are fee transactions naming, in order, exactly
      the domain transactions that paid. */
  ghost predicate PaysFor(fees: seq<TokenTxn>, txns: seq<DomainTxn>) {
    (forall i :: 0 <= i < |fees| ==> fees[i].Fee?) && Refs(fees) == PaidSeqNos(txns)
  }

  ghost predicate Numbered(txns: seq<DomainTxn>, first: int) {
    forall i :: 0 <= i < |txns| ==> txns[i].seqNo == first + i
  }

  ghost predicate PaidSlotsKept(deducted: map<string, int>, txns: seq<DomainTxn>) {
    forall i :: 0 <= i < |txns| && txns[i].paid ==> SlotOf(txns[i]) in deducted
  }

  /** The books of `t` extend those of `s` by the given transactions, and nothing else. */
  ghost predicate Extends(s: Side, t: Side, appended: seq<TokenTxn>, due: seq<nat>) {
    && Synced(t) && SameFrame(s, t)
    && t.tail == s.tail + appended
    && |due| == |appended|
    && s.deducted.Keys <= t.deducted.Keys
    && (forall before :: DuesMatch(Full(s), before) ==> DuesMatch(Full(t), before + due))
  }

  ghost predicate Grown(s: Side, a: Applied) { a.error == None && Extends(s, a.side, a.appended, a.due) }

  ghost predicate GrownDomain(s: Side, a: Applied, first: int) { Grown(s, a) && Charged(s, a, first) }

  /** The charges made so far are the fee transactions of the paid domain transactions. */
  ghost predicate Charged(s: Side, a: Applied, first: int) {
    && PaysFor(a.appended, a.txns) && Numbered(a.txns, first)
    && PaidSlotsKept(a.side.deducted, a.txns)
    && a.side.feesInBatch == s.feesInBatch + |a.appended|
    && (a.appended == [] ==> a.side.cache == s.cache && a.side.head == s.head)
  }

  lemma ExtendsSnoc(s: Side, t: Side, appended: seq<TokenTxn>, due: seq<nat>, u: Side, txn: TokenTxn, d: nat)
    requires Extends(s, t, appended, due) && Synced(u) && SameFrame(t, u) && u.tail == t.tail + [txn]
    requires t.deducted.Keys <= u.deducted.Keys
    requires !txn.Mint? ==> Difference(Uncommitted(t).index, txn) == d
    ensures Extends(s, u, appended + [txn], due + [d])
  {
    hide DuesMatch, Difference, ValidLedger, Replayed, Stores.View;
    assert u.tail == s.tail + (appended + [txn]);
    assert Full(u) == Full(t) + [txn];
    forall before | DuesMatch(Full(s), before)
      ensures DuesMatch(Full(u), before + (due + [d]))
    {
      DuesSnoc(Full(t), before + due, txn, d);
      assert before + (due + [d]) == before + due + [d];
    }
  }

  lemma PaysForSnoc(fees: seq<TokenTxn>, txns: seq<DomainTxn>, t: DomainTxn, more: seq<TokenTxn>)
    requires PaysFor(fees, txns)
    requires more == [] || (|more| == 1 && more[0].Fee? && more[0].ref == t.seqNo)
    requires t.paid <==> more != []
    ensures PaysFor(fees + more, txns + [t])
  {
    assert (txns + [t])[..|txns|] == txns;
    assert fees + [] == fees;
    if more != [] {
      assert (fees + more)[..|fees|] == fees;
      assert forall i :: 0 <= i < |fees| ==> (fees + more)[i] == fees[i];
    }
  }

  /** What one charge does, and the fee it records. */
  ghost predicate ChargedOnce(s: Side, t: Side, r: Requests.Request, n: int, fee: nat)
    requires r.fees.Some?
  {
    && Synced(t) && SameFrame(s, t) && t.tail == s.tail + [ChargeTxn(s, r, n)]
    && t.feesInBatch == s.feesInBatch + 1 && t.deducted == s.deducted[Text.SlotKey(r.txnType, n) := fee]
    && Difference(Uncommitted(s).index, ChargeTxn(s, r, n)) == fee
  }

  /** Charging an accepted request raises nothing and records exactly the fee in force. */
  lemma ChargeKeeps(s: Side, table: FeeTable, q: Asked, n: int)
    requires Synced(s) && !IsToken(q.request) && q.request.fees.Some? && Accepted(s, table, q)
    ensures Charge(s, q.request, n).1 == None
    ensures ChargedOnce(s, Charge(s, q.request, n).0, q.request, n, FeeFor(table, q.alias))
  {
    hide ValidLedger, Replayed, AppendTxn, Accepted, FeeFor, Difference, ValidTxn, ChargeTxn;
    ChargeTxnIsValid(s, table, q, n);
    AppendKeeps(s, ChargeTxn(s, q.request, n));
  }

  lemma ChargeTxnIsValid(s: Side, table: FeeTable, q: Asked, n: int)
    requires !IsToken(q.request) && q.request.fees.Some? && Accepted(s, table, q)
    ensures ValidTxn(Uncommitted(s), ChargeTxn(s, q.request, n), |Full(s)| + 1)
    ensures var txn := ChargeTxn(s, q.request, n);
      txn.fees == FeeFor(table, q.alias) == Difference(Uncommitted(s).index, txn)
  {
    hide ValidTxn, Authorize, Requests.ValidateRequest, Difference;
    AcceptedFee(Uncommitted(s), table, q.alias, q.request, q.decodes, |Full(s)| + 1, n);
  }

  /** The charge of one accepted request extends the books. */
  lemma {:induction false} ChargeGrows(s: Side, a: Applied, first: int, table: FeeTable, q: Asked)
    requires Grown(s, a) && Synced(a.side) && !IsToken(q.request) && q.request.fees.Some? && Accepted(a.side, table, q)
    ensures Grown(s, ApplyDomainOne(a, first, table, q))
  {
    hide Synced, SameFrame, Accepted, Charge, FeeFor, Extends, ChargeTxn, Difference, Uncommitted, Text.SlotKey;
    var r, n, t := q.request, first + |a.txns|, a.side;
    ChargeKeeps(t, table, q, n);
    ExtendsSnoc(s, t, a.appended, a.due, Charge(t, r, n).0, ChargeTxn(t, r, n), FeeFor(table, q.alias));
  }

  lemma {:induction false} ChargePays(s: Side, a: Applied, first: int, table: FeeTable, q: Asked)
    requires Synced(a.side) && a.error == None && Charged(s, a, first)
    requires !IsToken(q.request) && q.request.fees.Some? && Accepted(a.side, table, q)
    ensures Charged(s, ApplyDomainOne(a, first, table, q), first)
  {
    hide Synced, SameFrame, PaysFor, Accepted, Charge, FeeFor, ChargeTxn, Difference, Uncommitted, Text.SlotKey;
    var r, n := q.request, first + |a.txns|;
    ChargeKeeps(a.side, table, q, n);
    PaysForSnoc(a.appended, a.txns, DomainTxn(r.txnType, n, true), [ChargeTxn(a.side, r, n)]);
  }

  lemma {:induction false} UnpaidKeeps(s: Side, a: Applied, first: int, table: FeeTable, q: Asked)
    requires GrownDomain(s, a, first) && !IsToken(q.request) && q.request.fees.None? && Accepted(a.side, table, q)
    ensures GrownDomain(s, ApplyDomainOne(a, first, table, q), first)
  {
    hide Extends, PaysFor, Accepted;
    PaysForSnoc(a.appended, a.txns, DomainTxn(q.request.txnType, first + |a.txns|, false), []);
    assert a.appended + [] == a.appended;
  }

  lemma {:induction false} DomainOneKeeps(s: Side, a: Applied, first: int, table: FeeTable, q: Asked)
    requires GrownDomain(s, a, first)
    ensures GrownDomain(s, ApplyDomainOne(a, first, table, q), first)
  {
    if IsToken(q.request) || !Accepted(a.side, table, q) {
      assert ApplyDomainOne(a, first, table, q) == a;
    } else if q.request.fees.None? {
      UnpaidKeeps(s, a, first, table, q);
    } else {
      ChargeGrows(s, a, first, table, q);
      ChargePays(s, a, first, table, q);
    }
  }

  lemma GrownNothing(s: Side)
    requires Synced(s)
    ensures Grown(s, Applied(s, [], [], [], None))
  {
    assert s.tail + [] == s.tail;
    forall due | DuesMatch(Full(s), due) ensures DuesMatch(Full(s), due + []) { assert due + [] == due; }
  }

  /** Every request of a domain batch is either dropped or applied entirely. */
  lemma {:induction false} DomainAllKeeps(s: Side, first: int, table: FeeTable, qs: seq<Asked>)
    requires Synced(s)
    ensures GrownDomain(s, ApplyDomainAll(s, first, table, qs), first)
  {
    if qs == [] {
      GrownNothing(s);
    } else {
      var init := qs[..|qs| - 1];
      DomainAllKeeps(s, first, table, init);
      DomainOneKeeps(s, ApplyDomainAll(s, first, table, init), first, table, qs[|qs| - 1]);
    }
  }

  // ----- the token batch being applied -----

  ghost predicate GrownToken(s: Side, a: Applied) {
    Grown(s, a) && a.side.deducted == s.deducted && a.side.feesInBatch == s.feesInBatch
  }

  lemma TokenTxnIsValid(s: Side, table: FeeTable, q: Asked)
    requires IsToken(q.request) && Accepted(s, table, q)
    ensures ValidTxn(Uncommitted(s), TokenTxnOf(s, q.request), |Full(s)| + 1)
    ensures var txn := TokenTxnOf(s, q.request);
      !txn.Mint? ==> Difference(Uncommitted(s).index, txn) == TokenDue(table, q)
  {
    hide Authorize, Requests.ValidateRequest, ValidTxn, Difference;
    if q.request.txnType == Requests.MINT_PUBLIC {
      AcceptedMint(Uncommitted(s), q.request, q.decodes, |Full(s)| + 1);
    } else {
      AcceptedXfer(Uncommitted(s), table, q.alias, q.request, q.decodes, |Full(s)| + 1);
    }
  }

  lemma {:induction false} TokenOneKeeps(s: Side, a: Applied, table: FeeTable, q: Asked)
    requires GrownToken(s, a) && Synced(a.side)
    ensures GrownToken(s, ApplyTokenOne(a, table, q))
  {
    hide Synced, SameFrame, Accepted, AppendTxn, TokenDue, Extends, TokenTxnOf, Difference, Uncommitted, ValidTxn;
    if IsToken(q.request) && Accepted(a.side, table, q) {
      var txn, d := TokenTxnOf(a.side, q.request), TokenDue(table, q);
      TokenTxnIsValid(a.side, table, q);
      AppendKeeps(a.side, txn);
      ExtendsSnoc(s, a.side, a.appended, a.due, AppendTxn(a.side, txn).0, txn, d);
    }
  }

  /** Every request of a token batch is either dropped or applied entirely. */
  lemma {:induction false} TokenAllKeeps(s: Side, table: FeeTable, qs: seq<Asked>)
    requires Synced(s)
    ensures GrownToken(s, ApplyTokenAll(s, table, qs))
  {
    if qs == [] {
      GrownNothing(s);
    } else {
      var init := qs[..|qs| - 1];
      TokenAllKeeps(s, table, init);
      TokenOneKeeps(s, ApplyTokenAll(s, table, init), table, qs[|qs| - 1]);
    }
  }
}
