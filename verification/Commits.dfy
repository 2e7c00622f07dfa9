/** Committing the oldest batch: when it succeeds, what it commits, and how replies are paired. */
module Commits {
  import opened Types
  import opened Stores
  import opened TokenLedger
  import opened Replay
  import opened Protocol
  import opened Invariant
  import opened Alignment
  import opened Runs

  /** Every slot of the batch found in the table belongs to a transaction that paid: none was
      left there by a rejected batch. */
  ghost predicate NoStaleSlot(deducted: map<string, int>, txns: seq<DomainTxn>) {
    forall i :: 0 <= i < |txns| && SlotOf(txns[i]) in deducted ==> txns[i].paid
  }

  // ----- the transactions counted as charged -----

  /** Without stale slots, the table counts exactly the transactions that paid. */
  lemma {:induction false} ChargedIsPaid(deducted: map<string, int>, txns: seq<DomainTxn>)
    requires PaidSlotsKept(deducted, txns) && NoStaleSlot(deducted, txns)
    ensures ChargedSeqNos(deducted, txns) == PaidSeqNos(txns)
  {
    if txns != [] {
      ChargedIsPaid(deducted, txns[..|txns| - 1]);
    }
  }

  /** With a stale slot it counts too many. */
  lemma {:induction false} StaleCountsMore(deducted: map<string, int>, txns: seq<DomainTxn>)
    requires PaidSlotsKept(deducted, txns)
    ensures |ChargedSeqNos(deducted, txns)| >= |PaidSeqNos(txns)|
    ensures !NoStaleSlot(deducted, txns) ==> |ChargedSeqNos(deducted, txns)| > |PaidSeqNos(txns)|
  {
    if txns != [] {
      hide Text.SlotKey, SlotOf;
      var init, t := txns[..|txns| - 1], txns[|txns| - 1];
      StaleCountsMore(deducted, init);
      if NoStaleSlot(deducted, init) && (SlotOf(t) in deducted ==> t.paid) {
        NoStaleSnoc(deducted, txns);
      }
    }
  }

  lemma NoStaleSnoc(deducted: map<string, int>, txns: seq<DomainTxn>)
    requires txns != [] && NoStaleSlot(deducted, txns[..|txns| - 1])
    requires SlotOf(txns[|txns| - 1]) in deducted ==> txns[|txns| - 1].paid
    ensures NoStaleSlot(deducted, txns)
  {
    hide SlotOf;
    forall i | 0 <= i < |txns| && SlotOf(txns[i]) in deducted
      ensures txns[i].paid
    {
      if i < |txns| - 1 { assert txns[..|txns| - 1][i] == txns[i]; }
    }
  }

  lemma {:induction false} RefsLength(fees: seq<TokenTxn>)
    requires forall i :: 0 <= i < |fees| ==> fees[i].Fee?
    ensures |Refs(fees)| == |fees|
  {
    if fees != [] { RefsLength(fees[..|fees| - 1]); }
  }

  // ----- pairing -----

  /** How many of the transactions the pairing loop looks for. */
  function Wanted(txns: seq<DomainTxn>, charged: seq<int>): nat {
    if txns == [] then 0 else (if txns[0].seqNo in charged then 1 else 0) + Wanted(txns[1..], charged)
  }

  lemma {:induction false} WantedConcat(a: seq<DomainTxn>, b: seq<DomainTxn>, charged: seq<int>)
    ensures Wanted(a + b, charged) == Wanted(a, charged) + Wanted(b, charged)
  {
    if a == [] {
      assert a + b == b;
    } else {
      assert (a + b)[1..] == a[1..] + b;
      WantedConcat(a[1..], b, charged);
    }
  }

  /** Every transaction counted as charged is looked for. */
  lemma {:induction false} WantedAtLeast(deducted: map<string, int>, txns: seq<DomainTxn>, charged: seq<int>)
    requires forall n :: n in ChargedSeqNos(deducted, txns) ==> n in charged
    ensures Wanted(txns, charged) >= |ChargedSeqNos(deducted, txns)|
  {
    hide SlotOf;
    if txns != [] {
      var init, t := txns[..|txns| - 1], txns[|txns| - 1];
      var counted := ChargedSeqNos(deducted, txns);
      assert counted == ChargedSeqNos(deducted, init) + if SlotOf(t) in deducted then [t.seqNo] else [];
      assert forall n :: n in ChargedSeqNos(deducted, init) ==> n in counted;
      WantedAtLeast(deducted, init, charged);
      assert txns == init + [t];
      WantedConcat(init, [t], charged);
      if SlotOf(t) in deducted {
        assert counted[|counted| - 1] == t.seqNo && t.seqNo in counted;
        assert Wanted([t], charged) == 1 + Wanted([], charged);
      }
    }
  }

  /** Pairing succeeds exactly if there is a fee transaction for each one looked for. */
  lemma {:induction false} PairingNeeds(txns: seq<DomainTxn>, charged: seq<int>, committed: seq<TokenTxn>)
    ensures PairReplies(txns, charged, committed).Ok? <==> Wanted(txns, charged) <= |committed|
    ensures PairReplies(txns, charged, committed).Err? ==> PairReplies(txns, charged, committed).error == IndexOutOfRange
  {
    if txns != [] {
      PairingNeeds(txns[1..], charged, if txns[0].seqNo in charged && committed != [] then committed[1..] else committed);
    }
  }

  lemma {:induction false} PaidConcat(a: seq<DomainTxn>, b: seq<DomainTxn>)
    ensures PaidSeqNos(a + b) == PaidSeqNos(a) + PaidSeqNos(b)
  {
    if b == [] {
      assert a + b == a && PaidSeqNos(a) + [] == PaidSeqNos(a);
    } else {
      var init := b[..|b| - 1];
      assert (a + b)[..|a + b| - 1] == a + init;
      PaidConcat(a, init);
    }
  }

  lemma {:induction false} RefsConcat(a: seq<TokenTxn>, b: seq<TokenTxn>)
    requires forall i :: 0 <= i < |a + b| ==> (a + b)[i].Fee?
    requires (forall i :: 0 <= i < |a| ==> a[i].Fee?) && (forall i :: 0 <= i < |b| ==> b[i].Fee?)
    ensures Refs(a + b) == Refs(a) + Refs(b)
  {
    if b == [] {
      assert a + b == a && Refs(a) + [] == Refs(a);
    } else {
      var init := b[..|b| - 1];
      assert (a + b)[..|a + b| - 1] == a + init;
      RefsConcat(a, init);
    }
  }

  /** The fee transactions that replies carry, in the order of the replies. */
  function Attached(replies: seq<Reply>): seq<TokenTxn> {
    if replies == [] then []
    else (if replies[0].fees.Some? then [replies[0].fees.value] else []) + Attached(replies[1..])
  }

  /** There is a reply for each transaction, in order, and it carries a fee transaction exactly
      when its transaction paid, the one whose REF names it; and the fee transactions carried
      are, in order and unaltered, the given ones. */
  ghost predicate WellPaired(txns: seq<DomainTxn>, replies: seq<Reply>, fees: seq<TokenTxn>) {
    && |replies| == |txns| && Attached(replies) == fees
    && forall i :: 0 <= i < |txns| ==>
      && replies[i].txn == txns[i]
      && (replies[i].fees.Some? <==> txns[i].paid)
      && (txns[i].paid ==> replies[i].fees.value.Fee? && replies[i].fees.value.ref == txns[i].seqNo)
  }

  lemma WellPairedCons(txns: seq<DomainTxn>, reply: Reply, rest: seq<Reply>, fees: seq<TokenTxn>)
    requires txns != [] && WellPaired(txns[1..], rest, fees) && reply.txn == txns[0]
    requires reply.fees.Some? <==> txns[0].paid
    requires txns[0].paid ==> reply.fees.value.Fee? && reply.fees.value.ref == txns[0].seqNo
    ensures WellPaired(txns, [reply] + rest, if txns[0].paid then [reply.fees.value] + fees else fees)
  {
    assert ([reply] + rest)[1..] == rest && [] + fees == fees;
    assert forall i :: 1 <= i < |txns| ==> ([reply] + rest)[i] == rest[i - 1] && txns[i] == txns[1..][i - 1];
  }

  lemma PaysForTail(fees: seq<TokenTxn>, txns: seq<DomainTxn>)
    requires PaysFor(fees, txns) && txns != []
    ensures !txns[0].paid ==> PaysFor(fees, txns[1..])
    ensures txns[0].paid ==> fees != [] && fees[0].Fee? && fees[0].ref == txns[0].seqNo && PaysFor(fees[1..], txns[1..])
  {
    assert txns == [txns[0]] + txns[1..];
    PaidConcat([txns[0]], txns[1..]);
    assert [txns[0]][..0] == [];
    RefsLength(fees);
    if fees != [] {
      assert fees == [fees[0]] + fees[1..];
      RefsConcat([fees[0]], fees[1..]);
      assert [fees[0]][..0] == [];
    }
    if !txns[0].paid {
      assert PaidSeqNos(txns) == PaidSeqNos(txns[1..]);
    } else {
      assert PaidSeqNos(txns) == [txns[0].seqNo] + PaidSeqNos(txns[1..]);
      assert fees != [] ==> Refs(fees)[1..] == Refs(fees[1..]) && Refs(fees)[0] == fees[0].ref;
    }
  }

  lemma NoFeesForNone(fees: seq<TokenTxn>)
    requires PaysFor(fees, [])
    ensures fees == []
  {
    RefsLength(fees);
  }

  lemma {:induction false} PairingIsRight(txns: seq<DomainTxn>, charged: seq<int>, fees: seq<TokenTxn>)
    requires PaysFor(fees, txns)
    requires forall i :: 0 <= i < |txns| ==> (txns[i].seqNo in charged <==> txns[i].paid)
    ensures PairReplies(txns, charged, fees).Ok?
    ensures WellPaired(txns, PairReplies(txns, charged, fees).value, fees)
  {
    if txns != [] {
      hide PaysFor, WellPaired;
      PaysForTail(fees, txns);
      var rest := if txns[0].paid then fees[1..] else fees;
      PairingIsRight(txns[1..], charged, rest);
      WellPairedCons(txns, Reply(txns[0], if txns[0].paid then Some(fees[0]) else None),
                     PairReplies(txns[1..], charged, rest).value, rest);
      if txns[0].paid { assert [fees[0]] + fees[1..] == fees; }
    } else {
      NoFeesForNone(fees);
      assert WellPaired(txns, [], []);
    }
  }

  lemma {:induction false} UnpairedIsRight(txns: seq<DomainTxn>)
    requires forall i :: 0 <= i < |txns| ==> !txns[i].paid
    ensures WellPaired(txns, Unpaired(txns), [])
  {
    if txns != [] {
      UnpairedIsRight(txns[1..]);
      WellPairedCons(txns, Reply(txns[0], None), Unpaired(txns[1..]), []);
    }
  }

  /** seqNos being distinct, a seqNo is among the paid ones exactly when its transaction paid. */
  lemma {:induction false} PaidMembership(txns: seq<DomainTxn>, first: int)
    requires Numbered(txns, first)
    ensures forall n :: n in PaidSeqNos(txns) ==> first <= n < first + |txns|
    ensures forall i :: 0 <= i < |txns| ==> (txns[i].seqNo in PaidSeqNos(txns) <==> txns[i].paid)
  {
    if txns != [] {
      PaidMembership(txns[..|txns| - 1], first);
    }
  }

  lemma {:induction false} NonePaid(txns: seq<DomainTxn>, i: nat)
    requires PaidSeqNos(txns) == [] && i < |txns|
    ensures !txns[i].paid
  {
    if i < |txns| - 1 { NonePaid(txns[..|txns| - 1], i); }
  }

  // ----- what a successful commit leaves -----

  /** The node with its oldest batch moved from the pending to the committed part. */
  ghost predicate Advanced(n: Node, m: Node) {
    && n.pending != [] && n.side.tracker.queue != []
    && (MakesCacheBatch(n.pending[0]) ==> n.side.cache.pending != [])
    && m.done == n.done + [n.pending[0]] && m.pending == n.pending[1..]
    && m.side.ledger == n.side.ledger + n.pending[0].appended && m.side.tail == Appended(m.pending)
    && m.side.head == n.side.head && m.side.committedHead == Replayed(m.side.ledger).state
    && m.side.tracker == TrackerCommit(n.side.tracker)
    && m.side.cache == (if MakesCacheBatch(n.pending[0]) then CommitBatch(n.side.cache) else n.side.cache)
    && m.side.feesInBatch == 0 && m.side.deducted == n.side.deducted
  }

  lemma OldestFacts(n: Node)
    requires NodeOk(n) && n.pending != []
    ensures OldestFits(n.side.ledger, n.pending, n.side.tracker.queue, n.side.cache.pending)
    ensures n.side.tail == n.pending[0].appended + Appended(n.pending[1..])
  {
    AlignedOldest(n.side.ledger, n.pending, n.side.tracker.queue, n.side.cache.pending);
    AppendedFirst(n.pending);
  }

  lemma AdvancedFull(n: Node, m: Node)
    requires NodeOk(n) && Advanced(n, m)
    ensures Full(m.side) == Full(n.side) && History(m) == History(n)
    ensures View(m.side.cache, false) == View(n.side.cache, false)
  {
    hide Aligned, Fits, LayerFits, Synced, DuesMatch, Replayed, EntryOf, RecordsOk, Appended, Overlay;
    OldestFacts(n);
    assert n.pending == [n.pending[0]] + n.pending[1..];
    if MakesCacheBatch(n.pending[0]) {
      OverlayCommit(n.side.cache.base, n.side.cache.pending);
    }
  }

  lemma AdvancedQueues(n: Node, m: Node)
    requires NodeOk(n) && Advanced(n, m)
    ensures QueuesOk(m)
  {
    hide Synced, DuesMatch, Replayed, EntryOf, RecordsOk, LayerFits, Fits;
    OldestFacts(n);
    HistorySnoc(n.done, n.pending[0]);
  }

  lemma AdvancedBooks(n: Node, m: Node)
    requires NodeOk(n) && Advanced(n, m)
    ensures BooksOk(m.side)
  {
    hide DuesMatch, Replayed, RecordsOk, Fits, Aligned, ValidLedger, View;
    OldestFacts(n);
    AdvancedFull(n, m);
    assert n.side.ledger + [] == n.side.ledger;
  }

  lemma AdvancedIsOk(n: Node, m: Node)
    requires NodeOk(n) && Advanced(n, m)
    ensures NodeOk(m)
  {
    hide BooksOk, QueuesOk, DuesMatch, Numbered, PaidSlotsKept;
    AdvancedBooks(n, m);
    AdvancedQueues(n, m);
    AdvancedFull(n, m);
  }

  lemma CommitToken(n: Node)
    requires NodeOk(n) && n.pending != [] && n.pending[0].TokenBatch?
    ensures Step(n, CommitOldest).Ok? && Advanced(n, Step(n, CommitOldest).value)
  {
    hide DuesMatch, Replayed, RecordsOk, Aligned, ValidLedger, View, Synced;
    OldestFacts(n);
    MoveOldest(n.side, n.pending[0].appended, Appended(n.pending[1..]));
  }

  /** Moving as many transactions as the oldest batch appended moves exactly those. */
  lemma MoveOldest(s: Side, mine: seq<TokenTxn>, rest: seq<TokenTxn>)
    requires s.tail == mine + rest
    ensures Min(|mine|, |s.tail|) == |mine| && s.tail[..|mine|] == mine && s.tail[|mine|..] == rest
  {
  }

  // ----- the domain batch -----

  lemma OldestNumbered(n: Node)
    requires Numbered(DomainTxns(History(n)), 1) && n.pending != []
    ensures Numbered(TxnsOf(n.pending[0]), |DomainTxns(n.done)| + 1)
  {
    var b := n.pending[0];
    assert History(n) == (n.done + [b]) + n.pending[1..];
    DomainTxnsConcat(n.done + [b], n.pending[1..]);
    HistorySnoc(n.done, b);
    NumberedPrefix(DomainTxns(n.done + [b]), DomainTxns(n.pending[1..]), 1);
    NumberedPrefix(DomainTxns(n.done), TxnsOf(b), 1);
  }

  lemma OldestDomain(n: Node)
    requires NodeOk(n) && n.pending != [] && n.pending[0].DomainBatch?
    ensures var b := n.pending[0];
      && PaysFor(b.appended, b.txns) && PaidSlotsKept(n.side.deducted, b.txns) && |PaidSeqNos(b.txns)| == |b.appended|
      && Numbered(b.txns, |DomainTxns(n.done)| + 1)
  {
    hide Aligned, Synced, DuesMatch, EntryOf, LayerFits, Numbered, Appended, PaidSlotsKept, Replayed, DomainTxns;
    OldestFacts(n);
    RefsLength(n.pending[0].appended);
    assert PaidSlotsKept(n.side.deducted, TxnsOf(n.pending[0]));
    OldestNumbered(n);
  }

  lemma {:induction false} DomainTxnsConcat(g: seq<BatchRec>, h: seq<BatchRec>)
    ensures DomainTxns(g + h) == DomainTxns(g) + DomainTxns(h)
  {
    if h == [] {
      assert g + h == g;
    } else {
      assert (g + h)[..|g + h| - 1] == g + h[..|h| - 1];
      DomainTxnsConcat(g, h[..|h| - 1]);
    }
  }

  lemma CommitUncharged(n: Node)
    requires NodeOk(n) && n.pending != [] && n.pending[0].DomainBatch? && n.pending[0].appended == []
    requires NoStaleSlot(n.side.deducted, n.pending[0].txns)
    ensures Step(n, CommitOldest).Ok? && Advanced(n, Step(n, CommitOldest).value)
    ensures DomainCommitted(n.side, n.pending[0].txns).1.Ok?
    ensures WellPaired(n.pending[0].txns, DomainCommitted(n.side, n.pending[0].txns).1.value, n.pending[0].appended)
  {
    hide Replayed, Aligned, Synced, PaysFor, WellPaired, RecordsOk, NoStaleSlot, PaidSlotsKept, PaidSeqNos, Unpaired, Appended;
    var b := n.pending[0];
    OldestFacts(n);
    OldestDomain(n);
    ChargedIsPaid(n.side.deducted, b.txns);
    forall i | 0 <= i < |b.txns| ensures !b.txns[i].paid { NonePaid(b.txns, i); }
    UnpairedIsRight(b.txns);
    assert n.side.ledger + [] == n.side.ledger;
    assert [] + Appended(n.pending[1..]) == Appended(n.pending[1..]);
  }

  lemma CommitCharged(n: Node)
    requires NodeOk(n) && n.pending != [] && n.pending[0].DomainBatch? && n.pending[0].appended != []
    requires NoStaleSlot(n.side.deducted, n.pending[0].txns)
    ensures Step(n, CommitOldest).Ok? && Advanced(n, Step(n, CommitOldest).value)
    ensures DomainCommitted(n.side, n.pending[0].txns).1.Ok?
    ensures WellPaired(n.pending[0].txns, DomainCommitted(n.side, n.pending[0].txns).1.value, n.pending[0].appended)
  {
    hide Replayed, Aligned, Synced, PaysFor, WellPaired, RecordsOk, NoStaleSlot, PaidSlotsKept, PaidSeqNos, PairReplies, Appended;
    var b := n.pending[0];
    OldestFacts(n);
    OldestDomain(n);
    ChargedIsPaid(n.side.deducted, b.txns);
    PaidMembership(b.txns, |DomainTxns(n.done)| + 1);
    PairingIsRight(b.txns, PaidSeqNos(b.txns), b.appended);
    MoveOldest(n.side, b.appended, Appended(n.pending[1..]));
  }

  /** Looking for more fee transactions than the batch appended raises: the ledger root differs
      when later ones are taken too, and the pairing loop runs out of them when there are none. */
  lemma OvercountRaises(s: Side, txns: seq<DomainTxn>, mine: seq<TokenTxn>, rest: seq<TokenTxn>)
    requires s.tracker.queue != [] && s.tracker.queue[0].txnRoot == s.ledger + mine && s.tail == mine + rest
    requires |ChargedSeqNos(s.deducted, txns)| > |mine|
    ensures DomainCommitted(s, txns).1 == Err(
      if rest != [] then TxnRootMismatch
      else if s.cache.pending == [] || s.cache.pending[0].id != s.tracker.queue[0].stateRoot then CacheRootMismatch
      else IndexOutOfRange)
  {
    hide ChargedSeqNos, PairReplies, CommitBatch;
    var charged := ChargedSeqNos(s.deducted, txns);
    var k := Min(|charged|, |s.tail|);
    if k == |mine| {
      WantedAtLeast(s.deducted, txns, charged);
      PairingNeeds(txns, charged, s.tail[..k]);
    } else {
      assert |s.ledger + s.tail[..k]| > |s.ledger + mine|;
    }
  }

  /** A stale slot makes the commit raise, whatever else is pending. */
  lemma CommitStale(n: Node)
    requires NodeOk(n) && n.pending != [] && n.pending[0].DomainBatch?
    requires !NoStaleSlot(n.side.deducted, n.pending[0].txns)
    ensures DomainCommitted(n.side, n.pending[0].txns).1.Err? && Step(n, CommitOldest).Err?
  {
    hide Replayed, Aligned, Synced, PaysFor, RecordsOk, NoStaleSlot, PaidSlotsKept, Numbered, Appended, DomainCommitted, Fits, LayerFits;
    var b := n.pending[0];
    OldestFacts(n);
    OldestDomain(n);
    StaleCountsMore(n.side.deducted, b.txns);
    OvercountRaises(n.side, b.txns, b.appended, Appended(n.pending[1..]));
  }

  /** Committing a domain batch succeeds exactly when none of its unpaid transactions has its
      slot in the table; the committed ledger then grows by exactly the transactions that the batch
      appended, and these are, in order and unaltered, what the replies carry, each by the reply to
      the transaction that its REF names. */
  lemma CommitDomainExactly(n: Node)
    requires NodeOk(n) && n.pending != [] && n.pending[0].DomainBatch?
    ensures var b, answer := n.pending[0], DomainCommitted(n.side, n.pending[0].txns);
      && (answer.1.Ok? <==> NoStaleSlot(n.side.deducted, b.txns))
      && (answer.1.Ok? ==> WellPaired(b.txns, answer.1.value, b.appended) && Attached(answer.1.value) == b.appended)
      && (answer.1.Ok? ==> answer.0.ledger == n.side.ledger + b.appended)
      && (Step(n, CommitOldest).Ok? <==> answer.1.Ok?)
      && (answer.1.Ok? ==> Advanced(n, Step(n, CommitOldest).value))
  {
    hide NodeOk, DomainCommitted, WellPaired, NoStaleSlot;
    if !NoStaleSlot(n.side.deducted, n.pending[0].txns) {
      CommitStale(n);
    } else if n.pending[0].appended == [] {
      CommitUncharged(n);
    } else {
      CommitCharged(n);
    }
    var answer := DomainCommitted(n.side, n.pending[0].txns).1;
    if answer.Ok? { PairedAttach(n.pending[0].txns, answer.value, n.pending[0].appended); }
  }

  lemma PairedAttach(txns: seq<DomainTxn>, replies: seq<Reply>, fees: seq<TokenTxn>)
    requires WellPaired(txns, replies, fees)
    ensures Attached(replies) == fees
  {
  }

  /** Committing keeps the invariant; token batches always commit. */
  lemma CommitKeeps(n: Node)
    requires NodeOk(n)
    ensures Step(n, CommitOldest).Ok? <==>
      (n.pending == [] || n.pending[0].TokenBatch? || NoStaleSlot(n.side.deducted, TxnsOf(n.pending[0])))
    ensures Step(n, CommitOldest).Ok? ==> NodeOk(Step(n, CommitOldest).value)
    ensures Step(n, CommitOldest).Ok? && n.pending != [] ==> Advanced(n, Step(n, CommitOldest).value)
  {
    if n.pending != [] {
      hide Step, Advanced;
      OldestIsPendingKind(n);
      hide NodeOk;
      if n.pending[0].TokenBatch? {
        CommitToken(n);
      } else {
        CommitDomainExactly(n);
      }
      if Step(n, CommitOldest).Ok? {
        AdvancedIsOk(n, Step(n, CommitOldest).value);
      }
    }
  }

  lemma OldestIsPendingKind(n: Node)
    requires NodeOk(n) && n.pending != []
    ensures !n.pending[0].CaughtUp?
  {
    hide Aligned, Synced, RecordsOk;
    OldestFacts(n);
  }
}
