/** The invariant of a node between batches, kept by every event of every run. */
module Runs {
  import opened Types
  import opened Stores
  import TokenLedger
  import opened Replay
  import Authorizer
  import opened Protocol
  import opened Invariant
  import opened Alignment

  // ----- the invariant -----

  /** Committed and uncommitted books are what the committed ledger and the whole ledger amount to. */
  ghost predicate BooksOk(s: Side) {
    && Synced(s) && s.committedHead == Replayed(s.ledger).state && s.cache.base == Replayed(s.ledger).index
    && s.cache.ops == map[] && s.feesInBatch == 0 && s.tracker.lastCommitted == EntryOf(s.ledger)
  }

  /** The ledger tail is the pending batches' transactions, and tracker and cache line up with them. */
  ghost predicate QueuesOk(n: Node) {
    && n.side.ledger == Appended(n.done) && n.side.tail == Appended(n.pending)
    && Aligned(n.side.ledger, n.pending, n.side.tracker.queue, n.side.cache.pending)
  }

  ghost predicate SlotsKept(deducted: map<string, int>, h: seq<BatchRec>) {
    forall i :: 0 <= i < |h| ==> PaidSlotsKept(deducted, TxnsOf(h[i]))
  }

  ghost predicate RecordsOk(n: Node) {
    && DuesMatch(Full(n.side), Dues(History(n))) && Numbered(DomainTxns(History(n)), 1)
    && SlotsKept(n.side.deducted, n.pending)
  }

  ghost predicate NodeOk(n: Node) { BooksOk(n.side) && QueuesOk(n) && RecordsOk(n) }

  lemma GenesisOk()
    ensures NodeOk(Genesis)
  {
    assert Full(Fresh) == [];
    assert Replayed([]) == TokenLedger.TokenView(map[], map[]);
    assert View(Fresh.cache, false) == map[];
    assert History(Genesis) == [];
    assert EntryOf([]) == TrackEntry(map[], [], 0);
  }

  lemma HistoryIsFull(n: Node)
    requires QueuesOk(n)
    ensures Full(n.side) == Appended(History(n))
  {
    AppendedConcat(n.done, n.pending);
  }

  lemma {:induction false} AppendedConcat(g: seq<BatchRec>, h: seq<BatchRec>)
    ensures Appended(g + h) == Appended(g) + Appended(h)
  {
    if h == [] {
      assert g + h == g;
    } else {
      assert (g + h)[..|g + h| - 1] == g + h[..|h| - 1];
      AppendedConcat(g, h[..|h| - 1]);
    }
  }

  // ----- applying a batch -----

  /** The batch handlers' work at the end of a batch, for both ledgers. */
  function Close(t: Side, makes: bool): Side {
    if makes then Track(t).(cache := CreateBatch(t.cache, t.head), feesInBatch := 0) else Track(t)
  }

  lemma CloseBooks(s: Side, t: Side, b: BatchRec)
    requires BooksOk(s) && Extends(s, t, b.appended, b.due)
    requires !MakesCacheBatch(b) ==> t.cache == s.cache && t.feesInBatch == 0
    ensures BooksOk(Close(t, MakesCacheBatch(b)))
  {
    hide DuesMatch, EntryOf, Replayed, ValidLedger;
    CreateBatchKeepsView(t.cache, t.head);
    assert Full(Close(t, MakesCacheBatch(b))) == Full(t);
  }

  lemma CloseLayer(s: Side, t: Side, b: BatchRec)
    requires BooksOk(s) && Extends(s, t, b.appended, b.due)
    requires Overlay(s.cache.base, s.cache.pending) == Replayed(Full(s)).index
    ensures LayerFits(Batch(t.head, t.cache.ops), Full(s), Full(s) + b.appended)
  {
    hide DuesMatch, Replayed, ValidLedger;
    assert Full(t) == Full(s) + b.appended;
  }

  lemma CloseQueues(n: Node, t: Side, b: BatchRec)
    requires BooksOk(n.side) && QueuesOk(n) && Extends(n.side, t, b.appended, b.due) && Fits(b, Full(n.side))
    requires !MakesCacheBatch(b) ==> t.cache == n.side.cache
    ensures QueuesOk(Node(Close(t, MakesCacheBatch(b)), n.done, n.pending + [b]))
  {
    hide DuesMatch, ValidLedger, Fits, LayerFits, Replayed, PaysFor;
    var s, l, layers := n.side, n.side.ledger, n.side.cache.pending;
    AlignedView(l, n.pending, s.tracker.queue, layers);
    CloseLayer(s, t, b);
    HistorySnoc(n.pending, b);
    assert Full(t) == Full(s) + b.appended;
    assert Newest(t) == EntryOf(Full(t));
    var more := if MakesCacheBatch(b) then [Batch(t.head, t.cache.ops)] else [];
    AlignedSnoc(l, n.pending, s.tracker.queue, layers, b, more);
    assert layers + [] == layers;
  }

  lemma CloseRecords(n: Node, t: Side, b: BatchRec)
    requires RecordsOk(n) && Extends(n.side, t, b.appended, b.due)
    requires Numbered(TxnsOf(b), |DomainTxns(History(n))| + 1) && PaidSlotsKept(t.deducted, TxnsOf(b))
    ensures RecordsOk(Node(Close(t, MakesCacheBatch(b)), n.done, n.pending + [b]))
  {
    hide DuesMatch, Synced, SameFrame;
    var m := Node(Close(t, MakesCacheBatch(b)), n.done, n.pending + [b]);
    assert History(m) == History(n) + [b];
    HistorySnoc(History(n), b);
    assert Full(m.side) == Full(t);
    forall i | 0 <= i < |m.pending|
      ensures PaidSlotsKept(t.deducted, TxnsOf(m.pending[i]))
    {
      if i < |n.pending| { assert PaidSlotsKept(n.side.deducted, TxnsOf(n.pending[i])); }
    }
  }

  lemma ApplyDomainKeeps(n: Node, table: Authorizer.FeeTable, asked: seq<Asked>)
    requires NodeOk(n)
    ensures Step(n, ApplyDomain(table, asked)).Ok?
    ensures NodeOk(Step(n, ApplyDomain(table, asked)).value)
  {
    hide Aligned, DuesMatch, Synced, SameFrame, PaysFor, ApplyDomainAll, DomainTxns, Track, EntryOf;
    var first := |DomainTxns(History(n))| + 1;
    DomainAllKeeps(n.side, first, table, asked);
    var a := ApplyDomainAll(n.side, first, table, asked);
    var b := DomainBatch(a.txns, a.appended, a.due);
    CloseBooks(n.side, a.side, b);
    CloseQueues(n, a.side, b);
    CloseRecords(n, a.side, b);
  }

  /** The token batch that a list of requests becomes. */
  function TokenBatchOf(s: Side, a: Applied): BatchRec {
    TokenBatch(a.appended, a.due, s.head, a.side.head, Full(a.side))
  }

  lemma TokenBatchFits(s: Side, a: Applied)
    requires Synced(s) && Grown(s, a)
    ensures Fits(TokenBatchOf(s, a), Full(s))
  {
    hide Replayed, ValidLedger, DuesMatch;
    assert Full(a.side) == Full(s) + a.appended;
  }

  lemma ApplyTokenKeeps(n: Node, table: Authorizer.FeeTable, asked: seq<Asked>)
    requires NodeOk(n)
    ensures Step(n, ApplyToken(table, asked)).Ok?
    ensures NodeOk(Step(n, ApplyToken(table, asked)).value)
  {
    hide Aligned, DuesMatch, Synced, SameFrame, ApplyTokenAll, DomainTxns, EntryOf, Fits, Full, CreateBatch;
    var a := ApplyTokenAll(n.side, table, asked);
    var b := TokenBatchOf(n.side, a);
    TokenAllKeeps(n.side, table, asked);
    TokenBatchFits(n.side, a);
    CloseBooks(n.side, a.side, b);
    CloseQueues(n, a.side, b);
    CloseRecords(n, a.side, b);
    TokenAppliedIsClose(n.side, a);
  }

  lemma TokenAppliedIsClose(s: Side, a: Applied)
    requires GrownToken(s, a) && s.feesInBatch == 0
    ensures TokenApplied(a.side) == Close(a.side, true)
  {
  }

  // ----- rejecting the newest batch -----

  /** The node without its newest batch, as the books of the shorter ledger demand. */
  ghost predicate Restored(n: Node, m: Node) {
    && n.pending != [] && n.side.tracker.queue != []
    && (MakesCacheBatch(n.pending[|n.pending| - 1]) ==> n.side.cache.pending != [])
    && m.done == n.done && m.pending == n.pending[..|n.pending| - 1]
    && m.side.ledger == n.side.ledger && m.side.tail == Appended(m.pending)
    && m.side.head == Replayed(m.side.ledger + Appended(m.pending)).state
    && m.side.committedHead == n.side.committedHead
    && m.side.tracker == TrackerReject(n.side.tracker)
    && m.side.cache == (if MakesCacheBatch(n.pending[|n.pending| - 1]) then RejectBatch(n.side.cache) else n.side.cache)
    && m.side.feesInBatch == n.side.feesInBatch && m.side.deducted == n.side.deducted
  }

  /** What the invariant says of the newest pending batch. */
  lemma NewestFacts(n: Node)
    requires NodeOk(n) && n.pending != []
    ensures var s, b, init := n.side, n.pending[|n.pending| - 1], n.pending[..|n.pending| - 1];
      var before := s.ledger + Appended(init);
      && s.tracker.queue != [] && NewestBelow(s.tracker) == EntryOf(before)
      && s.tracker.queue[|s.tracker.queue| - 1] == EntryOf(Full(s)) && Fits(b, before)
      && Full(s) == before + b.appended && s.tail == Appended(init) + b.appended
      && (MakesCacheBatch(b) ==> s.cache.pending != [])
      && Aligned(s.ledger, init, TrackerReject(s.tracker).queue,
                 if MakesCacheBatch(b) then RejectBatch(s.cache).pending else s.cache.pending)
  {
    hide DuesMatch, Synced, Replayed, Fits, LayerFits;
    var s, init, queue := n.side, n.pending[..|n.pending| - 1], n.side.tracker.queue;
    AlignedLength(s.ledger, n.pending, queue, s.cache.pending);
    if init == [] {
      assert Appended(init) == [] && s.ledger + [] == s.ledger;
    } else {
      var b := n.pending[|n.pending| - 1];
      var layers := if MakesCacheBatch(b) then RejectBatch(s.cache).pending else s.cache.pending;
      AlignedNewest(s.ledger, init, queue[..|queue| - 1], layers);
    }
    assert s.ledger + (Appended(init) + n.pending[|n.pending| - 1].appended)
      == s.ledger + Appended(init) + n.pending[|n.pending| - 1].appended;
  }

  lemma AlignedNewest(l: seq<TokenLedger.TokenTxn>, h: seq<BatchRec>, queue: seq<TrackEntry>, layers: seq<Batch<seq<Entry>>>)
    requires Aligned(l, h, queue, layers) && h != []
    ensures queue != [] && queue[|queue| - 1] == EntryOf(l + Appended(h))
  {
    hide EntryOf, Fits, LayerFits, Replayed;
    assert l + Appended(h) == l + Appended(h[..|h| - 1]) + h[|h| - 1].appended;
  }

  lemma RestoredIsOk(n: Node, m: Node)
    requires NodeOk(n) && Restored(n, m)
    ensures NodeOk(m)
  {
    NewestFacts(n);
    RestoredBooks(n, m);
    RestoredRecords(n, m);
  }

  lemma RestoredView(n: Node, m: Node)
    requires NodeOk(n) && Restored(n, m)
    ensures View(m.side.cache, false) == Replayed(m.side.ledger + Appended(m.pending)).index
  {
    hide DuesMatch, EntryOf, Fits, LayerFits, Aligned, Synced, Replayed, RecordsOk, Appended, History, SlotsKept, Numbered;
    NewestFacts(n);
    AlignedView(m.side.ledger, m.pending, m.side.tracker.queue, m.side.cache.pending);
    var below := Overlay(m.side.cache.base, m.side.cache.pending);
    assert below + map[] == below;
  }

  lemma RestoredValid(n: Node, m: Node)
    requires NodeOk(n) && Restored(n, m)
    ensures ValidLedger(m.side.ledger + Appended(m.pending))
  {
    hide DuesMatch, EntryOf, Fits, Aligned, Replayed, RecordsOk, Appended, SlotsKept, Numbered;
    NewestFacts(n);
    var before := m.side.ledger + Appended(m.pending);
    assert before == Full(n.side)[..|before|];
    ValidPrefix(Full(n.side), |before|);
  }

  lemma RestoredBooks(n: Node, m: Node)
    requires NodeOk(n) && Restored(n, m)
    ensures BooksOk(m.side)
  {
    hide DuesMatch, EntryOf, Fits, Aligned, Replayed, RecordsOk, Appended, SlotsKept, Numbered, ValidLedger, View;
    RestoredView(n, m);
    RestoredValid(n, m);
  }

  lemma RestoredRecords(n: Node, m: Node)
    requires NodeOk(n) && Restored(n, m)
    ensures RecordsOk(m)
  {
    hide Aligned, Synced, EntryOf, LayerFits, Replayed, PaysFor, Appended, Dues, DomainTxns, DuesMatch, Numbered, PaidSlotsKept;
    var b := n.pending[|n.pending| - 1];
    assert History(n) == History(m) + [b];
    HistorySnoc(History(m), b);
    NewestFacts(n);
    HistoryIsFull(n);
    assert Full(m.side) == m.side.ledger + Appended(m.pending);
    DuesLength(Full(n.side), Dues(History(n)));
    DuesPrefix(Full(m.side), Dues(History(m)), b.appended, b.due);
    NumberedPrefix(DomainTxns(History(m)), TxnsOf(b), 1);
  }

  lemma NumberedPrefix(a: seq<DomainTxn>, b: seq<DomainTxn>, first: int)
    requires Numbered(a + b, first)
    ensures Numbered(a, first) && Numbered(b, first + |a|)
  {
    assert forall i :: 0 <= i < |a| ==> (a + b)[i] == a[i];
    assert forall i :: 0 <= i < |b| ==> (a + b)[|a| + i] == b[i];
  }

  lemma DuesLength(l: seq<TokenLedger.TokenTxn>, due: seq<nat>)
    requires DuesMatch(l, due)
    ensures |l| == |due|
  {
  }

  lemma DuesPrefix(l: seq<TokenLedger.TokenTxn>, due: seq<nat>, more: seq<TokenLedger.TokenTxn>, moreDue: seq<nat>)
    requires DuesMatch(l + more, due + moreDue) && |l| == |due|
    ensures DuesMatch(l, due)
  {
    forall i | 0 <= i < |l| && !l[i].Mint?
      ensures Difference(Replayed(l[..i]).index, l[i]) == due[i]
    {
      assert (l + more)[..i] == l[..i] && (l + more)[i] == l[i] && (due + moreDue)[i] == due[i];
    }
  }
}
