/** Rejecting the newest batch is exact. */
module Rejects {
  import opened Types
  import Stores
  import opened Replay
  import Accounting
  import opened Protocol
  import opened Invariant
  import opened Alignment
  import opened Runs

  lemma DropAppended<T>(a: seq<T>, b: seq<T>)
    ensures DropLast(a + b, |b|) == a
  {
    assert b == [] ==> a + b == a;
  }

  lemma RejectToken(n: Node)
    requires NodeOk(n) && n.pending != [] && n.pending[|n.pending| - 1].TokenBatch?
    ensures Step(n, RejectNewest).Ok? && Restored(n, Step(n, RejectNewest).value)
  {
    hide Aligned, DuesMatch, Synced, Replayed, SlotsKept, Numbered, Appended, EntryOf, History, LayerFits;
    NewestFacts(n);
    var b, init := n.pending[|n.pending| - 1], n.pending[..|n.pending| - 1];
    DropAppended(Appended(init), b.appended);
  }

  /** The early return is taken exactly by the batches that charged nothing. */
  lemma EarlyReturnIsUncharged(n: Node)
    requires NodeOk(n) && n.pending != [] && n.pending[|n.pending| - 1].DomainBatch?
    ensures n.side.tracker.queue != []
    ensures var s, b := n.side, n.pending[|n.pending| - 1];
      var below := NewestBelow(s.tracker);
      var count := s.tracker.queue[|s.tracker.queue| - 1].size - below.size;
      && count == |b.appended|
      && (b.appended == [] <==> count == 0 || Full(s) == below.txnRoot || s.head == below.stateRoot)
  {
    hide Aligned, DuesMatch, SlotsKept, Numbered, Appended, History, LayerFits, Replayed, ValidLedger;
    NewestFacts(n);
    var s, b, init := n.side, n.pending[|n.pending| - 1], n.pending[..|n.pending| - 1];
    var before := s.ledger + Appended(init);
    if b.appended == [] {
      assert before + [] == before;
    } else {
      assert b.appended[0].Fee?;
      Accounting.ChargeChangesRoot(before, b.appended);
    }
  }

  lemma RejectDomain(n: Node)
    requires NodeOk(n) && n.pending != [] && n.pending[|n.pending| - 1].DomainBatch?
    ensures Step(n, RejectNewest).Ok? && Restored(n, Step(n, RejectNewest).value)
  {
    hide Aligned, DuesMatch, SlotsKept, Numbered, Appended, History, LayerFits, Replayed, ValidLedger, PaysFor;
    NewestFacts(n);
    EarlyReturnIsUncharged(n);
    var b, init := n.pending[|n.pending| - 1], n.pending[..|n.pending| - 1];
    DropAppended(Appended(init), b.appended);
    assert n.side.ledger + Appended(init) + [] == n.side.ledger + Appended(init);
  }

  /** Rejecting never raises, and takes the node back to the books without its newest batch. */
  lemma RejectKeeps(n: Node)
    requires NodeOk(n)
    ensures Step(n, RejectNewest).Ok?
    ensures NodeOk(Step(n, RejectNewest).value)
    ensures n.pending != [] ==> Restored(n, Step(n, RejectNewest).value)
  {
    if n.pending != [] {
      hide BooksOk, RecordsOk, Aligned, Restored;
      NewestIsPendingKind(n);
      if n.pending[|n.pending| - 1].TokenBatch? {
        RejectToken(n);
      } else {
        RejectDomain(n);
      }
      RestoredIsOk(n, Step(n, RejectNewest).value);
    }
  }

  lemma NewestIsPendingKind(n: Node)
    requires QueuesOk(n) && n.pending != []
    ensures !n.pending[|n.pending| - 1].CaughtUp?
  {
  }

  predicate Applies(e: Event) { e.ApplyDomain? || e.ApplyToken? }

  /** The whole node but the table of charged slots, which no rejection erases. */
  ghost predicate SameButSlots(n: Node, m: Node) {
    m == n.(side := n.side.(deducted := m.side.deducted))
  }

  lemma ApplyShape(n: Node, e: Event)
    requires NodeOk(n) && Applies(e)
    ensures Step(n, e).Ok? && NodeOk(Step(n, e).value)
    ensures var m := Step(n, e).value;
      && m.done == n.done && m.pending != [] && m.pending[..|m.pending| - 1] == n.pending
      && m.side.ledger == n.side.ledger && m.side.committedHead == n.side.committedHead
      && m.side.tracker.lastCommitted == n.side.tracker.lastCommitted
      && m.side.tracker.queue != [] && m.side.tracker.queue[..|m.side.tracker.queue| - 1] == n.side.tracker.queue
      && m.side.cache.base == n.side.cache.base
      && (if MakesCacheBatch(m.pending[|m.pending| - 1])
          then m.side.cache.pending != [] && m.side.cache.pending[..|m.side.cache.pending| - 1] == n.side.cache.pending
          else m.side.cache.pending == n.side.cache.pending)
  {
    hide Aligned, DuesMatch, Synced, PaysFor, ApplyDomainAll, ApplyTokenAll, DomainTxns, QueuesOk, RecordsOk, EntryOf, Numbered, PaidSlotsKept;
    match e
    case ApplyDomain(table, asked) =>
      ApplyDomainKeeps(n, table, asked);
      DomainAllKeeps(n.side, |DomainTxns(History(n))| + 1, table, asked);
    case ApplyToken(table, asked) =>
      ApplyTokenKeeps(n, table, asked);
      TokenAllKeeps(n.side, table, asked);
  }

  /** Applying a batch and rejecting it leaves every structure exactly as it was. */
  lemma RejectUndoesApply(n: Node, e: Event)
    requires NodeOk(n) && Applies(e)
    ensures Step(n, e).Ok? && Step(Step(n, e).value, RejectNewest).Ok?
    ensures SameButSlots(n, Step(Step(n, e).value, RejectNewest).value)
  {
    hide Aligned, DuesMatch, ValidLedger, Replayed, Step, SlotsKept, Numbered, EntryOf, Stores.View, Appended;
    ApplyShape(n, e);
    var m := Step(n, e).value;
    RejectKeeps(m);
    var r := Step(m, RejectNewest).value;
    assert r.side.cache == n.side.cache;
    assert r.side.tracker == n.side.tracker;
    assert r.pending == n.pending && r.done == n.done;
  }

  // ----- any number of batches -----

  function RejectBatches(n: Node, k: nat): Result<Node>
    decreases k
  {
    if k == 0 then Ok(n)
    else
      var r := Step(n, RejectNewest);
      if r.Err? then r else RejectBatches(r.value, k - 1)
  }

  /** Rejecting neither reads nor writes the table of charged slots. */
  lemma RejectIgnoresSlots(n: Node, m: Node)
    requires SameButSlots(n, m) && Step(n, RejectNewest).Ok?
    ensures Step(m, RejectNewest).Ok? && SameButSlots(Step(n, RejectNewest).value, Step(m, RejectNewest).value)
  {
  }

  lemma {:induction false} RejectsIgnoreSlots(n: Node, m: Node, k: nat)
    requires SameButSlots(n, m) && RejectBatches(n, k).Ok?
    ensures RejectBatches(m, k).Ok? && SameButSlots(RejectBatches(n, k).value, RejectBatches(m, k).value)
    decreases k
  {
    hide SameButSlots, Step;
    if k > 0 {
      RejectIgnoresSlots(n, m);
      RejectsIgnoreSlots(Step(n, RejectNewest).value, Step(m, RejectNewest).value, k - 1);
    } else {
      SameButSlotsSelf(n, m);
    }
  }

  lemma SameButSlotsSelf(n: Node, m: Node)
    ensures SameButSlots(n, m) <==> n.(side := n.side.(deducted := m.side.deducted)) == m
  {
  }

  lemma SameButSlotsChain(n: Node, m: Node, k: Node)
    requires SameButSlots(n, m) && SameButSlots(m, k)
    ensures SameButSlots(n, k)
  {
  }

  /** Applying any batches, with or without fees, and rejecting as many gives back the whole
      node, every queue and store included, but for the slots it has charged. */
  lemma {:induction false} RejectUndoesBatches(n: Node, es: seq<Event>)
    requires NodeOk(n) && forall i :: 0 <= i < |es| ==> Applies(es[i])
    ensures Run(n, es).Ok? && NodeOk(Run(n, es).value)
    ensures RejectBatches(Run(n, es).value, |es|).Ok?
    ensures SameButSlots(n, RejectBatches(Run(n, es).value, |es|).value)
  {
    hide NodeOk, SameButSlots, Step, Applies;
    if es == [] {
      SameButSlotsSelf(n, n);
    } else {
      var init, e := es[..|es| - 1], es[|es| - 1];
      RejectUndoesBatches(n, init);
      var p := Run(n, init).value;
      RejectUndoesApply(p, e);
      ApplyShape(p, e);
      var q := Step(Step(p, e).value, RejectNewest).value;
      RejectsIgnoreSlots(p, q, |init|);
      SameButSlotsChain(n, RejectBatches(p, |init|).value, RejectBatches(q, |init|).value);
    }
  }
}
