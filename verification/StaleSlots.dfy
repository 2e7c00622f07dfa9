/** The table of charged slots is never erased. When that does no harm, and when it does. */
module StaleSlots {
  import opened Types
  import opened Text
  import Stores
  import TokenLedger
  import Replay
  import opened Authorizer
  import opened Protocol
  import opened Invariant
  import opened Runs
  import opened Rejects
  import opened Commits
  import opened RunTheorems

  // ----- runs whose new batches meet no stale slot -----

  /** No pending batch has an unpaid transaction whose slot is in the table. */
  ghost predicate NonePendingStale(n: Node) {
    forall i :: 0 <= i < |n.pending| ==> NoStaleSlot(n.side.deducted, TxnsOf(n.pending[i]))
  }

  /** Whenever a domain batch is applied, a slot that a rejected batch charged is reused only by
      a transaction that pays. */
  ghost predicate SlotsReusedPaid(n: Node, es: seq<Event>) {
    es == [] || (
      var r := Run(n, es);
      && SlotsReusedPaid(n, es[..|es| - 1])
      && (es[|es| - 1].ApplyDomain? && r.Ok? && r.value.pending != [] ==>
            NoStaleSlot(r.value.side.deducted, TxnsOf(r.value.pending[|r.value.pending| - 1]))))
  }

  ghost predicate SlotOfOneOf(key: string, txns: seq<DomainTxn>) {
    exists i :: 0 <= i < |txns| && SlotOf(txns[i]) == key
  }

  /** A batch adds to the table only slots of its own transactions. */
  lemma {:induction false} TableGrows(s: Side, first: int, table: FeeTable, qs: seq<Asked>)
    ensures var a := ApplyDomainAll(s, first, table, qs);
      forall key :: key in a.side.deducted ==> key in s.deducted || SlotOfOneOf(key, a.txns)
  {
    if qs != [] {
      var init, q := qs[..|qs| - 1], qs[|qs| - 1];
      TableGrows(s, first, table, init);
      TableGrowsOne(ApplyDomainAll(s, first, table, init), first, table, q);
      var a, b := ApplyDomainAll(s, first, table, init), ApplyDomainAll(s, first, table, qs);
      hide ApplyDomainOne, ApplyDomainAll;
      forall key | key in b.side.deducted
        ensures key in s.deducted || SlotOfOneOf(key, b.txns)
      {
        if key in a.side.deducted && SlotOfOneOf(key, a.txns) {
          var i :| 0 <= i < |a.txns| && SlotOf(a.txns[i]) == key;
          assert b.txns[i] == a.txns[i];
        }
      }
    }
  }

  lemma TableGrowsOne(a: Applied, first: int, table: FeeTable, q: Asked)
    ensures var b := ApplyDomainOne(a, first, table, q);
      && a.txns <= b.txns
      && forall key :: key in b.side.deducted ==> key in a.side.deducted || SlotOfOneOf(key, b.txns)
  {
    hide Accepted, TokenLedger.ApplyTxn, ChargeTxn, Stores.View, Stores.Write;
    var b, r, n := ApplyDomainOne(a, first, table, q), q.request, first + |a.txns|;
    if |b.txns| > |a.txns| {
      assert SlotOf(b.txns[|a.txns|]) == SlotKey(r.txnType, n);
    }
  }

  lemma {:induction false} PendingTxnInHistory(h: seq<BatchRec>, i: nat, t: DomainTxn)
    requires i < |h| && t in TxnsOf(h[i])
    ensures t in DomainTxns(h)
  {
    if i < |h| - 1 { PendingTxnInHistory(h[..|h| - 1], i, t); }
  }

  /** Slots charged by a new batch are not slots of older transactions. */
  lemma OlderStaysClean(was: map<string, int>, now: map<string, int>, txns: seq<DomainTxn>, added: seq<DomainTxn>, first: int)
    requires NoStaleSlot(was, txns) && Numbered(added, first)
    requires forall i :: 0 <= i < |txns| ==> txns[i].seqNo < first
    requires forall key :: key in now ==> key in was || SlotOfOneOf(key, added)
    ensures NoStaleSlot(now, txns)
  {
    hide SlotKey;
    forall i | 0 <= i < |txns| && SlotOf(txns[i]) in now
      ensures txns[i].paid
    {
      if SlotOf(txns[i]) !in was {
        var j :| 0 <= j < |added| && SlotOf(added[j]) == SlotOf(txns[i]);
        SlotKeyInjective(added[j].txnType, added[j].seqNo, txns[i].txnType, txns[i].seqNo);
      }
    }
  }

  lemma HistoryIsOlder(n: Node, i: nat)
    requires Numbered(DomainTxns(History(n)), 1) && i < |n.pending|
    ensures forall j :: 0 <= j < |TxnsOf(n.pending[i])| ==> TxnsOf(n.pending[i])[j].seqNo < |DomainTxns(History(n))| + 1
  {
    forall j | 0 <= j < |TxnsOf(n.pending[i])|
      ensures TxnsOf(n.pending[i])[j].seqNo < |DomainTxns(History(n))| + 1
    {
      assert History(n)[|n.done| + i] == n.pending[i];
      PendingTxnInHistory(History(n), |n.done| + i, TxnsOf(n.pending[i])[j]);
    }
  }

  lemma ApplyDomainShape(n: Node, table: FeeTable, asked: seq<Asked>)
    requires Step(n, ApplyDomain(table, asked)).Ok?
    ensures var a, m := ApplyDomainAll(n.side, |DomainTxns(History(n))| + 1, table, asked), Step(n, ApplyDomain(table, asked)).value;
      m.pending == n.pending + [DomainBatch(a.txns, a.appended, a.due)] && m.side.deducted == a.side.deducted
  {
    hide ApplyDomainAll, DomainTxns;
  }

  lemma ApplyDomainClean(n: Node, table: FeeTable, asked: seq<Asked>)
    requires NodeOk(n) && NonePendingStale(n)
    requires var a := ApplyDomainAll(n.side, |DomainTxns(History(n))| + 1, table, asked); NoStaleSlot(a.side.deducted, a.txns)
    ensures Step(n, ApplyDomain(table, asked)).Ok? && NonePendingStale(Step(n, ApplyDomain(table, asked)).value)
  {
    hide NodeOk, Grown, NoStaleSlot, ApplyDomainAll, DomainTxns, Numbered, Step, History, PaysFor;
    var first := |DomainTxns(History(n))| + 1;
    NodeParts(n);
    DomainAllKeeps(n.side, first, table, asked);
    TableGrows(n.side, first, table, asked);
    ApplyDomainKeeps(n, table, asked);
    ApplyDomainShape(n, table, asked);
    var a, m := ApplyDomainAll(n.side, first, table, asked), Step(n, ApplyDomain(table, asked)).value;
    forall i | 0 <= i < |m.pending|
      ensures NoStaleSlot(m.side.deducted, TxnsOf(m.pending[i]))
    {
      if i < |n.pending| {
        HistoryIsOlder(n, i);
        OlderStaysClean(n.side.deducted, a.side.deducted, TxnsOf(n.pending[i]), a.txns, first);
      }
    }
  }

  lemma NodeParts(n: Node)
    requires NodeOk(n)
    ensures Synced(n.side) && Numbered(DomainTxns(History(n)), 1)
  {
  }

  lemma NoTxnsNoStale(deducted: map<string, int>)
    ensures NoStaleSlot(deducted, [])
  {
  }

  lemma ApplyTokenClean(n: Node, table: FeeTable, asked: seq<Asked>)
    requires NodeOk(n) && NonePendingStale(n)
    ensures Step(n, ApplyToken(table, asked)).Ok? && NonePendingStale(Step(n, ApplyToken(table, asked)).value)
  {
    hide NodeOk, Grown, NoStaleSlot, ApplyTokenAll, Stores.CreateBatch;
    NodeParts(n);
    TokenAllKeeps(n.side, table, asked);
    ApplyTokenKeeps(n, table, asked);
    NoTxnsNoStale(n.side.deducted);
  }

  lemma RejectClean(n: Node)
    requires NodeOk(n) && NonePendingStale(n)
    ensures Step(n, RejectNewest).Ok? && NonePendingStale(Step(n, RejectNewest).value)
  {
    hide NodeOk, NoStaleSlot, Step, Appended, Replay.Replayed;
    RejectKeeps(n);
    if n.pending == [] { RejectNothing(n); }
  }

  lemma RejectNothing(n: Node)
    requires n.pending == []
    ensures Step(n, RejectNewest) == Ok(n)
  {
  }

  lemma CommitClean(n: Node)
    requires NodeOk(n) && NonePendingStale(n)
    ensures Step(n, CommitOldest).Ok? && NonePendingStale(Step(n, CommitOldest).value)
  {
    hide NodeOk, NoStaleSlot, Step, Appended, Replay.Replayed;
    CommitKeeps(n);
    if n.pending == [] { CommitNothing(n); }
  }

  lemma StepClean(n: Node, e: Event)
    requires NodeOk(n) && NonePendingStale(n) && LegalEvent(n, e)
    requires e.ApplyDomain? && Step(n, e).Ok? && Step(n, e).value.pending != [] ==>
      NoStaleSlot(Step(n, e).value.side.deducted, TxnsOf(Step(n, e).value.pending[|Step(n, e).value.pending| - 1]))
    ensures Step(n, e).Ok? && NonePendingStale(Step(n, e).value)
  {
    hide NodeOk, NoStaleSlot, ValidCatch, CatchUpAll, ApplyDomainAll, ApplyTokenAll, DomainTxns;
    match e
    case ApplyDomain(table, asked) =>
      ApplyDomainKeeps(n, table, asked);
      ApplyDomainClean(n, table, asked);
    case ApplyToken(table, asked) => ApplyTokenClean(n, table, asked);
    case RejectNewest => RejectClean(n);
    case CommitOldest => CommitClean(n);
    case CatchUp(caught) => if n.pending == [] { CatchUpKeeps(n, caught); }
  }

  /** When charged slots are reused only by paying transactions, no event of any run raises: in
      particular first-in-first-out commit never fails a root check. */
  lemma {:induction false} CleanRunsNeverRaise(n: Node, es: seq<Event>)
    requires NodeOk(n) && NonePendingStale(n) && LegalRun(n, es) && SlotsReusedPaid(n, es)
    ensures Run(n, es).Ok? && NonePendingStale(Run(n, es).value)
  {
    hide NodeOk, NonePendingStale, LegalEvent, NoStaleSlot, Step;
    if es != [] {
      CleanRunsNeverRaise(n, es[..|es| - 1]);
      RunKeeps(n, es[..|es| - 1]);
      StepClean(Run(n, es[..|es| - 1]).value, es[|es| - 1]);
    }
  }

  // ----- a run that does raise -----

  /** A list of one request. */
  lemma OneAsked(s: Side, first: int, table: FeeTable, q: Asked)
    ensures ApplyDomainAll(s, first, table, [q]) == ApplyDomainOne(Applied(s, [], [], [], None), first, table, q)
  {
    assert [q][..0] == [];
  }

  /** The request of `q` again, without its payment and under no fee. */
  function Unpaid(q: Asked): Asked { q.(request := q.request.(fees := None), alias := None) }

  lemma UnpaidAccepted(s: Side, table: FeeTable, q: Asked)
    requires !IsToken(q.request)
    ensures Accepted(s, table, Unpaid(q)) && !IsToken(Unpaid(q).request)
  {
    AuthorizeRule(Stores.View(s.cache, false), table, None, Unpaid(q).request);
  }

  lemma ChargedAloneFills(n: Node, table: FeeTable, q: Asked)
    requires NodeOk(n) && !IsToken(q.request) && q.request.fees.Some? && Accepted(n.side, table, q)
    ensures var a := ApplyDomainAll(n.side, |DomainTxns(History(n))| + 1, table, [q]);
      SlotKey(q.request.txnType, |DomainTxns(History(n))| + 1) in a.side.deducted
  {
    hide NodeOk, Accepted, Charge, DomainTxns, Synced, SameFrame, SlotKey, ChargeTxn, Replay.Difference, FeeFor;
    var first := |DomainTxns(History(n))| + 1;
    OneAsked(n.side, first, table, q);
    NodeParts(n);
    ChargeKeeps(n.side, table, q, first);
  }

  lemma UnpaidAlone(n: Node, table: FeeTable, q: Asked)
    requires !IsToken(q.request)
    ensures ApplyDomainAll(n.side, |DomainTxns(History(n))| + 1, table, [Unpaid(q)])
      == Applied(n.side, [DomainTxn(q.request.txnType, |DomainTxns(History(n))| + 1, false)], [], [], None)
  {
    hide DomainTxns, Accepted;
    OneAsked(n.side, |DomainTxns(History(n))| + 1, table, Unpaid(q));
    UnpaidAccepted(n.side, table, q);
  }

  /** Where the commit raises: on any settled node, let a payment be accepted, its batch be
      rejected, and the same domain seqNo be taken by an unpaid transaction of the same type. */
  lemma StaleSlotRaises(n: Node, table: FeeTable, q: Asked)
    requires NodeOk(n) && n.pending == [] && !IsToken(q.request) && q.request.fees.Some? && Accepted(n.side, table, q)
    ensures Run(n, [ApplyDomain(table, [q]), RejectNewest, ApplyDomain(table, [Unpaid(q)])]).Ok?
    ensures Run(n, [ApplyDomain(table, [q]), RejectNewest, ApplyDomain(table, [Unpaid(q)]), CommitOldest]).Err?
  {
    hide NodeOk, ApplyDomainAll, DomainTxns, SlotKey, Accepted, SameButSlots, Step, Run;
    var e1, e2 := ApplyDomain(table, [q]), ApplyDomain(table, [Unpaid(q)]);
    RejectUndoesApply(n, e1);
    ApplyShape(n, e1);
    RejectKeeps(Step(n, e1).value);
    ApplyDomainShape(n, table, [q]);
    ChargedAloneFills(n, table, q);
    var m := Step(Step(n, e1).value, RejectNewest).value;
    RejectedBack(n, Step(n, e1).value, m);
    ApplyShape(m, e2);
    ApplyDomainShape(m, table, [Unpaid(q)]);
    UnpaidAlone(m, table, q);
    var k := Step(m, e2).value;
    CommitKeeps(k);
    assert k.pending[0].txns[0] == DomainTxn(q.request.txnType, |DomainTxns(History(n))| + 1, false);
    RunOfFour(n, e1, RejectNewest, e2, CommitOldest);
  }

  lemma RejectedBack(n: Node, p: Node, m: Node)
    requires NodeOk(p) && Step(p, RejectNewest) == Ok(m) && p.pending != [] && SameButSlots(n, m)
    ensures History(m) == History(n) && m.side.deducted == p.side.deducted && m.pending == n.pending
  {
    hide NodeOk, Appended, Replay.Replayed, Step;
    RejectKeeps(p);
  }

  lemma RunOfFour(n: Node, a: Event, b: Event, c: Event, d: Event)
    requires Step(n, a).Ok? && Step(Step(n, a).value, b).Ok? && Step(Step(Step(n, a).value, b).value, c).Ok?
    ensures Run(n, [a, b, c]) == Step(Step(Step(n, a).value, b).value, c)
    ensures Run(n, [a, b, c, d]) == Step(Step(Step(Step(n, a).value, b).value, c).value, d)
  {
    hide Step;
    assert [a][..0] == [] && [a, b][..1] == [a] && [a, b, c][..2] == [a, b] && [a, b, c, d][..3] == [a, b, c];
    assert Run(n, [a]) == Step(n, a);
    assert Run(n, [a, b]) == Step(Step(n, a).value, b);
  }
}
