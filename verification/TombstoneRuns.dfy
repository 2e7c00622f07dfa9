/** Whole runs in which each transfer is executed by either handler, against the same runs with
    the current handler throughout. */
module TombstoneRuns {
  import opened Types
  import opened Stores
  import opened TokenLedger
  import opened Replay
  import opened Accounting
  import opened Requests
  import opened Authorizer
  import opened Protocol
  import opened Invariant
  import Alignment
  import opened Runs
  import Rejects
  import Commits
  import opened RunTheorems
  import opened GetUtxo

  // ----- ledgers -----

  lemma {:induction false} ModernConcat(l: seq<TokenTxn>, more: seq<TokenTxn>)
    ensures AllModern(l + more) == AllModern(l) + AllModern(more) && |AllModern(l)| == |l|
  {
    ModernLength(l);
    if more == [] {
      assert l + more == l && AllModern(l) + [] == AllModern(l);
    } else {
      assert (l + more)[..|l + more| - 1] == l + more[..|more| - 1];
      ModernConcat(l, more[..|more| - 1]);
    }
  }

  lemma {:induction false} ModernLength(l: seq<TokenTxn>)
    ensures |AllModern(l)| == |l|
  {
    if l != [] { ModernLength(l[..|l| - 1]); }
  }

  lemma ModernSnoc(l: seq<TokenTxn>, txn: TokenTxn)
    ensures AllModern(l + [txn]) == AllModern(l) + [Modern(txn)]
  {
    assert (l + [txn])[..|l|] == l;
  }

  lemma ModernTxnValid(v: TokenView, w: TokenView, txn: TokenTxn, n: int)
    requires v.index == w.index
    ensures ValidTxn(v, txn, n) <==> ValidTxn(w, Modern(txn), n)
    ensures Difference(v.index, txn) == Difference(w.index, Modern(txn))
  {
  }

  /** Validity and fees in force do not depend on the handlers. */
  lemma {:induction false} ModernValid(l: seq<TokenTxn>, due: seq<nat>)
    ensures ValidLedger(l) <==> ValidLedger(AllModern(l))
    ensures DuesMatch(l, due) ==> DuesMatch(AllModern(l), due)
  {
    ModernLength(l);
    if l != [] {
      hide ValidTxn, Difference;
      var init, last := l[..|l| - 1], l[|l| - 1];
      assert l == init + [last];
      ModernSnoc(init, last);
      TombstonesInvisible(init);
      ModernTxnValid(Replayed(init), Replayed(AllModern(init)), last, |l|);
      ModernLength(init);
      ExtendLedger(init, last);
      ExtendLedger(AllModern(init), Modern(last));
      if |due| == |l| {
        ModernValid(init, due[..|l| - 1]);
        ModernDues(l, due);
      } else {
        ModernValid(init, due);
      }
    }
  }

  lemma ModernDues(l: seq<TokenTxn>, due: seq<nat>)
    requires l != [] && |l| == |due|
    requires DuesMatch(l[..|l| - 1], due[..|l| - 1]) ==> DuesMatch(AllModern(l[..|l| - 1]), due[..|l| - 1])
    ensures DuesMatch(l, due) ==> DuesMatch(AllModern(l), due)
  {
    hide Difference, ValidTxn, Replayed;
    if DuesMatch(l, due) {
      var init, last, d := l[..|l| - 1], l[|l| - 1], due[..|l| - 1];
      assert l == init + [last] && due == d + [due[|l| - 1]];
      DuesPrefix(init, d, [last], [due[|l| - 1]]);
      DuesLast(l, due);
      TombstonesInvisible(init);
      ModernTxnValid(Replayed(init), Replayed(AllModern(init)), last, |l|);
      ModernSnoc(init, last);
      DuesSnoc(AllModern(init), d, Modern(last), due[|l| - 1]);
    }
  }

  // ----- one batch -----

  /** Two nodes in step whose ledgers differ only in the handlers that ran. */
  ghost predicate Alike(s: Side, t: Side) {
    Synced(s) && Synced(t) && Full(t) == AllModern(Full(s)) && t.deducted == s.deducted
  }

  /** Such nodes read the same cache, so they decide the same. */
  lemma AlikeDecides(s: Side, t: Side)
    requires Alike(s, t)
    ensures View(t.cache, false) == View(s.cache, false) && |Full(t)| == |Full(s)|
  {
    TombstonesInvisible(Full(s));
    ModernLength(Full(s));
  }

  ghost predicate AppliedAlike(a: Applied, b: Applied) {
    && a.error == None && b.error == None && Alike(a.side, b.side)
    && b.txns == a.txns && b.appended == AllModern(a.appended) && b.due == a.due
  }

  function ModernAsked(q: Asked): Asked { q.(request := q.request.(legacy := false)) }

  /** No validator and no decision reads the transfer version. */
  lemma VersionIgnored(index: Index, table: FeeTable, alias: Option<string>, r: Request, decodes: AddressCheck)
    ensures ValidateRequest(r.(legacy := false), decodes) == ValidateRequest(r, decodes)
    ensures Authorize(index, table, alias, r.(legacy := false)) == Authorize(index, table, alias, r)
  {
    hide ValidateOutputs, ValidateInputs, ValidateFees, CanPay, FeeFor, CompareSums;
  }

  lemma ModernAccepted(s: Side, t: Side, table: FeeTable, q: Asked)
    requires Alike(s, t)
    ensures Accepted(s, table, q) <==> Accepted(t, table, ModernAsked(q))
  {
    hide Alike, ValidateRequest, Authorize, View;
    VersionIgnored(View(s.cache, false), table, q.alias, q.request, q.decodes);
    AlikeDecides(s, t);
  }

  lemma ModernAppend(s: Side, t: Side, txn: TokenTxn)
    requires Alike(s, t) && ValidTxn(Uncommitted(s), txn, |Full(s)| + 1)
    ensures AppendTxn(s, txn).1 == None && AppendTxn(t, Modern(txn)).1 == None
    ensures Alike(AppendTxn(s, txn).0, AppendTxn(t, Modern(txn)).0)
    ensures AppendTxn(t, Modern(txn)).0.deducted == t.deducted && AppendTxn(s, txn).0.deducted == s.deducted
  {
    hide ValidTxn, AppendTxn, ValidLedger, Replayed, View;
    AlikeDecides(s, t);
    ModernTxnValid(Uncommitted(s), Uncommitted(t), txn, |Full(s)| + 1);
    AppendKeeps(s, txn);
    AppendKeeps(t, Modern(txn));
    ModernSnoc(Full(s), txn);
  }

  lemma TokenOneAlike(a: Applied, b: Applied, table: FeeTable, q: Asked)
    requires AppliedAlike(a, b)
    ensures AppliedAlike(ApplyTokenOne(a, table, q), ApplyTokenOne(b, table, ModernAsked(q)))
  {
    hide Alike, Accepted, AppendTxn, ValidTxn, TokenTxnOf, Difference;
    ModernAccepted(a.side, b.side, table, q);
    if IsToken(q.request) && Accepted(a.side, table, q) {
      var txn := TokenTxnOf(a.side, q.request);
      TokenTxnIsValid(a.side, table, q);
      ModernAppend(a.side, b.side, txn);
      ModernTokenTxn(a.side, b.side, q);
      ModernSnoc(a.appended, txn);
    }
  }

  lemma ModernTokenTxn(s: Side, t: Side, q: Asked)
    requires Alike(s, t)
    ensures TokenTxnOf(t, ModernAsked(q).request) == Modern(TokenTxnOf(s, q.request))
  {
    AlikeDecides(s, t);
  }

  lemma {:induction false} TokenAllAlike(s: Side, t: Side, table: FeeTable, qs: seq<Asked>)
    requires Alike(s, t)
    ensures AppliedAlike(ApplyTokenAll(s, table, qs), ApplyTokenAll(t, table, AllModernAsked(qs)))
  {
    if qs != [] {
      hide Alike, AppliedAlike;
      var init := qs[..|qs| - 1];
      TokenAllAlike(s, t, table, init);
      AskedSnoc(qs);
      TokenOneAlike(ApplyTokenAll(s, table, init), ApplyTokenAll(t, table, AllModernAsked(init)), table, qs[|qs| - 1]);
    }
  }

  function AllModernAsked(qs: seq<Asked>): (r: seq<Asked>)
    ensures |r| == |qs|
  {
    seq(|qs|, i requires 0 <= i < |qs| => ModernAsked(qs[i]))
  }

  lemma AskedSnoc(qs: seq<Asked>)
    requires qs != []
    ensures var r := AllModernAsked(qs);
      r[..|r| - 1] == AllModernAsked(qs[..|qs| - 1]) && r[|r| - 1] == ModernAsked(qs[|qs| - 1])
  {
  }

  lemma SameChargeTxn(s: Side, t: Side, q: Asked, n: int)
    requires Alike(s, t) && q.request.fees.Some?
    ensures ChargeTxn(t, ModernAsked(q).request, n) == ChargeTxn(s, q.request, n)
  {
    hide Alike, View, Full;
    AlikeDecides(s, t);
  }

  lemma ModernCharge(s: Side, t: Side, table: FeeTable, q: Asked, n: int)
    requires Alike(s, t) && !IsToken(q.request) && q.request.fees.Some? && Accepted(s, table, q)
    ensures var r := ModernAsked(q).request;
      && ChargeTxn(t, r, n) == ChargeTxn(s, q.request, n)
      && Charge(s, q.request, n).1 == None && Charge(t, r, n).1 == None
      && Alike(Charge(s, q.request, n).0, Charge(t, r, n).0)
  {
    hide ValidTxn, AppendTxn, ChargeTxn, ValidLedger, Replayed, View, Accepted, Difference;
    var txn := ChargeTxn(s, q.request, n);
    SameChargeTxn(s, t, q, n);
    assert Modern(txn) == txn;
    ChargeTxnIsValid(s, table, q, n);
    ModernAppend(s, t, txn);
  }

  lemma DomainOneAlike(a: Applied, b: Applied, first: int, table: FeeTable, q: Asked)
    requires AppliedAlike(a, b)
    ensures AppliedAlike(ApplyDomainOne(a, first, table, q), ApplyDomainOne(b, first, table, ModernAsked(q)))
  {
    hide Alike, Accepted, Charge, ChargeTxn;
    ModernAccepted(a.side, b.side, table, q);
    var n := first + |a.txns|;
    if !IsToken(q.request) && Accepted(a.side, table, q) && q.request.fees.Some? {
      ModernCharge(a.side, b.side, table, q, n);
      ModernSnoc(a.appended, ChargeTxn(a.side, q.request, n));
    }
  }

  lemma {:induction false} DomainAllAlike(s: Side, t: Side, first: int, table: FeeTable, qs: seq<Asked>)
    requires Alike(s, t)
    ensures AppliedAlike(ApplyDomainAll(s, first, table, qs), ApplyDomainAll(t, first, table, AllModernAsked(qs)))
  {
    if qs != [] {
      hide Alike, AppliedAlike;
      var init := qs[..|qs| - 1];
      DomainAllAlike(s, t, first, table, init);
      AskedSnoc(qs);
      DomainOneAlike(ApplyDomainAll(s, first, table, init), ApplyDomainAll(t, first, table, AllModernAsked(init)),
                     first, table, qs[|qs| - 1]);
    }
  }

  // ----- nodes -----

  /** The same batch with the current handler: only transfers' transactions and roots differ. */
  ghost predicate BatchAlike(b: BatchRec, c: BatchRec) {
    && (b.DomainBatch? <==> c.DomainBatch?) && (b.TokenBatch? <==> c.TokenBatch?)
    && TxnsOf(c) == TxnsOf(b) && c.appended == AllModern(b.appended) && c.due == b.due
  }

  ghost predicate BatchesAlike(g: seq<BatchRec>, h: seq<BatchRec>) {
    |g| == |h| && forall i :: 0 <= i < |g| ==> BatchAlike(g[i], h[i])
  }

  ghost predicate NodesAlike(n: Node, m: Node) {
    && NodeOk(n) && NodeOk(m) && BatchesAlike(n.done, m.done) && BatchesAlike(n.pending, m.pending)
    && m.side.deducted == n.side.deducted
  }

  lemma {:induction false} BatchesAlikeTotals(g: seq<BatchRec>, h: seq<BatchRec>)
    requires BatchesAlike(g, h)
    ensures Appended(h) == AllModern(Appended(g)) && DomainTxns(h) == DomainTxns(g) && Dues(h) == Dues(g)
  {
    if g != [] {
      var g', h' := g[..|g| - 1], h[..|h| - 1];
      BatchesAlikeTotals(g', h');
      assert BatchAlike(g[|g| - 1], h[|h| - 1]);
      ModernConcat(Appended(g'), g[|g| - 1].appended);
    }
  }

  lemma HistoriesAlike(n: Node, m: Node)
    requires NodesAlike(n, m)
    ensures BatchesAlike(History(n), History(m))
  {
    hide NodeOk, BatchAlike;
    forall i | 0 <= i < |History(n)|
      ensures BatchAlike(History(n)[i], History(m)[i])
    {
      if i < |n.done| {
        assert BatchAlike(n.done[i], m.done[i]);
      } else {
        assert BatchAlike(n.pending[i - |n.done|], m.pending[i - |n.done|]);
      }
    }
  }

  lemma SidesAlike(n: Node, m: Node)
    requires NodesAlike(n, m)
    ensures Alike(n.side, m.side) && DomainTxns(History(m)) == DomainTxns(History(n))
    ensures m.side.ledger == AllModern(n.side.ledger) && Dues(m.done) == Dues(n.done)
  {
    hide Alignment.Aligned, RecordsOk, Replayed, ValidLedger, BatchesAlike, Appended, DomainTxns, Dues;
    HistoriesAlike(n, m);
    BatchesAlikeTotals(History(n), History(m));
    BatchesAlikeTotals(n.done, m.done);
    HistoryIsFull(n);
    HistoryIsFull(m);
  }

  lemma BatchesSnoc(g: seq<BatchRec>, h: seq<BatchRec>, b: BatchRec, c: BatchRec)
    requires BatchesAlike(g, h) && BatchAlike(b, c)
    ensures BatchesAlike(g + [b], h + [c])
  {
  }

  function ModernBatch(b: BatchRec): BatchRec { b.(appended := AllModern(b.appended)) }

  function ModernEvent(e: Event): Event {
    match e
    case ApplyDomain(table, asked) => ApplyDomain(table, AllModernAsked(asked))
    case ApplyToken(table, asked) => ApplyToken(table, AllModernAsked(asked))
    case CatchUp(caught) => CatchUp(ModernBatch(caught))
    case _ => e
  }

  lemma ApplyDomainAlike(n: Node, m: Node, table: FeeTable, asked: seq<Asked>)
    requires NodesAlike(n, m)
    ensures var e := ApplyDomain(table, asked);
      Step(n, e).Ok? && Step(m, ModernEvent(e)).Ok? && NodesAlike(Step(n, e).value, Step(m, ModernEvent(e)).value)
  {
    hide NodeOk, Alike, ApplyDomainAll, DomainTxns, AllModernAsked, AllModern, BatchesAlike;
    var first := |DomainTxns(History(n))| + 1;
    SidesAlike(n, m);
    DomainAllAlike(n.side, m.side, first, table, asked);
    ApplyDomainKeeps(n, table, asked);
    ApplyDomainKeeps(m, table, AllModernAsked(asked));
    var a, b := ApplyDomainAll(n.side, first, table, asked), ApplyDomainAll(m.side, first, table, AllModernAsked(asked));
    DeductedAlike(a.side, b.side);
    BatchesSnoc(n.pending, m.pending, DomainBatch(a.txns, a.appended, a.due), DomainBatch(b.txns, b.appended, b.due));
  }

  lemma DeductedAlike(s: Side, t: Side)
    requires Alike(s, t)
    ensures t.deducted == s.deducted
  {
  }

  lemma ApplyTokenAlike(n: Node, m: Node, table: FeeTable, asked: seq<Asked>)
    requires NodesAlike(n, m)
    ensures var e := ApplyToken(table, asked);
      Step(n, e).Ok? && Step(m, ModernEvent(e)).Ok? && NodesAlike(Step(n, e).value, Step(m, ModernEvent(e)).value)
  {
    hide NodeOk, Alike, ApplyTokenAll, AllModernAsked, AllModern, BatchesAlike;
    SidesAlike(n, m);
    TokenAllAlike(n.side, m.side, table, asked);
    ApplyTokenKeeps(n, table, asked);
    ApplyTokenKeeps(m, table, AllModernAsked(asked));
    var a, b := ApplyTokenAll(n.side, table, asked), ApplyTokenAll(m.side, table, AllModernAsked(asked));
    DeductedAlike(a.side, b.side);
    BatchesSnoc(n.pending, m.pending, TokenBatchOf(n.side, a), TokenBatchOf(m.side, b));
  }

  lemma RejectAlike(n: Node, m: Node)
    requires NodesAlike(n, m)
    ensures Step(n, RejectNewest).Ok? && Step(m, RejectNewest).Ok?
    ensures NodesAlike(Step(n, RejectNewest).value, Step(m, RejectNewest).value)
  {
    hide NodeOk, Appended, Replayed, BatchAlike, DomainRejected, TokenRejected, TrackerReject, RejectBatch;
    Rejects.RejectKeeps(n);
    Rejects.RejectKeeps(m);
  }

  lemma CommitAlike(n: Node, m: Node)
    requires NodesAlike(n, m)
    ensures Step(n, CommitOldest).Ok? <==> Step(m, CommitOldest).Ok?
    ensures Step(n, CommitOldest).Ok? ==> NodesAlike(Step(n, CommitOldest).value, Step(m, CommitOldest).value)
  {
    hide NodeOk, Appended, Replayed, Step, Commits.NoStaleSlot;
    Commits.CommitKeeps(n);
    Commits.CommitKeeps(m);
    if n.pending == [] {
      CommitNothing(n);
      CommitNothing(m);
    } else {
      assert BatchAlike(n.pending[0], m.pending[0]);
      BatchesSnoc(n.done, m.done, n.pending[0], m.pending[0]);
    }
  }

  lemma CatchUpAlike(n: Node, m: Node, b: BatchRec)
    requires NodesAlike(n, m) && n.pending == [] && ValidCatch(n, b)
    ensures m.pending == [] && ValidCatch(m, ModernBatch(b))
    ensures Step(n, CatchUp(b)).Ok? && Step(m, CatchUp(ModernBatch(b))).Ok?
    ensures NodesAlike(Step(n, CatchUp(b)).value, Step(m, CatchUp(ModernBatch(b))).value)
  {
    hide NodeOk, Alike, BatchesAlike, CatchUpAll, DuesMatch, ValidLedger, Dues, DomainTxns, AllModern;
    SidesAlike(n, m);
    BatchesAlikeTotals(n.done, m.done);
    ModernConcat(n.side.ledger, b.appended);
    ModernValid(n.side.ledger + b.appended, Dues(n.done) + b.due);
    NonePending(n, m);
    CatchUpKeeps(n, b);
    CatchUpKeeps(m, ModernBatch(b));
    BatchesSnoc(n.done, m.done, b, ModernBatch(b));
    CatchUpShape(n, b);
    CatchUpShape(m, ModernBatch(b));
    NoBatchesAlike();
  }

  lemma NoBatchesAlike()
    ensures BatchesAlike([], [])
  {
  }

  lemma NonePending(n: Node, m: Node)
    requires BatchesAlike(n.pending, m.pending) && n.pending == []
    ensures m.pending == []
  {
  }

  lemma CatchUpShape(n: Node, b: BatchRec)
    requires NodeOk(n) && n.pending == [] && ValidCatch(n, b)
    ensures Step(n, CatchUp(b)).Ok?
    ensures var r := Step(n, CatchUp(b)).value;
      r.done == n.done + [b] && r.pending == [] && r.side.deducted == n.side.deducted
  {
    hide DuesMatch, ValidLedger, Replayed, CatchUpAll, Dues, DomainTxns;
    CatchUpSettled(n);
    CatchUpAllKeeps(n.side, b.appended);
  }

  lemma CatchUpSettled(n: Node)
    requires NodeOk(n) && n.pending == []
    ensures Settled(n.side)
  {
    hide RecordsOk, Replayed, ValidLedger;
    AppendedNone();
    assert n.side.ledger + [] == n.side.ledger;
    assert n.side.cache.base + map[] == n.side.cache.base;
    assert Overlay(n.side.cache.base, []) == n.side.cache.base;
  }

  lemma StepAlike(n: Node, m: Node, e: Event)
    requires NodesAlike(n, m) && LegalEvent(n, e)
    ensures LegalEvent(m, ModernEvent(e))
    ensures Step(n, e).Ok? <==> Step(m, ModernEvent(e)).Ok?
    ensures Step(n, e).Ok? ==> NodesAlike(Step(n, e).value, Step(m, ModernEvent(e)).value)
  {
    hide NodeOk, BatchAlike, ValidCatch, CatchUpAll, ApplyDomainAll, ApplyTokenAll, DomainTxns;
    match e
    case ApplyDomain(table, asked) => ApplyDomainAlike(n, m, table, asked);
    case ApplyToken(table, asked) => ApplyTokenAlike(n, m, table, asked);
    case RejectNewest => RejectAlike(n, m);
    case CommitOldest => CommitAlike(n, m);
    case CatchUp(caught) => if n.pending == [] { CatchUpAlike(n, m, caught); }
  }

  // ----- runs -----

  function AllModernEvents(es: seq<Event>): seq<Event> {
    if es == [] then [] else AllModernEvents(es[..|es| - 1]) + [ModernEvent(es[|es| - 1])]
  }

  /** Running with legacy transfers or with current ones: the same events raise, the same domain
      transactions and payments are accepted, and the nodes stay alike. */
  lemma {:induction false} RunsAlike(n: Node, m: Node, es: seq<Event>)
    requires NodesAlike(n, m) && LegalRun(n, es)
    ensures LegalRun(m, AllModernEvents(es))
    ensures Run(n, es).Ok? <==> Run(m, AllModernEvents(es)).Ok?
    ensures Run(n, es).Ok? ==> NodesAlike(Run(n, es).value, Run(m, AllModernEvents(es)).value)
  {
    hide NodesAlike, LegalEvent, Step, ModernEvent;
    if es != [] {
      var init := es[..|es| - 1];
      RunsAlike(n, m, init);
      var ms := AllModernEvents(es);
      assert ms[..|ms| - 1] == AllModernEvents(init);
      if Run(n, init).Ok? {
        StepAlike(Run(n, init).value, Run(m, AllModernEvents(init)).value, es[|es| - 1]);
      }
    }
  }

  /** Alike nodes hold the same index and the same live outputs, uncommitted and committed. */
  lemma AlikeBooks(n: Node, m: Node)
    requires NodesAlike(n, m)
    ensures SameBooks(Uncommitted(n.side), Uncommitted(m.side))
    ensures SameBooks(TokenView(n.side.committedHead, n.side.cache.base), TokenView(m.side.committedHead, m.side.cache.base))
  {
    hide Alignment.Aligned, RecordsOk, QueuesOk, BatchesAlike, LiveMap, Replayed, ValidLedger;
    SidesAlike(n, m);
    TombstonesInvisible(Full(n.side));
    TombstonesInvisible(n.side.ledger);
  }

  /** So they accept the same requests and give the same answers to GET_UTXO. */
  lemma AlikeAnswers(n: Node, m: Node, table: FeeTable, q: Asked, page: Page, address: string, from: Option<int>)
    requires NodesAlike(n, m)
    ensures Accepted(n.side, table, q) <==> Accepted(m.side, table, ModernAsked(q))
    ensures Answer(page, n.side.committedHead, address, from) <==> Answer(page, m.side.committedHead, address, from)
  {
    hide NodesAlike, Alike, Accepted, IsListing, PageOf, LiveMap, Uncommitted;
    SidesAlike(n, m);
    ModernAccepted(n.side, m.side, table, q);
    AlikeBooks(n, m);
    forall s
      ensures IsListing(s, n.side.committedHead, address) <==> IsListing(s, m.side.committedHead, address)
    {
      ListingIgnoresTombstones(s, n.side.committedHead, m.side.committedHead, address);
    }
  }

  /** Any run of a node in which each transfer is executed by either handler, against the same run
      with the current handler throughout: both raise or neither, and then books, every next
      decision and every GET_UTXO answer are the same. */
  lemma MixedRuns(es: seq<Event>, table: FeeTable, q: Asked, page: Page, address: string, from: Option<int>)
    requires LegalRun(Genesis, es)
    ensures LegalRun(Genesis, AllModernEvents(es))
    ensures Run(Genesis, es).Ok? <==> Run(Genesis, AllModernEvents(es)).Ok?
    ensures Run(Genesis, es).Ok? ==>
      var n, m := Run(Genesis, es).value, Run(Genesis, AllModernEvents(es)).value;
      && SameBooks(Uncommitted(n.side), Uncommitted(m.side))
      && SameBooks(TokenView(n.side.committedHead, n.side.cache.base), TokenView(m.side.committedHead, m.side.cache.base))
      && (Accepted(n.side, table, q) <==> Accepted(m.side, table, ModernAsked(q)))
      && (Answer(page, n.side.committedHead, address, from) <==> Answer(page, m.side.committedHead, address, from))
  {
    hide NodesAlike, LegalRun, Run, Accepted, Answer, SameBooks, Uncommitted;
    GenesisAlike();
    RunsAlike(Genesis, Genesis, es);
    if Run(Genesis, es).Ok? {
      var n, m := Run(Genesis, es).value, Run(Genesis, AllModernEvents(es)).value;
      AlikeBooks(n, m);
      AlikeAnswers(n, m, table, q, page, address, from);
    }
  }

  lemma GenesisAlike()
    ensures NodesAlike(Genesis, Genesis)
  {
    GenesisOk();
  }
}
