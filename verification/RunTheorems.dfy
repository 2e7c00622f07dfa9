/** Theorems about whole runs of the protocol. */
module RunTheorems {
  import opened Types
  import opened Stores
  import UtxoCache
  import opened TokenLedger
  import opened Replay
  import opened Accounting
  import opened Protocol
  import opened Invariant
  import Alignment
  import opened Runs
  import Rejects
  import Commits

  // ----- catch-up -----

  /** Nothing uncommitted, and the books are what the committed ledger amounts to. */
  ghost predicate Settled(s: Side) {
    && s.tail == [] && s.cache.pending == [] && s.cache.ops == map[] && ValidLedger(s.ledger)
    && TokenView(s.head, s.cache.base) == Replayed(s.ledger) && s.committedHead == s.head
  }

  /** The committed ledger has grown by the transactions, the books with it, and nothing else has changed. */
  ghost predicate MovedBy(s: Side, t: Side, txns: seq<TokenTxn>) {
    Settled(t) && t == s.(ledger := s.ledger + txns, head := t.head, committedHead := t.head,
                          cache := s.cache.(base := t.cache.base))
  }

  lemma CatchUpOneKeeps(s: Side, txn: TokenTxn)
    requires Settled(s) && ValidLedger(s.ledger + [txn])
    ensures var (t, error) := CatchUpOne(s, txn); error == None && MovedBy(s, t, [txn])
  {
    hide Coherent, Bounded, LiveMap, ApplyTxn, ValidTxn, NextLive;
    LedgerCoherent(s.ledger);
    ExtendLedger(s.ledger, txn);
    ApplyWorks(Replayed(s.ledger), txn, |s.ledger| + 1);
  }

  lemma MovedByNone(s: Side)
    requires Settled(s)
    ensures MovedBy(s, s, [])
  {
    assert s.ledger + [] == s.ledger;
  }

  lemma MovedAgain(s: Side, t: Side, u: Side, init: seq<TokenTxn>, last: TokenTxn)
    requires MovedBy(s, t, init) && MovedBy(t, u, [last])
    ensures MovedBy(s, u, init + [last])
  {
    hide Settled;
    assert s.ledger + init + [last] == s.ledger + (init + [last]);
  }

  lemma MovedLedger(s: Side, t: Side, txns: seq<TokenTxn>)
    requires MovedBy(s, t, txns)
    ensures Settled(t) && t.ledger == s.ledger + txns
  {
  }

  /** Replaying valid transactions one at a time never raises and settles the node on them. */
  lemma {:induction false} CatchUpAllKeeps(s: Side, txns: seq<TokenTxn>)
    requires Settled(s) && ValidLedger(s.ledger + txns)
    ensures var (t, error) := CatchUpAll(s, txns); error == None && MovedBy(s, t, txns)
  {
    hide Settled, MovedBy, ValidLedger, CatchUpOne;
    if txns == [] {
      MovedByNone(s);
    } else {
      var init, last := txns[..|txns| - 1], txns[|txns| - 1];
      assert s.ledger + txns == s.ledger + init + [last] && init + [last] == txns;
      assert (s.ledger + txns)[..|s.ledger + init|] == s.ledger + init;
      ValidPrefix(s.ledger + txns, |s.ledger + init|);
      CatchUpAllKeeps(s, init);
      var t := CatchUpAll(s, init).0;
      MovedLedger(s, t, init);
      CatchUpOneKeeps(t, last);
      MovedAgain(s, t, CatchUpOne(t, last).0, init, last);
    }
  }

  lemma FreshIsSettled()
    ensures Settled(Fresh)
  {
    assert Replayed([]) == TokenView(map[], map[]);
  }

  /** A node that replays a live node's committed token ledger one transaction at a time ends with
      the same committed state and, for every address, the same stored string. */
  lemma CatchUpEqualsLive(n: Node)
    requires NodeOk(n)
    ensures var (s, error) := CatchUpAll(Fresh, n.side.ledger);
      && error == None && s.ledger == n.side.ledger && s.tail == []
      && s.head == s.committedHead == n.side.committedHead
      && s.cache == Store(n.side.cache.base, [], map[])
      && UtxoCache.EncodeMap(s.cache.base) == UtxoCache.EncodeMap(n.side.cache.base)
  {
    hide Alignment.Aligned, RecordsOk, QueuesOk, Replayed, View, UtxoCache.EncodeMap, CatchUpAll, ValidLedger;
    var l := n.side.ledger;
    assert Full(n.side)[..|l|] == l;
    ValidPrefix(Full(n.side), |l|);
    FreshIsSettled();
    assert Fresh.ledger + l == l;
    CatchUpAllKeeps(Fresh, l);
  }

  /** What a node may take over from others: the valid continuation of its own ledgers. */
  ghost predicate ValidCatch(n: Node, b: BatchRec) {
    && b.CaughtUp? && ValidLedger(n.side.ledger + b.appended)
    && DuesMatch(n.side.ledger + b.appended, Dues(n.done) + b.due)
    && Numbered(b.txns, |DomainTxns(n.done)| + 1)
  }

  lemma CatchUpKeeps(n: Node, b: BatchRec)
    requires NodeOk(n) && n.pending == [] && ValidCatch(n, b)
    ensures Step(n, CatchUp(b)).Ok? && NodeOk(Step(n, CatchUp(b)).value)
    ensures History(Step(n, CatchUp(b)).value) == History(n) + [b]
  {
    hide DuesMatch, ValidLedger, Replayed, Appended, Dues, DomainTxns, CatchUpAll;
    AppendedNone();
    assert n.side.ledger + [] == n.side.ledger;
    assert n.side.cache.base + map[] == n.side.cache.base;
    assert Overlay(n.side.cache.base, []) == n.side.cache.base;
    CatchUpAllKeeps(n.side, b.appended);
    Alignment.HistorySnoc(n.done, b);
    var m := Step(n, CatchUp(b)).value;
    assert n.done + [] == n.done && m.done + [] == m.done;
    assert Full(m.side) == n.side.ledger + b.appended;
    assert m.side.cache.base + map[] == m.side.cache.base;
    assert Overlay(m.side.cache.base, []) == m.side.cache.base;
    CaughtUpNumbers(DomainTxns(n.done), b.txns);
  }

  lemma AppendedNone()
    ensures Appended([]) == []
  {
  }

  lemma CaughtUpNumbers(a: seq<DomainTxn>, b: seq<DomainTxn>)
    requires Numbered(a, 1) && Numbered(b, |a| + 1)
    ensures Numbered(a + b, 1)
  {
  }

  // ----- runs -----

  ghost predicate LegalEvent(n: Node, e: Event) { e.CatchUp? && n.pending == [] ==> ValidCatch(n, e.caught) }

  /** Every catch-up of the run takes over a valid continuation. */
  ghost predicate LegalRun(n: Node, es: seq<Event>) {
    es == [] ||
    (LegalRun(n, es[..|es| - 1]) && (Run(n, es[..|es| - 1]).Ok? ==> LegalEvent(Run(n, es[..|es| - 1]).value, es[|es| - 1])))
  }

  /** The batches final or pending after an event: one more, the same, or without the newest. */
  ghost predicate HistoryMoves(n: Node, m: Node) {
    || History(m) == History(n)
    || (|History(m)| == |History(n)| + 1 && History(m)[..|History(n)|] == History(n))
    || (History(n) != [] && History(m) == History(n)[..|History(n)| - 1])
  }

  lemma StepKeeps(n: Node, e: Event)
    requires NodeOk(n) && LegalEvent(n, e) && Step(n, e).Ok?
    ensures NodeOk(Step(n, e).value) && HistoryMoves(n, Step(n, e).value)
  {
    hide NodeOk, Restored, Commits.Advanced, ValidCatch;
    match e
    case ApplyDomain(table, asked) => ApplyDomainKeeps(n, table, asked); ApplyMoves(n, e);
    case ApplyToken(table, asked) => ApplyTokenKeeps(n, table, asked); ApplyMoves(n, e);
    case RejectNewest => Rejects.RejectKeeps(n); RejectMoves(n);
    case CommitOldest => Commits.CommitKeeps(n); CommitMoves(n);
    case CatchUp(caught) => if n.pending == [] { CatchUpKeeps(n, caught); }
  }

  lemma ApplyMoves(n: Node, e: Event)
    requires NodeOk(n) && Rejects.Applies(e) && Step(n, e).Ok?
    ensures HistoryMoves(n, Step(n, e).value)
  {
    hide NodeOk, ApplyDomainAll, ApplyTokenAll, DomainTxns;
    var m := Step(n, e).value;
    assert m.done + m.pending == (n.done + n.pending) + [m.pending[|m.pending| - 1]];
  }

  lemma RejectMoves(n: Node)
    requires NodeOk(n) && Step(n, RejectNewest).Ok?
    ensures HistoryMoves(n, Step(n, RejectNewest).value)
  {
    hide NodeOk, Appended, Replayed, DomainRejected, TokenRejected, TrackerReject, RejectBatch;
    Rejects.RejectKeeps(n);
    if n.pending == [] {
      assert Step(n, RejectNewest).value == n;
    } else {
      RestoredHistory(n, Step(n, RejectNewest).value);
    }
  }

  lemma RestoredHistory(n: Node, m: Node)
    requires Restored(n, m)
    ensures History(n) != [] && History(m) == History(n)[..|History(n)| - 1]
  {
    hide Appended, Replayed, TrackerReject, RejectBatch;
    assert History(n)[..|History(n)| - 1] == n.done + n.pending[..|n.pending| - 1];
  }

  lemma CommitMoves(n: Node)
    requires NodeOk(n) && Step(n, CommitOldest).Ok?
    ensures HistoryMoves(n, Step(n, CommitOldest).value)
  {
    hide NodeOk, Step;
    if n.pending == [] {
      CommitNothing(n);
    } else {
      Commits.CommitKeeps(n);
      Commits.AdvancedIsOk(n, Step(n, CommitOldest).value);
      Commits.AdvancedFull(n, Step(n, CommitOldest).value);
    }
  }

  lemma CommitNothing(n: Node)
    requires n.pending == []
    ensures Step(n, CommitOldest) == Ok(n)
  {
  }

  /** The invariant holds after every run that raised nothing, wherever it started. */
  lemma {:induction false} RunKeeps(n: Node, es: seq<Event>)
    requires NodeOk(n) && LegalRun(n, es) && Run(n, es).Ok?
    ensures NodeOk(Run(n, es).value)
  {
    hide NodeOk, LegalEvent, Step;
    if es != [] {
      RunKeeps(n, es[..|es| - 1]);
      StepKeeps(Run(n, es[..|es| - 1]).value, es[|es| - 1]);
    }
  }

  lemma Reachable(es: seq<Event>)
    requires LegalRun(Genesis, es) && Run(Genesis, es).Ok?
    ensures NodeOk(Run(Genesis, es).value)
  {
    GenesisOk();
    RunKeeps(Genesis, es);
  }

  // ----- laws of every node the invariant allows -----

  /** The index agrees with the state in the uncommitted and in the committed view. */
  lemma IndexAgreesWithState(n: Node)
    requires NodeOk(n)
    ensures Coherent(Uncommitted(n.side))
    ensures Coherent(TokenView(n.side.committedHead, n.side.cache.base))
  {
    hide Coherent, Alignment.Aligned, RecordsOk, QueuesOk;
    LedgerCoherent(Full(n.side));
    assert Full(n.side)[..|n.side.ledger|] == n.side.ledger;
    ValidPrefix(Full(n.side), |n.side.ledger|);
    LedgerCoherent(n.side.ledger);
  }

  /** The fees in force when the transfers and fee transactions of a ledger were authorized. */
  function Collected(l: seq<TokenTxn>, due: seq<nat>): int
    requires |l| == |due|
  {
    if l == [] then 0
    else Collected(l[..|l| - 1], due[..|l| - 1]) + if l[|l| - 1].Mint? then 0 else due[|l| - 1]
  }

  lemma DuesLast(l: seq<TokenTxn>, due: seq<nat>)
    requires DuesMatch(l, due) && l != []
    ensures |l| == |due|
    ensures !l[|l| - 1].Mint? ==> Difference(Replayed(l[..|l| - 1]).index, l[|l| - 1]) == due[|l| - 1]
  {
  }

  lemma FeeRecordsDifference(l: seq<TokenTxn>)
    requires ValidLedger(l) && l != [] && l[|l| - 1].Fee?
    ensures l[|l| - 1].fees == Difference(Replayed(l[..|l| - 1]).index, l[|l| - 1])
  {
  }

  lemma {:induction false} CollectedIsKept(l: seq<TokenTxn>, due: seq<nat>)
    requires ValidLedger(l) && DuesMatch(l, due)
    ensures Collected(l, due) == FeesRecorded(l) + TransferDifferences(l)
  {
    hide DuesMatch, ValidTxn;
    DuesLength(l, due);
    if l != [] {
      var init, d := l[..|l| - 1], due[..|l| - 1];
      DuesLast(l, due);
      assert l == init + [l[|l| - 1]] && due == d + [due[|l| - 1]];
      DuesPrefix(init, d, [l[|l| - 1]], [due[|l| - 1]]);
      CollectedIsKept(init, d);
      if l[|l| - 1].Fee? { FeeRecordsDifference(l); }
    }
  }

  /** Value is conserved with pending batches counted in: what is live, plus every fee in force
      when a payment was authorized, is what was minted. The same holds of the committed part. */
  lemma ValueConserved(n: Node)
    requires NodeOk(n)
    ensures var l, due := Full(n.side), Dues(History(n));
      |l| == |due| && SumLive(LiveMap(n.side.head)) + Collected(l, due) == Minted(l)
    ensures var l := n.side.ledger;
      SumLive(LiveMap(n.side.committedHead)) + FeesRecorded(l) + TransferDifferences(l) == Minted(l)
  {
    hide Alignment.Aligned, LiveMap, Replayed, QueuesOk;
    var l := Full(n.side);
    DuesLength(l, Dues(History(n)));
    Conservation(l);
    CollectedIsKept(l, Dues(History(n)));
    assert l[..|n.side.ledger|] == n.side.ledger;
    ValidPrefix(l, |n.side.ledger|);
    Conservation(n.side.ledger);
  }

  /** Across committed and pending batches alike, an output is spent by one transaction only, and
      created by one only, an earlier one. */
  lemma SingleSpendInRuns(n: Node, j: nat, r: Ref)
    requires NodeOk(n) && j < |Full(n.side)| && r in Spends(Full(n.side)[j])
    ensures OnlySpender(Full(n.side), j, r)
    ensures exists i :: 0 <= i < j && OnlyCreator(Full(n.side), i, r)
  {
    SingleSpend(Full(n.side), j, r);
  }

  // ----- rejecting over whole runs -----

  function NewestEntry(s: Side): TrackEntry {
    if s.tracker.queue == [] then s.tracker.lastCommitted else s.tracker.queue[|s.tracker.queue| - 1]
  }

  /** Everything uncommitted about a node is determined by the batches it has not lost. */
  lemma UncommittedIsHistory(n: Node)
    requires NodeOk(n)
    ensures var l := Appended(History(n));
      Full(n.side) == l && Uncommitted(n.side) == Replayed(l) && NewestEntry(n.side) == Alignment.EntryOf(l)
  {
    hide Replayed, DuesMatch, ValidLedger, Appended;
    HistoryIsFull(n);
    if n.pending == [] {
      AppendedNone();
      assert n.side.ledger + [] == n.side.ledger;
    } else {
      AlignedNewest(n.side.ledger, n.pending, n.side.tracker.queue, n.side.cache.pending);
    }
  }

  /** The run never takes back a batch below the height k. */
  ghost predicate StaysAbove(n: Node, es: seq<Event>, k: nat) {
    && (Run(n, es).Ok? ==> |History(Run(n, es).value)| >= k)
    && (es != [] ==> StaysAbove(n, es[..|es| - 1], k))
  }

  lemma {:induction false} HistoryRemains(n: Node, es: seq<Event>)
    requires NodeOk(n) && LegalRun(n, es) && Run(n, es).Ok? && StaysAbove(n, es, |History(n)|)
    ensures |History(Run(n, es).value)| >= |History(n)|
    ensures History(Run(n, es).value)[..|History(n)|] == History(n)
  {
    hide NodeOk, Step, LegalEvent;
    if es != [] {
      var init := es[..|es| - 1];
      HistoryRemains(n, init);
      RunKeeps(n, init);
      StepKeeps(Run(n, init).value, es[|es| - 1]);
    }
  }

  /** Rejection is exact over whole runs: however batches were applied, committed and rejected
      since, once all those applied after `n` are rejected, the uncommitted state, index, token
      ledger, newest tracker entry and domain transactions are those of `n` again. */
  lemma RejectRestores(n: Node, es: seq<Event>)
    requires NodeOk(n) && LegalRun(n, es) && Run(n, es).Ok? && StaysAbove(n, es, |History(n)|)
    requires |History(Run(n, es).value)| == |History(n)|
    ensures var m := Run(n, es).value;
      && Uncommitted(m.side) == Uncommitted(n.side) && Full(m.side) == Full(n.side)
      && NewestEntry(m.side) == NewestEntry(n.side) && DomainTxns(History(m)) == DomainTxns(History(n))
  {
    hide NodeOk, StaysAbove, LegalRun, Uncommitted, NewestEntry, Run;
    HistoryRemains(n, es);
    RunKeeps(n, es);
    var m := Run(n, es).value;
    assert History(m)[..|History(n)|] == History(m);
    UncommittedIsHistory(n);
    UncommittedIsHistory(m);
  }
}
