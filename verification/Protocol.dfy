/** The optimistic batch protocol of one node over the domain ledger and the token ledger,
    as functions on values. The batch handlers in BatchHandlers are proved to compute them. */
module Protocol {
  import opened Types
  import Text
  import opened Stores
  import opened TokenLedger
  import opened Requests
  import opened Authorizer

  // ----- plenum's LedgerUncommittedTracker -----

  /** A ledger root hash is taken to be the transactions it names. */
  datatype TrackEntry = TrackEntry(stateRoot: State, txnRoot: seq<TokenTxn>, size: int)

  datatype Tracker = Tracker(lastCommitted: TrackEntry, queue: seq<TrackEntry>)

  /** reject_batch forgets the newest entry and answers with the one below it. */
  function NewestBelow(t: Tracker): TrackEntry
    requires t.queue != []
  {
    if |t.queue| == 1 then t.lastCommitted else t.queue[|t.queue| - 2]
  }

  function TrackerReject(t: Tracker): Tracker
    requires t.queue != []
  {
    t.(queue := t.queue[..|t.queue| - 1])
  }

  function TrackerCommit(t: Tracker): Tracker
    requires t.queue != []
  {
    Tracker(t.queue[0], t.queue[1..])
  }

  // ----- everything the plugins keep about the token ledger -----

  /** Token state, token ledger with its uncommitted tail, uncommitted tracker, UTXO cache,
      and the fees tracker's counter and table of charged slots. */
  datatype Side = Side(
    head: State, committedHead: State,
    ledger: seq<TokenTxn>, tail: seq<TokenTxn>,
    tracker: Tracker,
    cache: Store<seq<Entry>>,
    feesInBatch: nat, deducted: map<string, int>)

  /** `paid` records whether the request carried fees; no handler reads it. */
  datatype DomainTxn = DomainTxn(txnType: string, seqNo: int, paid: bool)

  /** A domain transaction as the client gets it back. */
  datatype Reply = Reply(txn: DomainTxn, fees: Option<TokenTxn>)

  function Full(s: Side): seq<TokenTxn> { s.ledger + s.tail }

  function Uncommitted(s: Side): TokenView { TokenView(s.head, View(s.cache, false)) }

  function Newest(s: Side): TrackEntry { TrackEntry(s.head, Full(s), |Full(s)|) }

  function SlotOf(t: DomainTxn): string { Text.SlotKey(t.txnType, t.seqNo) }

  // ----- requests of a batch -----

  /** A request with what it is judged by: the fee alias of its constraint, and which addresses decode. */
  datatype Asked = Asked(request: Request, alias: Option<string>, decodes: AddressCheck)

  /** The batch so far: domain transactions, token transactions appended, and the fee in force
      for each of these when it was authorized. */
  datatype Applied = Applied(side: Side, txns: seq<DomainTxn>, appended: seq<TokenTxn>, due: seq<nat>, error: Option<Error>)

  function AppendTxn(s: Side, txn: TokenTxn): (Side, Option<Error>) {
    var d := ApplyTxn(Uncommitted(s), txn);
    (s.(tail := s.tail + [txn], head := d.state, cache := Write(s.cache, d.writes, false)), d.error)
  }

  predicate Accepted(s: Side, table: FeeTable, q: Asked) {
    ValidateRequest(q.request, q.decodes) == None && Authorize(View(s.cache, false), table, q.alias, q.request) == None
  }

  /** The fee transaction a request's payment becomes. */
  function ChargeTxn(s: Side, r: Request, seqNo: int): (txn: TokenTxn)
    requires r.fees.Some?
    ensures txn.Fee? && txn.ref == seqNo
  {
    FeeTxn(View(s.cache, false), r, |Full(s)| + 1, seqNo)
  }

  /** DomainFeeHandler.apply_request for a request that carries fees. */
  function Charge(s: Side, r: Request, seqNo: int): (Side, Option<Error>)
    requires r.fees.Some?
  {
    var txn := ChargeTxn(s, r, seqNo);
    var (t, error) := AppendTxn(s, txn);
    if error.Some? then (t, error)
    else (t.(feesInBatch := t.feesInBatch + 1, deducted := t.deducted[Text.SlotKey(r.txnType, seqNo) := txn.fees]), None)
  }

  predicate IsToken(r: Request) { r.txnType == MINT_PUBLIC || r.txnType == XFER_PUBLIC }

  /** One domain request: dropped unless accepted; given the next domain seqNo; charged if it carries fees. */
  function ApplyDomainOne(a: Applied, first: int, table: FeeTable, q: Asked): Applied {
    var r, n := q.request, first + |a.txns|;
    if a.error.Some? || IsToken(r) || !Accepted(a.side, table, q) then a
    else if r.fees.None? then a.(txns := a.txns + [DomainTxn(r.txnType, n, false)])
    else
      var (t, error) := Charge(a.side, r, n);
      Applied(t, a.txns + [DomainTxn(r.txnType, n, true)],
              a.appended + [ChargeTxn(a.side, r, n)],
              a.due + [FeeFor(table, q.alias)], error)
  }

  function ApplyDomainAll(s: Side, first: int, table: FeeTable, qs: seq<Asked>): Applied {
    if qs == [] then Applied(s, [], [], [], None)
    else ApplyDomainOne(ApplyDomainAll(s, first, table, qs[..|qs| - 1]), first, table, qs[|qs| - 1])
  }

  /** The transaction a token-ledger request becomes, and the fee in force for it. */
  function TokenTxnOf(s: Side, r: Request): TokenTxn {
    if r.txnType == MINT_PUBLIC then MintTxn(r, |Full(s)| + 1) else XferTxn(r, |Full(s)| + 1)
  }

  function TokenDue(table: FeeTable, q: Asked): nat {
    if q.request.txnType == MINT_PUBLIC then 0 else FeeFor(table, q.alias)
  }

  /** One token-ledger request. */
  function ApplyTokenOne(a: Applied, table: FeeTable, q: Asked): Applied {
    if a.error.Some? || !IsToken(q.request) || !Accepted(a.side, table, q) then a
    else
      var txn := TokenTxnOf(a.side, q.request);
      var (t, error) := AppendTxn(a.side, txn);
      Applied(t, [], a.appended + [txn], a.due + [TokenDue(table, q)], error)
  }

  function ApplyTokenAll(s: Side, table: FeeTable, qs: seq<Asked>): Applied {
    if qs == [] then Applied(s, [], [], [], None)
    else ApplyTokenOne(ApplyTokenAll(s, table, qs[..|qs| - 1]), table, qs[|qs| - 1])
  }

  // ----- batch handlers -----

  function Track(s: Side): Side { s.(tracker := s.tracker.(queue := s.tracker.queue + [Newest(s)])) }

  /** DomainFeeBatchHandler.post_batch_applied: a cache batch only when fees were charged. */
  function DomainApplied(s: Side): Side {
    if s.feesInBatch > 0 then Track(s).(cache := CreateBatch(s.cache, s.head), feesInBatch := 0) else Track(s)
  }

  /** UTXOBatchHandler and TrackerBatchHandler.post_batch_applied */
  function TokenApplied(s: Side): Side { Track(s.(cache := CreateBatch(s.cache, s.head))) }

  function DropLast<T>(s: seq<T>, count: int): seq<T> {
    if count <= 0 then s else if count >= |s| then [] else s[..|s| - count]
  }

  /** DomainFeeBatchHandler.post_batch_rejected */
  function DomainRejected(s: Side): (Side, Option<Error>) {
    if s.tracker.queue == [] then (s, Some(NothingPending))
    else
      var below, t := NewestBelow(s.tracker), TrackerReject(s.tracker);
      var count := s.tracker.queue[|s.tracker.queue| - 1].size - below.size;
      if count == 0 || Full(s) == below.txnRoot || s.head == below.stateRoot then (s.(tracker := t), None)
      else
        var s' := s.(tracker := t, head := below.stateRoot, tail := DropLast(s.tail, count));
        if s.cache.pending == [] then (s', Some(NothingPending)) else (s'.(cache := RejectBatch(s.cache)), None)
  }

  /** UTXOBatchHandler and TrackerBatchHandler.post_batch_rejected */
  function TokenRejected(s: Side): (Side, Option<Error>) {
    if s.cache.pending == [] then (s, Some(NothingPending))
    else
      var s' := s.(cache := RejectBatch(s.cache));
      if s.tracker.queue == [] then (s', Some(NothingPending)) else (s'.(tracker := TrackerReject(s.tracker)), None)
  }

  function Min(a: int, b: int): int { if a < b then a else b }

  /** plenum's _commit: move up to `count` transactions, compare the ledger root, commit the state root. */
  function LedgerCommitted(s: Side, count: nat, stateRoot: State, txnRoot: seq<TokenTxn>): (Side, Result<seq<TokenTxn>>) {
    var k := Min(count, |s.tail|);
    var s' := s.(ledger := s.ledger + s.tail[..k], tail := s.tail[k..]);
    if s'.ledger != txnRoot then (s', Err(TxnRootMismatch)) else (s'.(committedHead := stateRoot), Ok(s.tail[..k]))
  }

  /** commit_to_utxo_cache */
  function CacheCommitted(s: Side, root: State): (Side, Option<Error>) {
    if s.cache.pending == [] || s.cache.pending[0].id != root then (s, Some(CacheRootMismatch))
    else (s.(cache := CommitBatch(s.cache)), None)
  }

  /** The seqNos of the transactions whose slot is in the charged table. */
  function ChargedSeqNos(deducted: map<string, int>, txns: seq<DomainTxn>): seq<int> {
    if txns == [] then []
    else
      var init, t := txns[..|txns| - 1], txns[|txns| - 1];
      ChargedSeqNos(deducted, init) + if SlotOf(t) in deducted then [t.seqNo] else []
  }

  /** The pairing loop of commit_batch. */
  function PairReplies(txns: seq<DomainTxn>, charged: seq<int>, committed: seq<TokenTxn>): Result<seq<Reply>> {
    if txns == [] then Ok([])
    else
      var mine := txns[0].seqNo in charged;
      if mine && committed == [] then Err(IndexOutOfRange)
      else
        var rest := PairReplies(txns[1..], charged, if mine then committed[1..] else committed);
        if rest.Err? then rest
        else Ok([Reply(txns[0], if mine then Some(committed[0]) else None)] + rest.value)
  }

  function Unpaired(txns: seq<DomainTxn>): seq<Reply> {
    if txns == [] then [] else [Reply(txns[0], None)] + Unpaired(txns[1..])
  }

  /** DomainFeeBatchHandler.commit_batch */
  function DomainCommitted(s: Side, txns: seq<DomainTxn>): (Side, Result<seq<Reply>>) {
    if s.tracker.queue == [] then (s, Err(NothingPending))
    else
      var entry, s0 := s.tracker.queue[0], s.(tracker := TrackerCommit(s.tracker));
      var charged := ChargedSeqNos(s.deducted, txns);
      if charged == [] then (s0, Ok(Unpaired(txns)))
      else
        var (s1, moved) := LedgerCommitted(s0, |charged|, entry.stateRoot, entry.txnRoot);
        if moved.Err? then (s1, Err(moved.error))
        else
          var (s2, error) := CacheCommitted(s1, entry.stateRoot);
          if error.Some? then (s2, Err(error.value))
          else
            var replies := PairReplies(txns, charged, moved.value);
            if replies.Err? then (s2, replies) else (s2.(feesInBatch := 0), replies)
  }

  /** TokenBatchHandler, UTXOBatchHandler and TrackerBatchHandler.commit_batch */
  function TokenCommitted(s: Side, count: nat, stateRoot: State, txnRoot: seq<TokenTxn>): (Side, Option<Error>) {
    var (s1, moved) := LedgerCommitted(s, count, stateRoot, txnRoot);
    if moved.Err? then (s1, Some(moved.error))
    else
      var (s2, error) := CacheCommitted(s1, stateRoot);
      if error.Some? then (s2, error)
      else if s.tracker.queue == [] then (s2, Some(NothingPending))
      else (s2.(tracker := TrackerCommit(s2.tracker)), None)
  }

  // ----- catch-up -----

  /** A token transaction taken over from another node: appended, applied with
      is_committed=True, and its state root committed at once. */
  function CatchUpOne(s: Side, txn: TokenTxn): (Side, Option<Error>) {
    var d := ApplyTxn(TokenView(s.head, View(s.cache, true)), txn);
    (s.(ledger := s.ledger + [txn], head := d.state,
        committedHead := if d.error.Some? then s.committedHead else d.state,
        cache := Write(s.cache, d.writes, true)), d.error)
  }

  function CatchUpAll(s: Side, txns: seq<TokenTxn>): (Side, Option<Error>) {
    if txns == [] then (s, None)
    else
      var (t, error) := CatchUpAll(s, txns[..|txns| - 1]);
      if error.Some? then (t, error) else CatchUpOne(t, txns[|txns| - 1])
  }

  /** The callback after catch-up: the tracker restarts from what is committed. */
  function TrackerReset(s: Side): Side {
    s.(tracker := s.tracker.(lastCommitted := TrackEntry(s.committedHead, Full(s), |s.ledger|)))
  }

  // ----- the node -----

  /** plenum's record of a 3PC batch, with what the model remembers of it: the token
      transactions it appended and the fee in force for each. */
  datatype BatchRec =
    | DomainBatch(txns: seq<DomainTxn>, appended: seq<TokenTxn>, due: seq<nat>)
    | TokenBatch(appended: seq<TokenTxn>, due: seq<nat>, prevRoot: State, stateRoot: State, txnRoot: seq<TokenTxn>)
    | CaughtUp(txns: seq<DomainTxn>, appended: seq<TokenTxn>, due: seq<nat>)

  /** `pending` holds the batches applied but not ordered, `done` those that became final. */
  datatype Node = Node(side: Side, done: seq<BatchRec>, pending: seq<BatchRec>)

  function TxnsOf(b: BatchRec): seq<DomainTxn> { if b.TokenBatch? then [] else b.txns }

  function DomainTxns(h: seq<BatchRec>): seq<DomainTxn> {
    if h == [] then [] else DomainTxns(h[..|h| - 1]) + TxnsOf(h[|h| - 1])
  }

  function Appended(h: seq<BatchRec>): seq<TokenTxn> {
    if h == [] then [] else Appended(h[..|h| - 1]) + h[|h| - 1].appended
  }

  function Dues(h: seq<BatchRec>): seq<nat> {
    if h == [] then [] else Dues(h[..|h| - 1]) + h[|h| - 1].due
  }

  function History(n: Node): seq<BatchRec> { n.done + n.pending }

  datatype Event =
    | ApplyDomain(table: FeeTable, asked: seq<Asked>)
    | ApplyToken(table: FeeTable, asked: seq<Asked>)
    | RejectNewest
    | CommitOldest
    | CatchUp(caught: BatchRec)

  /** The side of a node that has seen nothing. */
  const Fresh := Side(map[], map[], [], [], Tracker(TrackEntry(map[], [], 0), []), Store(map[], [], map[]), 0, map[])

  const Genesis := Node(Fresh, [], [])

  /** One protocol event; an Err is an exception leaving a handler. */
  function Step(n: Node, e: Event): Result<Node> {
    match e
    case ApplyDomain(table, asked) =>
      var a := ApplyDomainAll(n.side, |DomainTxns(History(n))| + 1, table, asked);
      if a.error.Some? then Err(a.error.value)
      else Ok(Node(DomainApplied(a.side), n.done, n.pending + [DomainBatch(a.txns, a.appended, a.due)]))
    case ApplyToken(table, asked) =>
      var a := ApplyTokenAll(n.side, table, asked);
      if a.error.Some? then Err(a.error.value)
      else Ok(Node(TokenApplied(a.side), n.done,
                   n.pending + [TokenBatch(a.appended, a.due, n.side.head, a.side.head, Full(a.side))]))
    case RejectNewest =>
      if n.pending == [] then Ok(n)
      else
        var b, rest := n.pending[|n.pending| - 1], n.pending[..|n.pending| - 1];
        // for a token batch plenum itself first takes back the state and the ledger tail
        var (s, error) := if b.TokenBatch?
          then TokenRejected(n.side.(head := b.prevRoot, tail := DropLast(n.side.tail, |b.appended|)))
          else DomainRejected(n.side);
        if error.Some? then Err(error.value) else Ok(Node(s, n.done, rest))
    case CommitOldest =>
      if n.pending == [] then Ok(n)
      else
        var b, rest := n.pending[0], n.pending[1..];
        if b.TokenBatch? then
          var (s, error) := TokenCommitted(n.side, |b.appended|, b.stateRoot, b.txnRoot);
          if error.Some? then Err(error.value) else Ok(Node(s, n.done + [b], rest))
        else
          var (s, replies) := DomainCommitted(n.side, b.txns);
          if replies.Err? then Err(replies.error) else Ok(Node(s, n.done + [b], rest))
    case CatchUp(caught) =>
      // catch-up starts only after every uncommitted batch has been taken back
      if n.pending != [] then Ok(n)
      else
        var (s, error) := CatchUpAll(n.side, caught.appended);
        if error.Some? then Err(error.value) else Ok(Node(TrackerReset(s), n.done + [caught], []))
  }

  function Run(n: Node, es: seq<Event>): Result<Node> {
    if es == [] then Ok(n)
    else
      var r := Run(n, es[..|es| - 1]);
      if r.Err? then r else Step(r.value, es[|es| - 1])
  }
}
