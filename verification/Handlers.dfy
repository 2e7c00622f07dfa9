/** The write handlers of the token ledger: token_utils.py, mint_handler.py, xfer_handler.py,
    xfer_handler_1_0_0.py and fee_txn_handler.py. */
module Handlers {
  import opened Types
  import opened Stores
  import opened UtxoCache
  import T = TokenLedger

  /** plenum's PruningState, as far as it is used: an uncommitted and a committed trie. */
  class PruningState {
    var head: State
    var committedHead: State

    constructor ()
      ensures head == map[] && committedHead == map[]
    {
      head, committedHead := map[], map[];
    }

    method Set(key: Ref, value: StateValue)
      modifies this`head
      ensures head == old(head)[key := value]
    {
      head := head[key := value];
    }

    method Remove(key: Ref)
      modifies this`head
      ensures head == old(head) - {key}
    {
      head := head - {key};
    }

    method Commit(root: State)
      modifies this`committedHead
      ensures committedHead == root
    {
      committedHead := root;
    }

    method RevertToHead(root: State)
      modifies this`head
      ensures head == root
    {
      head := root;
    }
  }

  /** TokenStaticHelper.spend_input: the state first, then the cache, which may raise. */
  method SpendInput(state: PruningState, cache: UTXOCache, r: Ref, isCommitted: bool, removeSpent: bool,
      ghost s0: Store<seq<Entry>>, ghost d: T.Delta) returns (error: Option<Error>)
    requires cache.Valid() && cache.view == Write(s0, d.writes, isCommitted) && state.head == d.state
    modifies state`head, cache
    ensures cache.Valid()
    ensures var e := T.SpendInput(View(s0, isCommitted), d, r, removeSpent);
      state.head == e.state && cache.view == Write(s0, e.writes, isCommitted) && error == e.error
  {
    ViewOfWrite(s0, d.writes, isCommitted);
    if removeSpent {
      state.Remove(r);
    } else {
      state.Set(r, Tombstone);
    }
    error := cache.SpendOutput(r, isCommitted);
    WriteTwice(s0, d.writes, SpendWrites(View(s0, isCommitted) + d.writes, r), isCommitted);
  }

  /** TokenStaticHelper.add_new_output */
  method AddNewOutput(state: PruningState, cache: UTXOCache, output: Output, isCommitted: bool,
      ghost s0: Store<seq<Entry>>, ghost d: T.Delta)
    requires cache.Valid() && cache.view == Write(s0, d.writes, isCommitted) && state.head == d.state
    modifies state`head, cache
    ensures cache.Valid()
    ensures var e := T.AddNewOutput(View(s0, isCommitted), d, output);
      state.head == e.state && cache.view == Write(s0, e.writes, isCommitted)
  {
    ViewOfWrite(s0, d.writes, isCommitted);
    state.Set(Ref(output.address, output.seqNo), Amount(output.amount));
    cache.AddOutput(output, isCommitted);
    ghost var es := Listed(View(s0, isCommitted) + d.writes, output.address) + [Entry(output.seqNo, output.amount)];
    WriteTwice(s0, d.writes, map[output.address := es], isCommitted);
  }

  /** The spending loop of every update method. */
  method SpendInputs(state: PruningState, cache: UTXOCache, inputs: seq<Ref>, isCommitted: bool, removeSpent: bool)
      returns (error: Option<Error>)
    requires cache.Valid()
    modifies state`head, cache
    ensures cache.Valid()
    ensures var d := T.SpendAll(View(old(cache.view), isCommitted), T.Start(old(state.head)), inputs, removeSpent);
      state.head == d.state && cache.view == Write(old(cache.view), d.writes, isCommitted) && error == d.error
  {
    ghost var s0, index, d := cache.view, View(cache.view, isCommitted), T.Start(state.head);
    WriteNothing(s0, isCommitted);
    error := None;
    hide T.SpendAll, T.SpendInput, Write, View;
    SpendAllNone(index, T.Start(state.head), inputs, removeSpent);
    for i := 0 to |inputs|
      invariant cache.Valid() && error == None
      invariant d == T.SpendAll(index, T.Start(old(state.head)), inputs[..i], removeSpent) && d.error == None
      invariant state.head == d.state && cache.view == Write(s0, d.writes, isCommitted)
    {
      SpendAllNext(index, T.Start(old(state.head)), inputs, i, removeSpent);
      error := SpendInput(state, cache, inputs[i], isCommitted, removeSpent, s0, d);
      d := T.SpendInput(index, d, inputs[i], removeSpent);
      if error.Some? {
        SpendAllStops(index, T.Start(old(state.head)), inputs, i + 1, removeSpent);
        return;
      }
    }
    assert inputs[..|inputs|] == inputs;
  }

  lemma SpendAllNone(index: Index, d: T.Delta, inputs: seq<Ref>, removeSpent: bool)
    ensures T.SpendAll(index, d, inputs[..0], removeSpent) == d
  {
  }

  lemma SpendAllNext(index: Index, d: T.Delta, inputs: seq<Ref>, i: nat, removeSpent: bool)
    requires i < |inputs|
    ensures var e := T.SpendAll(index, d, inputs[..i], removeSpent);
      T.SpendAll(index, d, inputs[..i + 1], removeSpent)
      == if e.error.Some? then e else T.SpendInput(index, e, inputs[i], removeSpent)
  {
    assert inputs[..i + 1][..i] == inputs[..i];
  }

  /** Inputs after the one that raised are never reached. */
  lemma {:induction false} SpendAllStops(index: Index, d: T.Delta, inputs: seq<Ref>, i: nat, removeSpent: bool)
    requires i <= |inputs| && T.SpendAll(index, d, inputs[..i], removeSpent).error.Some?
    ensures T.SpendAll(index, d, inputs, removeSpent) == T.SpendAll(index, d, inputs[..i], removeSpent)
    decreases |inputs| - i
  {
    if i < |inputs| {
      assert inputs[..i + 1][..i] == inputs[..i];
      SpendAllStops(index, d, inputs, i + 1, removeSpent);
    } else {
      assert inputs[..i] == inputs;
    }
  }

  /** The adding loop of every update method, run after the effect `d`. */
  method AddOutputs(state: PruningState, cache: UTXOCache, outputs: seq<Payment>, seqNo: int, isCommitted: bool,
      ghost s0: Store<seq<Entry>>, ghost d: T.Delta)
    requires cache.Valid() && cache.view == Write(s0, d.writes, isCommitted) && state.head == d.state
    modifies state`head, cache
    ensures cache.Valid()
    ensures var e := T.AddAll(View(s0, isCommitted), d, outputs, seqNo);
      state.head == e.state && cache.view == Write(s0, e.writes, isCommitted)
  {
    ghost var index := View(s0, isCommitted);
    for i := 0 to |outputs|
      invariant cache.Valid()
      invariant state.head == T.AddAll(index, d, outputs[..i], seqNo).state
      invariant cache.view == Write(s0, T.AddAll(index, d, outputs[..i], seqNo).writes, isCommitted)
    {
      assert outputs[..i + 1][..i] == outputs[..i];
      var output := Output(outputs[i].address, seqNo, outputs[i].amount);
      AddNewOutput(state, cache, output, isCommitted, s0, T.AddAll(index, d, outputs[..i], seqNo));
    }
    assert outputs[..|outputs|] == outputs;
  }

  lemma {:induction false} AddAllKeepsError(index: Index, d: T.Delta, outputs: seq<Payment>, seqNo: int)
    requires d.error == None
    ensures T.AddAll(index, d, outputs, seqNo).error == None
  {
  }

  class XferHandler {
    const state: PruningState
    const utxoCache: UTXOCache

    constructor (state: PruningState, utxoCache: UTXOCache)
      ensures this.state == state && this.utxoCache == utxoCache
    {
      this.state, this.utxoCache := state, utxoCache;
    }

    method UpdateState(txn: T.TokenTxn, isCommitted: bool) returns (error: Option<Error>)
      requires utxoCache.Valid() && !txn.Mint? && (txn.Xfer? ==> !txn.legacy)
      modifies state`head, utxoCache
      ensures utxoCache.Valid()
      ensures var d := T.ApplyTxn(T.TokenView(old(state.head), View(old(utxoCache.view), isCommitted)), txn);
        state.head == d.state && utxoCache.view == Write(old(utxoCache.view), d.writes, isCommitted) && error == d.error
    {
      error := SpendInputs(state, utxoCache, txn.inputs, isCommitted, true);
      if error.None? {
        ghost var index := View(old(utxoCache.view), isCommitted);
        ghost var d := T.SpendAll(index, T.Start(old(state.head)), txn.inputs, true);
        AddAllKeepsError(index, d, txn.outputs, txn.seqNo);
        AddOutputs(state, utxoCache, txn.outputs, txn.seqNo, isCommitted, old(utxoCache.view), d);
      }
    }
  }

  class XferHandler100 {
    const state: PruningState
    const utxoCache: UTXOCache

    constructor (state: PruningState, utxoCache: UTXOCache)
      ensures this.state == state && this.utxoCache == utxoCache
    {
      this.state, this.utxoCache := state, utxoCache;
    }

    method UpdateState(txn: T.TokenTxn, isCommitted: bool) returns (error: Option<Error>)
      requires utxoCache.Valid() && txn.Xfer? && txn.legacy
      modifies state`head, utxoCache
      ensures utxoCache.Valid()
      ensures var d := T.ApplyTxn(T.TokenView(old(state.head), View(old(utxoCache.view), isCommitted)), txn);
        state.head == d.state && utxoCache.view == Write(old(utxoCache.view), d.writes, isCommitted) && error == d.error
    {
      error := SpendInputs(state, utxoCache, txn.inputs, isCommitted, false);
      if error.None? {
        ghost var index := View(old(utxoCache.view), isCommitted);
        ghost var d := T.SpendAll(index, T.Start(old(state.head)), txn.inputs, false);
        AddAllKeepsError(index, d, txn.outputs, txn.seqNo);
        AddOutputs(state, utxoCache, txn.outputs, txn.seqNo, isCommitted, old(utxoCache.view), d);
      }
    }
  }

  class MintHandler {
    const state: PruningState
    const utxoCache: UTXOCache

    constructor (state: PruningState, utxoCache: UTXOCache)
      ensures this.state == state && this.utxoCache == utxoCache
    {
      this.state, this.utxoCache := state, utxoCache;
    }

    method UpdateState(txn: T.TokenTxn, isCommitted: bool)
      requires utxoCache.Valid() && txn.Mint?
      modifies state`head, utxoCache
      ensures utxoCache.Valid()
      ensures var d := T.ApplyTxn(T.TokenView(old(state.head), View(old(utxoCache.view), isCommitted)), txn);
        state.head == d.state && utxoCache.view == Write(old(utxoCache.view), d.writes, isCommitted)
    {
      WriteNothing(utxoCache.view, isCommitted);
      AddOutputs(state, utxoCache, txn.outputs, txn.seqNo, isCommitted, utxoCache.view, T.Start(state.head));
    }
  }

  /** plenum's choice of handler for a token-ledger transaction by type and version; a FEES
      transaction reaches FeeTxnCatchupHandler, which inherits the transfer update. */
  method UpdateState(state: PruningState, cache: UTXOCache, txn: T.TokenTxn, isCommitted: bool)
      returns (error: Option<Error>)
    requires cache.Valid()
    modifies state`head, cache
    ensures cache.Valid()
    ensures var d := T.ApplyTxn(T.TokenView(old(state.head), View(old(cache.view), isCommitted)), txn);
      state.head == d.state && cache.view == Write(old(cache.view), d.writes, isCommitted) && error == d.error
  {
    error := None;
    if txn.Mint? {
      var handler := new MintHandler(state, cache);
      AddAllKeepsError(View(cache.view, isCommitted), T.Start(state.head), txn.outputs, txn.seqNo);
      handler.UpdateState(txn, isCommitted);
    } else if txn.Xfer? && txn.legacy {
      var handler := new XferHandler100(state, cache);
      error := handler.UpdateState(txn, isCommitted);
    } else {
      var handler := new XferHandler(state, cache);
      error := handler.UpdateState(txn, isCommitted);
    }
  }
}
