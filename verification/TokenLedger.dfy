/** Transactions of the token ledger and what applying one does to the token state
    and to the index of unspent outputs. */
module TokenLedger {
  import opened Types
  import opened Stores
  import UtxoCache

  /** `legacy` marks a transfer executed by the 1.0.0 handler; `ref` is the seqNo of the
      domain transaction a fee transaction pays for; `fees` is the amount it records. */
  datatype TokenTxn =
    | Mint(seqNo: int, outputs: seq<Payment>)
    | Xfer(seqNo: int, inputs: seq<Ref>, outputs: seq<Payment>, legacy: bool)
    | Fee(seqNo: int, inputs: seq<Ref>, outputs: seq<Payment>, ref: int, fees: int)

  datatype TokenView = TokenView(state: State, index: Index)

  /** The effect so far of a handler running over a given index: the new state, the cache keys
      written, and the exception that stopped it, if any. */
  datatype Delta = Delta(state: State, writes: Index, error: Option<Error>)

  function Start(state: State): Delta { Delta(state, map[], None) }

  function SpendInput(index: Index, d: Delta, r: Ref, removeSpent: bool): Delta {
    Delta(if removeSpent then d.state - {r} else d.state[r := Tombstone],
          d.writes + UtxoCache.SpendWrites(index + d.writes, r),
          UtxoCache.SpendError(index + d.writes, r))
  }

  function AddNewOutput(index: Index, d: Delta, o: Output): Delta {
    Delta(d.state[Ref(o.address, o.seqNo) := Amount(o.amount)],
          d.writes + map[o.address := UtxoCache.Listed(index + d.writes, o.address) + [Entry(o.seqNo, o.amount)]],
          None)
  }

  function SpendAll(index: Index, d: Delta, inputs: seq<Ref>, removeSpent: bool): Delta {
    if inputs == [] then d
    else
      var e := SpendAll(index, d, inputs[..|inputs| - 1], removeSpent);
      if e.error.Some? then e else SpendInput(index, e, inputs[|inputs| - 1], removeSpent)
  }

  function AddAll(index: Index, d: Delta, outputs: seq<Payment>, seqNo: int): Delta {
    if outputs == [] then d
    else
      var last := outputs[|outputs| - 1];
      AddNewOutput(index, AddAll(index, d, outputs[..|outputs| - 1], seqNo), Output(last.address, seqNo, last.amount))
  }

  function TxnInputs(txn: TokenTxn): seq<Ref> { if txn.Mint? then [] else txn.inputs }

  /** update_state of the handler in charge: spend every input, then add every output. */
  function ApplyTxn(v: TokenView, txn: TokenTxn): Delta {
    var d := SpendAll(v.index, Start(v.state), TxnInputs(txn), !(txn.Xfer? && txn.legacy));
    if d.error.Some? then d else AddAll(v.index, d, txn.outputs, txn.seqNo)
  }

  function After(v: TokenView, txn: TokenTxn): TokenView {
    var d := ApplyTxn(v, txn);
    TokenView(d.state, v.index + d.writes)
  }
}
