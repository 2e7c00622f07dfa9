/** sovtokenfees/fees_authorizer.py: who may pay what. */
module Authorizer {
  import opened Types
  import opened Stores
  import opened UtxoCache
  import opened TokenLedger
  import opened Replay
  import opened Requests

  /** SET_FEES admits no negative fee. */
  type FeeTable = map<string, nat>

  /** The fee in force for the alias in a constraint's metadata. */
  function FeeFor(table: FeeTable, alias: Option<string>): nat {
    if alias.Some? && alias.value in table then table[alias.value] else 0
  }

  /** calculate_fees_from_req: inputs minus outputs; 0 when an input cannot be spent. */
  function CalculateFees(index: Index, r: Request): int {
    var inputs := if r.fees.Some? then r.fees.value.inputs else r.inputs;
    var outputs := if r.fees.Some? then r.fees.value.change else r.outputs;
    if AllSpendable(index, inputs) then NamedSum(index, inputs) - SumPayments(outputs) else 0
  }

  /** validate_given_inputs_outputs */
  function CompareSums(inputsSum: int, required: int): Option<Error> {
    if inputsSum == required then None
    else if inputsSum > required then Some(ExtraFunds)
    else Some(InsufficientFunds)
  }

  /** _validate_fees_can_pay */
  function CanPay(index: Index, inputs: seq<Ref>, outputs: seq<Payment>, required: int): Option<Error> {
    if !AllSpendable(index, inputs) then Some(InvalidFunds)
    else CompareSums(NamedSum(index, inputs), SumPayments(outputs) + required)
  }

  /** authorize; None is acceptance. */
  function Authorize(index: Index, table: FeeTable, alias: Option<string>, r: Request): Option<Error> {
    var fee := FeeFor(table, alias);
    if r.txnType != XFER_PUBLIC && fee > 0 && r.fees.None? then Some(FeesRequired)
    else if r.txnType != XFER_PUBLIC && fee == 0 && r.fees.Some? && CalculateFees(index, r) > 0 then Some(FeesNotRequired)
    else if r.txnType != XFER_PUBLIC && fee == 0 && r.fees.None? then None
    else if r.txnType == XFER_PUBLIC then CanPay(index, r.inputs, r.outputs, fee)
    else CanPay(index, r.fees.value.inputs, r.fees.value.change, fee)
  }

  /** The inputs can all be spent and cover the outputs and the fee exactly. */
  predicate PaysExactly(index: Index, inputs: seq<Ref>, outputs: seq<Payment>, fee: int) {
    AllSpendable(index, inputs) && NamedSum(index, inputs) == SumPayments(outputs) + fee
  }

  /** The inputs and outputs a request pays with: a transfer's own, any other's `fees`. */
  function PayingInputs(r: Request): seq<Ref> {
    if r.txnType == XFER_PUBLIC then r.inputs else if r.fees.Some? then r.fees.value.inputs else []
  }

  function PayingOutputs(r: Request): seq<Payment> {
    if r.txnType == XFER_PUBLIC then r.outputs else if r.fees.Some? then r.fees.value.change else []
  }

  /** Under a fee, a request may go through: it pays exactly, or owes nothing and attaches nothing. */
  predicate MayPay(index: Index, r: Request, fee: int) {
    if r.txnType == XFER_PUBLIC || r.fees.Some? then PaysExactly(index, PayingInputs(r), PayingOutputs(r), fee)
    else fee == 0
  }

  /** The acceptance rule: a transfer pays its outputs and the fee exactly; any other request
      either owes nothing and attaches nothing, or attaches a payment of exactly the fee. */
  lemma AuthorizeRule(index: Index, table: FeeTable, alias: Option<string>, r: Request)
    ensures Authorize(index, table, alias, r) == None <==> MayPay(index, r, FeeFor(table, alias))
  {
  }

  /** Which error a refusal carries, by comparing what the inputs hold with what is owed: too much
      is extra funds, but a payment where no fee is due is an unneeded fee. */
  lemma RefusalRule(index: Index, table: FeeTable, alias: Option<string>, r: Request)
    ensures var error, fee := Authorize(index, table, alias, r), FeeFor(table, alias);
      var paid, owed := NamedSum(index, PayingInputs(r)), SumPayments(PayingOutputs(r)) + fee;
      var pays := r.txnType == XFER_PUBLIC || r.fees.Some?;
      && (error == Some(FeesRequired) <==> !pays && fee > 0)
      && (error == Some(InvalidFunds) <==> pays && !AllSpendable(index, PayingInputs(r)))
      && (error == Some(InsufficientFunds) <==> pays && AllSpendable(index, PayingInputs(r)) && paid < owed)
      && (error == Some(ExtraFunds) <==>
            pays && AllSpendable(index, PayingInputs(r)) && paid > owed && (r.txnType == XFER_PUBLIC || fee > 0))
      && (error == Some(FeesNotRequired) <==>
            pays && AllSpendable(index, PayingInputs(r)) && paid > owed && r.txnType != XFER_PUBLIC && fee == 0)
  {
  }

  // ----- the transactions that accepted requests become -----

  function MintTxn(r: Request, n: int): TokenTxn { Mint(n, r.outputs) }

  function XferTxn(r: Request, n: int): TokenTxn { Xfer(n, r.inputs, r.outputs, r.legacy) }

  /** The fee transaction that apply_request builds for the domain transaction `ref`. */
  function FeeTxn(index: Index, r: Request, n: int, ref: int): TokenTxn
    requires r.fees.Some?
  {
    Fee(n, r.fees.value.inputs, r.fees.value.change, ref, CalculateFees(index, r))
  }

  lemma AcceptedMint(v: TokenView, r: Request, decodes: AddressCheck, n: int)
    requires ValidateRequest(r, decodes) == None && r.txnType == MINT_PUBLIC
    ensures ValidTxn(v, MintTxn(r, n), n)
  {
    OutputsAccepted(r.outputs, decodes);
  }

  lemma AcceptedXfer(v: TokenView, table: FeeTable, alias: Option<string>, r: Request, decodes: AddressCheck, n: int)
    requires ValidateRequest(r, decodes) == None && r.txnType == XFER_PUBLIC && Authorize(v.index, table, alias, r) == None
    ensures ValidTxn(v, XferTxn(r, n), n) && Difference(v.index, XferTxn(r, n)) == FeeFor(table, alias)
  {
    OutputsAccepted(r.outputs, decodes);
    InputsAccepted(r.inputs, decodes);
  }

  /** An accepted payment becomes a valid fee transaction recording exactly the fee in force. */
  lemma AcceptedFee(v: TokenView, table: FeeTable, alias: Option<string>, r: Request, decodes: AddressCheck, n: int, ref: int)
    requires ValidateRequest(r, decodes) == None && r.txnType != XFER_PUBLIC && r.fees.Some?
    requires Authorize(v.index, table, alias, r) == None
    ensures ValidTxn(v, FeeTxn(v.index, r, n, ref), n)
    ensures FeeTxn(v.index, r, n, ref).fees == FeeFor(table, alias) == Difference(v.index, FeeTxn(v.index, r, n, ref))
  {
    OutputsAccepted(r.fees.value.change, decodes);
    InputsAccepted(r.fees.value.inputs, decodes);
  }

  // ----- the authorizer over the real cache -----

  class FeesAuthorizer {
    const utxoCache: UTXOCache

    constructor (utxoCache: UTXOCache)
      ensures this.utxoCache == utxoCache
    {
      this.utxoCache := utxoCache;
    }

    method CalculateFeesFromReq(r: Request) returns (fees: int)
      requires utxoCache.Valid()
      ensures fees == CalculateFees(View(utxoCache.view, false), r)
    {
      var inputs := if r.fees.Some? then r.fees.value.inputs else r.inputs;
      var outputs := if r.fees.Some? then r.fees.value.change else r.outputs;
      var sum := utxoCache.SumInputs(inputs, false);
      if sum.Err? {
        return 0;
      }
      return sum.value - SumPayments(outputs);
    }

    method CanPayFees(r: Request, required: nat) returns (error: Option<Error>)
      requires utxoCache.Valid()
      requires r.txnType != XFER_PUBLIC ==> r.fees.Some?
      ensures error == if r.txnType == XFER_PUBLIC then CanPay(View(utxoCache.view, false), r.inputs, r.outputs, required)
        else CanPay(View(utxoCache.view, false), r.fees.value.inputs, r.fees.value.change, required)
    {
      var inputs := if r.txnType == XFER_PUBLIC then r.inputs else r.fees.value.inputs;
      var outputs := if r.txnType == XFER_PUBLIC then r.outputs else r.fees.value.change;
      var sum := utxoCache.SumInputs(inputs, false);
      if sum.Err? {
        return Some(InvalidFunds);
      }
      return CompareSums(sum.value, SumPayments(outputs) + required);
    }

    /** The decision taken over the stored text is the decision over the index it encodes. */
    method AuthorizeRequest(r: Request, table: FeeTable, alias: Option<string>) returns (error: Option<Error>)
      requires utxoCache.Valid()
      ensures error == Authorize(View(utxoCache.view, false), table, alias, r)
    {
      var fee := FeeFor(table, alias);
      var isFeesRequired := fee > 0;
      if r.txnType != XFER_PUBLIC {
        if isFeesRequired && r.fees.None? {
          return Some(FeesRequired);
        }
        if !isFeesRequired && r.fees.Some? {
          var calculated := CalculateFeesFromReq(r);
          if calculated > 0 {
            return Some(FeesNotRequired);
          }
        }
        if !isFeesRequired && r.fees.None? {
          return None;
        }
      }
      error := CanPayFees(r, fee);
    }
  }
}
