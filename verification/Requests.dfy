/** Requests and their field validators: sovtoken/messages and sovtokenfees/messages/fields.py. */
module Requests {
  import opened Types
  import opened Replay

  const MINT_PUBLIC := "10000"
  const XFER_PUBLIC := "10001"
  const MAX_FEE_OUTPUTS := 1

  /** The `fees` attribute of a request: inputs and change; its signatures are left out. */
  datatype FeesField = FeesField(inputs: seq<Ref>, change: seq<Payment>)

  /** A domain request has no token inputs or outputs of its own. `legacy` is the transfer
      version that selects the 1.0.0 handler. */
  datatype Request = Request(txnType: string, inputs: seq<Ref>, outputs: seq<Payment>,
                             fees: Option<FeesField>, legacy: bool)

  datatype FieldError = NotAnAddress | NotPositive | RepeatedAddress | RepeatedInput | TooShort | TooLong

  /** Which strings decode to a 32-byte verification key; the base58 check itself is foreign. */
  type AddressCheck = string -> bool

  function Addresses(outputs: seq<Payment>): (s: seq<string>)
    ensures |s| == |outputs| && forall i :: 0 <= i < |s| ==> s[i] == outputs[i].address
  {
    seq(|outputs|, i requires 0 <= i < |outputs| => outputs[i].address)
  }

  /** PublicOutputField: address before amount. */
  function ValidateOutput(o: Payment, decodes: AddressCheck): Option<FieldError> {
    if !decodes(o.address) then Some(NotAnAddress) else if o.amount <= 0 then Some(NotPositive) else None
  }

  /** PublicInputField: address before seqNo. */
  function ValidateInput(r: Ref, decodes: AddressCheck): Option<FieldError> {
    if !decodes(r.address) then Some(NotAnAddress) else if r.seqNo <= 0 then Some(NotPositive) else None
  }

  /** IterableField: the error of the first element that has one. */
  function EachOutput(outputs: seq<Payment>, decodes: AddressCheck): (error: Option<FieldError>)
    ensures error.None? || error.value.NotAnAddress? || error.value.NotPositive?
  {
    if outputs == [] then None
    else if ValidateOutput(outputs[0], decodes).Some? then ValidateOutput(outputs[0], decodes)
    else EachOutput(outputs[1..], decodes)
  }

  function EachInput(inputs: seq<Ref>, decodes: AddressCheck): (error: Option<FieldError>)
    ensures error.None? || error.value.NotAnAddress? || error.value.NotPositive?
  {
    if inputs == [] then None
    else if ValidateInput(inputs[0], decodes).Some? then ValidateInput(inputs[0], decodes)
    else EachInput(inputs[1..], decodes)
  }

  /** PublicOutputsField: every element first, then as many addresses as outputs. */
  function ValidateOutputs(outputs: seq<Payment>, decodes: AddressCheck): Option<FieldError> {
    if EachOutput(outputs, decodes).Some? then EachOutput(outputs, decodes)
    else if |outputs| != |Elements(Addresses(outputs))| then Some(RepeatedAddress)
    else None
  }

  /** PublicInputsField */
  function ValidateInputs(inputs: seq<Ref>, decodes: AddressCheck): Option<FieldError> {
    if EachInput(inputs, decodes).Some? then EachInput(inputs, decodes)
    else if |inputs| != |Elements(inputs)| then Some(RepeatedInput)
    else None
  }

  /** TxnFeesField: at least one input, at most one change output. */
  function ValidateFees(fees: FeesField, decodes: AddressCheck): Option<FieldError> {
    if fees.inputs == [] then Some(TooShort)
    else if ValidateInputs(fees.inputs, decodes).Some? then ValidateInputs(fees.inputs, decodes)
    else if |fees.change| > MAX_FEE_OUTPUTS then Some(TooLong)
    else ValidateOutputs(fees.change, decodes)
  }

  /** txn_mint_public_validate, txn_xfer_public_validate and the `fees` field. */
  function ValidateRequest(r: Request, decodes: AddressCheck): Option<FieldError> {
    var outputs := ValidateOutputs(r.outputs, decodes);
    var own :=
      if r.txnType == MINT_PUBLIC then
        (if outputs.Some? then outputs else if r.outputs == [] then Some(TooShort) else None)
      else if r.txnType == XFER_PUBLIC then
        (if outputs.Some? then outputs else ValidateInputs(r.inputs, decodes))
      else None;
    if own.Some? || r.fees.None? then own else ValidateFees(r.fees.value, decodes)
  }

  lemma NoRepeatsSnoc<T>(s: seq<T>)
    requires s != []
    ensures NoRepeats(s) <==> NoRepeats(s[..|s| - 1]) && s[|s| - 1] !in s[..|s| - 1]
  {
    var init := s[..|s| - 1];
    assert forall i :: 0 <= i < |init| ==> init[i] == s[i];
  }

  /** Comparing lengths with a set of the same elements is a test for repeats. */
  lemma {:induction false} CountFindsRepeats<T>(s: seq<T>)
    ensures |Elements(s)| <= |s|
    ensures |Elements(s)| == |s| <==> NoRepeats(s)
  {
    if s != [] {
      var init, last := s[..|s| - 1], s[|s| - 1];
      CountFindsRepeats(init);
      NoRepeatsSnoc(s);
      assert s == init + [last];
      assert Elements(s) == Elements(init) + {last};
      if last in init {
        assert Elements(s) == Elements(init);
      }
    }
  }

  lemma {:induction false} EachOutputAccepted(outputs: seq<Payment>, decodes: AddressCheck)
    ensures EachOutput(outputs, decodes).None? <==>
      Positive(outputs) && forall i :: 0 <= i < |outputs| ==> decodes(outputs[i].address)
  {
    if outputs != [] {
      var rest := outputs[1..];
      EachOutputAccepted(rest, decodes);
      assert outputs == [outputs[0]] + rest;
      assert forall i :: 0 <= i < |rest| ==> rest[i] == outputs[i + 1];
    }
  }

  lemma {:induction false} EachInputAccepted(inputs: seq<Ref>, decodes: AddressCheck)
    ensures EachInput(inputs, decodes).None? <==>
      forall i :: 0 <= i < |inputs| ==> inputs[i].seqNo > 0 && decodes(inputs[i].address)
  {
    if inputs != [] {
      var rest := inputs[1..];
      EachInputAccepted(rest, decodes);
      assert inputs == [inputs[0]] + rest;
      assert forall i :: 0 <= i < |rest| ==> rest[i] == inputs[i + 1];
    }
  }

  /** Positive amounts at distinct addresses that decode. */
  ghost predicate GoodOutputs(outputs: seq<Payment>, decodes: AddressCheck) {
    && Positive(outputs) && DistinctAddresses(outputs)
    && forall i :: 0 <= i < |outputs| ==> decodes(outputs[i].address)
  }

  /** Positive seqNos at addresses that decode, none named twice. */
  ghost predicate GoodInputs(inputs: seq<Ref>, decodes: AddressCheck) {
    (forall i :: 0 <= i < |inputs| ==> inputs[i].seqNo > 0 && decodes(inputs[i].address)) && NoRepeats(inputs)
  }

  /** What passing the validator means for outputs, and when it is repeats that it refuses. */
  lemma OutputsAccepted(outputs: seq<Payment>, decodes: AddressCheck)
    ensures ValidateOutputs(outputs, decodes).None? <==> GoodOutputs(outputs, decodes)
    ensures ValidateOutputs(outputs, decodes) == Some(RepeatedAddress) <==>
      && Positive(outputs) && !DistinctAddresses(outputs)
      && forall i :: 0 <= i < |outputs| ==> decodes(outputs[i].address)
  {
    EachOutputAccepted(outputs, decodes);
    var s := Addresses(outputs);
    CountFindsRepeats(s);
    if DistinctAddresses(outputs) {
      assert forall i, j :: 0 <= i < j < |s| ==> s[i] != s[j];
    } else {
      var i, j :| 0 <= i < j < |outputs| && outputs[i].address == outputs[j].address;
      assert s[i] == s[j];
    }
  }

  /** What passing the validator means for inputs, and when it is repeats that it refuses. */
  lemma InputsAccepted(inputs: seq<Ref>, decodes: AddressCheck)
    ensures ValidateInputs(inputs, decodes).None? <==> GoodInputs(inputs, decodes)
    ensures ValidateInputs(inputs, decodes) == Some(RepeatedInput) <==>
      (forall i :: 0 <= i < |inputs| ==> inputs[i].seqNo > 0 && decodes(inputs[i].address)) && !NoRepeats(inputs)
  {
    EachInputAccepted(inputs, decodes);
    CountFindsRepeats(inputs);
  }

  /** The requests the validators let through. */
  ghost predicate GoodRequest(r: Request, decodes: AddressCheck) {
    && (r.txnType == MINT_PUBLIC ==> r.outputs != [] && GoodOutputs(r.outputs, decodes))
    && (r.txnType == XFER_PUBLIC ==> GoodOutputs(r.outputs, decodes) && GoodInputs(r.inputs, decodes))
    && (r.fees.Some? ==> r.fees.value.inputs != [] && GoodInputs(r.fees.value.inputs, decodes))
    && (r.fees.Some? ==> |r.fees.value.change| <= 1 && GoodOutputs(r.fees.value.change, decodes))
  }

  /** Validation refuses exactly the others: a mint needs an output, a transfer may have any number
      of inputs and outputs, a payment of fees needs an input and has at most one change output. */
  lemma RequestAccepted(r: Request, decodes: AddressCheck)
    ensures ValidateRequest(r, decodes).None? <==> GoodRequest(r, decodes)
  {
    hide GoodOutputs, GoodInputs, ValidateOutputs, ValidateInputs;
    OutputsAccepted(r.outputs, decodes);
    InputsAccepted(r.inputs, decodes);
    if r.fees.Some? {
      InputsAccepted(r.fees.value.inputs, decodes);
      OutputsAccepted(r.fees.value.change, decodes);
    }
  }
}
