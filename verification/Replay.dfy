/** What a whole token ledger amounts to: the books obtained by applying its transactions in order. */
module Replay {
  import opened Types
  import opened Entries
  import opened Stores
  import opened UtxoCache
  import opened TokenLedger

  function Replayed(l: seq<TokenTxn>): TokenView {
    if l == [] then TokenView(map[], map[]) else After(Replayed(l[..|l| - 1]), l[|l| - 1])
  }

  // ----- live outputs -----

  type Live = map<Ref, int>

  /** The outputs the state holds unspent; tombstones do not count. */
  function LiveMap(state: State): Live { map r | r in state && state[r].Amount? :: state[r].amount }

  /** For every address the index lists exactly the live outputs of the state. */
  ghost predicate Agrees(index: Index, live: Live) {
    forall a, e :: e in Listed(index, a) <==> Ref(a, e.seqNo) in live && live[Ref(a, e.seqNo)] == e.amount
  }

  /** The index agrees with the state, each list in strictly increasing seqNo. */
  ghost predicate Coherent(v: TokenView) { Ordered(v.index) && Agrees(v.index, LiveMap(v.state)) }

  ghost predicate Bounded(state: State, n: int) { forall r :: r in state ==> r.seqNo <= n }

  lemma SpendableIsLive(v: TokenView, r: Ref)
    requires Coherent(v)
    ensures Spendable(v.index, r) <==> r in LiveMap(v.state)
    ensures Spendable(v.index, r) ==> AmountOf(v.index[r.address], r.seqNo) == LiveMap(v.state)[r]
  {
    var live, es := LiveMap(v.state), Listed(v.index, r.address);
    if r in live {
      assert Entry(r.seqNo, live[r]) in es;
    }
    if Spendable(v.index, r) {
      PositionFinds(es, r.seqNo);
      assert es[Position(es, r.seqNo)] in es;
    }
  }

  // ----- what the field validators establish -----

  ghost predicate NoRepeats<T>(s: seq<T>) { forall i, j :: 0 <= i < j < |s| ==> s[i] != s[j] }

  ghost predicate DistinctAddresses(outputs: seq<Payment>) {
    forall i, j :: 0 <= i < j < |outputs| ==> outputs[i].address != outputs[j].address
  }

  ghost predicate Positive(outputs: seq<Payment>) { forall i :: 0 <= i < |outputs| ==> outputs[i].amount > 0 }

  function SumPayments(outputs: seq<Payment>): int {
    if outputs == [] then 0 else SumPayments(outputs[..|outputs| - 1]) + outputs[|outputs| - 1].amount
  }

  /** What a transaction takes in and does not pay out. */
  function Difference(index: Index, txn: TokenTxn): int { NamedSum(index, TxnInputs(txn)) - SumPayments(txn.outputs) }

  /** A transaction that validation may let through over the books `v`, as the n-th of its ledger. */
  ghost predicate ValidTxn(v: TokenView, txn: TokenTxn, n: int) {
    && txn.seqNo == n && DistinctAddresses(txn.outputs) && Positive(txn.outputs)
    && NoRepeats(TxnInputs(txn)) && AllSpendable(v.index, TxnInputs(txn))
    && (!txn.Mint? ==> Difference(v.index, txn) >= 0)
    && (txn.Fee? ==> txn.inputs != [] && txn.fees == Difference(v.index, txn))
  }

  ghost predicate ValidLedger(l: seq<TokenTxn>) {
    l == [] || (ValidLedger(l[..|l| - 1]) && ValidTxn(Replayed(l[..|l| - 1]), l[|l| - 1], |l|))
  }

  lemma ExtendLedger(l: seq<TokenTxn>, txn: TokenTxn)
    ensures Replayed(l + [txn]) == After(Replayed(l), txn)
    ensures ValidLedger(l + [txn]) <==> ValidLedger(l) && ValidTxn(Replayed(l), txn, |l| + 1)
  {
    assert (l + [txn])[..|l|] == l;
  }

  lemma {:induction false} ValidPrefix(l: seq<TokenTxn>, n: nat)
    requires ValidLedger(l) && n <= |l|
    ensures ValidLedger(l[..n])
    decreases |l|
  {
    if n < |l| {
      assert l[..|l| - 1][..n] == l[..n];
      ValidPrefix(l[..|l| - 1], n);
    } else {
      assert l[..n] == l;
    }
  }

  lemma ValidAt(l: seq<TokenTxn>, i: nat)
    requires ValidLedger(l) && i < |l|
    ensures ValidLedger(l[..i]) && ValidTxn(Replayed(l[..i]), l[i], i + 1)
  {
    ValidPrefix(l, i + 1);
    assert l[..i + 1][..i] == l[..i];
  }

  // ----- one output at a time -----

  lemma RemoveLive(state: State, r: Ref)
    ensures LiveMap(state - {r}) == LiveMap(state) - {r}
    ensures LiveMap(state[r := Tombstone]) == LiveMap(state) - {r}
  {
  }

  lemma AddLive(state: State, r: Ref, amount: int)
    ensures LiveMap(state[r := Amount(amount)]) == LiveMap(state)[r := amount]
  {
  }

  lemma {:induction false} SpendAgrees(index: Index, live: Live, r: Ref)
    requires Ordered(index) && Agrees(index, live) && Spendable(index, r)
    ensures var index' := index + SpendWrites(index, r);
      Ordered(index') && Agrees(index', live - {r})
  {
    var index' := index + SpendWrites(index, r);
    var es := index[r.address];
    RemoveMembers(es, r.seqNo);
    RemoveKeepsOrder(es, r.seqNo);
    forall a, e
      ensures e in Listed(index', a) <==> Ref(a, e.seqNo) in live - {r} && (live - {r})[Ref(a, e.seqNo)] == e.amount
    {
      assert e in Listed(index, a) <==> Ref(a, e.seqNo) in live && live[Ref(a, e.seqNo)] == e.amount;
      assert a != r.address ==> Listed(index', a) == Listed(index, a);
    }
  }

  lemma {:induction false} AddAgrees(index: Index, live: Live, o: Output)
    requires Ordered(index) && Agrees(index, live)
    requires forall e :: e in Listed(index, o.address) ==> e.seqNo < o.seqNo
    ensures var index' := index + map[o.address := Listed(index, o.address) + [Entry(o.seqNo, o.amount)]];
      Ordered(index') && Agrees(index', live[Ref(o.address, o.seqNo) := o.amount])
  {
    var es, added := Listed(index, o.address), Entry(o.seqNo, o.amount);
    var index', live' := index + map[o.address := es + [added]], live[Ref(o.address, o.seqNo) := o.amount];
    IncreasingAppend(es, added);
    forall a, e
      ensures e in Listed(index', a) <==> Ref(a, e.seqNo) in live' && live'[Ref(a, e.seqNo)] == e.amount
    {
      assert e in Listed(index, a) <==> Ref(a, e.seqNo) in live && live[Ref(a, e.seqNo)] == e.amount;
      assert a != o.address ==> Listed(index', a) == Listed(index, a);
      assert e in es + [added] <==> e in es || e == added;
    }
  }

  // ----- one handler loop at a time -----

  function Elements<T>(s: seq<T>): set<T> { set x | x in s }

  lemma ElementsSnoc<T>(s: seq<T>)
    requires s != []
    ensures Elements(s) == Elements(s[..|s| - 1]) + {s[|s| - 1]}
    ensures NoRepeats(s) ==> s[|s| - 1] !in Elements(s[..|s| - 1])
  {
    assert s == s[..|s| - 1] + [s[|s| - 1]];
  }

  function CreatedLive(outputs: seq<Payment>, seqNo: int): Live {
    if outputs == [] then map[]
    else
      var last := outputs[|outputs| - 1];
      CreatedLive(outputs[..|outputs| - 1], seqNo)[Ref(last.address, seqNo) := last.amount]
  }

  ghost predicate CoherentDelta(index: Index, d: Delta) { Coherent(TokenView(d.state, index + d.writes)) }

  /** One spending step over coherent books raises nothing and keeps them coherent. */
  lemma SpendStep(index: Index, d: Delta, r: Ref, removeSpent: bool)
    requires CoherentDelta(index, d) && r in LiveMap(d.state)
    ensures var e := SpendInput(index, d, r, removeSpent);
      CoherentDelta(index, e) && e.error == None && LiveMap(e.state) == LiveMap(d.state) - {r} && e.state.Keys <= d.state.Keys
  {
    SpendableIsLive(TokenView(d.state, index + d.writes), r);
    RemoveLive(d.state, r);
    SpendAgrees(index + d.writes, LiveMap(d.state), r);
    var e := SpendInput(index, d, r, removeSpent);
    assert index + e.writes == index + d.writes + SpendWrites(index + d.writes, r);
  }

  /** Distinct live inputs are all spent: the loop never raises. */
  lemma {:induction false} SpendAllWorks(index: Index, d: Delta, inputs: seq<Ref>, removeSpent: bool)
    requires CoherentDelta(index, d) && d.error == None && NoRepeats(inputs)
    requires forall i :: 0 <= i < |inputs| ==> inputs[i] in LiveMap(d.state)
    ensures var e := SpendAll(index, d, inputs, removeSpent);
      CoherentDelta(index, e) && e.error == None
      && LiveMap(e.state) == LiveMap(d.state) - Elements(inputs) && e.state.Keys <= d.state.Keys
  {
    if inputs == [] {
      assert LiveMap(d.state) - Elements(inputs) == LiveMap(d.state);
    } else {
      var init, r := inputs[..|inputs| - 1], inputs[|inputs| - 1];
      SpendAllWorks(index, d, init, removeSpent);
      ElementsSnoc(inputs);
      SpendStep(index, SpendAll(index, d, init, removeSpent), r, removeSpent);
    }
  }

  /** One adding step at an address whose outputs are all older. */
  lemma AddStep(index: Index, d: Delta, o: Output)
    requires CoherentDelta(index, d)
    requires forall r :: r in d.state && r.address == o.address ==> r.seqNo < o.seqNo
    ensures var e := AddNewOutput(index, d, o);
      CoherentDelta(index, e) && LiveMap(e.state) == LiveMap(d.state)[Ref(o.address, o.seqNo) := o.amount]
  {
    var cur := index + d.writes;
    forall x | x in Listed(cur, o.address)
      ensures x.seqNo < o.seqNo
    {
      assert Ref(o.address, x.seqNo) in LiveMap(d.state);
    }
    AddLive(d.state, Ref(o.address, o.seqNo), o.amount);
    AddAgrees(cur, LiveMap(d.state), o);
    var e := AddNewOutput(index, d, o);
    assert index + e.writes == cur + map[o.address := Listed(cur, o.address) + [Entry(o.seqNo, o.amount)]];
  }

  function Names(outputs: seq<Payment>, n: int): set<Ref> { set p | p in outputs :: Ref(p.address, n) }

  lemma {:induction false} CreatedNames(outputs: seq<Payment>, n: int)
    ensures CreatedLive(outputs, n).Keys == Names(outputs, n)
  {
    if outputs != [] {
      var init, last := outputs[..|outputs| - 1], outputs[|outputs| - 1];
      assert outputs == init + [last];
      CreatedNames(init, n);
    }
  }

  lemma {:induction false} AddAllKeys(index: Index, d: Delta, outputs: seq<Payment>, n: int)
    ensures AddAll(index, d, outputs, n).state.Keys == d.state.Keys + CreatedLive(outputs, n).Keys
  {
    if outputs != [] {
      AddAllKeys(index, d, outputs[..|outputs| - 1], n);
    }
  }

  /** The address of the last output has not been paid by the outputs before it. */
  lemma LastIsNew(outputs: seq<Payment>, n: int)
    requires outputs != [] && DistinctAddresses(outputs)
    ensures Ref(outputs[|outputs| - 1].address, n) !in CreatedLive(outputs[..|outputs| - 1], n)
  {
    CreatedNames(outputs[..|outputs| - 1], n);
  }

  lemma OlderAtAddress(before: State, after: State, outputs: seq<Payment>, n: int)
    requires outputs != [] && DistinctAddresses(outputs) && Bounded(before, n - 1)
    requires after.Keys == before.Keys + CreatedLive(outputs[..|outputs| - 1], n).Keys
    ensures forall r :: r in after && r.address == outputs[|outputs| - 1].address ==> r.seqNo < n
  {
    CreatedNames(outputs[..|outputs| - 1], n);
    LastIsNew(outputs, n);
  }

  lemma CreatedSnoc(live: Live, outputs: seq<Payment>, n: int)
    requires outputs != []
    ensures var last := outputs[|outputs| - 1];
      live + CreatedLive(outputs, n) == (live + CreatedLive(outputs[..|outputs| - 1], n))[Ref(last.address, n) := last.amount]
  {
  }

  lemma {:induction false} AddAllWorks(index: Index, d: Delta, outputs: seq<Payment>, n: int)
    requires CoherentDelta(index, d) && Bounded(d.state, n - 1) && d.error == None && DistinctAddresses(outputs)
    ensures var e := AddAll(index, d, outputs, n);
      && CoherentDelta(index, e) && e.error == None && LiveMap(e.state) == LiveMap(d.state) + CreatedLive(outputs, n)
      && Bounded(e.state, n)
  {
    if outputs == [] {
      assert LiveMap(d.state) + map[] == LiveMap(d.state);
    } else {
      hide Coherent, LiveMap, CreatedLive;
      var init, last := outputs[..|outputs| - 1], outputs[|outputs| - 1];
      AddAllWorks(index, d, init, n);
      var e := AddAll(index, d, init, n);
      AddAllKeys(index, d, init, n);
      OlderAtAddress(d.state, e.state, outputs, n);
      AddStep(index, e, Output(last.address, n, last.amount));
      CreatedSnoc(LiveMap(d.state), outputs, n);
    }
  }

  // ----- one transaction, one ledger -----

  /** The live outputs after a transaction: its inputs gone, its outputs there. */
  function NextLive(live: Live, txn: TokenTxn): Live {
    (live - Elements(TxnInputs(txn))) + CreatedLive(txn.outputs, txn.seqNo)
  }

  /** A transaction that validation lets through is applied entirely, keeps the index in
      agreement with the state, and moves exactly its inputs and outputs. */
  lemma {:induction false} ApplyWorks(v: TokenView, txn: TokenTxn, n: int)
    requires Coherent(v) && Bounded(v.state, n - 1) && ValidTxn(v, txn, n)
    ensures ApplyTxn(v, txn).error == None
    ensures Coherent(After(v, txn)) && Bounded(After(v, txn).state, n)
    ensures LiveMap(After(v, txn).state) == NextLive(LiveMap(v.state), txn)
  {
    var d0 := Start(v.state);
    assert v.index + d0.writes == v.index;
    var inputs, remove := TxnInputs(txn), !(txn.Xfer? && txn.legacy);
    forall i | 0 <= i < |inputs|
      ensures inputs[i] in LiveMap(v.state)
    {
      assert Spendable(v.index, inputs[i]);
      SpendableIsLive(v, inputs[i]);
    }
    SpendAllWorks(v.index, d0, inputs, remove);
    AddAllWorks(v.index, SpendAll(v.index, d0, inputs, remove), txn.outputs, n);
  }

  /** The index agrees with the state along every ledger that validation lets through. */
  lemma {:induction false} LedgerCoherent(l: seq<TokenTxn>)
    requires ValidLedger(l)
    ensures Coherent(Replayed(l)) && Bounded(Replayed(l).state, |l|)
  {
    if l == [] {
      assert LiveMap(map[]) == map[];
    } else {
      LedgerCoherent(l[..|l| - 1]);
      ApplyWorks(Replayed(l[..|l| - 1]), l[|l| - 1], |l|);
    }
  }

  lemma LedgerStep(l: seq<TokenTxn>)
    requires ValidLedger(l) && l != []
    ensures var before := Replayed(l[..|l| - 1]);
      Coherent(before) && Bounded(before.state, |l| - 1)
      && LiveMap(Replayed(l).state) == NextLive(LiveMap(before.state), l[|l| - 1])
  {
    LedgerCoherent(l[..|l| - 1]);
    ApplyWorks(Replayed(l[..|l| - 1]), l[|l| - 1], |l|);
  }
}
