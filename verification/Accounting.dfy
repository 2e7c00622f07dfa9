/** Laws of every ledger that validation lets through: value is conserved, outputs are created
    and spent once, and fee transactions always move the roots. */
module Accounting {
  import opened Types
  import Entries
  import opened Stores
  import opened UtxoCache
  import opened TokenLedger
  import opened Replay

  // ----- conservation -----

  ghost function SumLive(m: Live): int {
    if m == map[] then 0 else
      var r :| r in m;
      m[r] + SumLive(m - {r})
  }

  lemma {:induction false} SumRemove(m: Live, r: Ref)
    requires r in m
    ensures SumLive(m) == m[r] + SumLive(m - {r})
    decreases |m|
  {
    var q :| q in m && SumLive(m) == m[q] + SumLive(m - {q});
    if q != r {
      SumRemove(m - {q}, r);
      SumRemove(m - {r}, q);
      assert m - {q} - {r} == m - {r} - {q};
    }
  }

  lemma SumInsert(m: Live, r: Ref, amount: int)
    requires r !in m
    ensures SumLive(m[r := amount]) == SumLive(m) + amount
  {
    SumRemove(m[r := amount], r);
    assert m[r := amount] - {r} == m;
  }

  lemma {:induction false} SumCreated(m: Live, outputs: seq<Payment>, n: int)
    requires DistinctAddresses(outputs) && forall r :: r in m ==> r.seqNo < n
    ensures SumLive(m + CreatedLive(outputs, n)) == SumLive(m) + SumPayments(outputs)
  {
    if outputs == [] {
      assert m + map[] == m;
    } else {
      var last := outputs[|outputs| - 1];
      SumCreated(m, outputs[..|outputs| - 1], n);
      CreatedSnoc(m, outputs, n);
      LastIsNew(outputs, n);
      SumInsert(m + CreatedLive(outputs[..|outputs| - 1], n), Ref(last.address, n), last.amount);
    }
  }

  /** Spending one more live output that is not named yet takes its amount out. */
  lemma SumSpentOneMore(v: TokenView, init: seq<Ref>, r: Ref)
    requires Coherent(v) && Spendable(v.index, r) && r !in init
    ensures var live := LiveMap(v.state);
      SumLive(live - Elements(init + [r])) == SumLive(live - Elements(init)) - Entries.AmountOf(Listed(v.index, r.address), r.seqNo)
  {
    hide Coherent, LiveMap, Entries.AmountOf, SumLive;
    var live := LiveMap(v.state);
    SpendableIsLive(v, r);
    assert live - Elements(init + [r]) == (live - Elements(init)) - {r};
    SumRemove(live - Elements(init), r);
  }

  /** Spending distinct live outputs takes their named sum out of the total. */
  lemma {:induction false} SumSpent(v: TokenView, refs: seq<Ref>)
    requires Coherent(v) && NoRepeats(refs) && AllSpendable(v.index, refs)
    ensures SumLive(LiveMap(v.state) - Elements(refs)) == SumLive(LiveMap(v.state)) - NamedSum(v.index, refs)
  {
    hide Coherent, LiveMap, Entries.AmountOf, Elements, Spendable, SumLive;
    if refs == [] {
      NothingSpent(LiveMap(v.state));
    } else {
      var init, r := refs[..|refs| - 1], refs[|refs| - 1];
      LastNotNamed(refs);
      assert Spendable(v.index, refs[|refs| - 1]);
      assert refs == init + [r];
      SumSpent(v, init);
      SumSpentOneMore(v, init, r);
    }
  }

  lemma NothingSpent(live: Live)
    ensures live - Elements<Ref>([]) == live
  {
  }

  lemma LastNotNamed(refs: seq<Ref>)
    requires refs != [] && NoRepeats(refs)
    ensures refs[|refs| - 1] !in refs[..|refs| - 1] && NoRepeats(refs[..|refs| - 1])
  {
  }

  /** What the mint transactions of a ledger created. */
  function Minted(l: seq<TokenTxn>): int {
    if l == [] then 0
    else
      var txn := l[|l| - 1];
      Minted(l[..|l| - 1]) + if txn.Mint? then SumPayments(txn.outputs) else 0
  }

  /** The FEES recorded in its fee transactions. */
  function FeesRecorded(l: seq<TokenTxn>): int {
    if l == [] then 0
    else
      var txn := l[|l| - 1];
      FeesRecorded(l[..|l| - 1]) + if txn.Fee? then txn.fees else 0
  }

  /** What its transfers took in and did not pay out. */
  function TransferDifferences(l: seq<TokenTxn>): int {
    if l == [] then 0
    else
      var txn := l[|l| - 1];
      TransferDifferences(l[..|l| - 1]) + if txn.Xfer? then Difference(Replayed(l[..|l| - 1]).index, txn) else 0
  }

  lemma {:induction false} TxnConserves(v: TokenView, txn: TokenTxn, n: int)
    requires Coherent(v) && Bounded(v.state, n - 1) && ValidTxn(v, txn, n)
    ensures SumLive(NextLive(LiveMap(v.state), txn)) == SumLive(LiveMap(v.state)) - Difference(v.index, txn)
  {
    var live := LiveMap(v.state);
    SumSpent(v, TxnInputs(txn));
    SumCreated(live - Elements(TxnInputs(txn)), txn.outputs, n);
  }

  /** Live outputs, recorded fees and transfer differences add up to what was minted. */
  lemma {:induction false} Conservation(l: seq<TokenTxn>)
    requires ValidLedger(l)
    ensures SumLive(LiveMap(Replayed(l).state)) + FeesRecorded(l) + TransferDifferences(l) == Minted(l)
  {
    if l == [] {
      assert LiveMap(map[]) == map[];
    } else {
      var init, txn := l[..|l| - 1], l[|l| - 1];
      Conservation(init);
      LedgerStep(l);
      TxnConserves(Replayed(init), txn, |l|);
    }
  }

  // ----- single spend -----

  function Creates(txn: TokenTxn): set<Ref> { Names(txn.outputs, txn.seqNo) }

  function Spends(txn: TokenTxn): set<Ref> { Elements(TxnInputs(txn)) }

  function Created(l: seq<TokenTxn>): set<Ref> {
    if l == [] then {} else Created(l[..|l| - 1]) + Creates(l[|l| - 1])
  }

  function Spent(l: seq<TokenTxn>): set<Ref> {
    if l == [] then {} else Spent(l[..|l| - 1]) + Spends(l[|l| - 1])
  }

  lemma {:induction false} CreatedBounded(l: seq<TokenTxn>, r: Ref)
    requires ValidLedger(l) && r in Created(l)
    ensures r.seqNo <= |l|
  {
    if r !in Creates(l[|l| - 1]) {
      CreatedBounded(l[..|l| - 1], r);
    }
  }

  /** The live outputs are exactly those created and not yet spent. */
  lemma {:induction false} LiveIsCreatedNotSpent(l: seq<TokenTxn>)
    requires ValidLedger(l)
    ensures LiveMap(Replayed(l).state).Keys == Created(l) - Spent(l)
    ensures Spent(l) <= Created(l)
  {
    if l != [] {
      var init, txn := l[..|l| - 1], l[|l| - 1];
      LiveIsCreatedNotSpent(init);
      LedgerStep(l);
      CreatedNames(txn.outputs, txn.seqNo);
      SpendsAreLive(l);
      forall r | r in Creates(txn)
        ensures r !in Spent(init) && r !in Spends(txn)
      {
        if r in Created(init) { CreatedBounded(init, r); }
      }
    }
  }

  /** The last transaction spends only what is live before it. */
  lemma SpendsAreLive(l: seq<TokenTxn>)
    requires ValidLedger(l) && l != []
    ensures Spends(l[|l| - 1]) <= LiveMap(Replayed(l[..|l| - 1]).state).Keys
  {
    LedgerCoherent(l[..|l| - 1]);
    var inputs, v := TxnInputs(l[|l| - 1]), Replayed(l[..|l| - 1]);
    forall r | r in inputs
      ensures r in LiveMap(v.state)
    {
      var i :| 0 <= i < |inputs| && inputs[i] == r;
      assert Spendable(v.index, inputs[i]);
      SpendableIsLive(v, r);
    }
  }

  lemma {:induction false} SpentGrows(l: seq<TokenTxn>, i: nat, r: Ref)
    requires i < |l|
    ensures r in Spends(l[i]) ==> r in Spent(l)
    ensures r in Creates(l[i]) ==> r in Created(l)
  {
    if i < |l| - 1 { SpentGrows(l[..|l| - 1], i, r); }
  }

  lemma {:induction false} CreatedSomewhere(l: seq<TokenTxn>, r: Ref) returns (i: nat)
    requires r in Created(l)
    ensures i < |l| && r in Creates(l[i])
  {
    if r in Creates(l[|l| - 1]) {
      i := |l| - 1;
    } else {
      i := CreatedSomewhere(l[..|l| - 1], r);
    }
  }

  /** The i-th transaction is the only one of the ledger that creates the output. */
  ghost predicate OnlyCreator(l: seq<TokenTxn>, i: int, r: Ref) {
    0 <= i < |l| && forall k :: 0 <= k < |l| ==> (r in Creates(l[k]) <==> k == i)
  }

  /** The i-th transaction is the only one of the ledger that spends the output. */
  ghost predicate OnlySpender(l: seq<TokenTxn>, i: int, r: Ref) {
    0 <= i < |l| && forall k :: 0 <= k < |l| ==> (r in Spends(l[k]) <==> k == i)
  }

  /** No output is created twice. */
  lemma CreatedOnce(l: seq<TokenTxn>, i: nat, j: nat, r: Ref)
    requires ValidLedger(l) && i < j < |l| && r in Creates(l[i])
    ensures r !in Creates(l[j])
  {
    ValidAt(l, i);
    ValidAt(l, j);
  }

  /** A spent output was created earlier and not spent before. */
  lemma {:induction false} SpentAfterCreation(l: seq<TokenTxn>, j: nat, r: Ref) returns (i: nat)
    requires ValidLedger(l) && j < |l| && r in Spends(l[j])
    ensures i < j && r in Creates(l[i])
    ensures forall k :: 0 <= k < j ==> r !in Spends(l[k])
  {
    ValidPrefix(l, j + 1);
    ValidPrefix(l, j);
    var p := l[..j + 1];
    assert p[..j] == l[..j];
    SpendsAreLive(p);
    LiveIsCreatedNotSpent(l[..j]);
    i := CreatedSomewhere(l[..j], r);
    forall k | 0 <= k < j
      ensures r !in Spends(l[k])
    {
      SpentGrows(l[..j], k, r);
    }
  }

  /** An output spent by the j-th transaction is spent by no other, and was created by exactly
      one, an earlier one. */
  lemma {:induction false} SingleSpend(l: seq<TokenTxn>, j: nat, r: Ref)
    requires ValidLedger(l) && j < |l| && r in Spends(l[j])
    ensures OnlySpender(l, j, r)
    ensures exists i :: 0 <= i < j && OnlyCreator(l, i, r)
  {
    hide ValidLedger, Creates, Spends;
    var i := SpentAfterCreation(l, j, r);
    forall k | 0 <= k < |l|
      ensures r in Creates(l[k]) <==> k == i
      ensures r in Spends(l[k]) <==> k == j
    {
      if k < i && r in Creates(l[k]) { CreatedOnce(l, k, i, r); }
      if i < k { CreatedOnce(l, i, k, r); }
      if j < k && r in Spends(l[k]) { var _ := SpentAfterCreation(l, k, r); }
    }
    assert OnlyCreator(l, i, r);
  }

  // ----- roots -----

  lemma LastOf(l: seq<TokenTxn>)
    requires ValidLedger(l) && l != []
    ensures ValidLedger(l[..|l| - 1]) && l[|l| - 1].seqNo == |l|
  {
  }

  lemma NotRecreated(live: Live, txn: TokenTxn, r: Ref)
    requires r !in live && r.seqNo != txn.seqNo
    ensures r !in NextLive(live, txn)
  {
    CreatedNames(txn.outputs, txn.seqNo);
  }

  /** An output that is not live once the ledger has passed it never comes back. */
  lemma {:induction false} StaysSpent(l: seq<TokenTxn>, more: seq<TokenTxn>, r: Ref)
    requires ValidLedger(l + more) && r.seqNo <= |l| && r !in LiveMap(Replayed(l).state)
    ensures r !in LiveMap(Replayed(l + more).state)
  {
    hide ValidLedger, Replayed, LiveMap, NextLive;
    var all := l + more;
    if more == [] {
      assert all == l;
    } else {
      var init := more[..|more| - 1];
      assert all[..|all| - 1] == l + init;
      LastOf(all);
      StaysSpent(l, init, r);
      LedgerStep(all);
      NotRecreated(LiveMap(Replayed(l + init).state), all[|all| - 1], r);
    }
  }

  /** A fee transaction removes an output that was live before it. */
  lemma FeeSpends(l: seq<TokenTxn>, txn: TokenTxn)
    requires ValidLedger(l + [txn]) && txn.Fee?
    ensures txn.inputs != []
    ensures var r := txn.inputs[0];
      r in LiveMap(Replayed(l).state) && r.seqNo <= |l| && r !in LiveMap(Replayed(l + [txn]).state)
  {
    ExtendLedger(l, txn);
    LedgerCoherent(l);
    ApplyWorks(Replayed(l), txn, |l| + 1);
    FirstInputLive(Replayed(l), txn, |l| + 1);
    NamesAreNew(txn, LiveMap(Replayed(l).state), |l| + 1);
  }

  lemma FirstInputLive(v: TokenView, txn: TokenTxn, n: int)
    requires Coherent(v) && ValidTxn(v, txn, n) && txn.Fee? && Bounded(v.state, n - 1)
    ensures txn.inputs != [] && txn.inputs[0] in LiveMap(v.state) && txn.inputs[0].seqNo < n
  {
    assert Spendable(v.index, txn.inputs[0]);
    SpendableIsLive(v, txn.inputs[0]);
  }

  lemma NamesAreNew(txn: TokenTxn, live: Live, n: int)
    requires txn.seqNo == n
    ensures forall r :: r in TxnInputs(txn) && r.seqNo < n ==> r !in NextLive(live, txn)
  {
    CreatedNames(txn.outputs, n);
  }

  /** A batch that starts by charging a fee always changes the state root: what it spends
      first is gone, and everything it adds carries a new seqNo. */
  lemma {:induction false} ChargeChangesRoot(l: seq<TokenTxn>, more: seq<TokenTxn>)
    requires ValidLedger(l + more) && more != [] && more[0].Fee?
    ensures Replayed(l + more).state != Replayed(l).state
  {
    hide LiveMap, ValidLedger, Replayed;
    var all, first := l + more, l + [more[0]];
    assert all[..|l| + 1] == first && all == first + more[1..];
    ValidPrefix(all, |l| + 1);
    FeeSpends(l, more[0]);
    StaysSpent(first, more[1..], more[0].inputs[0]);
  }

  // ----- tombstones -----

  /** The same ledger with every transfer executed by the current handler. */
  function Modern(txn: TokenTxn): TokenTxn { if txn.Xfer? then txn.(legacy := false) else txn }

  function AllModern(l: seq<TokenTxn>): seq<TokenTxn> {
    if l == [] then [] else AllModern(l[..|l| - 1]) + [Modern(l[|l| - 1])]
  }

  /** Same cache and same live outputs, whatever tombstones the states hold. */
  ghost predicate SameBooks(v: TokenView, w: TokenView) {
    v.index == w.index && LiveMap(v.state) == LiveMap(w.state)
  }

  /** Two effects that agree on everything but tombstones. */
  ghost predicate SameDelta(d: Delta, e: Delta) {
    LiveMap(d.state) == LiveMap(e.state) && d.writes == e.writes && d.error == e.error
  }

  lemma SpendInputSame(index: Index, d: Delta, e: Delta, r: Ref, m: bool, n: bool)
    requires SameDelta(d, e)
    ensures SameDelta(SpendInput(index, d, r, m), SpendInput(index, e, r, n))
  {
    RemoveLive(d.state, r);
    RemoveLive(e.state, r);
  }

  lemma {:induction false} SpendAllSame(index: Index, d: Delta, e: Delta, inputs: seq<Ref>, m: bool, n: bool)
    requires SameDelta(d, e)
    ensures SameDelta(SpendAll(index, d, inputs, m), SpendAll(index, e, inputs, n))
  {
    if inputs != [] {
      var init, r := inputs[..|inputs| - 1], inputs[|inputs| - 1];
      SpendAllSame(index, d, e, init, m, n);
      SpendInputSame(index, SpendAll(index, d, init, m), SpendAll(index, e, init, n), r, m, n);
    }
  }

  lemma {:induction false} AddAllSame(index: Index, d: Delta, e: Delta, outputs: seq<Payment>, n: int)
    requires SameDelta(d, e)
    ensures SameDelta(AddAll(index, d, outputs, n), AddAll(index, e, outputs, n))
  {
    if outputs != [] {
      var init, o := outputs[..|outputs| - 1], outputs[|outputs| - 1];
      AddAllSame(index, d, e, init, n);
      AddLive(AddAll(index, d, init, n).state, Ref(o.address, n), o.amount);
      AddLive(AddAll(index, e, init, n).state, Ref(o.address, n), o.amount);
    }
  }

  /** Leaving tombstones or removing keys: the same exceptions, cache writes and live outputs. */
  lemma {:induction false} TombstoneStep(v: TokenView, w: TokenView, txn: TokenTxn)
    requires SameBooks(v, w)
    ensures SameBooks(After(v, txn), After(w, Modern(txn)))
    ensures ApplyTxn(v, txn).error == ApplyTxn(w, Modern(txn)).error
  {
    hide SpendAll, AddAll, LiveMap;
    var m := !(txn.Xfer? && txn.legacy);
    SpendAllSame(v.index, Start(v.state), Start(w.state), TxnInputs(txn), m, true);
    var d, e := SpendAll(v.index, Start(v.state), TxnInputs(txn), m), SpendAll(w.index, Start(w.state), TxnInputs(txn), true);
    AddAllSame(v.index, d, e, txn.outputs, txn.seqNo);
  }

  /** Tombstones and removals are indistinguishable along any ledger, valid or not. */
  lemma {:induction false} TombstonesInvisible(l: seq<TokenTxn>)
    ensures SameBooks(Replayed(l), Replayed(AllModern(l)))
  {
    if l != [] {
      var init := l[..|l| - 1];
      TombstonesInvisible(init);
      var m := AllModern(l);
      assert m[..|m| - 1] == AllModern(init);
      TombstoneStep(Replayed(init), Replayed(AllModern(init)), l[|l| - 1]);
    }
  }

  // ----- which tombstones a state holds -----

  function Tombstones(state: State): set<Ref> { set r | r in state && state[r] == Tombstone }

  predicate IsLegacy(txn: TokenTxn) { txn.Xfer? && txn.legacy }

  lemma TombstoneKey(state: State, r: Ref, amount: int)
    ensures Tombstones(state - {r}) == Tombstones(state) - {r}
    ensures Tombstones(state[r := Tombstone]) == Tombstones(state) + {r}
    ensures Tombstones(state[r := Amount(amount)]) == Tombstones(state) - {r}
  {
  }

  lemma {:induction false} SpendAllTombstones(index: Index, d: Delta, inputs: seq<Ref>, removeSpent: bool)
    requires SpendAll(index, d, inputs, removeSpent).error == None
    ensures Tombstones(SpendAll(index, d, inputs, removeSpent).state)
      == if removeSpent then Tombstones(d.state) - Elements(inputs) else Tombstones(d.state) + Elements(inputs)
  {
    hide SpendWrites, SpendError, Tombstones;
    if inputs == [] {
      assert Elements(inputs) == {};
    } else {
      hide Elements;
      var init, r := inputs[..|inputs| - 1], inputs[|inputs| - 1];
      SpendAllTombstones(index, d, init, removeSpent);
      ElementsSnoc(inputs);
      TombstoneKey(SpendAll(index, d, init, removeSpent).state, r, 0);
    }
  }

  lemma {:induction false} AddAllTombstones(index: Index, d: Delta, outputs: seq<Payment>, n: int)
    ensures Tombstones(AddAll(index, d, outputs, n).state) == Tombstones(d.state) - CreatedLive(outputs, n).Keys
  {
    hide Tombstones;
    if outputs == [] {
      assert Tombstones(d.state) - {} == Tombstones(d.state);
    } else {
      var init, last := outputs[..|outputs| - 1], outputs[|outputs| - 1];
      AddAllTombstones(index, d, init, n);
      TombstoneKey(AddAll(index, d, init, n).state, Ref(last.address, n), last.amount);
    }
  }

  lemma TxnTombstones(v: TokenView, txn: TokenTxn)
    requires ApplyTxn(v, txn).error == None
    ensures var left := if IsLegacy(txn) then Tombstones(v.state) + Spends(txn) else Tombstones(v.state) - Spends(txn);
      Tombstones(After(v, txn).state) == left - Creates(txn)
  {
    hide SpendAll, AddAll, Tombstones, Elements, Names, CreatedLive;
    var d := SpendAll(v.index, Start(v.state), TxnInputs(txn), !IsLegacy(txn));
    SpendAllTombstones(v.index, Start(v.state), TxnInputs(txn), !IsLegacy(txn));
    AddAllTombstones(v.index, d, txn.outputs, txn.seqNo);
    CreatedNames(txn.outputs, txn.seqNo);
  }

  /** What the legacy transfers of a ledger spent. */
  function LegacySpent(l: seq<TokenTxn>): set<Ref> {
    if l == [] then {}
    else LegacySpent(l[..|l| - 1]) + if IsLegacy(l[|l| - 1]) then Spends(l[|l| - 1]) else {}
  }

  lemma {:induction false} LegacySpentIsSpent(l: seq<TokenTxn>)
    ensures LegacySpent(l) <= Spent(l)
  {
    if l != [] { LegacySpentIsSpent(l[..|l| - 1]); }
  }

  lemma {:induction false} LegacySpentBy(l: seq<TokenTxn>, r: Ref)
    ensures r in LegacySpent(l) <==> exists i :: 0 <= i < |l| && IsLegacy(l[i]) && r in Spends(l[i])
  {
    hide Spends, IsLegacy;
    if l != [] {
      var init, last := l[..|l| - 1], l[|l| - 1];
      LegacySpentBy(init, r);
      assert forall i :: 0 <= i < |init| ==> init[i] == l[i];
    }
  }

  /** Along a valid ledger an output's key is a tombstone exactly when a legacy transfer spent it:
      every other transaction, fee payments included, removes the keys it spends. */
  lemma {:induction false} TombstonesExactly(l: seq<TokenTxn>)
    requires ValidLedger(l)
    ensures Tombstones(Replayed(l).state) == LegacySpent(l)
  {
    hide Spends, Creates, Tombstones, LiveMap, ApplyTxn;
    if l == [] {
      NoTombstonesYet();
    } else {
      var init, txn := l[..|l| - 1], l[|l| - 1];
      TombstonesExactly(init);
      LedgerCoherent(init);
      ApplyWorks(Replayed(init), txn, |l|);
      TxnTombstones(Replayed(init), txn);
      LegacySpentIsSpent(init);
      LiveIsCreatedNotSpent(init);
      SpendsAreLive(l);
      forall r | r in Creates(txn)
        ensures r !in Created(init)
      {
        if r in Created(init) { CreatedBounded(init, r); CreatesItsOwn(txn, r); }
      }
    }
  }

  lemma NoTombstonesYet()
    ensures Tombstones(map[]) == {}
  {
  }

  lemma CreatesItsOwn(txn: TokenTxn, r: Ref)
    requires r in Creates(txn)
    ensures r.seqNo == txn.seqNo
  {
  }

  /** Without legacy transfers the raw state is just the live outputs. */
  lemma NoLegacyNoTombstones(l: seq<TokenTxn>, r: Ref)
    requires ValidLedger(l) && forall i :: 0 <= i < |l| ==> !IsLegacy(l[i])
    ensures r in Replayed(l).state <==> r in LiveMap(Replayed(l).state)
  {
    hide Spends, IsLegacy, Replayed, ValidLedger;
    TombstonesExactly(l);
    LegacySpentBy(l, r);
    assert r in Tombstones(Replayed(l).state) <==> r in Replayed(l).state && Replayed(l).state[r] == Tombstone;
  }

  lemma SingletonLoops(index: Index, d: Delta, r: Ref, removeSpent: bool, p: Payment, n: int)
    requires d.error == None
    ensures SpendAll(index, d, [r], removeSpent) == SpendInput(index, d, r, removeSpent)
    ensures AddAll(index, d, [p], n) == AddNewOutput(index, d, Output(p.address, n, p.amount))
    ensures NamedSum(index, [r]) == Entries.AmountOf(Listed(index, r.address), r.seqNo) && SumPayments([p]) == p.amount
  {
    assert [r][..0] == [] && [p][..0] == [];
  }

  /** The books after one mint, and a transfer of what it minted. */
  const MintedView := TokenView(map[Ref("a", 1) := Amount(5)], map["a" := [Entry(1, 5)]])
  const LegacyXfer := Xfer(2, [Ref("a", 1)], [Payment("b", 5)], true)

  lemma MintedViewIsCoherent()
    ensures Coherent(MintedView) && Bounded(MintedView.state, 1) && Spendable(MintedView.index, Ref("a", 1))
  {
    assert LiveMap(MintedView.state) == map[Ref("a", 1) := 5];
    assert Entry(1, 5) in MintedView.index["a"];
  }

  /** The raw states do differ: after a valid transfer the legacy handler leaves the spent key behind. */
  lemma TombstoneStaysInState()
    ensures Coherent(MintedView) && ValidTxn(MintedView, LegacyXfer, 2)
    ensures Ref("a", 1) in After(MintedView, LegacyXfer).state
    ensures Ref("a", 1) !in After(MintedView, Modern(LegacyXfer)).state
  {
    hide Coherent, Bounded, Spendable, SpendWrites;
    var r, p, index := Ref("a", 1), Payment("b", 5), MintedView.index;
    MintedViewIsCoherent();
    SingletonLoops(index, Start(MintedView.state), r, false, p, 2);
    SingletonLoops(index, Start(MintedView.state), r, true, p, 2);
    var d, e := SpendInput(index, Start(MintedView.state), r, false), SpendInput(index, Start(MintedView.state), r, true);
    assert index + map[] == index;
    assert SpendError(index, r) == None by { SpendableNoError(index, r); }
    SingletonLoops(index, d, r, false, p, 2);
    SingletonLoops(index, e, r, true, p, 2);
  }

  lemma SpendableNoError(index: Index, r: Ref)
    requires Spendable(index, r)
    ensures SpendError(index, r) == None
  {
  }
}
