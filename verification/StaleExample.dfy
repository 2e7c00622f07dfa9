/** A concrete run in which committing raises, from a node that has seen nothing. */
module StaleExample {
  import opened Types
  import opened Stores
  import UtxoCache
  import opened TokenLedger
  import opened Replay
  import opened Requests
  import Authorizer
  import opened Protocol
  import Alignment
  import opened Runs
  import Commits
  import RunTheorems
  import StaleSlots

  const NYM := "1"
  const FEES: Authorizer.FeeTable := map["nym" := 5]
  const COINS := [Payment("a", 5)]
  const DECODES: AddressCheck := address => address == "a"
  const MINTS := Asked(Request(MINT_PUBLIC, [], COINS, None, false), None, DECODES)
  const PAYS := Asked(Request(NYM, [], [], Some(FeesField([Ref("a", 1)], [])), false), Some("nym"), DECODES)

  lemma MintAccepted()
    ensures Accepted(Fresh, FEES, MINTS)
    ensures ApplyTokenAll(Fresh, FEES, [MINTS]).appended == [Mint(1, COINS)]
  {
    OutputsAccepted(COINS, DECODES);
    Authorizer.AuthorizeRule(View(Fresh.cache, false), FEES, None, MINTS.request);
    assert [MINTS][..0] == [] && Full(Fresh) == [];
    hide Accepted;
    assert ApplyTokenAll(Fresh, FEES, [MINTS]) == ApplyTokenOne(Applied(Fresh, [], [], [], None), FEES, MINTS);
  }

  /** The index once the coins are minted. */
  lemma MintedIndex()
    ensures Replayed([Mint(1, COINS)]).index == map["a" := [Entry(1, 5)]]
  {
    var v, txn := TokenView(map[], map[]), Mint(1, COINS);
    assert Replayed([]) == v && [] + [txn] == [txn];
    ExtendLedger([], txn);
    var d := AddAll(v.index, Start(v.state), COINS, 1);
    assert COINS[..0] == [];
    assert d == AddNewOutput(v.index, Start(v.state), Output("a", 1, 5));
    assert ApplyTxn(v, txn) == d;
    assert UtxoCache.Listed(v.index, "a") == [] && [] + [Entry(1, 5)] == [Entry(1, 5)];
    assert d.writes == map["a" := [Entry(1, 5)]];
  }

  lemma PaymentAccepted(s: Side)
    requires View(s.cache, false) == map["a" := [Entry(1, 5)]]
    ensures Accepted(s, FEES, PAYS)
  {
    var index, inputs := View(s.cache, false), [Ref("a", 1)];
    OutputsAccepted([], DECODES);
    InputsAccepted(inputs, DECODES);
    assert Entry(1, 5) in index["a"];
    assert UtxoCache.Spendable(index, inputs[0]);
    assert inputs[..0] == [];
    assert UtxoCache.NamedSum(index, inputs) == 5;
    Authorizer.AuthorizeRule(index, FEES, Some("nym"), PAYS.request);
  }

  /** The node after the minting batch is committed. */
  lemma MintedNode() returns (n: Node)
    ensures Step(Genesis, ApplyToken(FEES, [MINTS])).Ok?
    ensures Step(Step(Genesis, ApplyToken(FEES, [MINTS])).value, CommitOldest) == Ok(n)
    ensures NodeOk(n) && n.pending == [] && Accepted(n.side, FEES, PAYS)
  {
    hide NodeOk, Accepted, ApplyTokenAll, TokenCommitted, Track, Replayed, Appended, Alignment.EntryOf, TrackerCommit, CommitBatch;
    GenesisOk();
    ApplyTokenKeeps(Genesis, FEES, [MINTS]);
    MintAccepted();
    var m := Step(Genesis, ApplyToken(FEES, [MINTS])).value;
    assert m.done == [] && |m.pending| == 1 && m.pending[0].TokenBatch? && m.pending[0].appended == [Mint(1, COINS)];
    Commits.CommitKeeps(m);
    n := Step(m, CommitOldest).value;
    MintedLedger(m, n);
    MintedIndex();
    PaymentAccepted(n.side);
  }

  lemma MintedLedger(m: Node, n: Node)
    requires NodeOk(m) && NodeOk(n) && Commits.Advanced(m, n) && |m.pending| == 1 && m.done == []
    ensures n.pending == []
    ensures View(n.side.cache, false) == Replayed(m.pending[0].appended).index
  {
    hide NodeOk, Replayed, Alignment.Aligned, View;
    RunTheorems.UncommittedIsHistory(n);
    var h := [m.pending[0]];
    assert History(n) == h;
    Alignment.HistorySnoc([], m.pending[0]);
    assert [] + h == h && [] + m.pending[0].appended == m.pending[0].appended;
  }

  lemma {:induction false} NoCatchUpIsLegal(n: Node, es: seq<Event>)
    requires forall i :: 0 <= i < |es| ==> !es[i].CatchUp?
    ensures RunTheorems.LegalRun(n, es)
  {
    if es != [] { NoCatchUpIsLegal(n, es[..|es| - 1]); }
  }

  lemma {:induction false} RunConcat(n: Node, es: seq<Event>, fs: seq<Event>)
    requires Run(n, es).Ok?
    ensures Run(n, es + fs) == Run(Run(n, es).value, fs)
  {
    if fs == [] {
      assert es + fs == es;
    } else {
      assert (es + fs)[..|es + fs| - 1] == es + fs[..|fs| - 1];
      RunConcat(n, es, fs[..|fs| - 1]);
    }
  }

  /** Minting, a rejected payment and an unpaid reuse of its slot: a legal run that raises. */
  lemma CommitCanRaise()
    ensures exists es :: RunTheorems.LegalRun(Genesis, es) && Run(Genesis, es).Err?
  {
    hide NodeOk, Accepted, Step, RunTheorems.LegalRun;
    var n := MintedNode();
    StaleSlots.StaleSlotRaises(n, FEES, PAYS);
    var first := [ApplyToken(FEES, [MINTS]), CommitOldest];
    var rest := [ApplyDomain(FEES, [PAYS]), RejectNewest, ApplyDomain(FEES, [StaleSlots.Unpaid(PAYS)]), CommitOldest];
    assert first[..1][..0] == [] && first[..1] == [ApplyToken(FEES, [MINTS])];
    assert Run(Genesis, first[..1]) == Step(Genesis, ApplyToken(FEES, [MINTS]));
    assert Run(Genesis, first) == Ok(n);
    RunConcat(Genesis, first, rest);
    NoCatchUpIsLegal(Genesis, first + rest);
  }
}
