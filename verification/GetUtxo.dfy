/** GET_UTXO: get_utxo_handler.py and the heap of util.py. */
module GetUtxo {
  import opened Types
  import opened Stores
  import opened UtxoCache
  import TokenLedger
  import opened Replay
  import Accounting
  import Protocol
  import Runs
  import RunTheorems

  const UTXO_LIMIT := 1000

  /** Outputs are ordered by seqNo alone. */
  ghost predicate SortedBySeqNo(s: seq<Output>) { forall i, j :: 0 <= i < j < |s| ==> s[i].seqNo <= s[j].seqNo }

  ghost predicate Ascending(s: seq<Output>) { forall i, j :: 0 <= i < j < |s| ==> s[i].seqNo < s[j].seqNo }

  /** A heap of outputs. Only what heapq promises is stated: pushing keeps the items, popping
      takes out a least one. */
  class SortedItems {
    var heap: seq<Output>

    constructor ()
      ensures heap == []
    {
      heap := [];
    }

    method Add(item: Output)
      modifies this
      ensures multiset(heap) == multiset(old(heap)) + multiset{item}
    {
      heap := heap + [item];
    }

    method Pop() returns (item: Output)
      requires heap != []
      modifies this
      ensures item in old(heap) && forall x :: x in old(heap) ==> item.seqNo <= x.seqNo
      ensures multiset(heap) + multiset{item} == multiset(old(heap)) && |heap| == |old(heap)| - 1
    {
      var least := 0;
      for i := 0 to |heap|
        invariant 0 <= least < |heap|
        invariant forall j :: 0 <= j < i ==> heap[least].seqNo <= heap[j].seqNo
      {
        if heap[i].seqNo < heap[least].seqNo {
          least := i;
        }
      }
      item := heap[least];
      assert heap == heap[..least] + [item] + heap[least + 1..];
      heap := heap[..least] + heap[least + 1..];
    }

    /** sorted_list: drain the heap. */
    method SortedList() returns (ordered: seq<Output>)
      modifies this
      ensures multiset(ordered) == multiset(old(heap)) && SortedBySeqNo(ordered) && heap == []
    {
      ordered := [];
      while heap != []
        invariant multiset(ordered) + multiset(heap) == multiset(old(heap))
        invariant SortedBySeqNo(ordered)
        invariant forall x, y :: x in ordered && y in heap ==> x.seqNo <= y.seqNo
        decreases |heap|
      {
        ghost var before := heap;
        var item := Pop();
        PoppedFrom(before, heap, item);
        ordered := ordered + [item];
      }
    }
  }

  lemma PoppedFrom(before: seq<Output>, after: seq<Output>, item: Output)
    requires multiset(after) + multiset{item} == multiset(before)
    ensures forall x :: x in after ==> x in before
  {
    forall x | x in after
      ensures x in before
    {
      assert x in multiset(after);
      assert x in multiset(before);
    }
  }

  // ----- what is listed -----

  /** `s` lists the live outputs of the address, in strictly increasing seqNo. */
  ghost predicate IsListing(s: seq<Output>, state: State, address: string) {
    && Ascending(s)
    && forall o :: o in s <==>
      o.address == address && Ref(address, o.seqNo) in state && state[Ref(address, o.seqNo)] == Amount(o.amount)
  }

  lemma AscendingHead(s: seq<Output>, o: Output)
    requires Ascending(s) && o in s
    ensures s[0].seqNo <= o.seqNo && (o.seqNo == s[0].seqNo ==> o == s[0])
  {
  }

  lemma {:induction false} AscendingUnique(s: seq<Output>, t: seq<Output>)
    requires Ascending(s) && Ascending(t) && forall o :: o in s <==> o in t
    ensures s == t
  {
    assert (s != [] ==> s[0] in s) && (t != [] ==> t[0] in t);
    if s != [] && t != [] {
      AscendingHead(s, t[0]);
      AscendingHead(t, s[0]);
      forall o
        ensures o in s[1..] <==> o in t[1..]
      {
        TailMembers(s, o);
        TailMembers(t, o);
      }
      AscendingUnique(s[1..], t[1..]);
      assert s == [s[0]] + s[1..] && t == [t[0]] + t[1..];
    }
  }

  lemma TailMembers(s: seq<Output>, o: Output)
    requires s != [] && Ascending(s)
    ensures o in s[1..] <==> o in s && o != s[0]
  {
    assert s == [s[0]] + s[1..];
  }

  /** What the cache lists for an address is the listing of the state it agrees with. */
  lemma CacheIsListing(v: TokenLedger.TokenView, address: string)
    requires Coherent(v)
    ensures IsListing(Outputs(address, Listed(v.index, address)), v.state, address)
  {
    var es := Listed(v.index, address);
    var s := Outputs(address, es);
    assert Ascending(s);
    forall o
      ensures o in s <==> o.address == address && Ref(address, o.seqNo) in v.state && v.state[Ref(address, o.seqNo)] == Amount(o.amount)
    {
      OutputsMember(address, es, o);
      assert Entry(o.seqNo, o.amount) in es <==>
        Ref(address, o.seqNo) in LiveMap(v.state) && LiveMap(v.state)[Ref(address, o.seqNo)] == o.amount;
    }
  }

  lemma OutputsMember(address: string, es: seq<Entry>, o: Output)
    ensures o in Outputs(address, es) <==> o.address == address && Entry(o.seqNo, o.amount) in es
  {
    var s := Outputs(address, es);
    if o.address == address && Entry(o.seqNo, o.amount) in es {
      var i :| 0 <= i < |es| && es[i] == Entry(o.seqNo, o.amount);
      assert s[i] == o;
    }
  }

  /** Tombstones do not show in a listing. */
  lemma ListingIgnoresTombstones(s: seq<Output>, p: State, q: State, address: string)
    requires LiveMap(p) == LiveMap(q)
    ensures IsListing(s, p, address) <==> IsListing(s, q, address)
  {
    forall r: Ref, amount: int
      ensures (r in p && p[r] == Amount(amount)) <==> (r in q && q[r] == Amount(amount))
    {
      assert (r in LiveMap(p) && LiveMap(p)[r] == amount) <==> (r in LiveMap(q) && LiveMap(q)[r] == amount);
    }
  }

  /** States with the same live outputs have the same, single listing of an address. */
  lemma ListingUnique(s: seq<Output>, p: State, t: seq<Output>, q: State, address: string)
    requires LiveMap(p) == LiveMap(q) && IsListing(s, p, address) && IsListing(t, q, address)
    ensures s == t
  {
    ListingIgnoresTombstones(t, p, q, address);
    AscendingUnique(s, t);
  }

  // ----- paging -----

  datatype Page = Page(outputs: seq<Output>, next: Option<int>)

  function FirstFrom(s: seq<Output>, from: int): (i: nat)
    ensures i <= |s| && (i < |s| ==> s[i].seqNo >= from)
    ensures forall j :: 0 <= j < i ==> s[j].seqNo < from
  {
    if s == [] || s[0].seqNo >= from then 0 else 1 + FirstFrom(s[1..], from)
  }

  /** The outputs from `from` on, as the code selects them: position 0 counts as not found. */
  function Selected(s: seq<Output>, from: Option<int>): seq<Output> {
    if from.None? || from.value == 0 then s
    else
      var i := FirstFrom(s, from.value);
      if i < |s| && i != 0 then s[i..] else []
  }

  function PageOf(s: seq<Output>, from: Option<int>): Page {
    var u := Selected(s, from);
    if |u| > UTXO_LIMIT then
      Page(u[..UTXO_LIMIT], if u[UTXO_LIMIT].seqNo != 0 then Some(u[UTXO_LIMIT].seqNo) else None)
    else Page(u, None)
  }

  /** An answer of get_result: a page of the address's listing. */
  ghost predicate Answer(page: Page, state: State, address: string, from: Option<int>) {
    exists s :: IsListing(s, state, address) && page == PageOf(s, from)
  }

  lemma AnswerIsPage(s: seq<Output>, page: Page, state: State, address: string, from: Option<int>)
    requires IsListing(s, state, address)
    ensures Answer(page, state, address, from) <==> page == PageOf(s, from)
  {
    hide IsListing, PageOf;
    if Answer(page, state, address, from) {
      var t :| IsListing(t, state, address) && page == PageOf(t, from);
      ListingUnique(s, state, t, state, address);
    }
  }

  /** `bag` holds the address's live outputs under the given keys, once each. */
  ghost predicate BagOf(bag: multiset<Output>, keys: set<Ref>, state: State, address: string) {
    forall o :: bag[o] == if o.address == address && Ref(address, o.seqNo) in keys && Ref(address, o.seqNo) in state
      && state[Ref(address, o.seqNo)] == Amount(o.amount) then 1 else 0
  }

  lemma BagAdd(bag: multiset<Output>, keys: set<Ref>, state: State, r: Ref)
    requires BagOf(bag, keys, state, r.address) && r !in keys && r in state
    ensures BagOf(if state[r].Amount? then bag + multiset{Output(r.address, r.seqNo, state[r].amount)} else bag,
                  keys + {r}, state, r.address)
  {
    var address := r.address;
    assert r == Ref(address, r.seqNo);
  }

  /** The loop of get_result: whatever order the trie lists the keys in, tombstones are skipped. */
  method CollectOutputs(state: State, address: string) returns (outputs: SortedItems)
    ensures fresh(outputs) && BagOf(multiset(outputs.heap), state.Keys, state, address)
  {
    outputs := new SortedItems();
    var keys := set r | r in state && r.address == address;
    ghost var seen: set<Ref> := {};
    while keys != {}
      invariant BagOf(multiset(outputs.heap), seen, state, address)
      invariant forall r :: r in keys ==> r in state && r.address == address && r !in seen
      invariant forall r :: r in state && r.address == address ==> r in keys || r in seen
      decreases keys
    {
      var k :| k in keys;
      BagAdd(multiset(outputs.heap), seen, state, k);
      hide BagOf;
      keys, seen := keys - {k}, seen + {k};
      if state[k].Amount? {
        outputs.Add(Output(k.address, k.seqNo, state[k].amount));
      }
    }
  }

  /** get_result over the committed state: the answer is the page of the address's listing. */
  method GetResult(state: State, address: string, from: Option<int>) returns (page: Page)
    ensures Answer(page, state, address, from)
  {
    hide BagOf, IsListing, SortedBySeqNo;
    var outputs := CollectOutputs(state, address);
    ghost var bag := multiset(outputs.heap);
    var utxos := outputs.SortedList();
    DrainedIsListing(utxos, bag, state, address);
    ghost var listing := utxos;
    var next: Option<int> := None;
    if from.Some? && from.value != 0 {
      var idx := 0;
      while idx < |utxos| && utxos[idx].seqNo < from.value
        invariant idx <= |utxos| && forall j :: 0 <= j < idx ==> utxos[j].seqNo < from.value
      {
        idx := idx + 1;
      }
      utxos := if idx < |utxos| && idx != 0 then utxos[idx..] else [];
    }
    assert utxos == Selected(listing, from);
    if |utxos| > UTXO_LIMIT {
      next := if utxos[UTXO_LIMIT].seqNo != 0 then Some(utxos[UTXO_LIMIT].seqNo) else None;
      utxos := utxos[..UTXO_LIMIT];
    }
    page := Page(utxos, next);
    assert page == PageOf(listing, from);
  }

  lemma DrainedIsListing(s: seq<Output>, bag: multiset<Output>, state: State, address: string)
    requires multiset(s) == bag && SortedBySeqNo(s)
    requires BagOf(bag, state.Keys, state, address)
    ensures IsListing(s, state, address)
  {
    forall o
      ensures o in s <==> o.address == address && Ref(address, o.seqNo) in state && state[Ref(address, o.seqNo)] == Amount(o.amount)
    {
      assert o in s <==> multiset(s)[o] > 0;
    }
    forall i, j | 0 <= i < j < |s|
      ensures s[i].seqNo < s[j].seqNo
    {
      if s[i].seqNo == s[j].seqNo {
        assert s[i] in s && s[j] in s;
        assert s[i] == s[j];
        TwiceInBag(s, i, j);
      }
    }
  }

  lemma TwiceInBag(s: seq<Output>, i: nat, j: nat)
    requires i < j < |s| && s[i] == s[j]
    ensures multiset(s)[s[i]] >= 2
  {
    assert s == s[..j] + s[j..];
    assert s[i] == s[..j][i] && s[..j][i] in s[..j];
    assert s[j] == s[j..][0] && s[j..][0] in s[j..];
  }

  /** When `from` is honoured: exactly when the address has no output at or after it in first
      place. With its very first output at or after `from` the answer is empty. */
  lemma FromRule(s: seq<Output>, from: int)
    requires Ascending(s) && from > 0
    ensures Selected(s, Some(from)) == s[FirstFrom(s, from)..] <==> s == [] || s[0].seqNo < from
    ensures s != [] && s[0].seqNo >= from ==> Selected(s, Some(from)) == []
  {
  }

  /** A page gives the first outputs of the rest, as many as fit, and names the one after them. */
  ghost predicate Gives(page: Page, rest: seq<Output>) {
    if |rest| <= 1000 then page == Page(rest, None)
    else page.outputs == rest[..1000] && page.next == Some(rest[1000].seqNo)
  }

  /** Asked without `from`, or from 0, the node gives the listing from its start. */
  lemma AnswerFromStart(s: seq<Output>, page: Page, state: State, address: string, from: Option<int>)
    requires IsListing(s, state, address) && PositiveSeqNos(s) && (from.None? || from.value == 0)
    ensures Answer(page, state, address, from) <==> Gives(page, s)
  {
    hide IsListing;
    AnswerIsPage(s, page, state, address, from);
  }

  /** Asked from a seqNo, listed or not, that lies past the address's first output, the node gives
      exactly the outputs from it on, none below it, in order; the same when there is none past it.
      When every output lies at or past it, the answer is empty. */
  lemma AnswerFrom(below: seq<Output>, rest: seq<Output>, page: Page, state: State, address: string, from: int)
    requires IsListing(below + rest, state, address) && from > 0
    requires (forall o :: o in below ==> o.seqNo < from) && (forall o :: o in rest ==> o.seqNo >= from)
    ensures below != [] || rest == [] ==> (Answer(page, state, address, Some(from)) <==> Gives(page, rest))
    ensures below == [] ==> (Answer(page, state, address, Some(from)) <==> page == Page([], None))
  {
    hide IsListing;
    AnswerIsPage(below + rest, page, state, address, Some(from));
    SplitAt(below, rest, from);
  }

  lemma SplitAt(below: seq<Output>, rest: seq<Output>, from: int)
    requires from > 0
    requires (forall o :: o in below ==> o.seqNo < from) && (forall o :: o in rest ==> o.seqNo >= from)
    ensures Selected(below + rest, Some(from)) == if below == [] then [] else rest
    ensures forall i :: 0 <= i < |rest| ==> rest[i].seqNo != 0
  {
    var s, i := below + rest, FirstFrom(below + rest, from);
    forall j | 0 <= j < |s|
      ensures s[j].seqNo < from <==> j < |below|
    {
      if j < |below| { assert s[j] in below; } else { assert s[j] == rest[j - |below|] && s[j] in rest; }
    }
    assert rest != [] ==> s[|below|].seqNo >= from;
    assert i == |below|;
    assert forall j :: 0 <= j < |rest| ==> rest[j] in rest;
    assert s[|below|..] == rest;
  }

  /** A state with the outputs 3 and 7 at an address, asked from 2, ought to give both; the only
      answer is empty. */
  lemma FromMissesTheFirst(page: Page)
    ensures var state := map[Ref("a", 3) := Amount(10), Ref("a", 7) := Amount(20)];
      && IsListing([Output("a", 3, 10), Output("a", 7, 20)], state, "a")
      && (Answer(page, state, "a", Some(2)) <==> page == Page([], None))
  {
    var s, state := [Output("a", 3, 10), Output("a", 7, 20)], map[Ref("a", 3) := Amount(10), Ref("a", 7) := Amount(20)];
    assert forall o :: o in s <==> o == s[0] || o == s[1];
    AnswerIsPage(s, page, state, "a", Some(2));
  }

  // ----- following `next` -----

  /** The answers a client gets that starts without `from` and asks again while there is a `next`. */
  function Chain(s: seq<Output>, from: Option<int>, questions: nat): seq<Page>
    decreases questions
  {
    if questions == 0 then []
    else
      var p := PageOf(s, from);
      [p] + if p.next.Some? then Chain(s, p.next, questions - 1) else []
  }

  function Concat(pages: seq<Page>): seq<Output> {
    if pages == [] then [] else pages[0].outputs + Concat(pages[1..])
  }

  ghost predicate PositiveSeqNos(s: seq<Output>) { forall i :: 0 <= i < |s| ==> s[i].seqNo > 0 }

  /** Asking from an output that is not the first one continues right there. */
  lemma PageFrom(s: seq<Output>, k: nat)
    requires Ascending(s) && PositiveSeqNos(s) && 0 < k < |s|
    ensures PageOf(s, Some(s[k].seqNo)) ==
      if |s| - k > UTXO_LIMIT then Page(s[k..k + UTXO_LIMIT], Some(s[k + UTXO_LIMIT].seqNo)) else Page(s[k..], None)
  {
    assert FirstFrom(s, s[k].seqNo) == k;
    if |s| - k > UTXO_LIMIT {
      assert s[k..][..UTXO_LIMIT] == s[k..k + UTXO_LIMIT] && s[k..][UTXO_LIMIT] == s[k + UTXO_LIMIT];
    }
  }

  /** What a chain of pages over `s[k..]` is to be. */
  ghost predicate Complete(pages: seq<Page>, rest: seq<Output>) {
    && Concat(pages) == rest && pages != [] && pages[|pages| - 1].next == None
    && forall i :: 0 <= i < |pages| ==> |pages[i].outputs| <= UTXO_LIMIT
  }

  lemma CompleteCons(p: Page, pages: seq<Page>, rest: seq<Output>)
    requires Complete(pages, rest) && |p.outputs| <= UTXO_LIMIT
    ensures Complete([p] + pages, p.outputs + rest)
  {
    assert ([p] + pages)[1..] == pages;
  }

  lemma CompleteOne(p: Page)
    requires p.next == None && |p.outputs| <= UTXO_LIMIT
    ensures Complete([p], p.outputs)
  {
    assert [p][1..] == [] && p.outputs + [] == p.outputs;
  }

  lemma {:induction false} ChainFrom(s: seq<Output>, k: nat, questions: nat)
    requires Ascending(s) && PositiveSeqNos(s) && 0 < k < |s| && questions > (|s| - k) / UTXO_LIMIT
    ensures Complete(Chain(s, Some(s[k].seqNo), questions), s[k..])
    ensures |Chain(s, Some(s[k].seqNo), questions)| <= (|s| - k) / UTXO_LIMIT + 1
    decreases |s| - k
  {
    hide Ascending, PositiveSeqNos, PageOf, Complete, Concat;
    PageFrom(s, k);
    var p := PageOf(s, Some(s[k].seqNo));
    if p.next.Some? {
      ChainFrom(s, k + UTXO_LIMIT, questions - 1);
      CompleteCons(p, Chain(s, p.next, questions - 1), s[k + UTXO_LIMIT..]);
      assert s[k..] == s[k..k + UTXO_LIMIT] + s[k + UTXO_LIMIT..];
    } else {
      CompleteOne(p);
      assert [p] + [] == [p];
    }
  }

  /** Starting without `from` and following `next`, the pages concatenate to all live outputs
      of the address in seqNo order, each exactly once; no page is too long; the last page has
      no `next`; and no more questions are needed than there are pages' worth of outputs. */
  lemma PagingComplete(s: seq<Output>, questions: nat)
    requires Ascending(s) && PositiveSeqNos(s) && questions > |s| / UTXO_LIMIT
    ensures Complete(Chain(s, None, questions), s)
    ensures |Chain(s, None, questions)| <= |s| / UTXO_LIMIT + 1
  {
    hide Ascending, PositiveSeqNos, PageOf, Complete, Concat;
    FirstPage(s);
    var p := PageOf(s, None);
    if |s| > UTXO_LIMIT {
      ChainFrom(s, UTXO_LIMIT, questions - 1);
      CompleteCons(p, Chain(s, p.next, questions - 1), s[UTXO_LIMIT..]);
      assert s == s[..UTXO_LIMIT] + s[UTXO_LIMIT..];
    } else {
      CompleteOne(p);
      assert [p] + [] == [p];
    }
  }

  lemma FirstPage(s: seq<Output>)
    requires PositiveSeqNos(s)
    ensures PageOf(s, None) ==
      if |s| > UTXO_LIMIT then Page(s[..UTXO_LIMIT], Some(s[UTXO_LIMIT].seqNo)) else Page(s, None)
  {
  }

  /** Every live output of a valid ledger has a positive seqNo, as paging needs. */
  lemma {:induction false} LiveSeqNosPositive(l: seq<TokenLedger.TokenTxn>, r: Ref)
    requires ValidLedger(l) && r in LiveMap(Replayed(l).state)
    ensures r.seqNo > 0
  {
    Accounting.LiveIsCreatedNotSpent(l);
    var i := Accounting.CreatedSomewhere(l, r);
    ValidAt(l, i);
  }

  lemma ListingPositive(l: seq<TokenLedger.TokenTxn>, s: seq<Output>, address: string)
    requires ValidLedger(l) && IsListing(s, Replayed(l).state, address)
    ensures PositiveSeqNos(s)
  {
    forall i | 0 <= i < |s|
      ensures s[i].seqNo > 0
    {
      assert s[i] in s;
      assert Ref(address, s[i].seqNo) in LiveMap(Replayed(l).state);
      LiveSeqNosPositive(l, Ref(address, s[i].seqNo));
    }
  }

  // ----- a client's conversation with a node -----

  /** The answers of get_result to a client that asks again with each `next` until there is none. */
  ghost predicate Conversation(pages: seq<Page>, state: State, address: string, from: Option<int>) {
    && pages != [] && Answer(pages[0], state, address, from)
    && if pages[0].next.None? then |pages| == 1 else Conversation(pages[1..], state, address, pages[0].next)
  }

  /** A conversation is the chain of the listing's pages, however many questions are allowed. */
  lemma {:induction false} ConversationIsChain(s: seq<Output>, pages: seq<Page>, state: State, address: string,
      from: Option<int>, questions: nat)
    requires IsListing(s, state, address) && Conversation(pages, state, address, from) && questions >= |pages|
    ensures Chain(s, from, questions) == pages
  {
    hide IsListing, PageOf, Answer;
    AnswerIsPage(s, pages[0], state, address, from);
    assert pages == [pages[0]] + pages[1..];
    if pages[0].next.Some? {
      ConversationIsChain(s, pages[1..], state, address, pages[0].next, questions - 1);
    }
  }

  lemma {:induction false} ChainIsConversation(s: seq<Output>, state: State, address: string, from: Option<int>, questions: nat)
    requires IsListing(s, state, address)
    requires var pages := Chain(s, from, questions); pages != [] && pages[|pages| - 1].next == None
    ensures Conversation(Chain(s, from, questions), state, address, from)
    decreases questions
  {
    hide IsListing, PageOf, Answer;
    var p, pages := PageOf(s, from), Chain(s, from, questions);
    AnswerIsPage(s, p, state, address, from);
    if p.next.Some? {
      assert pages[1..] == Chain(s, p.next, questions - 1);
      ChainIsConversation(s, state, address, p.next, questions - 1);
    }
  }

  /** A client that starts without `from` and follows `next` does come to an end, in no more
      questions than there are pages' worth of outputs, and whichever answers it gets
      concatenate to the whole listing. */
  lemma ConversationComplete(s: seq<Output>, pages: seq<Page>, state: State, address: string)
    requires IsListing(s, state, address) && PositiveSeqNos(s)
    ensures Conversation(Chain(s, None, |s| / UTXO_LIMIT + 1), state, address, None)
    ensures Conversation(pages, state, address, None) ==> Complete(pages, s) && |pages| <= |s| / UTXO_LIMIT + 1
  {
    hide Ascending, IsListing, Conversation, PositiveSeqNos, Complete, Chain, Concat, PageOf;
    ListingAscends(s, state, address);
    var enough := |s| / UTXO_LIMIT + 1;
    PagingComplete(s, enough);
    CompleteEnds(Chain(s, None, enough), s);
    ChainIsConversation(s, state, address, None, enough);
    if Conversation(pages, state, address, None) {
      ConversationIsChain(s, pages, state, address, None, |pages| + enough);
      PagingComplete(s, |pages| + enough);
    }
  }

  lemma ListingAscends(s: seq<Output>, state: State, address: string)
    requires IsListing(s, state, address)
    ensures Ascending(s)
  {
  }

  lemma CompleteEnds(pages: seq<Page>, rest: seq<Output>)
    requires Complete(pages, rest)
    ensures pages != [] && pages[|pages| - 1].next == None
  {
  }

  /** At a node that the protocol allows, that listing is what the committed index lists. */
  lemma PagesOfNode(n: Protocol.Node, address: string, pages: seq<Page>)
    requires Runs.NodeOk(n)
    ensures var s, state := Outputs(address, Listed(n.side.cache.base, address)), n.side.committedHead;
      && IsListing(s, state, address)
      && Conversation(Chain(s, None, |s| / UTXO_LIMIT + 1), state, address, None)
      && (Conversation(pages, state, address, None) ==> Complete(pages, s) && |pages| <= |s| / UTXO_LIMIT + 1)
  {
    hide Runs.NodeOk, IsListing, Conversation, PositiveSeqNos, Outputs, Complete;
    NodeListing(n, address);
    ConversationComplete(Outputs(address, Listed(n.side.cache.base, address)), pages, n.side.committedHead, address);
  }

  lemma NodeListing(n: Protocol.Node, address: string)
    requires Runs.NodeOk(n)
    ensures var s := Outputs(address, Listed(n.side.cache.base, address));
      IsListing(s, n.side.committedHead, address) && Ascending(s) && PositiveSeqNos(s)
  {
    hide Coherent, Runs.RecordsOk, Runs.QueuesOk, Outputs, Listed, PositiveSeqNos;
    RunTheorems.IndexAgreesWithState(n);
    CacheIsListing(TokenLedger.TokenView(n.side.committedHead, n.side.cache.base), address);
    var l := Protocol.Full(n.side);
    assert l[..|n.side.ledger|] == n.side.ledger;
    ValidPrefix(l, |n.side.ledger|);
    ListingPositive(n.side.ledger, Outputs(address, Listed(n.side.cache.base, address)), address);
  }
}
