/** sovtoken/utxo_cache.py: the per-address index of unspent outputs, kept as text. */
module UtxoCache {
  import opened Types
  import opened Text
  import opened Entries
  import opened Stores

  /** The list of one address while it is being changed: seqNos at even positions,
      each followed by its amount. */
  class UTXOAmounts {
    const address: string
    var data: seq<string>

    constructor (address: string, data: seq<string>)
      ensures this.address == address && this.data == data
    {
      this.address := address;
      this.data := data;
    }

    method AddAmount(seqNo: int, amount: int)
      modifies this
      ensures data == old(data) + [PrintInt(seqNo), PrintInt(amount)]
    {
      data := data + [PrintInt(seqNo)];
      data := data + [PrintInt(amount)];
    }

    method RemoveSeqNo(seqNo: int) returns (error: Option<Error>)
      modifies this
      ensures error == Some(OutputNotFound) <==> NoMatch(old(data), PrintInt(seqNo))
      ensures error.Some? ==> data == old(data) && error.value in {OutputNotFound, MalformedAmounts}
      ensures error == Some(MalformedAmounts) ==> FirstMatch(old(data), PrintInt(seqNo), |old(data)| - 1)
      ensures error.None? ==> CutOut(old(data), PrintInt(seqNo), data)
    {
      var text := PrintInt(seqNo);
      var i := 0;
      while i < |data| && data[i] != text
        invariant 0 <= i && i % 2 == 0
        invariant forall j :: 0 <= j < i && j < |data| && j % 2 == 0 ==> data[j] != text
      {
        i := i + 2;
      }
      if i >= |data| {
        return Some(OutputNotFound);
      }
      assert FirstMatch(data, text, i);
      if i + 1 < |data| {
        data := data[..i] + data[i + 1..];
        data := data[..i] + data[i + 1..];
        assert data == old(data)[..i] + old(data)[i + 2..];
        return None;
      }
      return Some(MalformedAmounts);
    }

    method SumAmounts(seqNos: set<int>) returns (r: Result<int>)
      ensures r == SumData(data, seqNos, 0)
    {
      var total, left, i := 0, seqNos, 0;
      while i < |data|
        invariant 0 <= i
        invariant SumData(data, seqNos, 0) == SumData(if i < |data| then data[i..] else [], left, total)
      {
        var rest := data[i..];
        assert |rest| > 2 ==> rest[2..] == data[i + 2..];
        var n := ParseInt(data[i]);
        if n.None? {
          return Err(NotANumber);
        }
        if n.value in left {
          if i + 1 >= |data| {
            return Err(IndexOutOfRange);
          }
          var amount := ParseInt(data[i + 1]);
          if amount.None? {
            return Err(NotANumber);
          }
          total := total + amount.value;
          left := left - {n.value};
          if left == {} {
            return Ok(total);
          }
        }
        i := i + 2;
      }
      if left != {} {
        return Err(OutputNotFound);
      }
      return Ok(total);
    }

    method AsStr() returns (r: Result<string>)
      ensures r == if |data| % 2 != 0 then Err(MalformedAmounts) else Ok(Join(data))
    {
      if |data| % 2 != 0 {
        return Err(MalformedAmounts);
      }
      return Ok(Join(data));
    }

    method AsOutputList() returns (r: Result<seq<Output>>)
      ensures r.Ok? <==> ParseEntries(data).Ok?
      ensures r.Ok? ==> r.value == Outputs(address, ParseEntries(data).value)
    {
      if |data| % 2 != 0 {
        OddIsMalformed(data);
        return Err(MalformedAmounts);
      }
      var rtn: seq<Entry>, i := [], 0;
      assert data[0..] == data;
      PrefixNothing(ParseEntries(data));
      while i < |data|
        invariant 0 <= i <= |data| && i % 2 == 0 && |data| % 2 == 0
        invariant ParseEntries(data) == Prefixed(rtn, ParseEntries(data[i..]))
      {
        var seqNo, amount := ParseInt(data[i]), ParseInt(data[i + 1]);
        ParseStep(rtn, data[i..]);
        assert data[i..][2..] == data[i + 2..];
        if seqNo.None? || amount.None? {
          return Err(NotANumber);
        }
        rtn := rtn + [Entry(seqNo.value, amount.value)];
        i := i + 2;
      }
      assert rtn + [] == rtn;
      return Ok(Outputs(address, rtn));
    }
  }

  function Prefixed(done: seq<Entry>, r: Result<seq<Entry>>): Result<seq<Entry>> {
    if r.Ok? then Ok(done + r.value) else r
  }

  lemma PrefixNothing(r: Result<seq<Entry>>)
    ensures Prefixed([], r) == r
  {
    if r.Ok? { assert [] + r.value == r.value; }
  }

  lemma {:induction false} ParseStep(done: seq<Entry>, data: seq<string>)
    requires data != [] && |data| % 2 == 0
    ensures Prefixed(done, ParseEntries(data)) ==
      if ParseInt(data[0]).None? || ParseInt(data[1]).None? then Err(NotANumber)
      else Prefixed(done + [Entry(ParseInt(data[0]).value, ParseInt(data[1]).value)], ParseEntries(data[2..]))
  {
    EvenIsWellShaped(data[2..]);
    var rest := ParseEntries(data[2..]);
    if rest.Ok? && ParseInt(data[0]).Some? && ParseInt(data[1]).Some? {
      var e := Entry(ParseInt(data[0]).value, ParseInt(data[1]).value);
      assert done + ([e] + rest.value) == done + [e] + rest.value;
    }
  }

  /** `after` is `before` without the first even position holding `text` and the piece after it. */
  ghost predicate CutOut(before: seq<string>, text: string, after: seq<string>) {
    exists i :: FirstMatch(before, text, i) && i + 2 <= |before| && after == before[..i] + before[i + 2..]
  }

  function Outputs(address: string, es: seq<Entry>): (os: seq<Output>)
    ensures |os| == |es| && forall i :: 0 <= i < |es| ==> os[i] == Output(address, es[i].seqNo, es[i].amount)
  {
    seq(|es|, i requires 0 <= i < |es| => Output(address, es[i].seqNo, es[i].amount))
  }

  lemma {:induction false} OddIsMalformed(data: seq<string>)
    requires |data| % 2 != 0
    ensures ParseEntries(data) == Err(MalformedAmounts)
  {
    if |data| > 1 { OddIsMalformed(data[2..]); }
  }

  lemma {:induction false} EvenIsWellShaped(data: seq<string>)
    requires |data| % 2 == 0
    ensures ParseEntries(data) != Err(MalformedAmounts)
  {
    if data != [] { EvenIsWellShaped(data[2..]); }
  }

  // ----- the cache -----

  function EncodeMap(m: Index): map<string, string> { map a | a in m :: Encode(m[a]) }

  function Listed(index: Index, address: string): seq<Entry> {
    if address in index then index[address] else []
  }

  /** Every list of the index is in strictly increasing seqNo, hence without duplicates. */
  ghost predicate Ordered(index: Index) { forall a :: a in index ==> Increasing(index[a]) }

  /** An input names an output the index still lists. */
  predicate Spendable(index: Index, r: Ref) {
    r.address in index && r.seqNo in SeqNos(index[r.address])
  }

  predicate AllSpendable(index: Index, refs: seq<Ref>) {
    forall i :: 0 <= i < |refs| ==> Spendable(index, refs[i])
  }

  function SpendError(index: Index, r: Ref): Option<Error> {
    if r.address !in index then Some(AddressNotFound)
    else if r.seqNo !in SeqNos(index[r.address]) then Some(OutputNotFound)
    else None
  }

  function SpendWrites(index: Index, r: Ref): Index {
    if Spendable(index, r) then map[r.address := RemoveEntry(index[r.address], r.seqNo)] else map[]
  }

  /** The value of the set of outputs that a list of inputs names: a repeated input counts once. */
  function NamedSum(index: Index, refs: seq<Ref>): int {
    if refs == [] then 0
    else
      var init, r := refs[..|refs| - 1], refs[|refs| - 1];
      NamedSum(index, init) + if r in init then 0 else AmountOf(Listed(index, r.address), r.seqNo)
  }

  class UTXOCache {
    var store: map<string, string>
    var unCommitted: seq<Batch<string>>
    var currentBatchOps: map<string, string>
    ghost var view: Store<seq<Entry>>

    /** The text held is the encoding of `view`, layer by layer. */
    ghost predicate Valid()
      reads this
    {
      && store == EncodeMap(view.base)
      && currentBatchOps == EncodeMap(view.ops)
      && |unCommitted| == |view.pending|
      && forall i :: 0 <= i < |unCommitted| ==>
        unCommitted[i] == Batch(view.pending[i].id, EncodeMap(view.pending[i].ops))
    }

    constructor ()
      ensures Valid() && view == Store(map[], [], map[])
    {
      store, unCommitted, currentBatchOps := map[], [], map[];
      view := Store(map[], [], map[]);
    }

    /** OptimisticKVStore.get; None is KeyError. */
    method Get(key: string, isCommitted: bool) returns (r: Option<string>)
      requires Valid()
      ensures r == if key in View(view, isCommitted) then Some(Encode(View(view, isCommitted)[key])) else None
    {
      if !isCommitted {
        if key in currentBatchOps {
          return Some(currentBatchOps[key]);
        }
        var i := |unCommitted|;
        assert view.pending[..i] == view.pending;
        while i > 0
          invariant 0 <= i <= |unCommitted|
          invariant key in Overlay(view.base, view.pending) <==> key in Overlay(view.base, view.pending[..i])
          invariant key in Overlay(view.base, view.pending) ==>
            Overlay(view.base, view.pending)[key] == Overlay(view.base, view.pending[..i])[key]
        {
          assert view.pending[..i][..i - 1] == view.pending[..i - 1];
          i := i - 1;
          if key in unCommitted[i].ops {
            return Some(unCommitted[i].ops[key]);
          }
        }
      }
      return if key in store then Some(store[key]) else None;
    }

    method Set(key: string, value: string, isCommitted: bool, ghost es: seq<Entry>)
      requires Valid() && value == Encode(es)
      modifies this
      ensures Valid() && view == Write(old(view), map[key := es], isCommitted)
    {
      EncodeMapUpdate(if isCommitted then view.base else view.ops, key, es);
      view := Write(view, map[key := es], isCommitted);
      if isCommitted {
        store := store[key := value];
      } else {
        currentBatchOps := currentBatchOps[key := value];
      }
    }

    method GetAmounts(address: string, makeNew: bool, isCommitted: bool) returns (r: Result<UTXOAmounts>)
      requires Valid()
      ensures r.Err? <==> address !in View(view, isCommitted) && !makeNew
      ensures r.Err? ==> r.error == AddressNotFound
      ensures r.Ok? ==> fresh(r.value) && r.value.address == address
      ensures r.Ok? ==> r.value.data == Texts(Listed(View(view, isCommitted), address))
    {
      var stored := Get(address, isCommitted);
      if stored.None? {
        if !makeNew {
          return Err(AddressNotFound);
        }
        var empty := new UTXOAmounts(address, []);
        return Ok(empty);
      }
      LoadEncode(Listed(View(view, isCommitted), address));
      var amounts := new UTXOAmounts(address, LoadData(stored).value);
      return Ok(amounts);
    }

    method AddOutput(output: Output, isCommitted: bool)
      requires Valid()
      modifies this
      ensures Valid()
      ensures view == Write(old(view), map[output.address := Listed(View(old(view), isCommitted), output.address)
                                                             + [Entry(output.seqNo, output.amount)]], isCommitted)
    {
      hide View, Texts, Text.PrintInt, Text.Join, EncodeMap, Listed;
      ghost var es := Listed(View(view, isCommitted), output.address);
      var r := GetAmounts(output.address, true, isCommitted);
      var amounts := r.value;
      amounts.AddAmount(output.seqNo, output.amount);
      ghost var es' := es + [Entry(output.seqNo, output.amount)];
      TextsAppend(es, Entry(output.seqNo, output.amount));
      var s := amounts.AsStr();
      Set(output.address, s.value, isCommitted, es');
    }

    /** Spending removes exactly the named entry; on an error the cache is unchanged. */
    method SpendOutput(r: Ref, isCommitted: bool) returns (error: Option<Error>)
      requires Valid()
      modifies this
      ensures Valid()
      ensures error == SpendError(View(old(view), isCommitted), r)
      ensures error == Some(AddressNotFound) <==> r.address !in View(old(view), isCommitted)
      ensures error == None <==> Spendable(View(old(view), isCommitted), r)
      ensures view == Write(old(view), SpendWrites(View(old(view), isCommitted), r), isCommitted)
    {
      hide View, RemoveEntry, FirstMatch, NoMatch, CutOut, Text.PrintInt, Texts, EncodeMap, Text.Join;
      WriteNothing(view, isCommitted);
      var got := GetAmounts(r.address, false, isCommitted);
      if got.Err? {
        return Some(got.error);
      }
      ghost var es := Listed(View(view, isCommitted), r.address);
      var amounts := got.value;
      error := amounts.RemoveSeqNo(r.seqNo);
      if error.Some? {
        RemovalError(es, r.seqNo, error);
        return;
      }
      RemovalResult(es, r.seqNo, amounts.data);
      var s := amounts.AsStr();
      Set(r.address, s.value, isCommitted, RemoveEntry(es, r.seqNo));
    }

    method GetUnspentOutputs(address: string, isCommitted: bool) returns (r: Result<seq<Output>>)
      requires Valid()
      ensures r == Ok(Outputs(address, Listed(View(view, isCommitted), address)))
    {
      var amounts := GetAmounts(address, true, isCommitted);
      ParseTexts(Listed(View(view, isCommitted), address));
      r := amounts.value.AsOutputList();
    }

    /** The first loop of sum_inputs: a set of seqNos for each address, in order of appearance. */
    method GroupByAddress(inputs: seq<Ref>, ghost index: Index)
        returns (addresses: seq<string>, groups: map<string, set<int>>)
      ensures Grouped(inputs, addresses, groups)
      ensures NamedSum(index, inputs) == GroupTotal(index, addresses, groups)
    {
      addresses, groups := [], map[];
      hide AmountOf, Listed, SumAnswer;
      for i := 0 to |inputs|
        invariant Grouping(index, inputs[..i], addresses, groups)
      {
        hide Grouping;
        var address, seqNo := inputs[i].address, inputs[i].seqNo;
        GroupStep(index, inputs, i, addresses, groups);
        ghost var more := (MoreAddresses(addresses, groups, inputs[i]), MoreGroups(groups, inputs[i]));
        if address in groups {
          groups := groups[address := groups[address] + {seqNo}];
        } else {
          addresses, groups := addresses + [address], groups[address := {seqNo}];
        }
        assert (addresses, groups) == more;
      }
      assert inputs[..|inputs|] == inputs;
    }

    /** The value of the named outputs when the index lists all of them, an error otherwise,
        however the inputs are ordered or repeated. */
    method SumInputs(inputs: seq<Ref>, isCommitted: bool) returns (r: Result<int>)
      requires Valid()
      ensures r.Ok? <==> AllSpendable(View(view, isCommitted), inputs)
      ensures r.Ok? ==> r.value == NamedSum(View(view, isCommitted), inputs)
      ensures r.Err? ==> r.error in {AddressNotFound, OutputNotFound}
    {
      hide Grouped, GroupTotal, Total, Spendable, AllSpendable, Texts, SumData, LoadData;
      ghost var index := View(view, isCommitted);
      var addresses, groups := GroupByAddress(inputs, index);
      GroupedKeys(inputs, addresses, groups);
      GroupTotalNone(index, groups);
      var sum := 0;
      for i := 0 to |addresses|
        invariant sum == GroupTotal(index, addresses[..i], groups)
        invariant forall j :: 0 <= j < i ==> AllListed(index, addresses[j], groups[addresses[j]])
      {
        var a := addresses[i];
        var got := GetAmounts(a, false, isCommitted);
        GroupIsNamed(inputs, addresses, groups, a);
        if got.Err? {
          MissingGroup(index, inputs, groups, a);
          return Err(got.error);
        }
        var total := got.value.SumAmounts(groups[a]);
        SumGroup(index, a, groups[a]);
        if total.Err? {
          MissingGroup(index, inputs, groups, a);
          return total;
        }
        GroupTotalNext(index, addresses, i, groups);
        sum := sum + total.value;
      }
      assert addresses[..|addresses|] == addresses;
      AllGroupsListed(index, inputs, addresses, groups);
      return Ok(sum);
    }

    // ----- batches -----

    method CreateBatchFromCurrent(id: State)
      requires Valid()
      modifies this
      ensures Valid() && view == CreateBatch(old(view), id)
    {
      unCommitted, currentBatchOps := unCommitted + [Batch(id, currentBatchOps)], map[];
      view := CreateBatch(view, id);
    }

    method RejectBatch() returns (error: Option<Error>)
      requires Valid()
      modifies this
      ensures Valid()
      ensures if old(view).pending == [] then error == Some(NothingPending) && view == old(view)
        else error == None && view == Stores.RejectBatch(old(view))
    {
      if unCommitted == [] {
        return Some(NothingPending);
      }
      unCommitted := unCommitted[..|unCommitted| - 1];
      view := Stores.RejectBatch(view);
      return None;
    }

    /** commit_to_utxo_cache: the oldest batch must carry the given root. */
    method CommitRoot(root: State) returns (error: Option<Error>)
      requires Valid()
      modifies this
      ensures Valid()
      ensures if old(view).pending == [] || old(view).pending[0].id != root
        then error == Some(CacheRootMismatch) && view == old(view)
        else error == None && view == CommitBatch(old(view))
    {
      if unCommitted == [] || unCommitted[0].id != root {
        return Some(CacheRootMismatch);
      }
      EncodeMapUnion(view.base, view.pending[0].ops);
      store, unCommitted := store + unCommitted[0].ops, unCommitted[1..];
      view := CommitBatch(view);
      return None;
    }
  }

  /** sum_amounts over one address. */
  lemma SumGroup(index: Index, a: string, named: set<int>)
    requires a in index
    ensures SumData(Texts(Listed(index, a)), named, 0)
      == if AllListed(index, a, named) then Ok(Total(Listed(index, a), named)) else Err(OutputNotFound)
  {
    SumAmountsMeaning(index[a], named, 0);
  }

  lemma WriteNothing<V>(s: Store<V>, committed: bool)
    ensures Write(s, map[], committed) == s
  {
    assert s.base + map[] == s.base;
    assert s.ops + map[] == s.ops;
  }

  lemma EncodeMapUpdate(m: Index, key: string, es: seq<Entry>)
    ensures EncodeMap(m + map[key := es]) == EncodeMap(m)[key := Encode(es)]
  {
  }

  lemma EncodeMapUnion(m: Index, n: Index)
    ensures EncodeMap(m + n) == EncodeMap(m) + EncodeMap(n)
  {
  }

  lemma RemovalError(es: seq<Entry>, seqNo: int, error: Option<Error>)
    requires error == Some(OutputNotFound) <==> NoMatch(Texts(es), PrintInt(seqNo))
    requires error.Some? && error.value in {OutputNotFound, MalformedAmounts}
    requires error == Some(MalformedAmounts) ==> FirstMatch(Texts(es), PrintInt(seqNo), |Texts(es)| - 1)
    ensures seqNo !in SeqNos(es) && error == Some(OutputNotFound)
  {
    hide NoMatch, Texts, SeqNos, Text.PrintInt;
    assert |Texts(es)| == 2 * |es|;
    TextSearchMissAgrees(es, seqNo);
  }

  lemma RemovalResult(es: seq<Entry>, seqNo: int, data: seq<string>)
    requires CutOut(Texts(es), PrintInt(seqNo), data)
    ensures seqNo in SeqNos(es) && data == Texts(RemoveEntry(es, seqNo))
  {
    var i :| FirstMatch(Texts(es), PrintInt(seqNo), i) && i + 2 <= |Texts(es)|
      && data == Texts(es)[..i] + Texts(es)[i + 2..];
    TextSearchAgrees(es, seqNo, i);
    PositionFinds(es, seqNo);
    TextRemovalAgrees(es, seqNo);
  }

  // ----- grouping inputs by address -----

  predicate AllListed(index: Index, address: string, seqNos: set<int>) {
    address in index && seqNos <= SeqNos(index[address])
  }

  /** `addresses` lists the keys of `groups` once each, and the groups are the inputs. */
  ghost predicate Grouped(refs: seq<Ref>, addresses: seq<string>, groups: map<string, set<int>>) {
    && (forall a :: a in addresses <==> a in groups)
    && (forall i, j :: 0 <= i < j < |addresses| ==> addresses[i] != addresses[j])
    && (forall a, n :: (a in groups && n in groups[a]) <==> Ref(a, n) in refs)
    && (forall a :: a in groups ==> groups[a] != {})
  }

  function GroupTotal(index: Index, addresses: seq<string>, groups: map<string, set<int>>): int
    requires forall a :: a in addresses ==> a in groups
  {
    if addresses == [] then 0
    else
      var init, a := addresses[..|addresses| - 1], addresses[|addresses| - 1];
      GroupTotal(index, init, groups) + Total(Listed(index, a), groups[a])
  }

  lemma GroupTotalNone(index: Index, groups: map<string, set<int>>)
    ensures GroupTotal(index, [], groups) == 0
  {
  }

  lemma GroupTotalNext(index: Index, addresses: seq<string>, i: nat, groups: map<string, set<int>>)
    requires i < |addresses| && forall a :: a in addresses ==> a in groups
    ensures GroupTotal(index, addresses[..i + 1], groups)
      == GroupTotal(index, addresses[..i], groups) + Total(Listed(index, addresses[i]), groups[addresses[i]])
  {
    assert addresses[..i + 1][..i] == addresses[..i];
  }

  /** A group of an address outside `addresses` does not matter. */
  lemma {:induction false} GroupTotalElsewhere(index: Index, addresses: seq<string>,
      groups: map<string, set<int>>, a: string, named: set<int>)
    requires (forall b :: b in addresses ==> b in groups) && a !in addresses
    ensures GroupTotal(index, addresses, groups[a := named]) == GroupTotal(index, addresses, groups)
  {
    if addresses != [] {
      assert addresses[|addresses| - 1] in addresses;
      GroupTotalElsewhere(index, addresses[..|addresses| - 1], groups, a, named);
    }
  }

  lemma {:induction false} GroupTotalInsert(index: Index, addresses: seq<string>,
      groups: map<string, set<int>>, r: Ref)
    requires forall b :: b in addresses ==> b in groups
    requires forall i, j :: 0 <= i < j < |addresses| ==> addresses[i] != addresses[j]
    requires r.address in addresses && r.seqNo !in groups[r.address]
    ensures GroupTotal(index, addresses, groups[r.address := groups[r.address] + {r.seqNo}])
      == GroupTotal(index, addresses, groups) + AmountOf(Listed(index, r.address), r.seqNo)
  {
    var init, a := addresses[..|addresses| - 1], addresses[|addresses| - 1];
    if a == r.address {
      GroupTotalElsewhere(index, init, groups, a, groups[a] + {r.seqNo});
      TotalInsert(Listed(index, a), groups[a], r.seqNo);
    } else {
      GroupTotalInsert(index, init, groups, r);
    }
  }

  function MoreAddresses(addresses: seq<string>, groups: map<string, set<int>>, r: Ref): seq<string> {
    if r.address in groups then addresses else addresses + [r.address]
  }

  function MoreGroups(groups: map<string, set<int>>, r: Ref): map<string, set<int>> {
    groups[r.address := if r.address in groups then groups[r.address] + {r.seqNo} else {r.seqNo}]
  }

  lemma {:induction false} GroupOneMore(refs: seq<Ref>, addresses: seq<string>, groups: map<string, set<int>>, r: Ref)
    requires Grouped(refs, addresses, groups)
    ensures Grouped(refs + [r], MoreAddresses(addresses, groups, r), MoreGroups(groups, r))
  {
    var groups' := MoreGroups(groups, r);
    forall a, n
      ensures (a in groups' && n in groups'[a]) <==> Ref(a, n) in refs + [r]
    {
      assert r == Ref(r.address, r.seqNo);
      assert Ref(a, n) in refs + [r] <==> Ref(a, n) in refs || Ref(a, n) == r;
    }
  }

  /** The groups are the inputs' and their total is the inputs' named sum. */
  ghost predicate Grouping(index: Index, refs: seq<Ref>, addresses: seq<string>, groups: map<string, set<int>>) {
    Grouped(refs, addresses, groups) && NamedSum(index, refs) == GroupTotal(index, addresses, groups)
  }

  /** One round of the grouping loop. */
  lemma {:induction false} GroupStep(index: Index, refs: seq<Ref>, i: nat, addresses: seq<string>, groups: map<string, set<int>>)
    requires i < |refs| && Grouping(index, refs[..i], addresses, groups)
    ensures Grouping(index, refs[..i + 1], MoreAddresses(addresses, groups, refs[i]), MoreGroups(groups, refs[i]))
  {
    hide Grouped, GroupTotal, NamedSum, AmountOf, Listed, MoreGroups, MoreAddresses;
    assert refs[..i + 1] == refs[..i] + [refs[i]];
    GroupOneMore(refs[..i], addresses, groups, refs[i]);
    GroupedKeys(refs[..i] + [refs[i]], MoreAddresses(addresses, groups, refs[i]), MoreGroups(groups, refs[i]));
    GroupTotalOneMore(index, refs[..i], addresses, groups, refs[i]);
    NamedSumOneMore(index, refs[..i], refs[i]);
  }

  lemma GroupedKeys(refs: seq<Ref>, addresses: seq<string>, groups: map<string, set<int>>)
    requires Grouped(refs, addresses, groups)
    ensures forall a :: a in addresses ==> a in groups
  {
  }

  /** Adding one input to its group adds its amount, once. */
  lemma {:induction false} GroupTotalOneMore(index: Index, refs: seq<Ref>, addresses: seq<string>,
      groups: map<string, set<int>>, r: Ref)
    requires Grouped(refs, addresses, groups)
    requires forall a :: a in MoreAddresses(addresses, groups, r) ==> a in MoreGroups(groups, r)
    ensures GroupTotal(index, MoreAddresses(addresses, groups, r), MoreGroups(groups, r))
      == GroupTotal(index, addresses, groups)
        + (if r in refs then 0 else AmountOf(Listed(index, r.address), r.seqNo))
  {
    assert r == Ref(r.address, r.seqNo);
    if r.address !in groups {
      var more := MoreAddresses(addresses, groups, r);
      assert more[..|more| - 1] == addresses;
      GroupTotalElsewhere(index, addresses, groups, r.address, {r.seqNo});
      TotalOfOne(Listed(index, r.address), r.seqNo);
    } else if r in refs {
      assert groups[r.address] + {r.seqNo} == groups[r.address];
      assert MoreGroups(groups, r) == groups;
    } else {
      GroupTotalInsert(index, addresses, groups, r);
    }
  }

  lemma {:induction false} TotalOfOne(es: seq<Entry>, seqNo: int)
    ensures Total(es, {seqNo}) == AmountOf(es, seqNo)
  {
    TotalInsert(es, {}, seqNo);
    TotalOfNone(es);
    assert {} + {seqNo} == {seqNo};
  }

  lemma {:induction false} NamedSumOneMore(index: Index, refs: seq<Ref>, r: Ref)
    ensures NamedSum(index, refs + [r]) == NamedSum(index, refs)
      + (if r in refs then 0 else AmountOf(Listed(index, r.address), r.seqNo))
  {
    assert (refs + [r])[..|refs|] == refs;
  }

  lemma GroupIsNamed(refs: seq<Ref>, addresses: seq<string>, groups: map<string, set<int>>, a: string)
    requires Grouped(refs, addresses, groups) && a in addresses
    ensures a in groups && groups[a] != {} && forall n :: n in groups[a] ==> Ref(a, n) in refs
  {
  }

  /** A group the index does not list entirely holds an input that cannot be spent. */
  lemma MissingGroup(index: Index, refs: seq<Ref>, groups: map<string, set<int>>, a: string)
    requires a in groups && groups[a] != {} && forall n :: n in groups[a] ==> Ref(a, n) in refs
    ensures AllSpendable(index, refs) ==> AllListed(index, a, groups[a])
  {
    if AllSpendable(index, refs) {
      forall n | n in groups[a]
        ensures a in index && n in SeqNos(index[a])
      {
        var i :| 0 <= i < |refs| && refs[i] == Ref(a, n);
        assert Spendable(index, refs[i]);
      }
      var n :| n in groups[a];
    }
  }

  lemma AllGroupsListed(index: Index, refs: seq<Ref>, addresses: seq<string>, groups: map<string, set<int>>)
    requires Grouped(refs, addresses, groups)
    requires forall j :: 0 <= j < |addresses| ==> AllListed(index, addresses[j], groups[addresses[j]])
    ensures AllSpendable(index, refs)
  {
    forall i | 0 <= i < |refs|
      ensures Spendable(index, refs[i])
    {
      var r := refs[i];
      assert Ref(r.address, r.seqNo) in refs;
      assert r.address in groups && r.seqNo in groups[r.address];
      assert r.address in addresses;
    }
  }
}
