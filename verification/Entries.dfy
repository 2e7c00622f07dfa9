/** Lists of unspent entries of one address, and what they look like as text. */
module Entries {
  import opened Types
  import opened Text

  function SeqNos(es: seq<Entry>): set<int> { set e | e in es :: e.seqNo }

  ghost predicate Increasing(es: seq<Entry>) {
    forall i, j :: 0 <= i < j < |es| ==> es[i].seqNo < es[j].seqNo
  }

  /** The position of the first entry with this seqNo, or the length. */
  function Position(es: seq<Entry>, seqNo: int): (i: nat)
    ensures i <= |es|
    ensures i < |es| ==> es[i].seqNo == seqNo
    ensures forall j :: 0 <= j < i ==> es[j].seqNo != seqNo
  {
    if es == [] || es[0].seqNo == seqNo then 0 else 1 + Position(es[1..], seqNo)
  }

  lemma {:induction false} PositionFinds(es: seq<Entry>, seqNo: int)
    ensures Position(es, seqNo) < |es| <==> seqNo in SeqNos(es)
  {
    var i := Position(es, seqNo);
    if i < |es| { assert es[i] in es; }
  }

  function RemoveEntry(es: seq<Entry>, seqNo: int): seq<Entry> {
    var i := Position(es, seqNo);
    if i < |es| then es[..i] + es[i + 1..] else es
  }

  /** The amount of the first entry with this seqNo; 0 when there is none. */
  function AmountOf(es: seq<Entry>, seqNo: int): int {
    var i := Position(es, seqNo);
    if i < |es| then es[i].amount else 0
  }

  /** The total of a set of seqNos: the first entry of each counts. */
  function Total(es: seq<Entry>, named: set<int>): int {
    if es == [] then 0
    else (if es[0].seqNo in named then es[0].amount else 0) + Total(es[1..], named - {es[0].seqNo})
  }

  lemma {:induction false} TotalOfNone(es: seq<Entry>)
    ensures Total(es, {}) == 0
  {
    if es != [] {
      assert {} - {es[0].seqNo} == {};
      TotalOfNone(es[1..]);
    }
  }

  /** Naming one more entry adds its amount. */
  lemma {:induction false} TotalInsert(es: seq<Entry>, named: set<int>, seqNo: int)
    requires seqNo !in named
    ensures Total(es, named + {seqNo}) == Total(es, named) + AmountOf(es, seqNo)
  {
    if es != [] {
      var rest, n := es[1..], es[0].seqNo;
      if n == seqNo {
        assert named + {seqNo} - {n} == named - {n};
      } else {
        assert named + {seqNo} - {n} == named - {n} + {seqNo};
        TotalInsert(rest, named - {n}, seqNo);
      }
    }
  }

  lemma {:induction false} IncreasingAppend(es: seq<Entry>, e: Entry)
    requires Increasing(es) && forall i :: 0 <= i < |es| ==> es[i].seqNo < e.seqNo
    ensures Increasing(es + [e])
  {
  }

  /** Removal takes out exactly the named entry. */
  lemma {:induction false} RemoveMembers(es: seq<Entry>, seqNo: int)
    requires Increasing(es) && seqNo in SeqNos(es)
    ensures forall e :: e in RemoveEntry(es, seqNo) <==> e in es && e.seqNo != seqNo
  {
    PositionFinds(es, seqNo);
    var i := Position(es, seqNo);
    var a, b := es[..i], es[i + 1..];
    assert es == a + [es[i]] + b;
    forall e | e in b
      ensures e.seqNo != seqNo
    {
      var k :| 0 <= k < |b| && b[k] == e;
      assert b[k] == es[i + 1 + k];
    }
  }

  /** Removal keeps the order of the rest. */
  lemma {:induction false} RemoveKeepsOrder(es: seq<Entry>, seqNo: int)
    requires Increasing(es)
    ensures Increasing(RemoveEntry(es, seqNo))
  {
    var i, rest := Position(es, seqNo), RemoveEntry(es, seqNo);
    assert i < |es| ==> forall j :: 0 <= j < |rest| ==> rest[j] == es[if j < i then j else j + 1];
  }

  // ----- the text of a list -----

  /** UTXOAmounts.data: seqNo at even positions, its amount right after it. */
  function Texts(es: seq<Entry>): (data: seq<string>)
    ensures |data| == 2 * |es|
  {
    if es == [] then [] else [PrintInt(es[0].seqNo), PrintInt(es[0].amount)] + Texts(es[1..])
  }

  lemma {:induction false} TextsConcat(a: seq<Entry>, b: seq<Entry>)
    ensures Texts(a + b) == Texts(a) + Texts(b)
  {
    if a == [] {
      assert a + b == b;
    } else {
      assert (a + b)[1..] == a[1..] + b;
      TextsConcat(a[1..], b);
    }
  }

  lemma {:induction false} TextsAppend(es: seq<Entry>, e: Entry)
    ensures Texts(es + [e]) == Texts(es) + [PrintInt(e.seqNo), PrintInt(e.amount)]
  {
    TextsConcat(es, [e]);
  }

  /** The pieces before, of and after one entry. */
  lemma {:induction false} TextsSplit(es: seq<Entry>, k: nat)
    requires k < |es|
    ensures Texts(es) == Texts(es[..k]) + [PrintInt(es[k].seqNo), PrintInt(es[k].amount)] + Texts(es[k + 1..])
  {
    var rest := [es[k]] + es[k + 1..];
    assert es == es[..k] + rest && rest[1..] == es[k + 1..];
    TextsConcat(es[..k], rest);
  }

  lemma TextsDelimiterFree(es: seq<Entry>)
    ensures DelimiterFree(Texts(es))
  {
  }

  /** as_str: the string kept for an address. */
  function Encode(es: seq<Entry>): string { Join(Texts(es)) }

  /** UTXOAmounts.__init__: the pieces of a stored string, refused when their number is odd. */
  function LoadData(stored: Option<string>): Result<seq<string>> {
    if stored.None? || stored.value == "" then Ok([])
    else if |Split(stored.value)| % 2 != 0 then Err(MalformedAmounts)
    else Ok(Split(stored.value))
  }

  /** as_output_list: the entries of the pieces. */
  function ParseEntries(data: seq<string>): Result<seq<Entry>> {
    if data == [] then Ok([])
    else if |data| == 1 then Err(MalformedAmounts)
    else
      var seqNo, amount, rest := ParseInt(data[0]), ParseInt(data[1]), ParseEntries(data[2..]);
      if rest == Err(MalformedAmounts) then rest
      else if seqNo.None? || amount.None? then Err(NotANumber)
      else if rest.Err? then rest
      else Ok([Entry(seqNo.value, amount.value)] + rest.value)
  }

  lemma LoadPairs(s: string, data: seq<string>, n: nat)
    requires Split(s) == data && |data| == 2 * n && n > 0
    ensures LoadData(Some(s)) == Ok(data)
  {
    SplitEmpty();
  }

  lemma {:induction false} LoadEncode(es: seq<Entry>)
    ensures LoadData(Some(Encode(es))) == Ok(Texts(es))
  {
    if es != [] {
      hide LoadData, Text.Split, Text.Join, Texts, Text.PrintInt, Text.DelimiterFree;
      TextsDelimiterFree(es);
      SplitJoin(Texts(es));
      LoadPairs(Encode(es), Texts(es), |es|);
    }
  }

  lemma {:induction false} ParseTexts(es: seq<Entry>)
    ensures ParseEntries(Texts(es)) == Ok(es)
  {
    if es != [] {
      ParsePrintInt(es[0].seqNo);
      ParsePrintInt(es[0].amount);
      assert Texts(es)[2..] == Texts(es[1..]);
      ParseTexts(es[1..]);
      assert es == [es[0]] + es[1..];
    }
  }

  /** Printing a list and reading it back gives the list, so distinct lists have distinct strings. */
  lemma {:induction false} EncodingRoundTrip(es: seq<Entry>)
    ensures LoadData(Some(Encode(es))).Ok?
    ensures ParseEntries(LoadData(Some(Encode(es))).value) == Ok(es)
  {
    LoadEncode(es);
    ParseTexts(es);
  }

  lemma {:induction false} EncodeInjective(es: seq<Entry>, fs: seq<Entry>)
    ensures Encode(es) == Encode(fs) <==> es == fs
  {
    EncodingRoundTrip(es);
    EncodingRoundTrip(fs);
  }

  // ----- searching the text -----

  ghost predicate FirstMatch(data: seq<string>, text: string, i: int) {
    && 0 <= i < |data| && i % 2 == 0 && data[i] == text
    && forall j :: 0 <= j < i && j % 2 == 0 ==> data[j] != text
  }

  ghost predicate NoMatch(data: seq<string>, text: string) {
    forall j :: 0 <= j < |data| && j % 2 == 0 ==> data[j] != text
  }

  lemma {:induction false} EvenPieceIsSeqNo(es: seq<Entry>, j: nat)
    requires j < |es|
    ensures Texts(es)[2 * j] == PrintInt(es[j].seqNo)
  {
    TextsSplit(es, j);
  }

  lemma NoEarlierMatch(data: seq<string>, text: string, i: int, j: nat)
    requires FirstMatch(data, text, i) && 2 * j < i
    ensures data[2 * j] != text
  {
    assert (2 * j) % 2 == 0;
  }

  /** Comparing strings at even positions finds the entry that comparing integers finds. */
  lemma {:induction false} TextSearchAgrees(es: seq<Entry>, seqNo: int, i: int)
    requires FirstMatch(Texts(es), PrintInt(seqNo), i)
    ensures i == 2 * Position(es, seqNo) < 2 * |es|
  {
    hide Texts, Position, Text.PrintInt;
    var k, p := i / 2, Position(es, seqNo);
    assert i == 2 * k;
    EvenPieceIsSeqNo(es, k);
    PrintIntInjective(es[k].seqNo, seqNo);
    assert p <= k;
    if p < k {
      EvenPieceIsSeqNo(es, p);
      NoEarlierMatch(Texts(es), PrintInt(seqNo), i, p);
    }
  }

  lemma NoMatchAt(data: seq<string>, text: string, j: nat)
    requires NoMatch(data, text) && 2 * j < |data|
    ensures data[2 * j] != text
  {
    assert (2 * j) % 2 == 0;
  }

  lemma {:induction false} TextSearchMissAgrees(es: seq<Entry>, seqNo: int)
    requires NoMatch(Texts(es), PrintInt(seqNo))
    ensures seqNo !in SeqNos(es)
  {
    hide Texts, Text.PrintInt, SeqNos, NoMatch;
    PositionFinds(es, seqNo);
    var p := Position(es, seqNo);
    if p < |es| {
      EvenPieceIsSeqNo(es, p);
      NoMatchAt(Texts(es), PrintInt(seqNo), p);
    }
  }

  /** Cutting the two pieces out of the text is removing the entry from the list. */
  lemma {:induction false} TextRemovalAgrees(es: seq<Entry>, seqNo: int)
    requires Position(es, seqNo) < |es|
    ensures Texts(es)[..2 * Position(es, seqNo)] + Texts(es)[2 * Position(es, seqNo) + 2..]
      == Texts(RemoveEntry(es, seqNo))
  {
    var p := Position(es, seqNo);
    hide Position, Texts, Text.PrintInt;
    TextsSplit(es, p);
    TextsConcat(es[..p], es[p + 1..]);
    SkipTwo(Texts(es[..p]), PrintInt(es[p].seqNo), PrintInt(es[p].amount), Texts(es[p + 1..]));
  }

  lemma SkipTwo(a: seq<string>, x: string, y: string, b: seq<string>)
    ensures var s := a + [x, y] + b;
      s[..|a|] == a && s[|a| + 2..] == b
  {
  }

  /** Removal lowers the total of any naming by exactly the removed amount; only a second entry
      of the same seqNo, which no list in increasing order has, would count in its place. */
  lemma RemovalLowersTotal(es: seq<Entry>, seqNo: int, named: set<int>)
    requires seqNo in SeqNos(es) && seqNo in named
    ensures Total(RemoveEntry(es, seqNo), named)
      == Total(es, named) - AmountOf(es, seqNo) + AmountOf(RemoveEntry(es, seqNo), seqNo)
    ensures Increasing(es) ==> Total(RemoveEntry(es, seqNo), named) == Total(es, named) - AmountOf(es, seqNo)
  {
    RemovalMovesTotal(es, seqNo, named);
    if Increasing(es) { OnlyOneEntry(es, seqNo); }
  }

  lemma {:induction false} RemovalMovesTotal(es: seq<Entry>, seqNo: int, named: set<int>)
    requires seqNo in SeqNos(es) && seqNo in named
    ensures Total(RemoveEntry(es, seqNo), named)
      == Total(es, named) - AmountOf(es, seqNo) + AmountOf(RemoveEntry(es, seqNo), seqNo)
  {
    hide RemoveEntry, AmountOf, Position;
    var rest, left := es[1..], named - {es[0].seqNo};
    if es[0].seqNo == seqNo {
      RemoveHere(es);
      assert left + {seqNo} == named;
      TotalInsert(rest, left, seqNo);
    } else {
      assert es == [es[0]] + rest;
      SeqNosCons(es[0], rest);
      RemoveBelow(es, seqNo);
      PositionBelow(es[0], RemoveEntry(rest, seqNo), seqNo);
      RemovalMovesTotal(rest, seqNo, left);
      assert RemoveEntry(es, seqNo)[1..] == RemoveEntry(rest, seqNo);
    }
  }

  lemma {:induction false} RemoveHere(es: seq<Entry>)
    requires es != []
    ensures RemoveEntry(es, es[0].seqNo) == es[1..] && AmountOf(es, es[0].seqNo) == es[0].amount
  {
  }

  lemma {:induction false} RemoveBelow(es: seq<Entry>, seqNo: int)
    requires es != [] && es[0].seqNo != seqNo
    ensures RemoveEntry(es, seqNo) == [es[0]] + RemoveEntry(es[1..], seqNo)
    ensures AmountOf(es, seqNo) == AmountOf(es[1..], seqNo)
  {
    var rest, k := es[1..], Position(es[1..], seqNo);
    assert Position(es, seqNo) == 1 + k;
    if k < |rest| {
      hide Position;
      assert es[1 + k] == rest[k] && es[..1 + k] == [es[0]] + rest[..k] && es[2 + k..] == rest[k + 1..];
    } else {
      hide Position;
      assert es == [es[0]] + rest;
    }
  }

  lemma {:induction false} PositionBelow(e: Entry, es: seq<Entry>, seqNo: int)
    requires e.seqNo != seqNo
    ensures Position([e] + es, seqNo) == 1 + Position(es, seqNo)
    ensures AmountOf([e] + es, seqNo) == AmountOf(es, seqNo)
  {
    assert ([e] + es)[1..] == es;
  }

  lemma OnlyOneEntry(es: seq<Entry>, seqNo: int)
    requires Increasing(es) && seqNo in SeqNos(es)
    ensures AmountOf(RemoveEntry(es, seqNo), seqNo) == 0
  {
    RemoveMembers(es, seqNo);
    PositionFinds(RemoveEntry(es, seqNo), seqNo);
  }

  /** The loop of sum_amounts over the pieces not yet visited, with `left` still to be found. */
  function SumData(data: seq<string>, left: set<int>, total: int): Result<int>
    decreases |data|
  {
    if data == [] then (if left == {} then Ok(total) else Err(OutputNotFound))
    else if ParseInt(data[0]).None? then Err(NotANumber)
    else if ParseInt(data[0]).value !in left then (if |data| == 1 then SumData([], left, total) else SumData(data[2..], left, total))
    else if |data| == 1 then Err(IndexOutOfRange)
    else if ParseInt(data[1]).None? then Err(NotANumber)
    else
      var left', total' := left - {ParseInt(data[0]).value}, total + ParseInt(data[1]).value;
      if left' == {} then Ok(total') else SumData(data[2..], left', total')
  }

  lemma {:induction false} SeqNosCons(e: Entry, es: seq<Entry>)
    ensures SeqNos([e] + es) == {e.seqNo} + SeqNos(es)
  {
    forall x | x in es ensures x in [e] + es { }
    assert e in [e] + es;
  }

  /** One round of the loop on well-formed pieces. */
  lemma {:induction false} SumDataCons(e: Entry, data: seq<string>, left: set<int>, total: int)
    ensures SumData([PrintInt(e.seqNo), PrintInt(e.amount)] + data, left, total)
      == if e.seqNo !in left then SumData(data, left, total)
         else if left - {e.seqNo} == {} then Ok(total + e.amount)
         else SumData(data, left - {e.seqNo}, total + e.amount)
  {
    ParsePrintInt(e.seqNo);
    ParsePrintInt(e.amount);
    assert ([PrintInt(e.seqNo), PrintInt(e.amount)] + data)[2..] == data;
  }

  /** What sum_amounts is meant to answer: the total of the named seqNos if all are there. */
  function SumAnswer(es: seq<Entry>, left: set<int>, total: int): Result<int> {
    if left <= SeqNos(es) then Ok(total + Total(es, left)) else Err(OutputNotFound)
  }

  lemma {:induction false} SumAnswerCons(es: seq<Entry>, left: set<int>, total: int)
    requires es != []
    ensures var n, rest := es[0].seqNo, es[1..];
      SumAnswer(es, left, total)
      == if n !in left then SumAnswer(rest, left, total)
         else if left - {n} == {} then Ok(total + es[0].amount)
         else SumAnswer(rest, left - {n}, total + es[0].amount)
  {
    var n, rest := es[0].seqNo, es[1..];
    assert es == [es[0]] + rest;
    SeqNosCons(es[0], rest);
    SubsetStep(left, n, SeqNos(rest));
    if left - {n} == {} { TotalOfNone(rest); }
  }

  /** sum_amounts on a well-formed list gives that answer, however early its loop stops. */
  lemma {:induction false} SumAmountsMeaning(es: seq<Entry>, left: set<int>, total: int)
    ensures SumData(Texts(es), left, total) == SumAnswer(es, left, total)
    decreases |es|
  {
    hide Text.PrintInt, Text.ParseInt, SumAnswer, SumData, Texts, SeqNos;
    if es == [] {
      SumNothing(left, total);
    } else {
      var e, rest := es[0], es[1..];
      TextsCons(es);
      SumDataCons(e, Texts(rest), left, total);
      SumAnswerCons(es, left, total);
      if e.seqNo !in left {
        SumAmountsMeaning(rest, left, total);
      } else {
        SumAmountsMeaning(rest, left - {e.seqNo}, total + e.amount);
      }
    }
  }

  lemma SumNothing(left: set<int>, total: int)
    ensures SumData(Texts([]), left, total) == SumAnswer([], left, total)
  {
    assert SeqNos([]) == {};
  }

  lemma TextsCons(es: seq<Entry>)
    requires es != []
    ensures Texts(es) == [PrintInt(es[0].seqNo), PrintInt(es[0].amount)] + Texts(es[1..])
  {
  }

  lemma {:induction false} SubsetStep(left: set<int>, n: int, known: set<int>)
    ensures left <= {n} + known <==> left - {n} <= known
    ensures n !in left ==> left - {n} == left
  {
  }
}
