/** The text forms the plugin stores: decimal numbers, colon-joined lists, and
    the keys built from them. */
module Text {
  import opened Types

  predicate IsDigit(c: char) { '0' <= c <= '9' }

  function DigitOf(d: nat): (c: char)
    requires d < 10
    ensures IsDigit(c) && DigitValue(c) == d
  {
    '0' + d as char
  }

  function DigitValue(c: char): nat
    requires IsDigit(c)
  {
    c as int - '0' as int
  }

  function PrintNat(n: nat): (s: string)
    ensures s != "" && forall i :: 0 <= i < |s| ==> IsDigit(s[i])
  {
    if n < 10 then [DigitOf(n)] else PrintNat(n / 10) + [DigitOf(n % 10)]
  }

  function ParseNat(s: string): Option<nat> {
    if s == "" || !IsDigit(s[|s| - 1]) then None
    else if |s| == 1 then Some(DigitValue(s[0]))
    else match ParseNat(s[..|s| - 1])
      case None => None
      case Some(n) => Some(10 * n + DigitValue(s[|s| - 1]))
  }

  lemma {:induction false} ParsePrintNat(n: nat)
    ensures ParseNat(PrintNat(n)) == Some(n)
  {
    if n >= 10 {
      ParsePrintNat(n / 10);
      assert PrintNat(n)[..|PrintNat(n)| - 1] == PrintNat(n / 10);
    }
  }

  /** `str` of an int. */
  function PrintInt(n: int): (s: string)
    ensures s != "" && ':' !in s && '#' !in s
  {
    if n < 0 then "-" + PrintNat(-n) else PrintNat(n)
  }

  /** `int` of a string, for the strings `str` prints; None is ValueError. */
  function ParseInt(s: string): Option<int> {
    var negative := s != "" && s[0] == '-';
    var magnitude := ParseNat(if negative then s[1..] else s);
    if magnitude.None? then None
    else
      var n: int := if negative then 0 - magnitude.value else magnitude.value;
      Some(n)
  }

  lemma ParsePrintInt(n: int)
    ensures ParseInt(PrintInt(n)) == Some(n)
  {
    hide ParseNat;
    if n < 0 {
      assert PrintInt(n)[1..] == PrintNat(-n);
      ParsePrintNat(-n);
    } else {
      ParsePrintNat(n);
    }
  }

  lemma PrintIntInjective(m: int, n: int)
    ensures PrintInt(m) == PrintInt(n) <==> m == n
  {
    ParsePrintInt(m);
    ParsePrintInt(n);
  }

  // ----- ':'.join and split(':') -----

  function Join(parts: seq<string>): string {
    if parts == [] then ""
    else if |parts| == 1 then parts[0]
    else parts[0] + ":" + Join(parts[1..])
  }

  function IndexOf(s: string, c: char): (i: nat)
    requires c in s
    ensures i < |s| && s[i] == c && c !in s[..i]
  {
    if s[0] == c then 0 else
      assert s[1..][..IndexOf(s[1..], c)] == s[1..IndexOf(s[1..], c) + 1];
      1 + IndexOf(s[1..], c)
  }

  function Split(s: string): (parts: seq<string>)
    ensures parts != []
    decreases |s|
  {
    if ':' !in s then [s] else [s[..IndexOf(s, ':')]] + Split(s[IndexOf(s, ':') + 1..])
  }

  predicate DelimiterFree(parts: seq<string>) { forall i :: 0 <= i < |parts| ==> ':' !in parts[i] }

  /** Of two splits of one text at the same character, the longer head contains that character. */
  lemma LongerHeadHolds(a: string, x: string, b: string, y: string, c: char)
    requires a + [c] + x == b + [c] + y
    ensures |b| < |a| ==> c in a && c in y
  {
    if |b| < |a| {
      assert (a + [c] + x)[|b|] == a[|b|];
      assert (b + [c] + y)[|b|] == c;
      assert (b + [c] + y)[|a|] == y[|a| - |b| - 1];
      assert (a + [c] + x)[|a|] == c;
    }
  }

  /** The first delimiter of `head:rest` is the one after a delimiter-free head. */
  lemma SplitFirst(head: string, rest: string)
    requires ':' !in head
    ensures Split(head + ":" + rest) == [head] + Split(rest)
  {
    var s := head + ":" + rest;
    assert s[|head|] == ':';
    var i := IndexOf(s, ':');
    assert s == s[..i] + ":" + s[i + 1..];
    LongerHeadHolds(head, rest, s[..i], s[i + 1..], ':');
    LongerHeadHolds(s[..i], s[i + 1..], head, rest, ':');
    assert s[..i] == head && s[i + 1..] == rest;
  }

  lemma {:induction false} SplitJoin(parts: seq<string>)
    requires parts != [] && DelimiterFree(parts)
    ensures Split(Join(parts)) == parts
  {
    if |parts| > 1 {
      SplitFirst(parts[0], Join(parts[1..]));
      SplitJoin(parts[1..]);
    }
  }

  lemma SplitEmpty()
    ensures Split("") == [""]
  {
  }

  // ----- state keys, `address:seqNo` -----

  function CreateStateKey(r: Ref): string { Join([r.address, PrintInt(r.seqNo)]) }

  /** parse_state_key and the `int` its callers apply to the second part. */
  function ParseStateKey(key: string): Option<Ref> {
    var parts := Split(key);
    if |parts| != 2 then None
    else match ParseInt(parts[1])
      case None => None
      case Some(n) => Some(Ref(parts[0], n))
  }

  lemma StateKeyRoundTrip(r: Ref)
    requires ':' !in r.address
    ensures ParseStateKey(CreateStateKey(r)) == Some(r)
  {
    SplitJoin([r.address, PrintInt(r.seqNo)]);
    ParsePrintInt(r.seqNo);
  }

  /** Scanning the trie by an address finds that address's keys and no others. */
  lemma PrefixFindsAddress(address: string, r: Ref)
    requires address <= r.address ==> address == r.address  // no address is a prefix of another
    requires ':' !in address && ':' !in r.address
    ensures address <= CreateStateKey(r) <==> r.address == address
  {
    var key := CreateStateKey(r);
    assert [r.address, PrintInt(r.seqNo)][1..] == [PrintInt(r.seqNo)];
    assert Join([PrintInt(r.seqNo)]) == PrintInt(r.seqNo);
    assert key == r.address + ":" + PrintInt(r.seqNo);
    assert key[|r.address|] == ':';
    assert address <= key ==> forall i :: 0 <= i < |address| ==> address[i] == key[i];
    assert r.address <= key;
  }

  // ----- slots of the charged-fees table, `txnType#seqNo` -----

  function SlotKey(txnType: string, seqNo: int): string { txnType + "#" + PrintInt(seqNo) }

  /** The table keys a (type, seqNo) pair by text without losing anything, whatever the type's name is. */
  lemma {:induction false} SlotKeyInjective(t: string, m: int, u: string, n: int)
    requires SlotKey(t, m) == SlotKey(u, n)
    ensures t == u && m == n
  {
    var s := SlotKey(t, m);
    LongerHeadHolds(t, PrintInt(m), u, PrintInt(n), '#');
    LongerHeadHolds(u, PrintInt(n), t, PrintInt(m), '#');
    assert t == s[..|t|] == u;
    assert PrintInt(m) == s[|t| + 1..] == PrintInt(n);
    PrintIntInjective(m, n);
  }
}
