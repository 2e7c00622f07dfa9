/** The token state, and plenum's optimistic key-value store as its users see it:
    committed values, a queue of uncommitted batches, and the batch being built.
    plenum is not part of this repository; these are its assumed interfaces. */
module Stores {
  import opened Types

  /** What the token state keeps under an output's key: an amount, or the empty
      value that the 1.0.0 transfer handler leaves behind. */
  datatype StateValue = Tombstone | Amount(amount: int)

  /** The token state. Its root hash is taken to be the contents it names. */
  type State = map<Ref, StateValue>

  /** The decoded UTXO cache: for each address its unspent entries. */
  type Index = map<string, seq<Entry>>

  datatype Batch<V> = Batch(id: State, ops: map<string, V>)

  datatype Store<V> = Store(base: map<string, V>, pending: seq<Batch<V>>, ops: map<string, V>)

  function Overlay<V>(base: map<string, V>, pending: seq<Batch<V>>): map<string, V> {
    if pending == [] then base
    else Overlay(base, pending[..|pending| - 1]) + pending[|pending| - 1].ops
  }

  /** What a read sees: committed values only, or the newest value of any layer. */
  function View<V>(s: Store<V>, committed: bool): map<string, V> {
    if committed then s.base else Overlay(s.base, s.pending) + s.ops
  }

  function Write<V>(s: Store<V>, writes: map<string, V>, committed: bool): Store<V> {
    if committed then s.(base := s.base + writes) else s.(ops := s.ops + writes)
  }

  function CreateBatch<V>(s: Store<V>, id: State): Store<V> {
    s.(pending := s.pending + [Batch(id, s.ops)], ops := map[])
  }

  function RejectBatch<V>(s: Store<V>): Store<V>
    requires s.pending != []
  {
    s.(pending := s.pending[..|s.pending| - 1])
  }

  function CommitBatch<V>(s: Store<V>): Store<V>
    requires s.pending != []
  {
    s.(base := s.base + s.pending[0].ops, pending := s.pending[1..])
  }

  lemma ViewOfWrite<V>(s: Store<V>, writes: map<string, V>, committed: bool)
    ensures View(Write(s, writes, committed), committed) == View(s, committed) + writes
  {
    if !committed {
      var below := Overlay(s.base, s.pending);
      assert below + (s.ops + writes) == (below + s.ops) + writes;
    }
  }

  lemma WriteTwice<V>(s: Store<V>, w: map<string, V>, x: map<string, V>, committed: bool)
    ensures Write(Write(s, w, committed), x, committed) == Write(s, w + x, committed)
  {
    assert (s.base + w) + x == s.base + (w + x);
    assert (s.ops + w) + x == s.ops + (w + x);
  }

  /** Closing a batch hides nothing from readers. */
  lemma CreateBatchKeepsView<V>(s: Store<V>, id: State)
    ensures View(CreateBatch(s, id), false) == View(s, false)
    ensures s.ops == map[] ==> RejectBatch(CreateBatch(s, id)) == s
  {
    var t := CreateBatch(s, id);
    assert t.pending[..|t.pending| - 1] == s.pending;
    assert View(t, false) == View(s, false) + map[];
  }

  /** Committing the oldest batch moves it below the others without changing what readers see. */
  lemma {:induction false} OverlayCommit<V>(base: map<string, V>, pending: seq<Batch<V>>)
    requires pending != []
    ensures Overlay(base + pending[0].ops, pending[1..]) == Overlay(base, pending)
  {
    var n := |pending|;
    if n > 1 {
      assert pending[..n - 1][1..] == pending[1..][..n - 2];
      OverlayCommit(base, pending[..n - 1]);
    }
  }
}
