/** The correspondence between pending batches, tracker entries and cache batches. */
module Alignment {
  import opened Types
  import opened Stores
  import opened TokenLedger
  import opened Replay
  import opened Protocol
  import Invariant

  /** The tracker entry of a node whose whole token ledger is `l`. */
  function EntryOf(l: seq<TokenTxn>): TrackEntry { TrackEntry(Replayed(l).state, l, |l|) }

  /** Token batches always make a cache batch, domain batches only when they charged fees. */
  predicate MakesCacheBatch(b: BatchRec) { b.TokenBatch? || b.appended != [] }

  /** A pending batch, applied over the ledger `before`. */
  ghost predicate Fits(b: BatchRec, before: seq<TokenTxn>) {
    && |b.due| == |b.appended|
    && match b
       case DomainBatch(txns, appended, _) => Invariant.PaysFor(appended, txns)
       case TokenBatch(appended, _, prevRoot, stateRoot, txnRoot) =>
         prevRoot == Replayed(before).state && stateRoot == Replayed(before + appended).state && txnRoot == before + appended
       case CaughtUp(_, _, _) => false
  }

  /** A cache batch carries the root after its batch and turns the index before it into the one after. */
  ghost predicate LayerFits(layer: Batch<seq<Entry>>, before: seq<TokenTxn>, after: seq<TokenTxn>) {
    layer.id == Replayed(after).state && Replayed(before).index + layer.ops == Replayed(after).index
  }

  /** Over the committed ledger `l`: one tracker entry for each pending batch, naming the books
      after it, and one cache batch for each that makes one, in the same order. */
  ghost predicate Aligned(l: seq<TokenTxn>, h: seq<BatchRec>, queue: seq<TrackEntry>, layers: seq<Batch<seq<Entry>>>) {
    if h == [] then queue == [] && layers == []
    else
      var b, init := h[|h| - 1], h[..|h| - 1];
      var before := l + Appended(init);
      && queue != [] && queue[|queue| - 1] == EntryOf(before + b.appended) && Fits(b, before)
      && if MakesCacheBatch(b) then
           layers != [] && LayerFits(layers[|layers| - 1], before, before + b.appended)
           && Aligned(l, init, queue[..|queue| - 1], layers[..|layers| - 1])
         else Aligned(l, init, queue[..|queue| - 1], layers)
  }

  // ----- sequences of batches -----

  lemma HistorySnoc(h: seq<BatchRec>, b: BatchRec)
    ensures Appended(h + [b]) == Appended(h) + b.appended
    ensures Dues(h + [b]) == Dues(h) + b.due
    ensures DomainTxns(h + [b]) == DomainTxns(h) + TxnsOf(b)
  {
    assert (h + [b])[..|h|] == h;
  }

  lemma {:induction false} AppendedFirst(h: seq<BatchRec>)
    requires h != []
    ensures Appended(h) == h[0].appended + Appended(h[1..])
  {
    if |h| == 1 {
      assert h[..0] == [] && Appended(h) == [] + h[0].appended;
    } else {
      var init := h[..|h| - 1];
      AppendedFirst(init);
      assert h[1..][..|h| - 2] == init[1..];
    }
  }

  lemma {:induction false} AlignedLength(l: seq<TokenTxn>, h: seq<BatchRec>, queue: seq<TrackEntry>, layers: seq<Batch<seq<Entry>>>)
    requires Aligned(l, h, queue, layers)
    ensures |queue| == |h|
  {
    if h != [] {
      var init := h[..|h| - 1];
      if MakesCacheBatch(h[|h| - 1]) {
        AlignedLength(l, init, queue[..|queue| - 1], layers[..|layers| - 1]);
      } else {
        AlignedLength(l, init, queue[..|queue| - 1], layers);
      }
    }
  }

  /** The cache batches stacked on the committed index give the uncommitted one. */
  lemma {:induction false} AlignedView(l: seq<TokenTxn>, h: seq<BatchRec>, queue: seq<TrackEntry>, layers: seq<Batch<seq<Entry>>>)
    requires Aligned(l, h, queue, layers)
    ensures Overlay(Replayed(l).index, layers) == Replayed(l + Appended(h)).index
  {
    hide Replayed, Fits, EntryOf;
    if h == [] {
      assert l + [] == l;
    } else {
      var b, init := h[|h| - 1], h[..|h| - 1];
      assert l + Appended(h) == l + Appended(init) + b.appended;
      if MakesCacheBatch(b) {
        AlignedView(l, init, queue[..|queue| - 1], layers[..|layers| - 1]);
      } else {
        AlignedView(l, init, queue[..|queue| - 1], layers);
        assert l + Appended(init) + [] == l + Appended(init);
      }
    }
  }

  lemma AlignedSnoc(l: seq<TokenTxn>, h: seq<BatchRec>, queue: seq<TrackEntry>, layers: seq<Batch<seq<Entry>>>,
      b: BatchRec, more: seq<Batch<seq<Entry>>>)
    requires Aligned(l, h, queue, layers) && Fits(b, l + Appended(h))
    requires if MakesCacheBatch(b) then |more| == 1 && LayerFits(more[0], l + Appended(h), l + Appended(h) + b.appended)
             else more == []
    ensures Aligned(l, h + [b], queue + [EntryOf(l + Appended(h) + b.appended)], layers + more)
  {
    var queue', layers' := queue + [EntryOf(l + Appended(h) + b.appended)], layers + more;
    assert (h + [b])[..|h|] == h && queue'[..|queue|] == queue;
    if MakesCacheBatch(b) {
      assert layers'[..|layers|] == layers;
    } else {
      assert layers' == layers;
    }
  }

  /** The oldest batch: its entry heads the queue, its cache batch, if it makes one, heads the
      cache's, and what remains is aligned over the ledger extended by it. */
  ghost predicate OldestFits(l: seq<TokenTxn>, h: seq<BatchRec>, queue: seq<TrackEntry>, layers: seq<Batch<seq<Entry>>>)
    requires h != []
  {
    var next := l + h[0].appended;
    && queue != [] && queue[0] == EntryOf(next) && Fits(h[0], l)
    && if MakesCacheBatch(h[0]) then
         layers != [] && LayerFits(layers[0], l, next) && Aligned(next, h[1..], queue[1..], layers[1..])
       else Aligned(next, h[1..], queue[1..], layers)
  }

  lemma OldestOfOne(l: seq<TokenTxn>, h: seq<BatchRec>, queue: seq<TrackEntry>, layers: seq<Batch<seq<Entry>>>)
    requires Aligned(l, h, queue, layers) && |h| == 1
    ensures OldestFits(l, h, queue, layers)
  {
    AlignedLength(l, h, queue, layers);
    assert h[..0] == [] && h[1..] == [] && l + [] == l;
    assert queue[..0] == [] && queue[1..] == [];
  }

  lemma AlignedLast(l: seq<TokenTxn>, h: seq<BatchRec>, queue: seq<TrackEntry>, layers: seq<Batch<seq<Entry>>>)
    requires Aligned(l, h, queue, layers) && h != []
    ensures var b, before := h[|h| - 1], l + Appended(h[..|h| - 1]);
      && queue != [] && queue[|queue| - 1] == EntryOf(before + b.appended) && Fits(b, before)
      && (MakesCacheBatch(b) ==> layers != [] && LayerFits(layers[|layers| - 1], before, before + b.appended))
  {
  }

  /** One batch more at the new end keeps the oldest one's place. */
  lemma OldestStep(l: seq<TokenTxn>, h: seq<BatchRec>, queue: seq<TrackEntry>, layers: seq<Batch<seq<Entry>>>)
    requires Aligned(l, h, queue, layers) && |h| > 1 && |queue| == |h|
    requires MakesCacheBatch(h[|h| - 1]) ==> layers != []
    requires OldestFits(l, h[..|h| - 1], queue[..|queue| - 1],
                        if MakesCacheBatch(h[|h| - 1]) then layers[..|layers| - 1] else layers)
    ensures OldestFits(l, h, queue, layers)
  {
    hide Fits, LayerFits, EntryOf, Aligned, MakesCacheBatch, Appended;
    var b, init, q := h[|h| - 1], h[..|h| - 1], queue[..|queue| - 1];
    var next := l + h[0].appended;
    AlignedLast(l, h, queue, layers);
    AppendedFirst(init);
    assert l + Appended(init) == next + Appended(init[1..]);
    assert h[1..] == init[1..] + [b] && queue[1..] == q[1..] + [queue[|queue| - 1]];
    var below := if MakesCacheBatch(b) then layers[..|layers| - 1] else layers;
    var more := if MakesCacheBatch(b) then [layers[|layers| - 1]] else [];
    assert layers == below + more;
    var rest := if MakesCacheBatch(h[0]) then below[1..] else below;
    AlignedSnoc(next, init[1..], q[1..], rest, b, more);
    assert MakesCacheBatch(h[0]) ==> layers[1..] == rest + more;
  }

  lemma {:induction false} AlignedOldest(l: seq<TokenTxn>, h: seq<BatchRec>, queue: seq<TrackEntry>, layers: seq<Batch<seq<Entry>>>)
    requires Aligned(l, h, queue, layers) && h != []
    ensures OldestFits(l, h, queue, layers)
  {
    if |h| == 1 {
      OldestOfOne(l, h, queue, layers);
    } else {
      AlignedLength(l, h, queue, layers);
      var init, q := h[..|h| - 1], queue[..|queue| - 1];
      AlignedOldest(l, init, q, if MakesCacheBatch(h[|h| - 1]) then layers[..|layers| - 1] else layers);
      OldestStep(l, h, queue, layers);
    }
  }
}
