/**
  The audit chain's walk and the window a bundle is cut from it: one entry at a time or over a whole
  slice, held to its links and to every anchor recorded over it, and then a second read of a store that
  may have grown meanwhile.
*/
module Bundle {
  import opened Options
  import opened Chain
  import opened Anchors

  const MAX_BUNDLE_ENTRIES := 25000

  datatype Walk = Walk(ok: bool, brokeAt: nat, brokeSeq: int, count: nat)

  /** What a walk of these entries from genesis must report. */
  ghost predicate Reports(entries: seq<Option<Entry>>, w: Walk) {
    && FirstBreak(entries, true, w.brokeAt) && w.ok == (w.brokeAt == 0) && w.count == |entries|
    && w.brokeSeq == BrokeSeq(entries, w.brokeAt)
  }

  /** The sequence an entry that broke the chain carries, zero when none broke it or none is there to carry one. */
  function BrokeSeq(entries: seq<Option<Entry>>, at: nat): int {
    if 0 < at <= |entries| && entries[at - 1].Some? then entries[at - 1].value.seq_ else 0
  }

  /** The walk over a slice in memory. */
  method WalkChain(entries: seq<Option<Entry>>) returns (w: Walk)
    ensures Reports(entries, w)
  {
    var ok, at := Verify(entries);
    w := Walk(ok, at, 0, |entries|);
    if !ok && 1 <= at <= |entries| && entries[at - 1].Some? {
      w := w.(brokeSeq := entries[at - 1].value.seq_);
    }
  }

  /**
    The walk over a scan, holding nothing but the two scanners: the break in the links, the newest
    sequence it saw, and whether every anchor is reached.
  */
  method StreamChainWalk(entries: seq<Option<Entry>>, recorded: seq<Anchor>, names: Names)
    returns (w: Walk, highest: int, reached: bool)
    ensures Reports(entries, w)
    ensures highest == Newest(entries, |entries|)
    ensures reached <==> AllReached(Present(entries, |entries|), names, recorded)
  {
    var links := new ChainScanner(true);
    var anchors := new AnchorScanner(recorded, names);
    var brokeSeq := 0;
    highest := 0;
    for i := 0 to |entries|
      invariant fresh(links) && fresh(anchors.Parts())
      invariant anchors.anchors == recorded && anchors.names == names
      invariant Scanned(links, anchors, entries, i, highest, brokeSeq)
    {
      highest, brokeSeq := Visit(links, anchors, entries, i, highest, brokeSeq);
    }
    assert entries[..|entries|] == entries;
    w := Walk(links.brokeAt == 0, links.brokeAt, brokeSeq, links.count);
    reached := anchors.Results();
  }

  /** Both scanners have been fed the first i entries, and these are the newest sequence and the broken one. */
  ghost predicate Scanned(links: ChainScanner, anchors: AnchorScanner, entries: seq<Option<Entry>>, i: nat, highest: int, brokeSeq: int)
    requires i <= |entries|
    reads links, anchors.Parts()
  {
    && links.Valid() && links.fromGenesis && links.fed == entries[..i]
    && anchors.Valid() && anchors.seen == Present(entries, i)
    && highest == Newest(entries, i) && brokeSeq == BrokeSeq(entries, links.brokeAt)
  }

  lemma OneMore(entries: seq<Option<Entry>>, i: nat)
    requires i < |entries|
    ensures entries[..i + 1] == entries[..i] + [entries[i]]
    ensures Newest(entries, i + 1) == if entries[i].Some? then entries[i].value.seq_ else Newest(entries, i)
    ensures Present(entries, i + 1) == if entries[i].Some? then Present(entries, i) + [entries[i].value] else Present(entries, i)
  {
  }

  /** One entry past both scanners; one that is not there proves nothing of an anchor and carries no sequence. */
  method Visit(links: ChainScanner, anchors: AnchorScanner, entries: seq<Option<Entry>>, i: nat, highest: int, brokeSeq: int)
    returns (newest: int, broke: int)
    requires i < |entries| && Scanned(links, anchors, entries, i, highest, brokeSeq)
    modifies links, anchors.Parts()
    ensures Scanned(links, anchors, entries, i + 1, newest, broke)
  {
    OneMore(entries, i);
    newest, broke := highest, brokeSeq;
    links.Feed(entries[i]);
    if entries[i].Some? {
      anchors.Feed(entries[i].value);
      newest := entries[i].value.seq_;
      if links.brokeAt != 0 && links.brokeAt == links.count {
        broke := entries[i].value.seq_;
      }
    }
  }

  /** What a report says: a break where the first unsound entry is, with the sequence that entry carries if it is there to carry one. */
  lemma ReportTells(entries: seq<Option<Entry>>, w: Walk)
    requires Reports(entries, w)
    ensures w.ok <==> Intact(entries)
    ensures w.count == |entries| && (w.ok ==> w.brokeAt == 0 && w.brokeSeq == 0)
    ensures !w.ok ==>
              && 1 <= w.brokeAt <= |entries| && !Sound(entries, true, w.brokeAt - 1)
              && (forall i :: 0 <= i < w.brokeAt - 1 ==> Sound(entries, true, i))
              && w.brokeSeq == match entries[w.brokeAt - 1] case Some(e) => e.seq_ case None => 0
  {
  }

  /** The streaming walk reports the same break as the whole-slice walk. */
  lemma WalksAgree(entries: seq<Option<Entry>>, slice: Walk, stream: Walk)
    requires Reports(entries, slice) && Reports(entries, stream)
    ensures slice == stream
  {
    FirstBreakUnique(entries, true, slice.brokeAt, stream.brokeAt);
  }

  // ---------------------------------------------------------------------------------------------
  // The window
  // ---------------------------------------------------------------------------------------------

  datatype Ask = Ask(limit: int, from: int, to: int)

  /** A window the flags could serve. */
  predicate Servable(a: Ask) {
    && 0 <= a.limit <= MAX_BUNDLE_ENTRIES
    && ((a.from == 0 && a.to == 0) || (a.limit == 0 && 1 <= a.from <= a.to && a.to - a.from + 1 <= MAX_BUNDLE_ENTRIES))
  }

  /** Refuses what no chain could serve: a count out of bounds, two kinds of window at once, a range that is empty, reversed or too long. */
  function CheckBundleWindow(a: Ask): (ok: bool)
    ensures ok <==> Servable(a)
  {
    if a.limit < 0 then false
    else if a.limit > MAX_BUNDLE_ENTRIES then false
    else if a.from == 0 && a.to == 0 then true
    else if a.limit > 0 then false
    else if a.from < 1 || a.to < 1 then false
    else if a.from > a.to then false
    else a.to - a.from + 1 <= MAX_BUNDLE_ENTRIES
  }

  /** Every bounded count and every bounded range may be asked for. */
  lemma WindowsAsked(limit: int, from: int, to: int)
    ensures 0 <= limit <= 25000 ==> CheckBundleWindow(Ask(limit, 0, 0))
    ensures 1 <= from <= to < from + 25000 ==> CheckBundleWindow(Ask(0, from, to))
    ensures CheckBundleWindow(Ask(limit, from, to)) && (from != 0 || to != 0) ==> limit == 0 && 1 <= from <= to < from + 25000
    ensures CheckBundleWindow(Ask(limit, from, to)) ==> 0 <= limit <= 25000
  {
  }

  /** The entries after the first sequence and through the last. */
  datatype Span = Span(after: int, last: int)

  /** bundleSlice; none is a refusal. */
  function BundleSlice(count: int, highest: int, a: Ask): Option<Span> {
    if a.from != 0 then if a.to > highest then None else Some(Span(a.from - 1, a.to))
    else if a.limit == 0 && count > MAX_BUNDLE_ENTRIES then None
    else Some(Span(highest - (if a.limit == 0 || a.limit > count then count else a.limit), highest))
  }

  /** The asked-for entries of a chain of n: a named range, the newest few, or all. */
  ghost predicate Asked(a: Ask, n: int, sequence: int) {
    if a.from != 0 then a.from <= sequence <= a.to
    else 1 <= sequence <= n && (a.limit != 0 ==> sequence > n - a.limit)
  }

  /**
    Over an intact chain the cut is exact: it lies in the walked chain, holds exactly the asked-for
    sequences, fits the ceiling, and is refused only when it could not be served whole.
  */
  lemma SliceExact(entries: seq<Option<Entry>>, a: Ask)
    requires Intact(entries) && Servable(a)
    ensures var cut := BundleSlice(|entries|, Newest(entries, |entries|), a);
            && (cut.None? <==> if a.from != 0 then a.to > |entries| else a.limit == 0 && |entries| > MAX_BUNDLE_ENTRIES)
            && (cut.Some? ==>
                  && 0 <= cut.value.after <= cut.value.last <= |entries|
                  && cut.value.last - cut.value.after <= MAX_BUNDLE_ENTRIES
                  && (forall x: int :: cut.value.after < x <= cut.value.last <==> Asked(a, |entries|, x)))
  {
    if |entries| > 0 { NumberedFromOne(entries, |entries| - 1); }
  }

  /** A store that grew after the walk: what was walked, then entries numbered past it. */
  ghost predicate Grew(walked: seq<Option<Entry>>, store: seq<Option<Entry>>) {
    && |walked| <= |store|
    && (forall i :: 0 <= i < |walked| ==> store[i] == walked[i])
    && (forall i :: |walked| <= i < |store| ==> store[i].Some? && store[i].value.seq_ > |walked|)
  }

  /**
    scanWindow over a store that grew meanwhile: exactly the walked entries of the span, in order, and
    nothing appended since.
  */
  method ScanWindow(store: seq<Option<Entry>>, after: int, last: int, ghost walked: seq<Option<Entry>>)
    returns (window: seq<Option<Entry>>)
    requires Intact(walked) && Grew(walked, store) && 0 <= after <= last <= |walked|
    ensures window == walked[after..last]
  {
    window := [];
    var i := 0;
    while i < |store|
      invariant 0 <= i <= |store|
      invariant i <= last || window == walked[after..last]
      invariant i <= last ==> window == if i <= after then [] else walked[after..i]
    {
      var e := store[i];
      if i < |walked| { NumberedFromOne(walked, i); }
      if e.Some? && e.value.seq_ > after {
        if e.value.seq_ > last {
          break;
        }
        window := window + [e];
      }
      i := i + 1;
    }
  }

  /** The span a window covers is the asked one, and the window is that span of what was walked. */
  ghost predicate Carries(walked: seq<Option<Entry>>, a: Ask, span: Span, window: seq<Option<Entry>>) {
    && 0 <= span.after <= span.last <= |walked| && window == walked[span.after..span.last]
    && forall x: int :: span.after < x <= span.last <==> Asked(a, |walked|, x)
  }

  /**
    The whole command: walk what the store holds, refuse or cut, then read the store as it has become.
    A window comes back exactly when the chain is intact, holds something, reaches every anchor, and the
    asked entries can be served whole.
  */
  method CutBundle(walked: seq<Option<Entry>>, store: seq<Option<Entry>>, recorded: seq<Anchor>, names: Names, a: Ask)
    returns (window: Option<seq<Option<Entry>>>, ghost span: Span)
    requires Grew(walked, store)
    ensures window.Some? <==> |walked| > 0 && Intact(walked) && AllReached(Present(walked, |walked|), names, recorded) && Servable(a)
                              && if a.from != 0 then a.to <= |walked| else a.limit != 0 || |walked| <= MAX_BUNDLE_ENTRIES
    ensures window.Some? ==> Carries(walked, a, span, window.value) && |window.value| <= MAX_BUNDLE_ENTRIES
  {
    span := Span(0, 0);
    if !CheckBundleWindow(a) {
      return None, span;
    }
    var walk, highest, reached := StreamChainWalk(walked, recorded, names);
    if walk.count == 0 || !walk.ok {
      if walk.brokeAt > 0 { assert !Sound(walked, true, walk.brokeAt - 1); }
      return None, span;
    }
    if !reached {
      return None, span;
    }
    SliceExact(walked, a);
    var cut := BundleSlice(walk.count, highest, a);
    if cut.None? {
      return None, span;
    }
    span := cut.value;
    var entries := ScanWindow(store, cut.value.after, cut.value.last, walked);
    window := Some(entries);
  }
}
