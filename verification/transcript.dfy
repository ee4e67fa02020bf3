/** Extraction of the plain transcript from a completed recognition order.

    The order result arrives as JSON text whose `lattice` list holds one entry per
    time segment; each entry's `json_1best` is itself JSON text decoding to
    `{st: {rt: [{ws: [{cw: [{w: ...}, ...]}, ...]}, ...]}}`. The model works on the
    already-decoded tree: JSON decoding and the key lookups it implies are left out,
    the two list indexings (`rt[0]` and `cw[0]`) are kept, with the IndexError they
    raise on an empty list. */
module Transcript {
  import opened Common

  /** One recognition candidate of a word slot (`{w: ...}`). */
  datatype Candidate = Candidate(w: string)

  /** One word slot: its ranked candidates, best first (`{cw: [...]}`). */
  datatype WordSlot = WordSlot(cw: seq<Candidate>)

  /** One recognition path of a segment: its word slots (`{ws: [...]}`). */
  datatype Path = Path(ws: seq<WordSlot>)

  /** One decoded lattice entry (`json_1best.st`): its recognition paths (`rt`). */
  datatype Segment = Segment(rt: seq<Path>)

  /** The decoded order result: the lattice segments in document order. */
  datatype OrderResult = OrderResult(lattice: seq<Segment>)

  /** Where the extraction raised IndexError: an empty `rt` list in a segment, or
      an empty `cw` list in a word slot of that segment's first path. */
  datatype ExtractError = NoPath(segment: nat) | NoCandidate(segment: nat, slot: nat)

  predicate SlotOk(slot: WordSlot) {
    |slot.cw| > 0
  }

  predicate AllSlotsOk(ws: seq<WordSlot>) {
    forall k :: 0 <= k < |ws| ==> SlotOk(ws[k])
  }

  predicate SegmentOk(seg: Segment) {
    |seg.rt| > 0 && AllSlotsOk(seg.rt[0].ws)
  }

  predicate AllSegmentsOk(segs: seq<Segment>) {
    forall i :: 0 <= i < |segs| ==> SegmentOk(segs[i])
  }

  /** Every index the extraction performs succeeds. */
  predicate WellFormed(o: OrderResult) {
    AllSegmentsOk(o.lattice)
  }

  // ---------------------------------------------------------------------------
  // Reference definition: the first candidate of every slot, in document order.

  function TopWords(ws: seq<WordSlot>): seq<string>
    requires AllSlotsOk(ws)
  {
    if ws == [] then [] else [ws[0].cw[0].w] + TopWords(ws[1..])
  }

  function LatticeWords(segs: seq<Segment>): seq<string>
    requires AllSegmentsOk(segs)
  {
    if segs == [] then [] else TopWords(segs[0].rt[0].ws) + LatticeWords(segs[1..])
  }

  /** `"".join(parts)`. */
  function Join(parts: seq<string>): string {
    if parts == [] then "" else parts[0] + Join(parts[1..])
  }

  /** The transcript a well-formed order result stands for. */
  function Sentence(o: OrderResult): string
    requires WellFormed(o)
  {
    Join(LatticeWords(o.lattice))
  }

  /** `e` names the first place, in document order, where an index fails. */
  predicate IsFirstError(segs: seq<Segment>, e: ExtractError) {
    && e.segment < |segs|
    && AllSegmentsOk(segs[..e.segment])
    && match e
       case NoPath(i) => |segs[i].rt| == 0
       case NoCandidate(i, j) =>
         && |segs[i].rt| > 0
         && j < |segs[i].rt[0].ws|
         && !SlotOk(segs[i].rt[0].ws[j])
         && AllSlotsOk(segs[i].rt[0].ws[..j])
  }

  // ---------------------------------------------------------------------------
  // The two nested loops of `_result2sentence`, as folds that carry `sentence_list`.

  /** Inner loop: appends `cw[0].w` of every slot from `j` on to `acc`. */
  function CollectWords(ws: seq<WordSlot>, seg: nat, j: nat, acc: seq<string>)
    : (r: Result<seq<string>, ExtractError>)
    requires j <= |ws|
    ensures r.Success? <==> AllSlotsOk(ws[j..])
    ensures r.Success? ==> r.value == acc + TopWords(ws[j..])
    ensures r.Failure? ==>
              && r.error.NoCandidate? && r.error.segment == seg
              && j <= r.error.slot < |ws|
              && !SlotOk(ws[r.error.slot])
              && AllSlotsOk(Slice(ws, j, r.error.slot))
    decreases |ws| - j
  {
    if j == |ws| then
      Success(acc)
    else if |ws[j].cw| == 0 then
      Failure(NoCandidate(seg, j))
    else
      var r := CollectWords(ws, seg, j + 1, acc + [ws[j].cw[0].w]);
      assert ws[j..][0] == ws[j] && ws[j..][1..] == ws[j + 1..];
      assert r.Failure? ==> ws[j..r.error.slot] == [ws[j]] + ws[j + 1..r.error.slot];
      r
  }

  /** Outer loop: visits the segments from `i` on, reading only `rt[0]` of each. */
  function CollectSegments(segs: seq<Segment>, i: nat, acc: seq<string>)
    : (r: Result<seq<string>, ExtractError>)
    requires i <= |segs|
    requires AllSegmentsOk(segs[..i])
    ensures r.Success? <==> AllSegmentsOk(segs)
    ensures r.Success? ==> r.value == acc + LatticeWords(segs[i..])
    ensures r.Failure? ==> i <= r.error.segment && IsFirstError(segs, r.error)
    decreases |segs| - i
  {
    if i == |segs| then
      assert segs[..i] == segs;
      Success(acc)
    else if |segs[i].rt| == 0 then
      assert segs[..i + 1][..i] == segs[..i];
      Failure(NoPath(i))
    else
      match CollectWords(segs[i].rt[0].ws, i, 0, acc)
      case Failure(e) =>
        assert segs[i].rt[0].ws[0..] == segs[i].rt[0].ws;
        Failure(e)
      case Success(acc') =>
        assert segs[i].rt[0].ws[0..] == segs[i].rt[0].ws;
        assert segs[..i + 1] == segs[..i] + [segs[i]];
        var r := CollectSegments(segs, i + 1, acc');
        assert segs[i..][0] == segs[i] && segs[i..][1..] == segs[i + 1..];
        r
  }

  /** `_result2sentence`: the transcript, or the IndexError it raises. */
  function Result2Sentence(o: OrderResult): (r: Result<string, ExtractError>)
    ensures r.Success? <==> WellFormed(o)
    ensures r.Success? ==> r.value == Sentence(o)
    ensures r.Failure? ==> IsFirstError(o.lattice, r.error)
  {
    assert o.lattice[..0] == [] && o.lattice[0..] == o.lattice;
    match CollectSegments(o.lattice, 0, [])
    case Success(words) =>
      assert words == LatticeWords(o.lattice);
      Success(Join(words))
    case Failure(e) => Failure(e)
  }

  // ---------------------------------------------------------------------------
  // Properties.

  /** No segments, no words: the transcript is the empty string. */
  lemma EmptyLatticeIsEmptySentence()
    ensures Result2Sentence(OrderResult([])) == Success("")
  {
  }

  lemma {:induction false} JoinAppend(a: seq<string>, b: seq<string>)
    ensures Join(a + b) == Join(a) + Join(b)
    decreases |a|
  {
    if a == [] {
      assert a + b == b;
    } else {
      assert (a + b)[0] == a[0] && (a + b)[1..] == a[1..] + b;
      JoinAppend(a[1..], b);
    }
  }

  lemma {:induction false} LatticeWordsAppend(a: seq<Segment>, b: seq<Segment>)
    requires AllSegmentsOk(a) && AllSegmentsOk(b)
    ensures AllSegmentsOk(a + b)
    ensures LatticeWords(a + b) == LatticeWords(a) + LatticeWords(b)
    decreases |a|
  {
    assert forall i :: 0 <= i < |a + b| ==> (a + b)[i] == if i < |a| then a[i] else b[i - |a|];
    if a == [] {
      assert a + b == b;
    } else {
      assert (a + b)[0] == a[0] && (a + b)[1..] == a[1..] + b;
      LatticeWordsAppend(a[1..], b);
    }
  }

  /** The transcript of two lattices placed one after the other is the first
      transcript followed by the second: segments are read in document order. */
  lemma SentenceOfConcatenation(a: OrderResult, b: OrderResult)
    requires WellFormed(a) && WellFormed(b)
    ensures Result2Sentence(OrderResult(a.lattice + b.lattice))
            == Success(Sentence(a) + Sentence(b))
  {
    LatticeWordsAppend(a.lattice, b.lattice);
    JoinAppend(LatticeWords(a.lattice), LatticeWords(b.lattice));
  }

  /** Two word slots that agree on whether they have a candidate and on the first one. */
  predicate SameTopSlot(a: WordSlot, b: WordSlot) {
    && (|a.cw| > 0 <==> |b.cw| > 0)
    && (|a.cw| > 0 ==> a.cw[0] == b.cw[0])
  }

  predicate SameTopSlots(a: seq<WordSlot>, b: seq<WordSlot>) {
    |a| == |b| && forall k :: 0 <= k < |a| ==> SameTopSlot(a[k], b[k])
  }

  /** Two segments that agree on whether they have a path and on the first path's
      slots up to later candidates; later paths are unconstrained. */
  predicate SameTopSegment(a: Segment, b: Segment) {
    && (|a.rt| > 0 <==> |b.rt| > 0)
    && (|a.rt| > 0 ==> SameTopSlots(a.rt[0].ws, b.rt[0].ws))
  }

  predicate SameTop(a: OrderResult, b: OrderResult) {
    && |a.lattice| == |b.lattice|
    && forall i :: 0 <= i < |a.lattice| ==> SameTopSegment(a.lattice[i], b.lattice[i])
  }

  lemma {:induction false} CollectWordsReadsTopOnly(
    a: seq<WordSlot>, b: seq<WordSlot>, seg: nat, j: nat, acc: seq<string>)
    requires j <= |a| && SameTopSlots(a, b)
    ensures CollectWords(a, seg, j, acc) == CollectWords(b, seg, j, acc)
    decreases |a| - j
  {
    if j < |a| {
      assert SameTopSlot(a[j], b[j]);
      if |a[j].cw| > 0 {
        CollectWordsReadsTopOnly(a, b, seg, j + 1, acc + [a[j].cw[0].w]);
      }
    }
  }

  lemma {:induction false} CollectSegmentsReadsTopOnly(
    a: seq<Segment>, b: seq<Segment>, i: nat, acc: seq<string>)
    requires i <= |a| && |a| == |b|
    requires forall k :: 0 <= k < |a| ==> SameTopSegment(a[k], b[k])
    requires AllSegmentsOk(a[..i]) && AllSegmentsOk(b[..i])
    ensures CollectSegments(a, i, acc) == CollectSegments(b, i, acc)
    decreases |a| - i
  {
    if i < |a| {
      assert SameTopSegment(a[i], b[i]);
      if |a[i].rt| > 0 {
        CollectWordsReadsTopOnly(a[i].rt[0].ws, b[i].rt[0].ws, i, 0, acc);
        match CollectWords(a[i].rt[0].ws, i, 0, acc)
        case Failure(_) =>
        case Success(acc') =>
          assert a[i].rt[0].ws[0..] == a[i].rt[0].ws;
          assert b[i].rt[0].ws[0..] == b[i].rt[0].ws;
          assert a[..i + 1] == a[..i] + [a[i]];
          assert b[..i + 1] == b[..i] + [b[i]];
          CollectSegmentsReadsTopOnly(a, b, i + 1, acc');
      }
    }
  }

  /** Only `rt[0]` of a segment and only `cw[0]` of a word slot are read: changing
      any later path or any later candidate leaves the outcome unchanged. */
  lemma ReadsOnlyTopCandidates(a: OrderResult, b: OrderResult)
    requires SameTop(a, b)
    ensures Result2Sentence(a) == Result2Sentence(b)
  {
    assert a.lattice[..0] == [] && b.lattice[..0] == [];
    CollectSegmentsReadsTopOnly(a.lattice, b.lattice, 0, []);
  }

  /** One segment whose best path has two word slots, the first with two
      candidates: the second candidate is ignored and the words are joined without
      a separator. */
  lemma TwoWordExample()
    ensures Result2Sentence(OrderResult([
              Segment([Path([WordSlot([Candidate("你"), Candidate("您")]),
                             WordSlot([Candidate("好")])])])]))
            == Success("你好")
  {
    var ws := [WordSlot([Candidate("你"), Candidate("您")]), WordSlot([Candidate("好")])];
    var segs := [Segment([Path(ws)])];
    assert TopWords(ws) == ["你", "好"] by {
      assert ws[1..][1..] == [];
    }
    assert LatticeWords(segs) == ["你", "好"] by {
      assert segs[1..] == [];
    }
    assert Join(["你", "好"]) == "你好" by {
      assert ["你", "好"][1..][1..] == [];
    }
  }
}
