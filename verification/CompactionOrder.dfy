/** The order of a turn's results through one compaction after another. */
module CompactionOrder {
  import opened Sequences
  import opened Text
  import opened Messages
  import opened TurnUnits
  import opened Compaction
  import opened CompactionSize
  import opened CompactionShape
  import opened CompactionLoss

  // ----- Blocks of a compacted transcript -----

  /** Each message a unit of its own. */
  function Singles(ms: seq<Message>): (r: seq<seq<Message>>)
    ensures |r| == |ms| && forall i :: 0 <= i < |ms| ==> r[i] == [ms[i]]
  {
    seq(|ms|, i requires 0 <= i < |ms| => [ms[i]])
  }

  function LoneBlocks(ms: seq<Message>): (r: seq<Block>)
    ensures |r| == |ms| && forall i :: 0 <= i < |ms| ==> r[i] == Lone(ms[i])
  {
    seq(|ms|, i requires 0 <= i < |ms| => Lone(ms[i]))
  }

  lemma {:induction false} SinglesFlatten(ms: seq<Message>)
    ensures Flatten(Singles(ms)) == ms && AllMessages(LoneBlocks(ms)) == Singles(ms)
    decreases |ms|
  {
    if ms != [] {
      SinglesFlatten(ms[1..]);
      assert Singles(ms)[1..] == Singles(ms[1..]);
      assert ms == [ms[0]] + ms[1..];
    }
  }

  lemma {:induction false} BaseBlocksValid(ms: seq<Message>)
    ensures ValidBlocks(LoneBlocks(Base(ms))) && FlipAll(LoneBlocks(Base(ms))) == LoneBlocks(Base(ms))
  {
    var base := Base(ms);
    assert forall i :: 0 <= i < |base| ==> base[i].User? || base[i].System?;
  }

  lemma {:induction false} KeptAre(bs: seq<Block>, available: nat)
    requires ValidBlocks(bs)
    ensures var kept := Kept(Transcript(bs), available);
            |kept| <= |bs| && kept == AllMessages(FlipAll(bs)[..|kept|])
  {
    UnitsOfTranscript(bs);
    var kept := Kept(Transcript(bs), available);
    assert kept <= AllMessages(FlipAll(bs));
  }

  /** A compaction that keeps anything leaves the base and the oldest turns, the results inside
      each reversed. */
  lemma {:induction false} CarriedBlocks(bs: seq<Block>, available: nat)
    requires ValidBlocks(bs)
    ensures var ms := Transcript(bs);
            var k := |Kept(ms, available)|;
            && k <= |bs|
            && Carried(ms, available) == Transcript(LoneBlocks(Base(ms)) + FlipAll(bs)[..k])
  {
    var ms := Transcript(bs);
    var k := |Kept(ms, available)|;
    KeptAre(bs, available);
    SinglesFlatten(Base(ms));
    TranscriptConcat(LoneBlocks(Base(ms)), FlipAll(bs)[..k]);
  }

  lemma {:induction false} FlipPrefix(base: seq<Block>, bs: seq<Block>, k: nat)
    requires ValidBlocks(base) && FlipAll(base) == base && ValidBlocks(bs) && k <= |bs|
    ensures ValidBlocks(base + FlipAll(bs)[..k])
    ensures AllMessages(FlipAll(base + FlipAll(bs)[..k])) == AllMessages(base) + AllMessages(bs[..k])
  {
    FlipAllValid(bs);
    var all := base + FlipAll(bs)[..k];
    assert FlipAll(all) == base + bs[..k] by {
      forall i | 0 <= i < |all| ensures FlipAll(all)[i] == (base + bs[..k])[i] {
        if i >= |base| {
          assert all[i] == FlipAll(bs)[i - |base|];
          assert FlipAll(FlipAll(bs))[i - |base|] == bs[i - |base|];
        } else {
          assert all[i] == base[i] && FlipAll(base)[i] == base[i];
        }
      }
    }
  }

  /** The units of a compacted transcript are its base, message by message, and the turns that
      were kept with their results back in the original order. */
  lemma {:induction false} UnitsAfterCompaction(bs: seq<Block>, available: nat)
    requires ValidBlocks(bs) && KeepsOldest(Transcript(bs), available)
    ensures var ms := Transcript(bs);
            var k := |Kept(ms, available)|;
            k <= |bs| && Units(Compacted(ms, available)) == Singles(Base(ms)) + AllMessages(bs[..k])
  {
    var ms := Transcript(bs);
    var k := |Kept(ms, available)|;
    KeptIff(ms, available);
    KeepingAnythingFits(ms, available);
    CarriedBlocks(bs, available);
    BaseBlocksValid(ms);
    FlipPrefix(LoneBlocks(Base(ms)), bs, k);
    UnitsOfTranscript(LoneBlocks(Base(ms)) + FlipAll(bs)[..k]);
    SinglesFlatten(Base(ms));
  }

  // ----- Kept turns, word for word -----

  lemma {:induction false} KeptBlocks(bs: seq<Block>, available: nat)
    requires ValidBlocks(bs) && KeepsOldest(Transcript(bs), available)
    ensures var ms := Transcript(bs);
            var j := |Kept(ms, available)|;
            j <= |bs| && Compacted(ms, available) == Base(ms) + Transcript(FlipAll(bs)[..j])
  {
    KeptAre(bs, available);
    KeptIff(Transcript(bs), available);
    KeepingAnythingFits(Transcript(bs), available);
  }

  /** A later compaction in a run. Before it stand some lone messages, the turns an earlier one
      kept with their results reversed, and whatever was recorded since. If it keeps anything it
      leaves its base and a prefix of these: the earlier turns with their results back in the
      original order, the later ones with theirs reversed. */
  lemma {:induction false} LaterCompaction(lead: seq<Block>, bs: seq<Block>, k: nat, more: seq<Block>, available: nat)
    requires ValidBlocks(lead) && FlipAll(lead) == lead && ValidBlocks(bs) && k <= |bs| && ValidBlocks(more)
    requires KeepsOldest(Transcript(lead + FlipAll(bs)[..k] + more), available)
    ensures var ms := Transcript(lead + FlipAll(bs)[..k] + more);
            var j := |Kept(ms, available)|;
            && j <= |lead| + k + |more|
            && Compacted(ms, available) == Base(ms) + Transcript((lead + bs[..k] + FlipAll(more))[..j])
  {
    FlipAllValid(bs);
    FlipThree(lead, bs, k, more);
    KeptBlocks(lead + FlipAll(bs)[..k] + more, available);
  }

  lemma {:induction false} FlipThree(lead: seq<Block>, bs: seq<Block>, k: nat, more: seq<Block>)
    requires FlipAll(lead) == lead && ValidBlocks(bs) && k <= |bs|
    ensures FlipAll(lead + FlipAll(bs)[..k] + more) == lead + bs[..k] + FlipAll(more)
  {
    FlipAllValid(bs);
    assert FlipAll(FlipAll(bs)[..k]) == bs[..k] by {
      forall i | 0 <= i < k ensures Flip(FlipAll(bs)[i]) == bs[i] {
        assert FlipAll(FlipAll(bs))[i] == bs[i];
      }
    }
    FlipAllConcat(lead, FlipAll(bs)[..k]);
    FlipAllConcat(lead + FlipAll(bs)[..k], more);
  }

  lemma {:induction false} FlipAllConcat(a: seq<Block>, b: seq<Block>)
    ensures FlipAll(a + b) == FlipAll(a) + FlipAll(b)
  {
  }

  lemma {:induction false} LonePrefix(base: seq<Message>, bs: seq<Block>, k: nat, j: nat)
    requires k <= |bs| && j <= |base| + k
    ensures Transcript((LoneBlocks(base) + bs[..k] + FlipAll([]))[..j])
         == base[..Min(j, |base|)] + Transcript(bs[..SaturatingSub(j, |base|)])
  {
    var i, t := Min(j, |base|), SaturatingSub(j, |base|);
    ConcatPrefix(LoneBlocks(base), bs[..k], j);
    assert LoneBlocks(base)[..i] == LoneBlocks(base[..i]) && bs[..k][..t] == bs[..t];
    assert LoneBlocks(base) + bs[..k] + FlipAll([]) == LoneBlocks(base) + bs[..k];
    assert (LoneBlocks(base) + bs[..k])[..j] == LoneBlocks(base[..i]) + bs[..t];
    TranscriptConcat(LoneBlocks(base[..i]), bs[..t]);
    SinglesFlatten(base[..i]);
  }

  /** One compaction reverses the results inside every turn it keeps; a second one right after it
      that keeps anything puts them back: what it leaves is its base, as much of the first base as
      it keeps, and the oldest turns exactly as they were before both. */
  lemma {:induction false} TwoCompactionsRestoreOrder(bs: seq<Block>, available: nat, available': nat)
    requires ValidBlocks(bs) && KeepsOldest(Transcript(bs), available)
    requires KeepsOldest(Compacted(Transcript(bs), available), available')
    ensures var ms := Transcript(bs);
            var once := Compacted(ms, available);
            var base, j := Base(ms), |Kept(once, available')|;
            && SaturatingSub(j, |base|) <= |Kept(ms, available)| <= |bs|
            && once == base + Transcript(FlipAll(bs)[..|Kept(ms, available)|])
            && Compacted(once, available')
               == Base(once) + (base[..Min(j, |base|)] + Transcript(bs[..SaturatingSub(j, |base|)]))
  {
    var ms := Transcript(bs);
    var base, k := Base(ms), |Kept(ms, available)|;
    KeptBlocks(bs, available);
    LoneThen(base, FlipAll(bs)[..k]);
    BaseBlocksValid(ms);
    LaterCompaction(LoneBlocks(base), bs, k, [], available');
    LonePrefix(base, bs, k, |Kept(Compacted(ms, available), available')|);
  }

  lemma {:induction false} LoneThen(base: seq<Message>, bs: seq<Block>)
    ensures base + Transcript(bs) == Transcript(LoneBlocks(base) + bs + [])
  {
    SinglesFlatten(base);
    TranscriptConcat(LoneBlocks(base), bs);
    assert LoneBlocks(base) + bs + [] == LoneBlocks(base) + bs;
  }

  // ----- Every path -----

  /** The blocks a compaction leaves, texts aside: the base, the kept turns and, when nothing of
      nonzero size is kept, the newest, the results inside each reversed. */
  function BlocksLeft(bs: seq<Block>, available: nat): seq<Block>
    requires |Kept(Transcript(bs), available)| <= |bs|
  {
    var ms := Transcript(bs);
    LoneBlocks(Base(ms)) + FlipAll(bs)[..|Kept(ms, available)|]
    + (if Fallback(ms, available) == [] || bs == [] then [] else [Flip(bs[|bs| - 1])])
  }

  lemma {:induction false} AllSimilarSelf(ms: seq<Message>)
    ensures AllSimilar(ms, ms)
  {
  }

  lemma {:induction false} AllSimilarConcat(a: seq<Message>, b: seq<Message>, c: seq<Message>, d: seq<Message>)
    requires AllSimilar(a, b) && AllSimilar(c, d)
    ensures AllSimilar(a + c, b + d)
  {
  }

  lemma {:induction false} FallbackBlock(bs: seq<Block>, available: nat)
    requires ValidBlocks(bs) && Fallback(Transcript(bs), available) != []
    ensures bs != [] && AllSimilar(BlockMessages(Flip(bs[|bs| - 1])), Fallback(Transcript(bs), available))
  {
    var ms := Transcript(bs);
    UnitsOfTranscript(bs);
    assert |Units(ms)| == |bs|;
    var newest, fallback := BlockMessages(Flip(bs[|bs| - 1])), Fallback(ms, available);
    assert Units(ms)[|bs| - 1] == newest;
    forall i | 0 <= i < |newest| ensures Similar(newest[i], fallback[i]) {
      SqueezeSimilar(newest[i], 4 * Max(Target(ms, available), MIN_LAST_MESSAGE_TOKENS));
    }
  }

  lemma {:induction false} SelectedBlocks(bs: seq<Block>, available: nat)
    requires ValidBlocks(bs)
    ensures |Kept(Transcript(bs), available)| <= |bs|
    ensures ValidBlocks(BlocksLeft(bs, available))
    ensures AllSimilar(Transcript(BlocksLeft(bs, available)), Selected(Transcript(bs), available))
  {
    var ms := Transcript(bs);
    CarriedBlocks(bs, available);
    BaseBlocksValid(ms);
    FlipAllValid(bs);
    var carried := LoneBlocks(Base(ms)) + FlipAll(bs)[..|Kept(ms, available)|];
    AllSimilarSelf(Carried(ms, available));
    if Fallback(ms, available) == [] {
      assert BlocksLeft(bs, available) == carried;
      assert Selected(ms, available) == Carried(ms, available);
    } else {
      FallbackBlock(bs, available);
      var last := Flip(bs[|bs| - 1]);
      assert last == FlipAll(bs)[|bs| - 1];
      TranscriptConcat(carried, [last]);
      TranscriptOne(last);
      AllSimilarConcat(Carried(ms, available), Carried(ms, available), BlockMessages(last), Fallback(ms, available));
    }
  }

  /** Whatever path a compaction takes, its result has the roles, calls and identities of those
      blocks. */
  lemma {:induction false} CompactedBlocks(bs: seq<Block>, available: nat)
    requires ValidBlocks(bs)
    ensures |Kept(Transcript(bs), available)| <= |bs|
    ensures ValidBlocks(BlocksLeft(bs, available))
    ensures AllSimilar(Transcript(BlocksLeft(bs, available)), Compacted(Transcript(bs), available))
  {
    var ms := Transcript(bs);
    SelectedBlocks(bs, available);
    SqueezeLoopSimilar(Selected(ms, available), available, SQUEEZE_ROUNDS);
    SimilarTransitive(Transcript(BlocksLeft(bs, available)), Selected(ms, available), Compacted(ms, available));
  }
}
