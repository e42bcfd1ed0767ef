/** Text as the harness handles it: UTF-8 bytes, cut only at character boundaries.

    Rust measures a `str` in bytes and refuses to slice it inside a character, so every
    length, budget and cut below is in bytes. */
module Text {

  type Byte = b: int | 0 <= b < 256

  type Text = seq<Byte>

  /** A text literal as bytes. Every literal in this project is ASCII, where the remainder is
      the code itself. */
  function Bytes(s: string): (t: Text)
    ensures |t| == |s|
    ensures forall i :: 0 <= i < |s| ==> t[i] == s[i] as int % 128
  {
    seq(|s|, i requires 0 <= i < |s| => s[i] as int % 128)
  }

  /** Decimal rendering of a count. */
  function Decimal(n: nat): (t: Text)
    ensures |t| >= 1
    ensures forall i :: 0 <= i < |t| ==> 48 <= t[i] <= 57
  {
    if n < 10 then [48 + n] else Decimal(n / 10) + [48 + n % 10]
  }

  function Pow10(k: nat): nat
  {
    if k == 0 then 1 else 10 * Pow10(k - 1)
  }

  lemma {:induction false} DecimalLength(n: nat, k: nat)
    requires 1 <= k && n < Pow10(k)
    ensures |Decimal(n)| <= k
  {
    if n >= 10 {
      DecimalLength(n / 10, k - 1);
    }
  }

  // ----- UTF-8, section 4 of RFC 3629 -----

  predicate IsContinuation(b: Byte) { 0x80 <= b < 0xC0 }

  /** Length of the well-formed character at the front of `t`, or 0 when there is none. */
  function CharLength(t: Text): (n: nat)
    ensures n <= 4 && n <= |t|
    ensures forall i :: 1 <= i < n ==> IsContinuation(t[i])
    ensures n > 0 ==> !IsContinuation(t[0])
  {
    if |t| == 0 then 0
    else if t[0] < 0x80 then 1
    else if |t| >= 2 && 0xC2 <= t[0] < 0xE0 && IsContinuation(t[1]) then 2
    else if |t| >= 3 && 0xE0 <= t[0] < 0xF0 && IsContinuation(t[1]) && IsContinuation(t[2])
      && (t[0] == 0xE0 ==> 0xA0 <= t[1]) && (t[0] == 0xED ==> t[1] < 0xA0) then 3
    else if |t| >= 4 && 0xF0 <= t[0] < 0xF5 && IsContinuation(t[1]) && IsContinuation(t[2])
      && IsContinuation(t[3]) && (t[0] == 0xF0 ==> 0x90 <= t[1]) && (t[0] == 0xF4 ==> t[1] < 0x90) then 4
    else 0
  }

  /** What the Rust type `str` guarantees of its bytes. */
  predicate WellFormed(t: Text)
    decreases |t|
  {
    t == [] || (CharLength(t) > 0 && WellFormed(t[CharLength(t)..]))
  }

  /** `str::is_char_boundary`. */
  predicate IsBoundary(t: Text, i: nat)
  {
    i == 0 || i == |t| || (i < |t| && !IsContinuation(t[i]))
  }

  /** The character at the front depends on nothing after it. */
  lemma {:induction false} CharLengthLocal(t: Text, u: Text)
    requires CharLength(t) > 0 && |u| >= CharLength(t) && u[..CharLength(t)] == t[..CharLength(t)]
    ensures CharLength(u) == CharLength(t)
  {
    var n := CharLength(t);
    assert forall i :: 0 <= i < n ==> u[i] == u[..n][i] == t[i];
  }

  lemma {:induction false} WellFormedSplit(t: Text, i: nat)
    requires WellFormed(t) && i <= |t| && IsBoundary(t, i)
    ensures WellFormed(t[..i]) && WellFormed(t[i..])
    decreases |t|
  {
    if i == 0 {
      assert t[..0] == [] && t[0..] == t;
    } else {
      var n := CharLength(t);
      var rest := t[n..];
      WellFormedSplit(rest, i - n);
      assert rest[i - n..] == t[i..];
      assert t[..i][n..] == rest[..i - n];
      assert t[..i][..n] == t[..n];
      CharLengthLocal(t, t[..i]);
    }
  }

  lemma {:induction false} FirstCharOfConcat(a: Text, b: Text)
    requires CharLength(a) > 0
    ensures CharLength(a + b) == CharLength(a) && (a + b)[CharLength(a)..] == a[CharLength(a)..] + b
  {
    assert (a + b)[..CharLength(a)] == a[..CharLength(a)];
    CharLengthLocal(a, a + b);
  }

  lemma {:induction false} WellFormedConcat(a: Text, b: Text)
    requires WellFormed(a) && WellFormed(b)
    ensures WellFormed(a + b)
    decreases |a|
  {
    if a == [] {
      assert a + b == b;
    } else {
      FirstCharOfConcat(a, b);
      WellFormedConcat(a[CharLength(a)..], b);
    }
  }

  lemma {:induction false} AsciiWellFormed(t: Text)
    requires forall i :: 0 <= i < |t| ==> t[i] < 128
    ensures WellFormed(t)
    decreases |t|
  {
    if t != [] {
      AsciiWellFormed(t[1..]);
    }
  }

  /** A character is at most four bytes, so a boundary is never further than three bytes away. */
  lemma {:induction false} BoundaryNearby(t: Text, i: nat) returns (below: nat, above: nat)
    requires WellFormed(t) && i <= |t|
    ensures IsBoundary(t, below) && below <= i <= below + 3
    ensures IsBoundary(t, above) && i <= above <= |t| && above <= i + 3
    decreases |t|
  {
    if i == 0 || i == |t| {
      below, above := i, i;
    } else {
      var n := CharLength(t);
      if i < n {
        below, above := 0, n;
        if n < |t| {
          assert t[n] == t[n..][0];
        }
      } else {
        below, above := BoundaryNearby(t[n..], i - n);
        below, above := below + n, above + n;
        if below == n && n < |t| {
          assert t[n] == t[n..][0];
        }
      }
    }
  }

  // ----- Boundary search -----

  function Min(a: nat, b: nat): nat { if a < b then a else b }

  function Max(a: nat, b: nat): nat { if a < b then b else a }

  function SaturatingSub(a: nat, b: nat): nat { if a < b then 0 else a - b }

  /** The greatest boundary at or below `index`. */
  function FloorBoundary(t: Text, index: nat): (r: nat)
    ensures r <= Min(index, |t|) && IsBoundary(t, r)
    ensures forall k :: r < k <= Min(index, |t|) ==> !IsBoundary(t, k)
    decreases index
  {
    if index > |t| then FloorBoundary(t, |t|)
    else if IsBoundary(t, index) then index
    else FloorBoundary(t, index - 1)
  }

  /** The least boundary at or above `index`, capped at the end of the text. */
  function CeilBoundary(t: Text, index: nat): (r: nat)
    ensures Min(index, |t|) <= r <= |t| && IsBoundary(t, r)
    ensures forall k :: Min(index, |t|) <= k < r ==> !IsBoundary(t, k)
    decreases if index > |t| then 1 else 0, if index > |t| then 0 else |t| - index
  {
    if index > |t| then |t|
    else if IsBoundary(t, index) then index
    else CeilBoundary(t, index + 1)
  }

  method FindFloorBoundary(t: Text, start: nat) returns (index: nat)
    ensures index == FloorBoundary(t, start)
  {
    index := Min(start, |t|);
    while index > 0 && !IsBoundary(t, index)
      invariant index <= |t|
      invariant FloorBoundary(t, index) == FloorBoundary(t, start)
    {
      index := index - 1;
    }
  }

  method FindCeilBoundary(t: Text, start: nat) returns (index: nat)
    ensures index == CeilBoundary(t, start)
  {
    index := Min(start, |t|);
    while index < |t| && !IsBoundary(t, index)
      invariant index <= |t|
      invariant CeilBoundary(t, index) == CeilBoundary(t, start)
    {
      index := index + 1;
    }
  }

  // ----- Bounded output -----

  const MARKER_HEAD := "\n\n[... "
  const MARKER_TAIL := " bytes elided by the harness; narrow the query or raise the limit to see it ...]\n\n"

  function Marker(elided: nat): Text
  {
    Bytes(MARKER_HEAD) + Decimal(elided) + Bytes(MARKER_TAIL)
  }

  /** The share of the limit that goes to the head. */
  function HeadShare(limit: nat): (share: nat)
    ensures share <= limit
  {
    limit * 2 / 3
  }

  /** Where the kept head ends and the kept tail begins when a text is over its limit. */
  function HeadEnd(t: Text, limit: nat): nat { FloorBoundary(t, HeadShare(limit)) }

  function TailStart(t: Text, limit: nat): nat
  {
    CeilBoundary(t, SaturatingSub(|t|, limit - HeadShare(limit)))
  }

  /** A text without its middle, and the count of what went missing in its place. */
  function Marked(t: Text, head: nat, tail: nat): Text
    requires head <= |t| && tail <= |t|
  {
    t[..head] + Marker(SaturatingSub(tail, head)) + t[tail..]
  }

  /** Keeps the head and the tail of a large result and says how much went missing. */
  function CompressOutput(t: Text, limit: nat): Text
  {
    if |t| <= limit then t else Marked(t, HeadEnd(t, limit), TailStart(t, limit))
  }

  lemma {:induction false} MarkerShape(elided: nat)
    ensures |Marker(elided)| == 89 + |Decimal(elided)|
    ensures WellFormed(Marker(elided))
  {
    assert |MARKER_HEAD| == 7;
    assert |MARKER_TAIL| == 82;
    AsciiWellFormed(Marker(elided));
  }

  /** What survives a cut: a prefix and a suffix of the original that do not overlap, each a
      well-formed text, losing at most three bytes of budget at either boundary. */
  lemma {:induction false} CompressOutputCut(t: Text, limit: nat)
    requires WellFormed(t) && |t| > limit
    ensures var head, tail := HeadEnd(t, limit), TailStart(t, limit);
            && head <= tail <= |t|
            && WellFormed(t[..head]) && WellFormed(t[tail..])
            && HeadShare(limit) - 3 <= head <= HeadShare(limit)
            && limit - HeadShare(limit) - 3 <= |t| - tail <= limit - HeadShare(limit)
  {
    var share := HeadShare(limit);
    var head, tail := HeadEnd(t, limit), TailStart(t, limit);
    var below, _ := BoundaryNearby(t, share);
    var _, above := BoundaryNearby(t, |t| - (limit - share));
    WellFormedSplit(t, head);
    WellFormedSplit(t, tail);
  }

  lemma {:induction false} MarkedWellFormed(t: Text, head: nat, tail: nat)
    requires head <= |t| && tail <= |t| && WellFormed(t[..head]) && WellFormed(t[tail..])
    ensures WellFormed(Marked(t, head, tail))
  {
    var m := Marker(SaturatingSub(tail, head));
    MarkerShape(SaturatingSub(tail, head));
    WellFormedConcat(t[..head], m);
    WellFormedConcat(t[..head] + m, t[tail..]);
  }

  /** A compressed text is again a text. */
  lemma {:induction false} CompressOutputWellFormed(t: Text, limit: nat)
    requires WellFormed(t)
    ensures WellFormed(CompressOutput(t, limit))
  {
    if |t| > limit {
      CompressOutputCut(t, limit);
      MarkedWellFormed(t, HeadEnd(t, limit), TailStart(t, limit));
    }
  }

  /** A cut text is the kept head, the marker reporting exactly the missing bytes, and the kept
      tail. */
  lemma {:induction false} CompressOutputParts(t: Text, limit: nat)
    requires |t| > limit
    ensures var out, head, tail := CompressOutput(t, limit), HeadEnd(t, limit), TailStart(t, limit);
            && head <= tail <= |t|
            && var marker := Marker(|t| - head - (|t| - tail));
               && |out| == head + |marker| + (|t| - tail)
               && out[..head] == t[..head] && out[head..head + |marker|] == marker
               && out[head + |marker|..] == t[tail..]
  {
    var head, tail := HeadEnd(t, limit), TailStart(t, limit);
    ThreeParts(t[..head], Marker(tail - head), t[tail..]);
  }

  lemma {:induction false} ThreeParts(a: Text, m: Text, b: Text)
    ensures var out := a + m + b;
            out[..|a|] == a && out[|a|..|a| + |m|] == m && out[|a| + |m|..] == b
  {
  }

  /** The limit is overshot by the marker: at most 89 bytes and the digits of the count, and
      for well-formed text never by fewer than 84 bytes. */
  lemma {:induction false} CompressOutputLength(t: Text, limit: nat)
    requires |t| > limit
    ensures |CompressOutput(t, limit)| <= limit + 89 + |Decimal(TailStart(t, limit) - HeadEnd(t, limit))|
    ensures WellFormed(t) ==> |CompressOutput(t, limit)| >= limit + 84
  {
    var head, tail := HeadEnd(t, limit), TailStart(t, limit);
    MarkerShape(tail - head);
    if WellFormed(t) {
      CompressOutputCut(t, limit);
    }
  }

  const COUNT_DIGITS := 20

  /** For any text Rust can hold, the count has at most twenty digits. */
  lemma {:induction false} CompressOutputBound(t: Text, limit: nat)
    requires |t| < Pow10(COUNT_DIGITS)
    ensures |CompressOutput(t, limit)| <= limit + 109
  {
    if |t| > limit {
      CompressOutputLength(t, limit);
      DecimalLength(TailStart(t, limit) - HeadEnd(t, limit), COUNT_DIGITS);
    }
  }
}
