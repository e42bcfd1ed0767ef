/** Canonical text is uniquely readable: equal texts are spellings of the same value. */
module CanonicalReadable {
  import opened Text
  import opened JsonText
  import opened CanonicalJson

  // ----- The values in question -----

  predicate Digit(b: Byte) { 48 <= b <= 57 }

  /** The bytes a number is spelled with, including the letters of NaN and Infinity. */
  predicate NumberByte(b: Byte)
  {
    Digit(b) || b in {43, 45, 46, 69, 73, 78, 97, 101, 102, 105, 110, 116, 121}
  }

  /** A spelling of a float: it starts like a number and is not an integer's. */
  predicate ValidFloat(t: Text)
  {
    && t != [] && (Digit(t[0]) || t[0] in {45, 73, 78})
    && (forall i :: 0 <= i < |t| ==> NumberByte(t[i]))
    && (exists i :: 0 <= i < |t| && !Digit(t[i]) && t[i] != 45)
  }

  predicate DistinctKeys(ms: seq<Member>)
  {
    forall i, j :: 0 <= i < j < |ms| ==> ms[i].key != ms[j].key
  }

  /** What decoding JSON text yields: no key twice, no split surrogate pair. */
  predicate Valid(v: Json)
    decreases v
  {
    match v
    case Float(t) => ValidFloat(t)
    case String(s) => Joined(s)
    case Array(items) => forall i :: 0 <= i < |items| ==> Valid(items[i])
    case Object(ms) => DistinctKeys(ms) && forall i :: 0 <= i < |ms| ==> Joined(ms[i].key) && Valid(ms[i].value)
    case _ => true
  }

  /** Equality of decoded values: objects are equal as dictionaries, whatever order their
      members were inserted in. */
  ghost predicate Same(v: Json, w: Json)
    decreases v, 0
  {
    match v
    case Array(items) =>
      w.Array? && |items| == |w.items| && forall i :: 0 <= i < |items| ==> Same(items[i], w.items[i])
    case Object(ms) =>
      && w.Object?
      && (forall i :: 0 <= i < |ms| ==> Partnered(ms[i], w.members))
      && (forall j :: 0 <= j < |w.members| ==> HasKey(ms, w.members[j].key))
    case _ => v == w
  }

  predicate HasKey(ms: seq<Member>, key: Str)
  {
    exists i :: 0 <= i < |ms| && ms[i].key == key
  }

  /** Some member has the same key and the same value. */
  ghost predicate Partnered(m: Member, ms: seq<Member>)
    decreases m.value, 1
  {
    exists j :: 0 <= j < |ms| && m.key == ms[j].key && Same(m.value, ms[j].value)
  }

  /** What may follow a value inside a larger text. */
  predicate Delimited(x: Text) { x == [] || x[0] in {COMMA, CLOSE_ARRAY, CLOSE_OBJECT} }

  // ----- Numbers -----

  lemma {:induction false} DecimalInjective(a: nat, b: nat)
    requires Decimal(a) == Decimal(b)
    ensures a == b
  {
    var t, u := Decimal(a), Decimal(b);
    assert t[|t| - 1] == u[|u| - 1];
    assert (|t| == 1 <==> a < 10) && (|u| == 1 <==> b < 10);
    if a >= 10 {
      assert t[..|t| - 1] == Decimal(a / 10) && u[..|u| - 1] == Decimal(b / 10);
      DecimalInjective(a / 10, b / 10);
    }
  }

  lemma {:induction false} IntegerInjective(m: int, n: int)
    requires Integer(m) == Integer(n)
    ensures m == n
  {
    assert Integer(m)[0] == Integer(n)[0];
    if m < 0 {
      assert Integer(m)[1..] == Decimal(-m) && Integer(n)[1..] == Decimal(-n);
      DecimalInjective(-m, -n);
    } else {
      DecimalInjective(m, n);
    }
  }

  lemma {:induction false} IntegerBytes(n: int)
    ensures Integer(n) != [] && forall i :: 0 <= i < |Integer(n)| ==> Digit(Integer(n)[i]) || Integer(n)[i] == 45
  {
  }

  /** A number ends where the first byte that cannot belong to it begins. */
  lemma {:induction false} NumberEnds(a: Text, b: Text, x: Text, y: Text)
    requires (forall i :: 0 <= i < |a| ==> NumberByte(a[i])) && (forall i :: 0 <= i < |b| ==> NumberByte(b[i]))
    requires Delimited(x) && Delimited(y) && a + x == b + y
    ensures a == b && x == y
  {
    var s, t := a + x, b + y;
    var k := Min(|a|, |b|);
    assert k < |s| ==> s[k] == t[k];
    assert |a| == |b|;
    assert a == s[..|a|] && b == t[..|a|] && x == s[|a|..] && y == t[|a|..];
  }

  predicate Number(v: Json) { v.Int? || v.Float? }

  lemma {:induction false} NumberBytes(v: Json)
    requires Number(v) && Valid(v)
    ensures var t := Canonical(v, Python);
            && t != [] && (Digit(t[0]) || t[0] in {45, 73, 78})
            && forall i :: 0 <= i < |t| ==> NumberByte(t[i])
  {
    if v.Int? {
      IntegerBytes(v.n);
    }
  }

  lemma {:induction false} NumberReadable(v: Json, w: Json, x: Text, y: Text)
    requires Number(v) && Number(w) && Valid(v) && Valid(w) && Delimited(x) && Delimited(y)
    requires Canonical(v, Python) + x == Canonical(w, Python) + y
    ensures v == w && x == y
  {
    NumberBytes(v);
    NumberBytes(w);
    NumberEnds(Canonical(v, Python), Canonical(w, Python), x, y);
    if v.Int? {
      IntegerBytes(v.n);
      if w.Int? {
        IntegerInjective(v.n, w.n);
      }
    } else if w.Int? {
      IntegerBytes(w.n);
    }
  }

  // ----- Strings -----

  lemma {:induction false} QuotedReadable(s: Str, t: Str, x: Text, y: Text)
    requires Quoted(s, Python) + x == Quoted(t, Python) + y
    ensures Units(s) == Units(t) && x == y
  {
    var a, b := EscapeUnits(Units(s)) + ([QUOTE] + x), EscapeUnits(Units(t)) + ([QUOTE] + y);
    assert Quoted(s, Python) + x == [QUOTE] + a;
    assert Quoted(t, Python) + y == [QUOTE] + b;
    assert a == ([QUOTE] + a)[1..] && b == ([QUOTE] + b)[1..];
    EscapeUnitsReadable(Units(s), Units(t), x, y);
  }

  /** Two strings are spelled alike exactly when they are the same UTF-16. */
  lemma {:induction false} QuotedIff(s: Str, t: Str)
    ensures Quoted(s, Python) == Quoted(t, Python) <==> Units(s) == Units(t)
  {
    if Quoted(s, Python) == Quoted(t, Python) {
      assert Quoted(s, Python) + [] == Quoted(s, Python) && Quoted(t, Python) + [] == Quoted(t, Python);
      QuotedReadable(s, t, [], []);
    }
  }

  /** A split surrogate pair and the code point it stands for are different strings with one
      spelling, so the payload is unambiguous only for joined strings. */
  lemma {:induction false} SplitPairIsAmbiguous()
    ensures exists s: Str, t: Str :: s != t && Quoted(s, Python) == Quoted(t, Python)
  {
    var s: Str, t: Str := [0xD83D, 0xDE00], [0x1F600];
    assert Units(t) == UnitsOf(t[0]) + Units(t[1..]);
    assert Units(s) == UnitsOf(s[0]) + (UnitsOf(s[1]) + Units(s[1..][1..]));
    assert Units(s) == [0xD83D, 0xDE00] && Units(t) == [0xD83D, 0xDE00];
    QuotedIff(s, t);
  }

  // ----- How a text begins -----

  /** The kind of value a first byte announces. */
  function Kind(v: Json): int
  {
    match v
    case Null => 0
    case Bool(b) => if b then 1 else 2
    case Int(_) => 3
    case Float(_) => 3
    case String(_) => 4
    case Array(_) => 5
    case Object(_) => 6
  }

  function Announced(b: Byte): int
  {
    if b == 110 then 0 else if b == 116 then 1 else if b == 102 then 2 else if Digit(b) || b in {45, 73, 78} then 3
    else if b == 34 then 4 else if b == 91 then 5 else if b == 123 then 6 else 7
  }

  lemma {:induction false} FirstByte(v: Json)
    requires Valid(v)
    ensures Canonical(v, Python) != [] && Announced(Canonical(v, Python)[0]) == Kind(v)
  {
    if Number(v) {
      NumberBytes(v);
    } else if v.Null? {
      assert Bytes("null")[0] == 110;
    } else if v.Bool? {
      assert Bytes("true")[0] == 116 && Bytes("false")[0] == 102;
    }
  }

  // ----- Arrays -----

  lemma {:induction false} ItemsStep(whole: Json, items: seq<Json>, x: Text)
    requires items != [] && forall i :: 0 <= i < |items| ==> items[i] < whole
    ensures Items(whole, items, Python) + ([CLOSE_ARRAY] + x) == Canonical(items[0], Python) + AfterItem(whole, items, x)
    ensures Delimited(AfterItem(whole, items, x))
  {
    if |items| > 1 {
      var c, rest := Canonical(items[0], Python), Items(whole, items[1..], Python);
      assert (c + ([COMMA] + rest)) + ([CLOSE_ARRAY] + x) == c + ([COMMA] + (rest + ([CLOSE_ARRAY] + x)));
    }
  }

  function AfterItem(whole: Json, items: seq<Json>, x: Text): Text
    requires items != [] && forall i :: 0 <= i < |items| ==> items[i] < whole
  {
    if |items| == 1 then [CLOSE_ARRAY] + x
    else [COMMA] + (Items(whole, items[1..], Python) + ([CLOSE_ARRAY] + x))
  }

  lemma {:induction false} ItemReadable(v: Json, a: seq<Json>, w: Json, b: seq<Json>, x: Text, y: Text)
    requires a != [] && b != []
    requires (forall i :: 0 <= i < |a| ==> a[i] < v && Valid(a[i])) && (forall i :: 0 <= i < |b| ==> b[i] < w && Valid(b[i]))
    requires Items(v, a, Python) + ([CLOSE_ARRAY] + x) == Items(w, b, Python) + ([CLOSE_ARRAY] + y)
    ensures Same(a[0], b[0]) && (|a| == 1 <==> |b| == 1)
    ensures |a| == 1 ==> x == y
    ensures |a| > 1 ==> Items(v, a[1..], Python) + ([CLOSE_ARRAY] + x) == Items(w, b[1..], Python) + ([CLOSE_ARRAY] + y)
    decreases v, 0, 0
  {
    ItemsStep(v, a, x);
    ItemsStep(w, b, y);
    var restA, restB := AfterItem(v, a, x), AfterItem(w, b, y);
    Readable(a[0], b[0], restA, restB);
    assert restA[0] == restB[0];
    assert restA[1..] == restB[1..];
  }

  lemma {:induction false} ItemsReadable(v: Json, a: seq<Json>, w: Json, b: seq<Json>, x: Text, y: Text)
    requires (forall i :: 0 <= i < |a| ==> a[i] < v && Valid(a[i])) && (forall i :: 0 <= i < |b| ==> b[i] < w && Valid(b[i]))
    requires (a == [] <==> b == []) && Items(v, a, Python) + ([CLOSE_ARRAY] + x) == Items(w, b, Python) + ([CLOSE_ARRAY] + y)
    ensures |a| == |b| && x == y && forall i :: 0 <= i < |a| ==> Same(a[i], b[i])
    decreases v, 0, |a| + 1
  {
    if a == [] {
      assert (Items(v, a, Python) + ([CLOSE_ARRAY] + x))[1..] == x;
      assert (Items(w, b, Python) + ([CLOSE_ARRAY] + y))[1..] == y;
    } else {
      ItemReadable(v, a, w, b, x, y);
      if |a| > 1 {
        ItemsReadable(v, a[1..], w, b[1..], x, y);
        assert forall i :: 1 <= i < |a| ==> a[i] == a[1..][i - 1] && b[i] == b[1..][i - 1];
      }
    }
  }

  // ----- Objects -----

  function AfterMember(whole: Json, ms: seq<Member>, x: Text): Text
    requires ms != [] && forall i :: 0 <= i < |ms| ==> ms[i].value < whole
  {
    if |ms| == 1 then [CLOSE_OBJECT] + x
    else [COMMA] + (Members(whole, ms[1..], Python) + ([CLOSE_OBJECT] + x))
  }

  lemma {:induction false} Regroup(q: Text, b: Byte, c: Text, rest: Text)
    ensures (q + ([b] + c)) + rest == q + ([b] + (c + rest))
  {
  }

  lemma {:induction false} MembersStep(whole: Json, ms: seq<Member>, x: Text)
    requires ms != [] && forall i :: 0 <= i < |ms| ==> ms[i].value < whole
    ensures Members(whole, ms, Python) + ([CLOSE_OBJECT] + x)
         == Quoted(ms[0].key, Python) + ([COLON] + (Canonical(ms[0].value, Python) + AfterMember(whole, ms, x)))
    ensures Delimited(AfterMember(whole, ms, x))
  {
    var q, c, after := Quoted(ms[0].key, Python), Canonical(ms[0].value, Python), AfterMember(whole, ms, x);
    if |ms| > 1 {
      Regroup(MemberText(ms[0], Python), COMMA, Members(whole, ms[1..], Python), [CLOSE_OBJECT] + x);
    }
    assert Members(whole, ms, Python) + ([CLOSE_OBJECT] + x) == MemberText(ms[0], Python) + after;
    Regroup(q, COLON, c, after);
  }

  /** Two member lists with the same keys in order and the same values. */
  ghost predicate SameMembers(a: seq<Member>, b: seq<Member>)
  {
    |a| == |b| && forall i :: 0 <= i < |a| ==> a[i].key == b[i].key && Same(a[i].value, b[i].value)
  }

  lemma {:induction false} MembersReadable(v: Json, a: seq<Member>, w: Json, b: seq<Member>, x: Text, y: Text)
    requires forall i :: 0 <= i < |a| ==> a[i].value < v && Joined(a[i].key) && Valid(a[i].value)
    requires forall i :: 0 <= i < |b| ==> b[i].value < w && Joined(b[i].key) && Valid(b[i].value)
    requires a == [] <==> b == []
    requires Members(v, a, Python) + ([CLOSE_OBJECT] + x) == Members(w, b, Python) + ([CLOSE_OBJECT] + y)
    ensures SameMembers(a, b) && x == y
    decreases v, 0, |a| + 1
  {
    if a == [] {
      assert (Members(v, a, Python) + ([CLOSE_OBJECT] + x))[1..] == x;
      assert (Members(w, b, Python) + ([CLOSE_OBJECT] + y))[1..] == y;
    } else {
      MemberReadable(v, a, w, b, x, y);
      if |a| > 1 {
        MembersReadable(v, a[1..], w, b[1..], x, y);
        assert forall i :: 1 <= i < |a| ==> a[i] == a[1..][i - 1] && b[i] == b[1..][i - 1];
      }
    }
  }

  lemma {:induction false} MemberReadable(v: Json, a: seq<Member>, w: Json, b: seq<Member>, x: Text, y: Text)
    requires a != [] && b != []
    requires forall i :: 0 <= i < |a| ==> a[i].value < v && Joined(a[i].key) && Valid(a[i].value)
    requires forall i :: 0 <= i < |b| ==> b[i].value < w && Joined(b[i].key) && Valid(b[i].value)
    requires Members(v, a, Python) + ([CLOSE_OBJECT] + x) == Members(w, b, Python) + ([CLOSE_OBJECT] + y)
    ensures a[0].key == b[0].key && Same(a[0].value, b[0].value) && (|a| == 1 <==> |b| == 1)
    ensures |a| == 1 ==> x == y
    ensures |a| > 1 ==> Members(v, a[1..], Python) + ([CLOSE_OBJECT] + x) == Members(w, b[1..], Python) + ([CLOSE_OBJECT] + y)
    decreases v, 0, 0
  {
    MembersStep(v, a, x);
    MembersStep(w, b, y);
    var restA, restB := AfterMember(v, a, x), AfterMember(w, b, y);
    var valueA, valueB := Canonical(a[0].value, Python) + restA, Canonical(b[0].value, Python) + restB;
    QuotedReadable(a[0].key, b[0].key, [COLON] + valueA, [COLON] + valueB);
    UnitsInjective(a[0].key, b[0].key);
    assert ([COLON] + valueA)[1..] == valueA && ([COLON] + valueB)[1..] == valueB;
    Readable(a[0].value, b[0].value, restA, restB);
    assert restA[0] == restB[0];
    assert restA[1..] == restB[1..];
  }

  /** Sorting only rearranges: a match between the sorted lists is a match between the objects. */
  lemma {:induction false} SortedSame(a: seq<Member>, b: seq<Member>)
    requires SameMembers(Sort(a), Sort(b))
    ensures forall i :: 0 <= i < |a| ==> Partnered(a[i], b)
    ensures forall j :: 0 <= j < |b| ==> HasKey(a, b[j].key)
  {
    forall i | 0 <= i < |a| ensures Partnered(a[i], b) {
      SortedPartner(a, b, a[i]);
    }
    forall j | 0 <= j < |b| ensures HasKey(a, b[j].key) {
      SortMember(b, b[j]);
      var p :| 0 <= p < |Sort(b)| && Sort(b)[p] == b[j];
      SortMember(a, Sort(a)[p]);
    }
  }

  lemma {:induction false} SortedPartner(a: seq<Member>, b: seq<Member>, m: Member)
    requires SameMembers(Sort(a), Sort(b)) && m in a
    ensures Partnered(m, b)
  {
    SortMember(a, m);
    var p :| 0 <= p < |Sort(a)| && Sort(a)[p] == m;
    SortMember(b, Sort(b)[p]);
    var j :| 0 <= j < |b| && b[j] == Sort(b)[p];
    assert m.key == b[j].key && Same(m.value, b[j].value);
  }

  // ----- The theorem -----

  lemma {:induction false} Readable(v: Json, w: Json, x: Text, y: Text)
    requires Valid(v) && Valid(w) && Delimited(x) && Delimited(y)
    requires Canonical(v, Python) + x == Canonical(w, Python) + y
    ensures Same(v, w) && x == y
    decreases v, 1, 0
  {
    FirstByte(v);
    FirstByte(w);
    var t, u := Canonical(v, Python), Canonical(w, Python);
    assert (t + x)[0] == t[0] && (u + y)[0] == u[0];
    match v {
      case String(s) =>
        QuotedReadable(s, w.s, x, y);
        UnitsInjective(s, w.s);
      case Array(_) => ArrayReadable(v, w, x, y);
      case Object(_) => ObjectReadable(v, w, x, y);
      case Int(_) => NumberReadable(v, w, x, y);
      case Float(_) => NumberReadable(v, w, x, y);
      case Null => assert x == (t + x)[|t|..] && y == (u + y)[|t|..];
      case Bool(_) => assert x == (t + x)[|t|..] && y == (u + y)[|t|..];
    }
  }

  lemma {:induction false} ArrayReadable(v: Json, w: Json, x: Text, y: Text)
    requires v.Array? && w.Array? && Valid(v) && Valid(w)
    requires Canonical(v, Python) + x == Canonical(w, Python) + y
    ensures Same(v, w) && x == y
    decreases v, 0, |v.items| + 2
  {
    var a, b := Items(v, v.items, Python) + ([CLOSE_ARRAY] + x), Items(w, w.items, Python) + ([CLOSE_ARRAY] + y);
    assert Canonical(v, Python) + x == [91] + a && Canonical(w, Python) + y == [91] + b;
    assert ([91] + a)[1..] == a && ([91] + b)[1..] == b;
    ItemsStart(v, v.items, x);
    ItemsStart(w, w.items, y);
    ItemsReadable(v, v.items, w, w.items, x, y);
  }

  lemma {:induction false} ItemsStart(whole: Json, items: seq<Json>, x: Text)
    requires forall i :: 0 <= i < |items| ==> items[i] < whole && Valid(items[i])
    ensures var a := Items(whole, items, Python) + ([CLOSE_ARRAY] + x); a[0] == CLOSE_ARRAY <==> items == []
  {
    if items != [] {
      ItemsStep(whole, items, x);
      FirstByte(items[0]);
    }
  }

  lemma {:induction false} ObjectMembers(v: Json, w: Json, x: Text, y: Text)
    requires v.Object? && w.Object? && Valid(v) && Valid(w)
    requires Canonical(v, Python) + x == Canonical(w, Python) + y
    ensures SameMembers(Sort(v.members), Sort(w.members)) && x == y
    decreases v, 0, |v.members| + 2
  {
    var ms, ns := Sort(v.members), Sort(w.members);
    ObjectBody(v, x);
    ObjectBody(w, y);
    SortedAreValid(v);
    SortedAreValid(w);
    SortedLength(v.members);
    var a, b := Members(v, ms, Python) + ([CLOSE_OBJECT] + x), Members(w, ns, Python) + ([CLOSE_OBJECT] + y);
    assert a == ([123] + a)[1..] == ([123] + b)[1..] == b;
    MembersReadable(v, ms, w, ns, x, y);
  }

  lemma {:induction false} ObjectReadable(v: Json, w: Json, x: Text, y: Text)
    requires v.Object? && w.Object? && Valid(v) && Valid(w)
    requires Canonical(v, Python) + x == Canonical(w, Python) + y
    ensures Same(v, w) && x == y
    decreases v, 0, |v.members| + 3
  {
    ObjectMembers(v, w, x, y);
    SortedSame(v.members, w.members);
  }

  lemma {:induction false} ObjectBody(v: Json, x: Text)
    requires v.Object?
    ensures forall i :: 0 <= i < |Sort(v.members)| ==> Sort(v.members)[i].value < v
    ensures var a := Members(v, Sort(v.members), Python) + ([CLOSE_OBJECT] + x);
            Canonical(v, Python) + x == [123] + a && (a[0] == CLOSE_OBJECT <==> Sort(v.members) == [])
  {
    SortedAreParts(v);
    MembersStart(v, Sort(v.members), x);
    var members := Members(v, Sort(v.members), Python);
    assert ([123] + (members + [CLOSE_OBJECT])) + x == [123] + (members + ([CLOSE_OBJECT] + x));
  }

  lemma {:induction false} SortedLength(ms: seq<Member>)
    ensures |Sort(ms)| == |ms|
  {
    assert |multiset(Sort(ms))| == |multiset(ms)|;
  }

  lemma {:induction false} SortedAreValid(v: Json)
    requires v.Object? && Valid(v)
    ensures forall i :: 0 <= i < |Sort(v.members)| ==> Joined(Sort(v.members)[i].key) && Valid(Sort(v.members)[i].value)
  {
    var ms := Sort(v.members);
    forall i | 0 <= i < |ms| ensures Joined(ms[i].key) && Valid(ms[i].value) {
      SortMember(v.members, ms[i]);
    }
  }

  lemma {:induction false} MembersStart(whole: Json, ms: seq<Member>, x: Text)
    requires forall i :: 0 <= i < |ms| ==> ms[i].value < whole
    ensures var a := Members(whole, ms, Python) + ([CLOSE_OBJECT] + x); a[0] == CLOSE_OBJECT <==> ms == []
  {
    if ms != [] {
      MembersStep(whole, ms, x);
    }
  }
}
