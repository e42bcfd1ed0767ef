/** The payload an approval digest is taken over: which calls share one, and where the client
    that computes it and the control plane that checks it agree. */
module ApprovalDigest {
  import opened Order
  import opened Text
  import opened JsonText
  import opened CanonicalJson
  import opened CanonicalReadable

  // ----- Equal values have one spelling -----

  /** Ascending keys, no key twice. */
  predicate Ascending(ms: seq<Member>)
  {
    forall i, j :: 0 <= i < j < |ms| ==> Less(ms[i].key, ms[j].key)
  }

  lemma {:induction false} AscendingCons(m: Member, rest: seq<Member>)
    requires Ascending(rest) && forall j :: 0 <= j < |rest| ==> Less(m.key, rest[j].key)
    ensures Ascending([m] + rest)
  {
  }

  lemma {:induction false} InsertAscending(m: Member, sorted: seq<Member>)
    requires Ascending(sorted) && !HasKey(sorted, m.key)
    ensures Ascending(Insert(m, sorted))
    decreases |sorted|
  {
    if sorted != [] {
      if Less(m.key, sorted[0].key) {
        forall j | 0 <= j < |sorted| ensures Less(m.key, sorted[j].key) {
          if j > 0 {
            LessTransitive(m.key, sorted[0].key, sorted[j].key);
          }
        }
        AscendingCons(m, sorted);
      } else {
        LessTotal(m.key, sorted[0].key);
        assert !HasKey(sorted[1..], m.key) by {
          assert forall i :: 0 <= i < |sorted[1..]| ==> sorted[1..][i] == sorted[i + 1];
        }
        InsertAscending(m, sorted[1..]);
        var rest := Insert(m, sorted[1..]);
        forall j | 0 <= j < |rest| ensures Less(sorted[0].key, rest[j].key) {
          assert rest[j] in multiset(rest);
        }
        AscendingCons(sorted[0], rest);
      }
    }
  }

  lemma {:induction false} SortAscending(ms: seq<Member>)
    requires DistinctKeys(ms)
    ensures Ascending(Sort(ms))
  {
    if ms != [] {
      SortAscending(ms[1..]);
      var rest := Sort(ms[1..]);
      assert !HasKey(rest, ms[0].key) by {
        forall i | 0 <= i < |rest| ensures rest[i].key != ms[0].key {
          SortMember(ms[1..], rest[i]);
        }
      }
      InsertAscending(ms[0], rest);
    }
  }

  lemma {:induction false} FirstKeysMeet(a: seq<Member>, b: seq<Member>)
    requires Ascending(a) && Ascending(b) && a != [] && b != []
    requires Partnered(a[0], b) && HasKey(a, b[0].key)
    ensures a[0].key == b[0].key && Same(a[0].value, b[0].value)
  {
    var j :| 0 <= j < |b| && a[0].key == b[j].key && Same(a[0].value, b[j].value);
    var i :| 0 <= i < |a| && a[i].key == b[0].key;
    if j > 0 {
      assert Less(b[0].key, b[j].key);
      if i > 0 {
        LessTransitive(a[0].key, a[i].key, b[j].key);
      }
      LessIrreflexive(a[0].key);
    }
  }

  /** Two ascending lists of members that match as dictionaries match position by position. */
  lemma {:induction false} AscendingMatch(a: seq<Member>, b: seq<Member>)
    requires Ascending(a) && Ascending(b) && Matching(a, b)
    ensures SameMembers(a, b)
    decreases |a|
  {
    assert (b != [] ==> HasKey(a, b[0].key)) && (a != [] ==> Partnered(a[0], b));
    if a != [] {
      FirstKeysMeet(a, b);
      TailsMatch(a, b);
      AscendingMatch(a[1..], b[1..]);
      SameMembersCons(a, b);
    }
  }

  lemma {:induction false} SameMembersCons(a: seq<Member>, b: seq<Member>)
    requires a != [] && b != [] && a[0].key == b[0].key && Same(a[0].value, b[0].value) && SameMembers(a[1..], b[1..])
    ensures SameMembers(a, b)
  {
    forall i | 0 <= i < |a| ensures a[i].key == b[i].key && Same(a[i].value, b[i].value) {
      if i > 0 {
        assert a[i] == a[1..][i - 1] && b[i] == b[1..][i - 1];
      }
    }
  }

  lemma {:induction false} TailPartner(a: seq<Member>, b: seq<Member>, i: nat)
    requires Ascending(a) && b != [] && 1 <= i < |a| && a[0].key == b[0].key && Partnered(a[i], b)
    ensures Partnered(a[i], b[1..])
  {
    var j :| 0 <= j < |b| && a[i].key == b[j].key && Same(a[i].value, b[j].value);
    LessIrreflexive(a[0].key);
    assert b[1..][j - 1] == b[j];
  }

  lemma {:induction false} TailKey(a: seq<Member>, b: seq<Member>, j: nat)
    requires Ascending(b) && a != [] && 1 <= j < |b| && a[0].key == b[0].key && HasKey(a, b[j].key)
    ensures HasKey(a[1..], b[j].key)
  {
    var i :| 0 <= i < |a| && a[i].key == b[j].key;
    LessIrreflexive(b[0].key);
    assert a[1..][i - 1] == a[i];
  }

  ghost predicate Matching(a: seq<Member>, b: seq<Member>)
  {
    && (forall i :: 0 <= i < |a| ==> Partnered(a[i], b))
    && (forall j :: 0 <= j < |b| ==> HasKey(a, b[j].key))
  }

  lemma {:induction false} TailsMatch(a: seq<Member>, b: seq<Member>)
    requires Ascending(a) && Ascending(b) && Matching(a, b) && a != [] && b != [] && a[0].key == b[0].key
    ensures Ascending(a[1..]) && Ascending(b[1..]) && Matching(a[1..], b[1..])
  {
    forall i | 0 <= i < |a[1..]| ensures Partnered(a[1..][i], b[1..]) {
      TailPartner(a, b, i + 1);
    }
    forall j | 0 <= j < |b[1..]| ensures HasKey(a[1..], b[1..][j].key) {
      TailKey(a, b, j + 1);
    }
  }

  /** The sorted members of equal objects match position by position, whatever order the
      members were inserted in. */
  lemma {:induction false} SortedMatch(v: Json, w: Json)
    requires v.Object? && w.Object? && Valid(v) && Valid(w) && Same(v, w)
    ensures SameMembers(Sort(v.members), Sort(w.members))
  {
    var a, b := Sort(v.members), Sort(w.members);
    SortAscending(v.members);
    SortAscending(w.members);
    forall i | 0 <= i < |a| ensures Partnered(a[i], b) {
      SortMember(v.members, a[i]);
      PartnerSorted(a[i], w.members);
    }
    forall j | 0 <= j < |b| ensures HasKey(a, b[j].key) {
      SortMember(w.members, b[j]);
      KeySorted(v.members, b[j].key);
    }
    AscendingMatch(a, b);
  }

  lemma {:induction false} PartnerSorted(m: Member, ms: seq<Member>)
    requires Partnered(m, ms)
    ensures Partnered(m, Sort(ms))
  {
    var j :| 0 <= j < |ms| && m.key == ms[j].key && Same(m.value, ms[j].value);
    SortMember(ms, ms[j]);
    var p :| 0 <= p < |Sort(ms)| && Sort(ms)[p] == ms[j];
  }

  lemma {:induction false} KeySorted(ms: seq<Member>, key: Str)
    requires HasKey(ms, key)
    ensures HasKey(Sort(ms), key)
  {
    var i :| 0 <= i < |ms| && ms[i].key == key;
    SortMember(ms, ms[i]);
  }

  lemma {:induction false} SameSpelling(v: Json, w: Json, d: Dialect)
    requires Valid(v) && Valid(w) && Same(v, w)
    ensures Canonical(v, d) == Canonical(w, d)
    decreases v, 1, 0
  {
    match v {
      case Array(items) => ItemsSpelling(v, items, w, w.items, d);
      case Object(_) =>
        SortedMatch(v, w);
        SortedAreParts(v);
        SortedAreParts(w);
        SortedAreValid(v);
        SortedAreValid(w);
        MembersSpelling(v, Sort(v.members), w, Sort(w.members), d);
      case _ =>
    }
  }

  lemma {:induction false} ItemsSpelling(v: Json, a: seq<Json>, w: Json, b: seq<Json>, d: Dialect)
    requires |a| == |b| && forall i :: 0 <= i < |a| ==> a[i] < v && b[i] < w && Valid(a[i]) && Valid(b[i]) && Same(a[i], b[i])
    ensures Items(v, a, d) == Items(w, b, d)
    decreases v, 0, |a|
  {
    if a != [] {
      SameSpelling(a[0], b[0], d);
      ItemsSpelling(v, a[1..], w, b[1..], d);
    }
  }

  lemma {:induction false} MembersSpelling(v: Json, a: seq<Member>, w: Json, b: seq<Member>, d: Dialect)
    requires SameMembers(a, b)
    requires forall i :: 0 <= i < |a| ==> a[i].value < v && b[i].value < w && Valid(a[i].value) && Valid(b[i].value)
    ensures Members(v, a, d) == Members(w, b, d)
    decreases v, 0, |a|
  {
    if a != [] {
      SameSpelling(a[0].value, b[0].value, d);
      MembersSpelling(v, a[1..], w, b[1..], d);
    }
  }

  /** Canonical text names a value: two decoded values have the same text exactly when they are
      equal, members in any order. */
  lemma {:induction false} CanonicalIff(v: Json, w: Json)
    requires Valid(v) && Valid(w)
    ensures Canonical(v, Python) == Canonical(w, Python) <==> Same(v, w)
  {
    if Canonical(v, Python) == Canonical(w, Python) {
      Readable(v, w, [], []);
    }
    if Same(v, w) {
      SameSpelling(v, w, Python);
    }
  }

  // ----- The payload -----

  predicate Printable(t: Text) { forall i :: 0 <= i < |t| ==> 32 <= t[i] < 127 }

  lemma {:induction false} WordPrintable(word: string)
    requires forall i :: 0 <= i < |word| ==> 'a' <= word[i] <= 'z'
    ensures Printable(Bytes(word))
  {
  }

  lemma {:induction false} WordsPrintable()
    ensures Printable(Bytes("null")) && Printable(Bytes("true")) && Printable(Bytes("false"))
  {
    WordPrintable("null");
    WordPrintable("true");
    WordPrintable("false");
  }

  lemma {:induction false} QuotedPrintable(s: Str)
    ensures Printable(Quoted(s, Python))
  {
    PrintableConcat(EscapeUnits(Units(s)), [QUOTE]);
    PrintableConcat([QUOTE], EscapeUnits(Units(s)) + [QUOTE]);
  }

  lemma {:induction false} CanonicalPrintable(v: Json)
    requires Valid(v)
    ensures Printable(Canonical(v, Python))
    decreases v, 1, 0
  {
    match v {
      case Null => WordsPrintable();
      case Bool(_) => WordsPrintable();
      case Int(n) => IntegerBytes(n);
      case Float(_) =>
      case String(s) => QuotedPrintable(s);
      case Array(items) =>
        ItemsPrintable(v, items);
        PrintableConcat(Items(v, items, Python), [CLOSE_ARRAY]);
        PrintableConcat([91], Items(v, items, Python) + [CLOSE_ARRAY]);
      case Object(_) =>
        SortedAreParts(v);
        SortedAreValid(v);
        var members := Members(v, Sort(v.members), Python);
        MembersPrintable(v, Sort(v.members));
        PrintableConcat(members, [CLOSE_OBJECT]);
        PrintableConcat([123], members + [CLOSE_OBJECT]);
    }
  }

  lemma {:induction false} ItemsPrintable(v: Json, items: seq<Json>)
    requires forall i :: 0 <= i < |items| ==> items[i] < v && Valid(items[i])
    ensures Printable(Items(v, items, Python))
    decreases v, 0, |items|
  {
    if items != [] {
      CanonicalPrintable(items[0]);
      ItemsPrintable(v, items[1..]);
      if |items| > 1 {
        PrintableConcat([COMMA], Items(v, items[1..], Python));
        PrintableConcat(Canonical(items[0], Python), [COMMA] + Items(v, items[1..], Python));
      }
    }
  }

  lemma {:induction false} PrintableConcat(a: Text, b: Text)
    ensures Printable(a + b) <==> Printable(a) && Printable(b)
  {
    assert forall i :: 0 <= i < |a| ==> (a + b)[i] == a[i];
    assert forall i :: 0 <= i < |b| ==> (a + b)[|a| + i] == b[i];
  }

  /** A member is printable exactly when its key and its value are. */
  lemma {:induction false} PrintableMember(m: Member, d: Dialect)
    ensures Printable(MemberText(m, d)) <==> Printable(Quoted(m.key, d)) && Printable(Canonical(m.value, d))
  {
    PrintableConcat(Quoted(m.key, d), [COLON] + Canonical(m.value, d));
    PrintableConcat([COLON], Canonical(m.value, d));
  }

  lemma {:induction false} PrintableMembers(v: Json, ms: seq<Member>, d: Dialect)
    requires ms != [] && forall i :: 0 <= i < |ms| ==> ms[i].value < v
    ensures Printable(Members(v, ms, d)) <==> Printable(MemberText(ms[0], d)) && Printable(Members(v, ms[1..], d))
  {
    if |ms| > 1 {
      PrintableConcat(MemberText(ms[0], d), [COMMA] + Members(v, ms[1..], d));
      PrintableConcat([COMMA], Members(v, ms[1..], d));
    }
  }

  lemma {:induction false} MembersPrintable(v: Json, ms: seq<Member>)
    requires forall i :: 0 <= i < |ms| ==> ms[i].value < v && Valid(ms[i].value)
    ensures Printable(Members(v, ms, Python))
    decreases v, 0, |ms|
  {
    if ms != [] {
      CanonicalPrintable(ms[0].value);
      QuotedPrintable(ms[0].key);
      PrintableMember(ms[0], Python);
      MembersPrintable(v, ms[1..]);
      PrintableMembers(v, ms, Python);
    }
  }

  datatype Payload = EncodeError | Payload(bytes: Text)

  /** The tool's name in UTF-8, a NUL, the canonical arguments. A name holding a surrogate has
      no encoding. */
  function PayloadOf(tool: Str, arguments: Json): Payload
  {
    if exists i :: 0 <= i < |tool| && Surrogate(tool[i]) then EncodeError
    else Payload(Encode(tool) + ([0] + Canonical(arguments, Python)))
  }

  lemma {:induction false} LastNulSplits(a: Text, b: Text, c: Text, d: Text)
    requires Printable(c) && Printable(d) && a + ([0] + c) == b + ([0] + d)
    ensures a == b && c == d
  {
    var s, t := a + ([0] + c), b + ([0] + d);
    assert s[|a|] == 0 && forall k :: |a| < k < |s| ==> s[k] == c[k - |a| - 1];
    assert t[|b|] == 0 && forall k :: |b| < k < |t| ==> t[k] == d[k - |b| - 1];
    assert |a| == |b|;
    assert a == s[..|a|] && b == t[..|a|] && c == s[|a| + 1..] && d == t[|a| + 1..];
  }

  /** An approval is bound to one call: two calls have the same payload exactly when the tool is
      the same and the arguments are equal, even for a tool name that itself holds a NUL. */
  lemma {:induction false} PayloadIff(tool: Str, arguments: Json, tool': Str, arguments': Json)
    requires Valid(arguments) && Valid(arguments')
    requires PayloadOf(tool, arguments).Payload? && PayloadOf(tool', arguments').Payload?
    ensures PayloadOf(tool, arguments) == PayloadOf(tool', arguments') <==> tool == tool' && Same(arguments, arguments')
  {
    CanonicalPrintable(arguments);
    CanonicalPrintable(arguments');
    CanonicalIff(arguments, arguments');
    if PayloadOf(tool, arguments) == PayloadOf(tool', arguments') {
      LastNulSplits(Encode(tool), Encode(tool'), Canonical(arguments, Python), Canonical(arguments', Python));
      EncodeInjective(tool, tool');
    }
  }

  // ----- Where the client and the control plane agree -----

  predicate Plain(s: Str) { forall i :: 0 <= i < |s| ==> s[i] < 127 }

  /** Every string and every key is ASCII without DEL. */
  predicate PlainValue(v: Json)
    decreases v
  {
    match v
    case String(s) => Plain(s)
    case Array(items) => forall i :: 0 <= i < |items| ==> PlainValue(items[i])
    case Object(ms) => forall i :: 0 <= i < |ms| ==> Plain(ms[i].key) && PlainValue(ms[i].value)
    case _ => true
  }

  lemma {:induction false} PlainSpelling(s: Str)
    requires Plain(s)
    ensures EscapeUnits(Units(s)) == RustSpelling(s)
  {
    if s != [] {
      PlainSpelling(s[1..]);
      assert Units(s) == [s[0]] + Units(s[1..]);
      assert EscapeUnit(s[0]) == RustChar(s[0]);
    }
  }

  lemma {:induction false} RawChar(c: CodePoint)
    requires Printable(RustChar(c))
    ensures c < 127
  {
    var t := RustChar(c);
    assert t != [] && t[0] < 127;
  }

  lemma {:induction false} RawSpelling(s: Str)
    requires Printable(RustSpelling(s))
    ensures Plain(s)
  {
    if s != [] {
      PrintableConcat(RustChar(s[0]), RustSpelling(s[1..]));
      RawChar(s[0]);
      RawSpelling(s[1..]);
      assert s == [s[0]] + s[1..];
    }
  }

  lemma {:induction false} RawQuoted(s: Str)
    requires Printable(Quoted(s, Rust))
    ensures Plain(s)
  {
    PrintableConcat([QUOTE], RustSpelling(s) + [QUOTE]);
    PrintableConcat(RustSpelling(s), [QUOTE]);
    RawSpelling(s);
  }

  lemma {:induction false} PlainAgrees(v: Json)
    requires PlainValue(v)
    ensures Canonical(v, Python) == Canonical(v, Rust)
    decreases v, 1, 0
  {
    match v {
      case String(s) => PlainSpelling(s);
      case Array(items) => ItemsAgree(v, items);
      case Object(ms) =>
        SortedAreParts(v);
        forall i | 0 <= i < |Sort(ms)| ensures Plain(Sort(ms)[i].key) && PlainValue(Sort(ms)[i].value) {
          SortMember(ms, Sort(ms)[i]);
        }
        MembersAgree(v, Sort(ms));
      case _ =>
    }
  }

  lemma {:induction false} ItemsAgree(v: Json, items: seq<Json>)
    requires forall i :: 0 <= i < |items| ==> items[i] < v && PlainValue(items[i])
    ensures Items(v, items, Python) == Items(v, items, Rust)
    decreases v, 0, |items|
  {
    if items != [] {
      PlainAgrees(items[0]);
      ItemsAgree(v, items[1..]);
    }
  }

  lemma {:induction false} MembersAgree(v: Json, ms: seq<Member>)
    requires forall i :: 0 <= i < |ms| ==> ms[i].value < v && Plain(ms[i].key) && PlainValue(ms[i].value)
    ensures Members(v, ms, Python) == Members(v, ms, Rust)
    decreases v, 0, |ms|
  {
    if ms != [] {
      PlainSpelling(ms[0].key);
      PlainAgrees(ms[0].value);
      assert MemberText(ms[0], Python) == MemberText(ms[0], Rust);
      MembersAgree(v, ms[1..]);
    }
  }

  lemma {:induction false} RawValue(v: Json)
    requires Printable(Canonical(v, Rust))
    ensures PlainValue(v)
    decreases v, 1, 0
  {
    match v {
      case String(s) => RawQuoted(s);
      case Array(items) =>
        PrintableConcat([91], Items(v, items, Rust) + [CLOSE_ARRAY]);
        PrintableConcat(Items(v, items, Rust), [CLOSE_ARRAY]);
        RawItems(v, items);
      case Object(_) =>
        SortedAreParts(v);
        var ms := Sort(v.members);
        PrintableConcat([123], Members(v, ms, Rust) + [CLOSE_OBJECT]);
        PrintableConcat(Members(v, ms, Rust), [CLOSE_OBJECT]);
        RawMembers(v, ms);
        forall i | 0 <= i < |v.members| ensures Plain(v.members[i].key) && PlainValue(v.members[i].value) {
          SortMember(v.members, v.members[i]);
        }
      case _ =>
    }
  }

  lemma {:induction false} RawItems(v: Json, items: seq<Json>)
    requires (forall i :: 0 <= i < |items| ==> items[i] < v) && Printable(Items(v, items, Rust))
    ensures forall i :: 0 <= i < |items| ==> PlainValue(items[i])
    decreases v, 0, |items|
  {
    if items != [] {
      if |items| > 1 {
        PrintableConcat(Canonical(items[0], Rust), [COMMA] + Items(v, items[1..], Rust));
        PrintableConcat([COMMA], Items(v, items[1..], Rust));
      }
      RawValue(items[0]);
      RawItems(v, items[1..]);
      assert forall i :: 1 <= i < |items| ==> items[i] == items[1..][i - 1];
    }
  }

  lemma {:induction false} RawMembers(v: Json, ms: seq<Member>)
    requires (forall i :: 0 <= i < |ms| ==> ms[i].value < v) && Printable(Members(v, ms, Rust))
    ensures forall i :: 0 <= i < |ms| ==> Plain(ms[i].key) && PlainValue(ms[i].value)
    decreases v, 0, |ms|
  {
    if ms != [] {
      PrintableMembers(v, ms, Rust);
      PrintableMember(ms[0], Rust);
      RawQuoted(ms[0].key);
      RawValue(ms[0].value);
      RawMembers(v, ms[1..]);
      assert forall i :: 1 <= i < |ms| ==> ms[i] == ms[1..][i - 1];
    }
  }

  /** The client's text of a value is meant to match, byte for byte, the control plane's text of the
      value it decoded from the same call. It does exactly when the two are equal, numbers as each
      side spells them, and every string is ASCII without DEL: beyond that one escapes what the
      other writes raw, and the digest the client sends is one no call presents. */
  lemma {:induction false} DialectsAgreeIff(v: Json, w: Json)
    requires Valid(v) && Valid(w)
    ensures Canonical(v, Python) == Canonical(w, Rust) <==> PlainValue(w) && Same(v, w)
  {
    CanonicalPrintable(v);
    CanonicalIff(v, w);
    if PlainValue(w) {
      PlainAgrees(w);
    }
    if Canonical(v, Python) == Canonical(w, Rust) {
      RawValue(w);
    }
  }

  /** A value the two sides spell differently: a string of one accented letter. */
  lemma {:induction false} DialectsCanDisagree()
    ensures exists v :: Valid(v) && Canonical(v, Python) != Canonical(v, Rust)
  {
    var v := String([233]);
    DialectsAgreeIff(v, v);
    assert !PlainValue(v);
  }
}
