/** The canonical argument text an approval is bound to, and why it names one call. */
module CanonicalJson {
  import opened Order
  import opened Text
  import opened JsonText

  /** A JSON value as a program holds it: an object is its members in insertion order, a number
      that is not an integer is the spelling the program gives it. */
  datatype Json =
    | Null
    | Bool(b: bool)
    | Int(n: int)
    | Float(spelling: Text)
    | String(s: Str)
    | Array(items: seq<Json>)
    | Object(members: seq<Member>)

  datatype Member = Member(key: Str, value: Json)

  /** The approval client escapes everything outside printable ASCII; the control plane, in
      Rust, writes such characters as they are. */
  datatype Dialect = Python | Rust

  // ----- Rendering -----

  function RustChar(c: CodePoint): Text
  {
    if c < 0x80 && ShortEscape(c) != 0 then [92, ShortEscape(c)]
    else if c < 32 then [92, 117] + Hex4(c)
    else EncodeChar(c)
  }

  function RustSpelling(s: Str): Text
  {
    if s == [] then [] else RustChar(s[0]) + RustSpelling(s[1..])
  }

  function Quoted(s: Str, d: Dialect): Text
  {
    [QUOTE] + ((if d.Python? then EscapeUnits(Units(s)) else RustSpelling(s)) + [QUOTE])
  }

  function Integer(n: int): Text
  {
    if n < 0 then [45] + Decimal(-n) else Decimal(n)
  }

  /** Members in ascending key order. */
  function Insert(m: Member, sorted: seq<Member>): (r: seq<Member>)
    ensures multiset(r) == multiset(sorted) + multiset{m}
  {
    if sorted == [] then [m]
    else if Less(m.key, sorted[0].key) then [m] + sorted
    else
      assert sorted == [sorted[0]] + sorted[1..];
      [sorted[0]] + Insert(m, sorted[1..])
  }

  function Sort(ms: seq<Member>): (r: seq<Member>)
    ensures multiset(r) == multiset(ms)
  {
    if ms == [] then [] else
      assert ms == [ms[0]] + ms[1..];
      Insert(ms[0], Sort(ms[1..]))
  }

  lemma {:induction false} SortMember(ms: seq<Member>, m: Member)
    ensures m in Sort(ms) <==> m in ms
    ensures |Sort(ms)| == |ms|
  {
    assert m in multiset(Sort(ms)) <==> m in multiset(ms);
    assert |multiset(Sort(ms))| == |multiset(ms)|;
  }

  const COMMA: Byte := 44
  const COLON: Byte := 58
  const CLOSE_ARRAY: Byte := 93
  const CLOSE_OBJECT: Byte := 125

  function Canonical(v: Json, d: Dialect): Text
    decreases v, 1, 0
  {
    match v
    case Null => Bytes("null")
    case Bool(b) => if b then Bytes("true") else Bytes("false")
    case Int(n) => Integer(n)
    case Float(spelling) => spelling
    case String(s) => Quoted(s, d)
    case Array(items) => [91] + (Items(v, items, d) + [CLOSE_ARRAY])
    case Object(_) =>
      SortedAreParts(v);
      [123] + (Members(v, Sort(v.members), d) + [CLOSE_OBJECT])
  }

  function Items(whole: Json, items: seq<Json>, d: Dialect): Text
    requires forall i :: 0 <= i < |items| ==> items[i] < whole
    decreases whole, 0, |items|
  {
    if items == [] then []
    else if |items| == 1 then Canonical(items[0], d)
    else Canonical(items[0], d) + ([COMMA] + Items(whole, items[1..], d))
  }

  function MemberText(m: Member, d: Dialect): Text
    decreases m.value, 2, 0
  {
    Quoted(m.key, d) + ([COLON] + Canonical(m.value, d))
  }

  function Members(whole: Json, ms: seq<Member>, d: Dialect): Text
    requires forall i :: 0 <= i < |ms| ==> ms[i].value < whole
    decreases whole, 0, |ms|
  {
    if ms == [] then []
    else if |ms| == 1 then MemberText(ms[0], d)
    else MemberText(ms[0], d) + ([COMMA] + Members(whole, ms[1..], d))
  }

  lemma {:induction false} SortedAreParts(v: Json)
    requires v.Object?
    ensures forall i :: 0 <= i < |Sort(v.members)| ==> Sort(v.members)[i].value < v
  {
    var ms := Sort(v.members);
    forall i | 0 <= i < |ms| ensures ms[i].value < v {
      SortMember(v.members, ms[i]);
    }
  }
}
