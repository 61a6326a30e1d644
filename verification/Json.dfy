/**
 The deterministic serialiser behind command fingerprints: object members are printed in the order of their
 keys. Two values print alike exactly when they are the same value up to the order of object keys, negative
 zero being zero and a number that is not finite being null.
 */
module Json {
  import opened Prelude
  import opened JsonText

  type Token = t: Text | NumberToken(t) witness [0x30]

  /** A finite number other than negative zero is known by its shortest decimal token. */
  datatype Num = NegativeZero | Finite(token: Token) | NonFinite

  datatype Value =
    | Null
    | Bool(flag: bool)
    | Number(number: Num)
    | Str(text: Text)
    | Arr(items: seq<Value>)
    | Obj(fields: seq<Field>)
    | Unsupported

  datatype Field = Field(key: Text, value: Value)
  datatype Member = Member(key: Text, text: Text)

  const COMMA: Unit := 0x2c
  const COLON: Unit := 0x3a
  const OPEN_LIST: Unit := 0x5b
  const CLOSE_LIST: Unit := 0x5d
  const OPEN_RECORD: Unit := 0x7b
  const CLOSE_RECORD: Unit := 0x7d

  const NULL: Text := [0x6e, 0x75, 0x6c, 0x6c]
  const TRUE: Text := [0x74, 0x72, 0x75, 0x65]
  const FALSE: Text := [0x66, 0x61, 0x6c, 0x73, 0x65]
  const ZERO: Token := [0x30]

  /** The members of an object have different keys, everywhere inside the value. */
  predicate Proper(v: Value) {
    match v
    case Arr(items) => forall i :: 0 <= i < |items| ==> Proper(items[i])
    case Obj(fields) =>
      (forall i, j :: 0 <= i < j < |fields| ==> fields[i].key != fields[j].key) &&
      forall i :: 0 <= i < |fields| ==> Proper(fields[i].value)
    case _ => true
  }

  /** Nothing in the value makes the serialiser throw. */
  predicate Supported(v: Value) {
    match v
    case Arr(items) => forall i :: 0 <= i < |items| ==> Supported(items[i])
    case Obj(fields) => forall i :: 0 <= i < |fields| ==> Supported(fields[i].value)
    case Unsupported => false
    case _ => true
  }

  function Insert(m: Member, members: seq<Member>): seq<Member> {
    if members == [] || Before(m.key, members[0].key) then [m] + members
    else [members[0]] + Insert(m, members[1..])
  }

  function Print(v: Value): Text {
    match v
    case Null => NULL
    case Bool(flag) => if flag then TRUE else FALSE
    case Number(NegativeZero) => ZERO
    case Number(Finite(token)) => token
    case Number(NonFinite) => NULL
    case Str(text) => Quoted(text)
    case Arr(items) => [OPEN_LIST] + PrintItems(items) + [CLOSE_LIST]
    case Obj(fields) => [OPEN_RECORD] + Joined(Members(fields)) + [CLOSE_RECORD]
    case Unsupported => []
  }

  function PrintItems(items: seq<Value>): Text {
    if items == [] then []
    else if |items| == 1 then Print(items[0])
    else Print(items[0]) + [COMMA] + PrintItems(items[1..])
  }

  /** The printed members, sorted by key. */
  function Members(fields: seq<Field>): seq<Member> {
    if fields == [] then []
    else Insert(Member(fields[0].key, Print(fields[0].value)), Members(fields[1..]))
  }

  function PrintMember(m: Member): Text {
    Quoted(m.key) + [COLON] + m.text
  }

  function Joined(members: seq<Member>): Text {
    if members == [] then []
    else if |members| == 1 then PrintMember(members[0])
    else PrintMember(members[0]) + [COMMA] + Joined(members[1..])
  }

  /** The serialiser throws on a value it does not support. */
  function Serialize(v: Value): Option<Text> {
    if Supported(v) then Some(Print(v)) else None
  }

  // ------------------------------------------------------------ equivalence

  /** The same number, a value that is not finite counting as null. */
  predicate SameNumber(a: Num, b: Num) {
    a == b || (a.NegativeZero? && b == Finite(ZERO)) || (b.NegativeZero? && a == Finite(ZERO))
  }

  predicate Nothing(v: Value) {
    v.Null? || v == Number(NonFinite)
  }

  predicate Equivalent(a: Value, b: Value) {
    if Nothing(a) || Nothing(b) then Nothing(a) && Nothing(b)
    else
      match a
      case Bool(flag) => b == a
      case Number(n) => b.Number? && SameNumber(n, b.number)
      case Str(text) => b == a
      case Arr(items) => b.Arr? && |items| == |b.items| && forall i :: 0 <= i < |items| ==>
        Equivalent(items[i], b.items[i])
      case Obj(fields) =>
        b.Obj? && |fields| == |b.fields| && forall i :: 0 <= i < |fields| ==> HasEquivalent(fields[i], b.fields)
      case _ => b == a
  }

  predicate HasEquivalent(f: Field, fields: seq<Field>) {
    exists j :: 0 <= j < |fields| && fields[j].key == f.key && Equivalent(f.value, fields[j].value)
  }

  // ---------------------------------------------------------------- sorting

  ghost predicate Ordered(members: seq<Member>) {
    forall i, j :: 0 <= i < j < |members| ==> Before(members[i].key, members[j].key)
  }

  lemma {:induction false} InsertOrders(m: Member, members: seq<Member>)
    requires Ordered(members) && forall x :: x in members ==> x.key != m.key
    ensures Ordered(Insert(m, members)) && |Insert(m, members)| == |members| + 1
    ensures forall x :: x in Insert(m, members) <==> x == m || x in members
  {
    if members == [] {
    } else if Before(m.key, members[0].key) {
      forall j | 0 <= j < |members|
        ensures Before(m.key, members[j].key)
      {
        if j > 0 {
          BeforeIsTransitive(m.key, members[0].key, members[j].key);
        }
      }
    } else {
      assert members[0] in members;
      BeforeIsTotal(m.key, members[0].key);
      assert members == [members[0]] + members[1..];
      InsertOrders(m, members[1..]);
      var rest := Insert(m, members[1..]);
      forall j | 0 <= j < |rest|
        ensures Before(members[0].key, rest[j].key)
      {
        assert rest[j] in rest;
        if rest[j] != m {
          var k :| 0 <= k < |members[1..]| && members[1..][k] == rest[j];
          assert members[k + 1] == rest[j];
        }
      }
    }
  }

  ghost predicate DistinctKeys(fields: seq<Field>) {
    forall i, j :: 0 <= i < j < |fields| ==> fields[i].key != fields[j].key
  }

  function MemberOf(f: Field): Member {
    Member(f.key, Print(f.value))
  }

  lemma {:induction false} MembersOrder(fields: seq<Field>)
    requires DistinctKeys(fields)
    ensures Ordered(Members(fields)) && |Members(fields)| == |fields|
    ensures forall x :: x in Members(fields) <==> exists i :: 0 <= i < |fields| && x == MemberOf(fields[i])
  {
    if fields != [] {
      hide Print;
      var rest := fields[1..];
      MembersOrder(rest);
      forall x | x in Members(rest)
        ensures x.key != fields[0].key
      {
        var i :| 0 <= i < |rest| && x == MemberOf(rest[i]);
        assert rest[i] == fields[i + 1];
      }
      InsertOrders(MemberOf(fields[0]), Members(rest));
      forall x | x in Members(fields)
        ensures exists i :: 0 <= i < |fields| && x == MemberOf(fields[i])
      {
        if x != MemberOf(fields[0]) {
          var i :| 0 <= i < |rest| && x == MemberOf(rest[i]);
          assert x == MemberOf(fields[i + 1]);
        }
      }
      forall i | 0 <= i < |fields|
        ensures MemberOf(fields[i]) in Members(fields)
      {
        if i > 0 {
          assert fields[i] == rest[i - 1];
        }
      }
    }
  }

  /** A list in strict order is known by its elements. */
  lemma {:induction false} OrderIsUnique(a: seq<Member>, b: seq<Member>)
    requires Ordered(a) && Ordered(b) && forall x :: x in a <==> x in b
    ensures a == b
  {
    assert a != [] ==> a[0] in b;
    assert b != [] ==> b[0] in a;
    if a != [] && b != [] {
      BeforeIsTotal(a[0].key, b[0].key);
      BeforeIsTotal(a[0].key, a[0].key);
      assert a[0] == b[0];
      var a', b' := a[1..], b[1..];
      assert a == [a[0]] + a' && b == [b[0]] + b';
      forall x | x in a'
        ensures x in b'
      {
        assert x in a && x != a[0];
      }
      forall x | x in b'
        ensures x in a'
      {
        assert x in b && x != b[0];
      }
      OrderIsUnique(a', b');
    }
  }

  // ---------------------------------------------- the text decides the value

  /** A closing bracket, a comma or the end: what may follow a printed value. */
  predicate Follows(x: Text) {
    x == [] || x[0] == COMMA || x[0] == CLOSE_LIST || x[0] == CLOSE_RECORD
  }

  lemma Heads(v: Value, x: Text)
    requires Supported(v)
    ensures Print(v) != [] && (Print(v) + x)[0] == Print(v)[0]
    ensures
      var u := Print(v)[0];
      (u == 0x6e <==> Nothing(v)) && (u == 0x74 <==> v == Bool(true)) && (u == 0x66 <==> v == Bool(false)) &&
      (u == QUOTE <==> v.Str?) && (u == OPEN_LIST <==> v.Arr?) && (u == OPEN_RECORD <==> v.Obj?) &&
      u != CLOSE_LIST && u != CLOSE_RECORD && u != COMMA
  {
    if v.Number? && v.number.Finite? {
      assert v.number.token[0] == 0x2d || 0x30 <= v.number.token[0] <= 0x39;
    }
  }

  /** What follows the first of some printed elements. */
  function Tail(single: bool, rest: Text, close: Unit, x: Text): Text {
    if single then [close] + x else [COMMA] + rest + [close] + x
  }

  lemma TailsEnd(single: bool, rest: Text, x: Text, single': bool, rest': Text, y: Text, close: Unit)
    requires Tail(single, rest, close, x) == Tail(single', rest', close, y) && close != COMMA
    ensures single == single'
    ensures if single then x == y else rest + [close] + x == rest' + [close] + y
  {
    var s, t := Tail(single, rest, close, x), Tail(single', rest', close, y);
    assert s[0] == (if single then close else COMMA) && t[0] == (if single' then close else COMMA);
    assert single ==> s[1..] == x;
    assert single' ==> t[1..] == y;
    assert !single ==> s[1..] == rest + [close] + x;
    assert !single' ==> t[1..] == rest' + [close] + y;
  }

  lemma Regroup(p: Text, c: Text, r: Text, d: Text, x: Text)
    ensures (p + c + r) + d + x == p + (c + r + d + x)
  {
  }

  lemma Regroup3(p: Text, c: Text, r: Text, x: Text)
    ensures p + c + r + x == p + (c + (r + x))
  {
  }

  lemma FirstItem(items: seq<Value>, x: Text)
    requires items != []
    ensures PrintItems(items) + [CLOSE_LIST] + x == Print(items[0]) +
            Tail(|items| == 1, PrintItems(items[1..]), CLOSE_LIST, x)
    ensures Follows(Tail(|items| == 1, PrintItems(items[1..]), CLOSE_LIST, x))
  {
    hide Print;
    if |items| == 1 {
      Regroup3(Print(items[0]), [], [CLOSE_LIST], x);
      assert Print(items[0]) + [] == Print(items[0]) && [] + ([CLOSE_LIST] + x) == [CLOSE_LIST] + x;
    } else {
      Regroup(Print(items[0]), [COMMA], PrintItems(items[1..]), [CLOSE_LIST], x);
    }
  }

  lemma {:induction false} ItemsEnd(a: seq<Value>, b: seq<Value>, x: Text, y: Text)
    requires forall i :: 0 <= i < |a| ==> Supported(a[i]) && Proper(a[i])
    requires forall i :: 0 <= i < |b| ==> Supported(b[i]) && Proper(b[i])
    requires PrintItems(a) + [CLOSE_LIST] + x == PrintItems(b) + [CLOSE_LIST] + y
    ensures |a| == |b| && x == y && forall i :: 0 <= i < |a| ==> Equivalent(a[i], b[i])
    decreases a, 0
  {
    hide Equivalent, Print, Supported, Proper;
    assert PrintItems([]) + [CLOSE_LIST] + x == [CLOSE_LIST] + x &&
           PrintItems([]) + [CLOSE_LIST] + y == [CLOSE_LIST] + y;
    if a != [] {
      FirstItem(a, x);
      Heads(a[0], Tail(|a| == 1, PrintItems(a[1..]), CLOSE_LIST, x));
    }
    if b != [] {
      FirstItem(b, y);
      Heads(b[0], Tail(|b| == 1, PrintItems(b[1..]), CLOSE_LIST, y));
    }
    if a == [] {
      assert b == [];
      assert x == ([CLOSE_LIST] + x)[1..] && y == ([CLOSE_LIST] + y)[1..];
    } else {
      assert b != [];
      var s, t := Tail(|a| == 1, PrintItems(a[1..]), CLOSE_LIST, x), Tail(|b| == 1, PrintItems(b[1..]), CLOSE_LIST, y);
      Ends(a[0], b[0], s, t);
      TailsEnd(|a| == 1, PrintItems(a[1..]), x, |b| == 1, PrintItems(b[1..]), y, CLOSE_LIST);
      if |a| > 1 {
        ItemsEnd(a[1..], b[1..], x, y);
        assert forall i :: 0 < i < |a| ==> a[i] == a[1..][i - 1] && b[i] == b[1..][i - 1];
      }
    }
  }

  lemma FirstMember(members: seq<Member>, x: Text)
    requires members != []
    ensures
      var tail := Tail(|members| == 1, Joined(members[1..]), CLOSE_RECORD, x);
      Joined(members) + [CLOSE_RECORD] + x == Quoted(members[0].key) + ([COLON] + (members[0].text + tail)) &&
        Follows(tail)
  {
    FirstPrinted(members, x);
    hide Quoted, Joined;
    Regroup3(Quoted(members[0].key), [COLON], members[0].text,
             Tail(|members| == 1, Joined(members[1..]), CLOSE_RECORD, x));
  }

  lemma FirstPrinted(members: seq<Member>, x: Text)
    requires members != []
    ensures
      Joined(members) + [CLOSE_RECORD] + x ==
      PrintMember(members[0]) + Tail(|members| == 1, Joined(members[1..]), CLOSE_RECORD, x)
    ensures Follows(Tail(|members| == 1, Joined(members[1..]), CLOSE_RECORD, x))
  {
    hide PrintMember;
    if |members| == 1 {
      Regroup3(PrintMember(members[0]), [], [CLOSE_RECORD], x);
      assert PrintMember(members[0]) + [] == PrintMember(members[0]) && [] + ([CLOSE_RECORD] + x) == [CLOSE_RECORD] + x;
    } else {
      Regroup(PrintMember(members[0]), [COMMA], Joined(members[1..]), [CLOSE_RECORD], x);
    }
  }

  /** The member is the printed field at some place. */
  predicate From(m: Member, fields: seq<Field>) {
    exists i :: 0 <= i < |fields| && m == MemberOf(fields[i])
  }

  predicate AllFrom(members: seq<Member>, fields: seq<Field>) {
    forall k :: 0 <= k < |members| ==> From(members[k], fields)
  }

  /** Both fields print as members of this key, and their values are equivalent. */
  predicate Match(m: Member, n: Member, a: seq<Field>, b: seq<Field>) {
    m.key == n.key &&
    exists i, j ::
      0 <= i < |a| && 0 <= j < |b| && m == MemberOf(a[i]) && n == MemberOf(b[j]) && Equivalent(a[i].value, b[j].value)
  }

  lemma {:induction false} MembersEnd(a: seq<Field>, b: seq<Field>, ms: seq<Member>, ns: seq<Member>, x: Text, y: Text)
    requires forall i :: 0 <= i < |a| ==> Supported(a[i].value) && Proper(a[i].value)
    requires forall i :: 0 <= i < |b| ==> Supported(b[i].value) && Proper(b[i].value)
    requires AllFrom(ms, a) && AllFrom(ns, b)
    requires Joined(ms) + [CLOSE_RECORD] + x == Joined(ns) + [CLOSE_RECORD] + y
    ensures |ms| == |ns| && x == y && forall k :: 0 <= k < |ms| ==> Match(ms[k], ns[k], a, b)
    decreases a, |ms|
  {
    hide Equivalent, Print, Supported, Proper;
    JoinedStarts(ms, x);
    JoinedStarts(ns, y);
    hide Joined;
    if ms == [] {
      assert ns == [];
      assert x == ([CLOSE_RECORD] + x)[1..] && y == ([CLOSE_RECORD] + y)[1..];
    } else {
      assert ns != [];
      assert From(ms[0], a) && From(ns[0], b);
      var i :| 0 <= i < |a| && ms[0] == MemberOf(a[i]);
      var j :| 0 <= j < |b| && ns[0] == MemberOf(b[j]);
      FirstMembersEnd(ms, ns, x, y);
      var s, t := Tail(|ms| == 1, Joined(ms[1..]), CLOSE_RECORD, x), Tail(|ns| == 1, Joined(ns[1..]), CLOSE_RECORD, y);
      Ends(a[i].value, b[j].value, s, t);
      assert Match(ms[0], ns[0], a, b);
      TailsEnd(|ms| == 1, Joined(ms[1..]), x, |ns| == 1, Joined(ns[1..]), y, CLOSE_RECORD);
      if |ms| > 1 {
        assert forall k :: 0 < k < |ms| ==> ms[k] == ms[1..][k - 1];
        assert forall k :: 0 < k < |ns| ==> ns[k] == ns[1..][k - 1];
        MembersEnd(a, b, ms[1..], ns[1..], x, y);
      }
    }
  }

  lemma JoinedStarts(members: seq<Member>, x: Text)
    ensures
      var text := Joined(members) + [CLOSE_RECORD] + x;
      text != [] && (members == [] <==> text[0] == CLOSE_RECORD) && (members == [] ==> text == [CLOSE_RECORD] + x)
  {
    if members != [] {
      FirstMember(members, x);
      QuoteFirst(members[0].key);
    }
  }

  lemma FirstMembersEnd(ms: seq<Member>, ns: seq<Member>, x: Text, y: Text)
    requires ms != [] && ns != [] && Joined(ms) + [CLOSE_RECORD] + x == Joined(ns) + [CLOSE_RECORD] + y
    ensures ms[0].key == ns[0].key
    ensures
      var s, t := Tail(|ms| == 1, Joined(ms[1..]), CLOSE_RECORD, x), Tail(|ns| == 1, Joined(ns[1..]), CLOSE_RECORD, y);
      ms[0].text + s == ns[0].text + t && Follows(s) && Follows(t)
  {
    FirstMember(ms, x);
    FirstMember(ns, y);
    hide Quoted, Joined;
    var s, t := Tail(|ms| == 1, Joined(ms[1..]), CLOSE_RECORD, x), Tail(|ns| == 1, Joined(ns[1..]), CLOSE_RECORD, y);
    hide Tail;
    QuotedEnds(ms[0].key, ns[0].key, [COLON] + (ms[0].text + s), [COLON] + (ns[0].text + t));
    assert ([COLON] + (ms[0].text + s))[1..] == ms[0].text + s;
    assert ([COLON] + (ns[0].text + t))[1..] == ns[0].text + t;
  }

  lemma QuoteFirst(key: Text)
    ensures Quoted(key) != [] && Quoted(key)[0] == QUOTE
  {
  }

  lemma NumbersEnd(a: Num, b: Num, x: Text, y: Text)
    requires !a.NonFinite? && !b.NonFinite? && Stops(x) && Stops(y)
    requires Print(Number(a)) + x == Print(Number(b)) + y
    ensures SameNumber(a, b) && x == y
  {
    TokensEnd(Print(Number(a)), Print(Number(b)), x, y);
  }

  lemma ObjectsEnd(a: seq<Field>, b: seq<Field>, x: Text, y: Text)
    requires Supported(Obj(a)) && Supported(Obj(b)) && Proper(Obj(a)) && Proper(Obj(b))
    requires Print(Obj(a)) + x == Print(Obj(b)) + y
    ensures Equivalent(Obj(a), Obj(b)) && x == y
    decreases a, |a| + 1
  {
    var ms, ns := Members(a), Members(b);
    Between([OPEN_RECORD], Joined(ms), [CLOSE_RECORD], x);
    Between([OPEN_RECORD], Joined(ns), [CLOSE_RECORD], y);
    hide Members, Joined, Print;
    MembersOrder(a);
    MembersOrder(b);
    AllMembersFrom(a);
    AllMembersFrom(b);
    MembersEnd(a, b, ms, ns, x, y);
    forall i | 0 <= i < |a|
      ensures HasEquivalent(a[i], b)
    {
      MatchedField(a, b, ms, ns, i);
    }
  }

  lemma Between(p: Text, t: Text, d: Text, x: Text)
    requires |p| == 1
    ensures (p + t + d + x)[1..] == t + d + x
  {
  }

  lemma AllMembersFrom(fields: seq<Field>)
    requires DistinctKeys(fields)
    ensures AllFrom(Members(fields), fields)
  {
    hide Members;
    MembersOrder(fields);
    forall k | 0 <= k < |Members(fields)|
      ensures From(Members(fields)[k], fields)
    {
      assert Members(fields)[k] in Members(fields);
    }
  }

  lemma MatchedField(a: seq<Field>, b: seq<Field>, ms: seq<Member>, ns: seq<Member>, i: nat)
    requires DistinctKeys(a) && i < |a| && MemberOf(a[i]) in ms && |ms| == |ns|
    requires forall k :: 0 <= k < |ms| ==> Match(ms[k], ns[k], a, b)
    ensures HasEquivalent(a[i], b)
  {
    hide Equivalent, Print;
    var k :| 0 <= k < |ms| && ms[k] == MemberOf(a[i]);
    assert Match(ms[k], ns[k], a, b);
    var i', j :|
      0 <= i' < |a| && 0 <= j < |b| && ms[k] == MemberOf(a[i']) && ns[k] == MemberOf(b[j]) &&
      Equivalent(a[i'].value, b[j].value);
    assert a[i'].key == a[i].key;
  }

  /** A printed value ends where it ends, whatever follows, and its text decides the value up to equivalence. */
  lemma {:induction false} Ends(a: Value, b: Value, x: Text, y: Text)
    requires Supported(a) && Supported(b) && Proper(a) && Proper(b) && Follows(x) && Follows(y)
    requires Print(a) + x == Print(b) + y
    ensures Equivalent(a, b) && x == y
    decreases a, 0
  {
    Heads(a, x);
    Heads(b, y);
    match a
    case Str(text) =>
      QuotedEnds(text, b.text, x, y);
    case Arr(items) =>
      Between([OPEN_LIST], PrintItems(items), [CLOSE_LIST], x);
      Between([OPEN_LIST], PrintItems(b.items), [CLOSE_LIST], y);
      ItemsEnd(items, b.items, x, y);
    case Obj(fields) => ObjectsEnd(fields, b.fields, x, y);
    case Number(Finite(_)) => NumbersEnd(a.number, b.number, x, y);
    case Number(NegativeZero) => NumbersEnd(a.number, b.number, x, y);
    case Null => SameLengthEnds(Print(a), Print(b), x, y);
    case Bool(_) => SameLengthEnds(Print(a), Print(b), x, y);
    case Number(NonFinite) => SameLengthEnds(Print(a), Print(b), x, y);
    case Unsupported =>
  }

  lemma SameLengthEnds(s: Text, t: Text, x: Text, y: Text)
    requires |s| == |t| && s + x == t + y
    ensures x == y
  {
    assert x == (s + x)[|s|..] && y == (t + y)[|t|..];
  }

  // ---------------------------------------------- equivalent values print alike

  lemma {:induction false} ItemsAlike(a: seq<Value>, b: seq<Value>)
    requires |a| == |b|
    requires forall i :: 0 <= i < |a| ==> Supported(a[i]) && Supported(b[i]) && Proper(a[i]) && Proper(b[i])
    requires forall i :: 0 <= i < |a| ==> Equivalent(a[i], b[i])
    ensures PrintItems(a) == PrintItems(b)
    decreases a, 0
  {
    if a != [] {
      hide Equivalent, Print, Supported, Proper;
      PrintsAlike(a[0], b[0]);
      ItemsAlike(a[1..], b[1..]);
    }
  }

  lemma MembersAlike(a: seq<Field>, b: seq<Field>)
    requires DistinctKeys(a) && DistinctKeys(b) && |a| == |b|
    requires forall i :: 0 <= i < |a| ==> From(MemberOf(a[i]), b)
    ensures Members(a) == Members(b)
  {
    hide Print, Members;
    MembersOrder(a);
    MembersOrder(b);
    var ms, ns := Members(a), Members(b);
    assert forall x :: x in ms ==> x in ns;
    OrderedIsDistinct(ms);
    OrderedIsDistinct(ns);
    SameSize(ms, ns);
    OrderIsUnique(ms, ns);
  }

  lemma OrderedIsDistinct(members: seq<Member>)
    requires Ordered(members)
    ensures Distinct(members)
  {
    forall i, j | 0 <= i < j < |members|
      ensures members[i] != members[j]
    {
      BeforeIsTotal(members[i].key, members[j].key);
      BeforeIsTotal(members[i].key, members[i].key);
    }
  }

  /** Of two lists without repetition and of one length, neither holds more than the other. */
  lemma SameSize(a: seq<Member>, b: seq<Member>)
    requires Distinct(a) && Distinct(b) && |a| == |b| && forall x :: x in a ==> x in b
    ensures forall x :: x in a <==> x in b
  {
    var s, t := set x | x in a, set x | x in b;
    CountDistinct(a);
    CountDistinct(b);
    assert s <= t;
    assert |t - s| == |t| - |s|;
    assert t - s == {};
    forall x | x in b
      ensures x in a
    {
      assert x in t;
    }
  }

  lemma {:induction false} CountDistinct(a: seq<Member>)
    requires Distinct(a)
    ensures |set x | x in a| == |a|
  {
    if a != [] {
      CountDistinct(a[1..]);
      assert a == [a[0]] + a[1..];
      assert (set x | x in a) == {a[0]} + set x | x in a[1..];
      assert a[0] !in a[1..];
    }
  }

  lemma {:induction false} PrintsAlike(a: Value, b: Value)
    requires Supported(a) && Supported(b) && Proper(a) && Proper(b) && Equivalent(a, b)
    ensures Print(a) == Print(b)
    decreases a, 0
  {
    match a
    case Arr(items) => ItemsAlike(items, b.items);
    case Obj(fields) =>
      forall i | 0 <= i < |fields|
        ensures From(MemberOf(fields[i]), b.fields)
      {
        assert HasEquivalent(fields[i], b.fields);
        var j :| 0 <= j < |b.fields| && b.fields[j].key == fields[i].key &&
          Equivalent(fields[i].value, b.fields[j].value);
        PrintsAlike(fields[i].value, b.fields[j].value);
        assert MemberOf(fields[i]) == MemberOf(b.fields[j]);
      }
      MembersAlike(fields, b.fields);
    case _ =>
  }

  /** The serialiser throws on both values, or its texts agree exactly when the values are equivalent. */
  lemma SerializesAlikeIff(a: Value, b: Value)
    requires Proper(a) && Proper(b)
    ensures Serialize(a).Some? <==> Supported(a)
    ensures Supported(a) && Supported(b) ==> (Serialize(a) == Serialize(b) <==> Equivalent(a, b))
  {
    if Supported(a) && Supported(b) {
      if Print(a) == Print(b) {
        assert Print(a) + [] == Print(b) + [];
        Ends(a, b, [], []);
      }
      if Equivalent(a, b) {
        PrintsAlike(a, b);
      }
    }
  }

  /** On finite numbers without a negative zero, printing loses nothing but the order of the keys. */
  predicate Plain(v: Value) {
    match v
    case Number(n) => n.Finite?
    case Arr(items) => forall i :: 0 <= i < |items| ==> Plain(items[i])
    case Obj(fields) => forall i :: 0 <= i < |fields| ==> Plain(fields[i].value)
    case _ => true
  }

  /** The same value with the members of its objects rearranged. */
  predicate Rearranged(a: Value, b: Value) {
    match a
    case Arr(items) => b.Arr? && |items| == |b.items| && forall i :: 0 <= i < |items| ==>
      Rearranged(items[i], b.items[i])
    case Obj(fields) =>
      b.Obj? && |fields| == |b.fields| && forall i :: 0 <= i < |fields| ==> HasRearranged(fields[i], b.fields)
    case _ => a == b
  }

  predicate HasRearranged(f: Field, fields: seq<Field>) {
    exists j :: 0 <= j < |fields| && fields[j].key == f.key && Rearranged(f.value, fields[j].value)
  }

  lemma {:induction false} PlainEquivalence(a: Value, b: Value)
    requires Plain(a) && Plain(b)
    ensures Equivalent(a, b) <==> Rearranged(a, b)
  {
    match a
    case Arr(items) =>
      if b.Arr? && |items| == |b.items| {
        forall i | 0 <= i < |items|
          ensures Equivalent(items[i], b.items[i]) <==> Rearranged(items[i], b.items[i])
        {
          PlainEquivalence(items[i], b.items[i]);
        }
      }
    case Obj(fields) =>
      if b.Obj? {
        forall i | 0 <= i < |fields|
          ensures HasEquivalent(fields[i], b.fields) <==> HasRearranged(fields[i], b.fields)
        {
          forall j | 0 <= j < |b.fields|
            ensures Equivalent(fields[i].value, b.fields[j].value) <==> Rearranged(fields[i].value, b.fields[j].value)
          {
            PlainEquivalence(fields[i].value, b.fields[j].value);
          }
        }
      }
    case _ =>
  }
}
