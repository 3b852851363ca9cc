/** Compact JSON as Go's encoding/json prints it (sorted keys, HTML-safe string
    escapes), and a reader for it. Number tokens are kept as text. */
module Json {
  import opened Kube

  datatype Value =
    | Null
    | Bool(b: bool)
    | Num(token: string)
    | Str(s: string)
    | Arr(items: seq<Value>)
    | Obj(fields: map<string, Value>)

  predicate NumberChar(c: char) {
    '0' <= c <= '9' || c == '-' || c == '+' || c == '.' || c == 'e' || c == 'E'
  }

  /** Every number token is a non-empty run of number characters. */
  predicate WellFormed(v: Value) {
    match v
    case Num(t) => t != "" && forall c :: c in t ==> NumberChar(c)
    case Arr(xs) => forall x :: x in xs ==> WellFormed(x)
    case Obj(m) => forall k :: k in m ==> WellFormed(m[k])
    case _ => true
  }

  // ------------------------------------------------------------ key order

  predicate Below(a: string, b: string) {
    b != "" && (a == "" || a[0] < b[0] || (a[0] == b[0] && Below(a[1..], b[1..])))
  }

  predicate Ascending(ks: seq<string>) {
    forall i, j :: 0 <= i < j < |ks| ==> Below(ks[i], ks[j])
  }

  /** The usual order of keys: where they first differ the smaller character comes
      first, and a key comes before its extensions. */
  ghost predicate FirstDifference(a: string, b: string, p: nat) {
    p <= |a| && p < |b| && a[..p] == b[..p] && (p == |a| || a[p] < b[p])
  }

  ghost predicate Before(a: string, b: string) {
    exists p :: FirstDifference(a, b, p)
  }

  lemma {:induction false} BelowExact(a: string, b: string)
    ensures Below(a, b) <==> Before(a, b)
  {
    if b == "" {
    } else if a == "" || a[0] < b[0] {
      assert FirstDifference(a, b, 0);
    } else if a[0] == b[0] {
      BelowExact(a[1..], b[1..]);
      if p :| FirstDifference(a[1..], b[1..], p) { DifferenceBehind(a, b, p); }
      if p :| FirstDifference(a, b, p) { DifferenceAhead(a, b, p); }
    }
  }

  lemma DifferenceBehind(a: string, b: string, p: nat)
    requires a != "" && b != "" && a[0] == b[0] && FirstDifference(a[1..], b[1..], p)
    ensures FirstDifference(a, b, p + 1)
  {
    assert a[..p + 1] == [a[0]] + a[1..][..p] && b[..p + 1] == [b[0]] + b[1..][..p];
  }

  lemma DifferenceAhead(a: string, b: string, p: nat)
    requires a != "" && b != "" && a[0] == b[0] && FirstDifference(a, b, p)
    ensures p > 0 && FirstDifference(a[1..], b[1..], p - 1)
  {
    assert a[1..][..p - 1] == a[..p][1..] && b[1..][..p - 1] == b[..p][1..];
  }

  /** All keys in this order. */
  ghost predicate InKeyOrder(ks: seq<string>) {
    forall i, j :: 0 <= i < j < |ks| ==> Before(ks[i], ks[j])
  }

  lemma AscendingIsKeyOrder(ks: seq<string>)
    ensures Ascending(ks) <==> InKeyOrder(ks)
  {
    hide Below, Before;
    forall i, j | 0 <= i < j < |ks| ensures Below(ks[i], ks[j]) <==> Before(ks[i], ks[j]) {
      BelowExact(ks[i], ks[j]);
    }
  }

  lemma {:induction false} BelowTotal(a: string, b: string)
    ensures a == b || Below(a, b) || Below(b, a)
  {
    if a != "" && b != "" && a[0] == b[0] {
      BelowTotal(a[1..], b[1..]);
      assert a == [a[0]] + a[1..] && b == [b[0]] + b[1..];
    }
  }

  lemma {:induction false} BelowStrict(a: string, b: string)
    ensures !(Below(a, b) && Below(b, a))
    ensures !Below(a, a)
  {
    if a != "" && b != "" { BelowStrict(a[1..], b[1..]); }
    if a != "" { BelowStrict(a[1..], a[1..]); }
  }

  lemma {:induction false} BelowTransitive(a: string, b: string, c: string)
    requires Below(a, b) && Below(b, c)
    ensures Below(a, c)
  {
    if a != "" && a[0] == b[0] && b[0] == c[0] { BelowTransitive(a[1..], b[1..], c[1..]); }
  }

  predicate IsLeast(k: string, ks: set<string>) {
    k in ks && forall j :: j in ks ==> j == k || Below(k, j)
  }

  lemma {:induction false} LeastExists(ks: set<string>)
    requires ks != {}
    ensures exists k :: IsLeast(k, ks)
  {
    var x :| x in ks;
    if ks == {x} {
      assert IsLeast(x, ks);
    } else {
      LeastExists(ks - {x});
      var y :| IsLeast(y, ks - {x});
      BelowTotal(x, y);
      if Below(y, x) {
        assert IsLeast(y, ks);
      } else {
        forall j | j in ks && j != x ensures Below(x, j) {
          if j != y { BelowTransitive(x, y, j); }
        }
        assert IsLeast(x, ks);
      }
    }
  }

  lemma LeastUnique(ks: set<string>)
    ensures forall a, b :: IsLeast(a, ks) && IsLeast(b, ks) ==> a == b
  {
    forall a, b | IsLeast(a, ks) && IsLeast(b, ks) ensures a == b {
      BelowStrict(a, b);
    }
  }

  /** The keys in strictly ascending order, as encoding/json emits them. */
  function SortedKeys(ks: set<string>): (r: seq<string>)
    ensures forall k :: k in r <==> k in ks
    ensures Ascending(r)
    ensures r == [] <==> ks == {}
  {
    if ks == {} then []
    else
      LeastExists(ks);
      LeastUnique(ks);
      var k :| IsLeast(k, ks);
      var rest := SortedKeys(ks - {k});
      assert forall j :: 0 <= j < |rest| ==> rest[j] in rest;
      [k] + rest
  }

  lemma HeadNotInTail(a: seq<string>)
    requires Ascending(a) && a != []
    ensures a[0] !in a[1..]
  {
    BelowStrict(a[0], a[0]);
  }

  /** There is only one ascending listing of a set, so the output cannot depend
      on the order in which a map is walked. */
  lemma {:induction false} AscendingUnique(a: seq<string>, b: seq<string>)
    requires Ascending(a) && Ascending(b)
    requires forall k :: k in a <==> k in b
    ensures a == b
  {
    if b != [] { assert b[0] in b; }
    if a != [] {
      assert a[0] in a;
      BelowStrict(a[0], b[0]);
      assert a[0] == b[0];
      HeadNotInTail(a);
      HeadNotInTail(b);
      forall k ensures k in a[1..] <==> k in b[1..] {
        assert k in a <==> k == a[0] || k in a[1..];
        assert k in b <==> k == b[0] || k in b[1..];
      }
      AscendingUnique(a[1..], b[1..]);
      assert a == [a[0]] + a[1..] && b == [b[0]] + b[1..];
    }
  }

  // -------------------------------------------------------------- printing

  function Hex(n: nat): char
    requires n < 16
  {
    if n < 10 then ('0' as int + n) as char else ('a' as int + (n - 10)) as char
  }

  function Unicode(c: char): string
    requires c as int < 0x10000
  {
    var n := c as int;
    ['\\', 'u', Hex(n / 0x1000), Hex(n / 0x100 % 16), Hex(n / 16 % 16), Hex(n % 16)]
  }

  function EscapeChar(c: char): string {
    var n := c as int;
    if c == '"' || c == '\\' then ['\\', c]
    else if n == 8 then ['\\', 'b']
    else if n == 12 then ['\\', 'f']
    else if c == '\n' then ['\\', 'n']
    else if c == '\r' then ['\\', 'r']
    else if c == '\t' then ['\\', 't']
    else if n < 0x20 || c == '<' || c == '>' || c == '&' || n == 0x2028 || n == 0x2029 then Unicode(c)
    else [c]
  }

  function Escape(s: string): string {
    if s == "" then "" else EscapeChar(s[0]) + Escape(s[1..])
  }

  function Quote(s: string): string {
    ['"'] + Escape(s) + ['"']
  }

  function Compact(v: Value): string
    decreases v
  {
    match v
    case Null => "null"
    case Bool(b) => if b then "true" else "false"
    case Num(t) => t
    case Str(s) => Quote(s)
    case Arr(xs) => ['['] + Items(v, xs) + [']']
    case Obj(m) => ['{'] + Members(v, SortedKeys(m.Keys)) + ['}']
  }

  function Items(owner: Value, xs: seq<Value>): string
    requires owner.Arr? && forall x :: x in xs ==> x in owner.items
    decreases owner, |xs|
  {
    if xs == [] then ""
    else
      assert xs[0] in xs;
      if |xs| == 1 then Compact(xs[0]) else Compact(xs[0]) + [','] + Items(owner, xs[1..])
  }

  function Members(owner: Value, ks: seq<string>): string
    requires owner.Obj? && forall k :: k in ks ==> k in owner.fields
    decreases owner, |ks|
  {
    if ks == [] then ""
    else
      var more := if |ks| == 1 then "" else [','] + Members(owner, ks[1..]);
      Quote(ks[0]) + ([':'] + (Compact(owner.fields[ks[0]]) + more))
  }

  // --------------------------------------------------------------- reading

  function HexDigit(c: char): Option<nat> {
    if '0' <= c <= '9' then Some(c as int - '0' as int)
    else if 'a' <= c <= 'f' then Some(c as int - 'a' as int + 10)
    else if 'A' <= c <= 'F' then Some(c as int - 'A' as int + 10)
    else None
  }

  function ReadUnicode(t: string): Option<char>
    requires |t| == 4
  {
    match (HexDigit(t[0]), HexDigit(t[1]), HexDigit(t[2]), HexDigit(t[3]))
    case (Some(a), Some(b), Some(c), Some(d)) =>
      var n := a * 0x1000 + b * 0x100 + c * 16 + d;
      if n < 0xD800 || 0xE000 <= n < 0x10000 then Some(n as char) else None
    case _ => None
  }

  function ReadEscape(c: char): Option<char> {
    if c == '"' || c == '\\' || c == '/' then Some(c)
    else if c == 'b' then Some(8 as char)
    else if c == 'f' then Some(12 as char)
    else if c == 'n' then Some('\n')
    else if c == 'r' then Some('\r')
    else if c == 't' then Some('\t')
    else None
  }

  /** One possibly escaped character of a string, and what follows it. */
  function ReadChar(t: string): (r: Option<(char, string)>)
    ensures r.Some? ==> |r.value.1| < |t|
  {
    if t == "" || t[0] == '"' || t[0] as int < 0x20 then None
    else if t[0] != '\\' then Some((t[0], t[1..]))
    else if |t| < 2 then None
    else if t[1] != 'u' then
      match ReadEscape(t[1]) { case Some(c) => Some((c, t[2..])) case None => None }
    else if |t| < 6 then None
    else match ReadUnicode(t[2..6]) { case Some(c) => Some((c, t[6..])) case None => None }
  }

  /** The characters of a string up to its closing quote. */
  function ReadChars(t: string): (r: Option<(string, string)>)
    ensures r.Some? ==> |r.value.1| < |t|
  {
    if t != "" && t[0] == '"' then Some(("", t[1..]))
    else match ReadChar(t)
      case None => None
      case Some((c, rest)) =>
        match ReadChars(rest)
        case None => None
        case Some((s, rest')) => Some(([c] + s, rest'))
  }

  function ReadString(t: string): (r: Option<(string, string)>)
    ensures r.Some? ==> |r.value.1| < |t|
  {
    if t != "" && t[0] == '"' then ReadChars(t[1..]) else None
  }

  function NumberSpan(t: string): (r: string)
    ensures |r| <= |t|
  {
    if t != "" && NumberChar(t[0]) then [t[0]] + NumberSpan(t[1..]) else ""
  }

  function ReadValue(t: string): (r: Option<(Value, string)>)
    ensures r.Some? ==> |r.value.1| < |t|
    decreases |t|, 2
  {
    if t == "" then None
    else if t[0] == '"' then
      match ReadString(t) { case Some((s, rest)) => Some((Str(s), rest)) case None => None }
    else if t[0] == '[' then
      if |t| > 1 && t[1] == ']' then Some((Arr([]), t[2..]))
      else match ReadItems(t[1..]) { case Some((xs, rest)) => Some((Arr(xs), rest)) case None => None }
    else if t[0] == '{' then
      if |t| > 1 && t[1] == '}' then Some((Obj(map[]), t[2..]))
      else match ReadMembers(t[1..], map[]) { case Some((m, rest)) => Some((Obj(m), rest)) case None => None }
    else if "null" <= t then Some((Null, t[4..]))
    else if "true" <= t then Some((Bool(true), t[4..]))
    else if "false" <= t then Some((Bool(false), t[5..]))
    else
      var token := NumberSpan(t);
      if token == "" then None else Some((Num(token), t[|token|..]))
  }

  function ReadItems(t: string): (r: Option<(seq<Value>, string)>)
    ensures r.Some? ==> |r.value.1| < |t|
    decreases |t|, 3
  {
    match ReadValue(t)
    case None => None
    case Some((x, rest)) =>
      if rest != "" && rest[0] == ']' then Some(([x], rest[1..]))
      else if rest != "" && rest[0] == ',' then
        match ReadItems(rest[1..]) { case Some((xs, rest')) => Some(([x] + xs, rest')) case None => None }
      else None
  }

  function ReadMembers(t: string, acc: map<string, Value>): (r: Option<(map<string, Value>, string)>)
    ensures r.Some? ==> |r.value.1| < |t|
    decreases |t|, 3
  {
    match ReadString(t)
    case None => None
    case Some((k, rest)) =>
      if rest == "" || rest[0] != ':' then None
      else match ReadValue(rest[1..])
        case None => None
        case Some((x, rest')) =>
          if rest' != "" && rest'[0] == '}' then Some((acc[k := x], rest'[1..]))
          else if rest' != "" && rest'[0] == ',' then ReadMembers(rest'[1..], acc[k := x])
          else None
  }

  // ------------------------------------------------------------ round trips

  lemma HexRoundTrip(n: nat)
    requires n < 16
    ensures HexDigit(Hex(n)) == Some(n)
  {
  }

  lemma FourDigits(n: nat)
    requires n < 0x10000
    ensures n == (n / 0x1000) * 0x1000 + (n / 0x100 % 16) * 0x100 + (n / 16 % 16) * 16 + n % 16
    ensures n / 0x1000 < 16
  {
    assert n / 0x100 == n / 0x1000 * 16 + n / 0x100 % 16;
    assert n / 16 == n / 0x100 * 16 + n / 16 % 16;
    assert n == n / 16 * 16 + n % 16;
  }

  lemma UnicodeRoundTrip(c: char)
    requires c as int < 0x10000
    ensures ReadUnicode(Unicode(c)[2..6]) == Some(c)
  {
    var n := c as int;
    FourDigits(n);
    var a, b, g, d := n / 0x1000, n / 0x100 % 16, n / 16 % 16, n % 16;
    HexRoundTrip(a);
    HexRoundTrip(b);
    HexRoundTrip(g);
    HexRoundTrip(d);
    assert Unicode(c)[2..6] == [Hex(a), Hex(b), Hex(g), Hex(d)];
  }

  lemma CharRoundTrip(c: char, rest: string)
    ensures ReadChar(EscapeChar(c) + rest) == Some((c, rest))
    ensures EscapeChar(c) != "" && EscapeChar(c)[0] != '"'
  {
    var e := EscapeChar(c);
    assert (e + rest)[|e|..] == rest;
    if |e| == 6 {
      assert (e + rest)[2..6] == e[2..6];
      UnicodeRoundTrip(c);
    }
  }

  lemma {:induction false} CharsRoundTrip(s: string, rest: string)
    ensures ReadChars(Escape(s) + ['"'] + rest) == Some((s, rest))
  {
    if s == "" {
      assert Escape(s) + ['"'] + rest == ['"'] + rest;
    } else {
      var tail := Escape(s[1..]) + ['"'] + rest;
      assert Escape(s) + ['"'] + rest == EscapeChar(s[0]) + tail;
      CharRoundTrip(s[0], tail);
      CharsRoundTrip(s[1..], rest);
      assert s == [s[0]] + s[1..];
    }
  }

  lemma StringRoundTrip(s: string, rest: string)
    ensures ReadString(Quote(s) + rest) == Some((s, rest))
  {
    var t := Quote(s) + rest;
    assert t[1..] == Escape(s) + ['"'] + rest;
    CharsRoundTrip(s, rest);
  }

  /** A number printed before rest ends where rest begins. */
  predicate Stops(rest: string) {
    rest == "" || !NumberChar(rest[0])
  }

  lemma {:induction false} SpanRoundTrip(token: string, rest: string)
    requires (forall c :: c in token ==> NumberChar(c)) && Stops(rest)
    ensures NumberSpan(token + rest) == token
  {
    if token == "" {
      assert token + rest == rest;
    } else {
      assert (token + rest)[1..] == token[1..] + rest;
      SpanRoundTrip(token[1..], rest);
    }
  }

  /** The first character of a printed value tells which kind it is. */
  lemma FirstChar(v: Value)
    requires WellFormed(v)
    ensures var t := Compact(v);
            t != "" && t[0] != ']' && t[0] != '}' && t[0] != ',' &&
            (v.Str? <==> t[0] == '"') && (v.Arr? <==> t[0] == '[') && (v.Obj? <==> t[0] == '{') &&
            (v.Num? ==> NumberChar(t[0]))
  {
    if v.Num? { assert v.token[0] in v.token; }
  }

  lemma LiteralRoundTrip(v: Value, rest: string)
    requires WellFormed(v) && Stops(rest) && !v.Arr? && !v.Obj?
    ensures ReadValue(Compact(v) + rest) == Some((v, rest))
  {
    var t := Compact(v) + rest;
    assert t[|Compact(v)|..] == rest;
    FirstChar(v);
    match v
    case Null =>
    case Bool(b) =>
    case Num(token) => SpanRoundTrip(token, rest);
    case Str(s) => StringRoundTrip(s, rest);
  }

  lemma {:induction false} ValueRoundTrip(v: Value, rest: string)
    requires WellFormed(v) && Stops(rest)
    ensures ReadValue(Compact(v) + rest) == Some((v, rest))
    decreases v, 1
  {
    match v
    case Arr(xs) =>
      if xs != [] { ItemsRoundTrip(v, xs, rest); }
      ArrayRoundTrip(v, rest);
    case Obj(m) =>
      var ks := SortedKeys(m.Keys);
      if ks == [] {
        assert Compact(v) + rest == ['{', '}'] + rest;
      } else {
        MembersRoundTrip(v, ks, map[], rest);
        ObjectRoundTrip(v, Members(v, ks) + ['}'] + rest, rest);
      }
    case _ => LiteralRoundTrip(v, rest);
  }

  lemma ObjectRoundTrip(v: Value, inner: string, rest: string)
    requires v.Obj? && v.fields != map[]
    requires inner == Members(v, SortedKeys(v.fields.Keys)) + ['}'] + rest
    requires ReadMembers(inner, map[]) == Some((map[] + Listed(v.fields, SortedKeys(v.fields.Keys)), rest))
    ensures ReadValue(Compact(v) + rest) == Some((v, rest))
  {
    hide ReadValue, ReadMembers, Members, SortedKeys, Escape;
    MembersText(v, SortedKeys(v.fields.Keys), rest);
    ListedAll(v.fields);
    assert Compact(v) + rest == ['{'] + inner;
    ObjectText(Compact(v) + rest, inner, v.fields, rest);
  }

  lemma ObjectText(t: string, inner: string, m: map<string, Value>, rest: string)
    requires t == ['{'] + inner && inner != "" && inner[0] != '}'
    requires ReadMembers(inner, map[]) == Some((m, rest))
    ensures ReadValue(t) == Some((Obj(m), rest))
  {
    assert t[1..] == inner;
  }

  lemma ArrayRoundTrip(v: Value, rest: string)
    requires v.Arr? && WellFormed(v)
    requires v.items == [] || ReadItems(Items(v, v.items) + [']'] + rest) == Some((v.items, rest))
    ensures ReadValue(Compact(v) + rest) == Some((v, rest))
  {
    var xs := v.items;
    if xs == [] {
      assert Compact(v) + rest == ['[', ']'] + rest;
    } else {
      var inner := Items(v, xs) + [']'] + rest;
      assert xs[0] in xs;
      FirstChar(xs[0]);
      assert inner[0] == Compact(xs[0])[0];
      ArrayText(Compact(v) + rest, inner);
    }
  }

  lemma ArrayText(t: string, inner: string)
    requires t == ['['] + inner && inner != "" && inner[0] != ']'
    ensures ReadValue(t) == match ReadItems(inner) { case Some((xs, rest)) => Some((Arr(xs), rest)) case None => None }
  {
    assert t[1..] == inner;
  }

  lemma {:induction false} ItemsRoundTrip(owner: Value, xs: seq<Value>, rest: string)
    requires owner.Arr? && WellFormed(owner) && xs != [] && forall x :: x in xs ==> x in owner.items
    ensures ReadItems(Items(owner, xs) + [']'] + rest) == Some((xs, rest))
    decreases owner, 0, |xs|
  {
    hide ReadValue, ReadItems;
    assert xs[0] in xs;
    var tail := ItemsTail(owner, xs, rest);
    ValueRoundTrip(xs[0], tail);
    assert Items(owner, xs) + [']'] + rest == Compact(xs[0]) + tail;
    if |xs| > 1 { ItemsRoundTrip(owner, xs[1..], rest); }
    ReadItem(Compact(xs[0]) + tail, xs, tail, rest);
  }

  /** What follows the first item. */
  function ItemsTail(owner: Value, xs: seq<Value>, rest: string): (tail: string)
    requires owner.Arr? && xs != [] && forall x :: x in xs ==> x in owner.items
    ensures tail != "" && tail[0] == (if |xs| == 1 then ']' else ',')
    ensures tail[1..] == if |xs| == 1 then rest else Items(owner, xs[1..]) + [']'] + rest
  {
    if |xs| == 1 then [']'] + rest else [','] + (Items(owner, xs[1..]) + [']'] + rest)
  }

  lemma ReadItem(t: string, xs: seq<Value>, tail: string, rest: string)
    requires xs != [] && tail != ""
    requires ReadValue(t) == Some((xs[0], tail))
    requires if |xs| == 1 then tail[0] == ']' && tail[1..] == rest
             else tail[0] == ',' && ReadItems(tail[1..]) == Some((xs[1..], rest))
    ensures ReadItems(t) == Some((xs, rest))
  {
    hide ReadValue;
    assert xs == [xs[0]] + xs[1..] && (|xs| == 1 ==> xs == [xs[0]]);
  }

  function Listed(m: map<string, Value>, ks: seq<string>): map<string, Value>
    requires forall k :: k in ks ==> k in m
  {
    map k | k in ks :: m[k]
  }

  lemma ListedAll(m: map<string, Value>)
    ensures map[] + Listed(m, SortedKeys(m.Keys)) == m
  {
    hide SortedKeys;
  }

  lemma {:induction false} MembersRoundTrip(owner: Value, ks: seq<string>, acc: map<string, Value>, rest: string)
    requires owner.Obj? && WellFormed(owner) && ks != [] && forall k :: k in ks ==> k in owner.fields
    ensures ReadMembers(Members(owner, ks) + ['}'] + rest, acc) == Some((acc + Listed(owner.fields, ks), rest))
    decreases owner, 0, |ks|
  {
    var m, k := owner.fields, ks[0];
    assert k in ks;
    var tail := MembersTail(owner, ks, rest);
    ValueRoundTrip(m[k], tail);
    var t := Members(owner, ks) + ['}'] + rest;
    MembersText(owner, ks, rest);
    ReadMember(t, k, m[k], tail, acc);
    if |ks| == 1 {
      assert acc + Listed(m, ks) == acc[k := m[k]];
    } else {
      MembersRoundTrip(owner, ks[1..], acc[k := m[k]], rest);
      ListedStep(m, ks, acc);
    }
  }

  /** What follows the first member. */
  function MembersTail(owner: Value, ks: seq<string>, rest: string): (tail: string)
    requires owner.Obj? && ks != [] && forall k :: k in ks ==> k in owner.fields
    ensures tail != "" && tail[0] == (if |ks| == 1 then '}' else ',')
    ensures tail[1..] == if |ks| == 1 then rest else Members(owner, ks[1..]) + ['}'] + rest
  {
    if |ks| == 1 then ['}'] + rest else [','] + (Members(owner, ks[1..]) + ['}'] + rest)
  }

  lemma MembersText(owner: Value, ks: seq<string>, rest: string)
    requires owner.Obj? && ks != [] && forall k :: k in ks ==> k in owner.fields
    ensures Members(owner, ks) + ['}'] + rest
         == Quote(ks[0]) + ([':'] + (Compact(owner.fields[ks[0]]) + MembersTail(owner, ks, rest)))
  {
    var more := if |ks| == 1 then "" else [','] + Members(owner, ks[1..]);
    var tail := MembersTail(owner, ks, rest);
    assert more + (['}'] + rest) == tail by { MoreTail(if |ks| == 1 then "" else Members(owner, ks[1..]), rest); }
    Regroup(Quote(ks[0]), Compact(owner.fields[ks[0]]), more, rest);
  }

  lemma Regroup(key: string, v: string, more: string, rest: string)
    ensures key + ([':'] + (v + more)) + ['}'] + rest == key + ([':'] + (v + (more + (['}'] + rest))))
  {
  }

  lemma MoreTail(members: string, rest: string)
    ensures [','] + members + (['}'] + rest) == [','] + (members + ['}'] + rest)
    ensures "" + (['}'] + rest) == ['}'] + rest
  {
  }

  lemma ReadMember(t: string, k: string, v: Value, tail: string, acc: map<string, Value>)
    requires t == Quote(k) + ([':'] + (Compact(v) + tail))
    requires ReadValue(Compact(v) + tail) == Some((v, tail))
    requires tail != ""
    ensures tail[0] == '}' ==> ReadMembers(t, acc) == Some((acc[k := v], tail[1..]))
    ensures tail[0] == ',' ==> ReadMembers(t, acc) == ReadMembers(tail[1..], acc[k := v])
  {
    var afterKey := [':'] + (Compact(v) + tail);
    assert afterKey[1..] == Compact(v) + tail;
    StringRoundTrip(k, afterKey);
  }

  lemma ListedStep(m: map<string, Value>, ks: seq<string>, acc: map<string, Value>)
    requires ks != [] && forall k :: k in ks ==> k in m
    ensures acc + Listed(m, ks) == acc[ks[0] := m[ks[0]]] + Listed(m, ks[1..])
  {
    assert ks == [ks[0]] + ks[1..];
  }

  /** Printed JSON tells values apart. */
  lemma CompactInjective(v: Value, w: Value)
    requires WellFormed(v) && WellFormed(w) && Compact(v) == Compact(w)
    ensures v == w
  {
    ValueRoundTrip(v, "");
    ValueRoundTrip(w, "");
    assert Compact(v) + "" == Compact(w) + "";
  }

  // --------------------------------------------------- the text, spelled out

  /** Characters that never appear raw in a JSON string: control characters (section
      7 of RFC 8259), and those the encoder escapes for HTML and JavaScript. */
  predicate MustEscape(c: char) {
    c as int < 0x20 || c == '<' || c == '>' || c == '&' || c as int == 0x2028 || c as int == 0x2029
  }

  lemma {:induction false} EscapedSafely(s: string)
    ensures forall c :: c in Escape(s) ==> !MustEscape(c)
  {
    if s != "" {
      EscapedSafely(s[1..]);
      assert forall c :: c in EscapeChar(s[0]) ==> !MustEscape(c);
    }
  }

  /** Everything else is left as it is. */
  lemma {:induction false} PlainVerbatim(s: string)
    requires forall c :: c in s ==> !MustEscape(c) && c != '"' && c != '\\'
    ensures Escape(s) == s
  {
    if s != "" {
      assert s[0] in s && s == [s[0]] + s[1..];
      forall c | c in s[1..] ensures c in s { }
      PlainVerbatim(s[1..]);
    }
  }

  lemma EscapeTable()
    ensures EscapeChar('"') == "\\\"" && EscapeChar('\\') == "\\\\"
    ensures EscapeChar('\n') == "\\n" && EscapeChar('\r') == "\\r" && EscapeChar('\t') == "\\t"
    ensures EscapeChar('<') == "\\u003c" && EscapeChar('>') == "\\u003e" && EscapeChar('&') == "\\u0026"
  {
  }

  /** The punctuation of compact JSON (section 2 of RFC 8259), without white space. */
  lemma LiteralShapes()
    ensures Compact(Null) == "null" && Compact(Bool(true)) == "true" && Compact(Bool(false)) == "false"
    ensures Compact(Arr([])) == "[]" && Compact(Obj(map[])) == "{}"
  {
    var none: map<string, Value> := map[];
    assert SortedKeys(none.Keys) == [] && Members(Obj(none), []) == "";
  }

  lemma ArrayShape(v: Value, w: Value)
    ensures Compact(Arr([v, w])) == ['['] + (Compact(v) + [','] + Compact(w)) + [']']
  {
    var two := Arr([v, w]);
    assert two.items[1..] == [w];
    assert Items(two, [w]) == Compact(w);
    assert Items(two, two.items) == Compact(v) + [','] + Compact(w);
  }

  lemma ObjectShape(k: string, v: Value)
    ensures Compact(Obj(map[k := v])) == ['{'] + (Quote(k) + ([':'] + Compact(v))) + ['}']
  {
    var one := map[k := v];
    AscendingUnique([k], SortedKeys(one.Keys));
    assert Compact(v) + "" == Compact(v);
    assert Members(Obj(one), [k]) == Quote(k) + ([':'] + Compact(v));
    hide SortedKeys;
  }

  // ------------------------------------------------- no raw line breaks

  lemma {:induction false} EscapeOneLine(s: string)
    ensures '\n' !in Escape(s)
  {
    if s != "" {
      EscapeOneLine(s[1..]);
      assert '\n' !in EscapeChar(s[0]);
    }
  }

  lemma {:induction false} CompactOneLine(v: Value)
    requires WellFormed(v)
    ensures '\n' !in Compact(v)
    decreases v
  {
    match v
    case Str(s) => EscapeOneLine(s);
    case Arr(xs) => ItemsOneLine(v, xs);
    case Obj(m) => MembersOneLine(v, SortedKeys(m.Keys));
    case _ =>
  }

  lemma {:induction false} ItemsOneLine(owner: Value, xs: seq<Value>)
    requires owner.Arr? && WellFormed(owner) && forall x :: x in xs ==> x in owner.items
    ensures '\n' !in Items(owner, xs)
    decreases owner, |xs|
  {
    if xs != [] {
      assert xs[0] in xs;
      CompactOneLine(xs[0]);
      ItemsOneLine(owner, xs[1..]);
    }
  }

  lemma {:induction false} MembersOneLine(owner: Value, ks: seq<string>)
    requires owner.Obj? && WellFormed(owner) && forall k :: k in ks ==> k in owner.fields
    ensures '\n' !in Members(owner, ks)
    decreases owner, |ks|
  {
    if ks != [] {
      assert ks[0] in ks;
      EscapeOneLine(ks[0]);
      CompactOneLine(owner.fields[ks[0]]);
      MembersOneLine(owner, ks[1..]);
    }
  }
}
