/** The my.cnf snippet of internal/provider/engine_config.go: a parameter map is
    marshalled to JSON, streamed back token by token, and joined to key=value
    lines. */
module Config {
  import opened Kube
  import opened Json

  // ----------------------------------------------- the simple form of the output

  function Line(k: string, v: Value): string {
    k + ['='] + Compact(v)
  }

  function Lines(m: map<string, Value>, ks: seq<string>): (r: seq<string>)
    requires forall k :: k in ks ==> k in m
    ensures |r| == |ks| && forall i :: 0 <= i < |r| ==> r[i] == Line(ks[i], m[ks[i]])
  {
    if ks == [] then [] else
      assert ks[0] in ks;
      [Line(ks[0], m[ks[0]])] + Lines(m, ks[1..])
  }

  function Join(lines: seq<string>): string {
    if lines == [] then ""
    else if |lines| == 1 then lines[0]
    else lines[0] + ['\n'] + Join(lines[1..])
  }

  /** One line per entry, in ascending key order. */
  function Render(m: map<string, Value>): string {
    Join(Lines(m, SortedKeys(m.Keys)))
  }

  // ---------------------------------------------------------- the streaming loop

  function IsSpace(c: char): bool {
    var n := c as int;
    9 <= n <= 13 || n == 0x20 || n == 0x85 || n == 0xA0 || n == 0x1680 || 0x2000 <= n <= 0x200A ||
    n == 0x2028 || n == 0x2029 || n == 0x202F || n == 0x205F || n == 0x3000
  }

  function TrimSpace(s: string): string
    decreases |s|
  {
    if s == "" then ""
    else if IsSpace(s[0]) then TrimSpace(s[1..])
    else if IsSpace(s[|s| - 1]) then TrimSpace(s[..|s| - 1])
    else s
  }

  /** A printed value neither starts nor ends with white space. */
  lemma CompactTrimmed(v: Value)
    requires WellFormed(v)
    ensures TrimSpace(Compact(v)) == Compact(v)
  {
    var t := Compact(v);
    match v
    case Num(token) => assert token[0] in token && token[|token| - 1] in token;
    case Str(s) => assert t[0] == '"' && t[|t| - 1] == '"';
    case Arr(xs) => assert t[0] == '[' && t[|t| - 1] == ']';
    case Obj(m) => assert t[0] == '{' && t[|t| - 1] == '}';
    case _ =>
  }

  datatype Token = Open | Key(name: string)

  datatype DecoderState = TopValue | ObjectStart | ObjectColon | ObjectComma

  /** The part of encoding/json's streaming decoder that the loop drives, over
      text without white space between tokens. */
  class Decoder {
    var rest: string
    var state: DecoderState

    constructor (text: string)
      ensures rest == text && state == TopValue
    {
      rest := text;
      state := TopValue;
    }

    function More(): bool
      reads this
    {
      rest != "" && rest[0] != ']' && rest[0] != '}'
    }

    /** Where the next key starts: past the comma that separates two members. */
    function KeyText(): string
      reads this
    {
      if state == ObjectComma && rest != "" && rest[0] == ',' then rest[1..]
      else if state == ObjectStart then rest
      else ""
    }

    method NextToken() returns (r: Option<Token>)
      modifies this
      ensures var opens := old(state) == TopValue && old(rest) != "" && old(rest)[0] == '{';
              var key := ReadString(old(KeyText()));
              if opens then r == Some(Open) && rest == old(rest)[1..] && state == ObjectStart
              else if key.Some? then r == Some(Key(key.value.0)) && rest == key.value.1 && state == ObjectColon
              else r == None && rest == old(rest) && state == old(state)
    {
      if state == TopValue && rest != "" && rest[0] == '{' {
        rest, state := rest[1..], ObjectStart;
        return Some(Open);
      }
      match ReadString(KeyText()) {
        case Some((k, tail)) =>
          rest, state := tail, ObjectColon;
          r := Some(Key(k));
        case None => r := None;
      }
    }

    /** Decoding into a raw message returns the text of the next value as it stands. */
    method DecodeRaw() returns (r: Option<string>)
      modifies this
      ensures var value := if old(state) == ObjectColon && old(rest) != "" && old(rest)[0] == ':'
                           then ReadValue(old(rest)[1..]) else None;
              if value.Some?
              then r.Some? && old(rest)[1..] == r.value + rest && rest == value.value.1 && state == ObjectComma
              else r == None && rest == old(rest) && state == old(state)
    {
      if state != ObjectColon || rest == "" || rest[0] != ':' { return None; }
      match ReadValue(rest[1..]) {
        case Some((_, tail)) =>
          var text := rest[1..];
          ValueIsPrefix(text);
          r := Some(text[..|text| - |tail|]);
          rest, state := tail, ObjectComma;
        case None => r := None;
      }
    }
  }

  // Reading consumes a prefix: what is left over is the end of the text.

  predicate Suffix(tail: string, t: string) {
    |tail| <= |t| && t[|t| - |tail|..] == tail
  }

  lemma CharIsPrefix(t: string)
    ensures ReadChar(t).Some? ==> Suffix(ReadChar(t).value.1, t)
  {
  }

  lemma {:induction false} CharsIsPrefix(t: string)
    ensures ReadChars(t).Some? ==> Suffix(ReadChars(t).value.1, t)
    decreases |t|
  {
    CharIsPrefix(t);
    if !(t != "" && t[0] == '"') && ReadChar(t).Some? { CharsIsPrefix(ReadChar(t).value.1); }
  }

  lemma StringIsPrefix(t: string)
    ensures ReadString(t).Some? ==> Suffix(ReadString(t).value.1, t)
  {
    if t != "" { CharsIsPrefix(t[1..]); }
  }

  lemma {:induction false} ValueIsPrefix(t: string)
    ensures ReadValue(t).Some? ==> Suffix(ReadValue(t).value.1, t)
    decreases |t|, 2
  {
    if t != "" {
      if t[0] == '"' { StringIsPrefix(t); }
      else if t[0] == '[' { ItemsIsPrefix(t[1..]); }
      else if t[0] == '{' { MembersIsPrefix(t[1..], map[]); }
    }
  }

  lemma {:induction false} ItemsIsPrefix(t: string)
    ensures ReadItems(t).Some? ==> Suffix(ReadItems(t).value.1, t)
    decreases |t|, 3
  {
    hide ReadValue;
    ValueIsPrefix(t);
    if ReadValue(t).Some? {
      var rest := ReadValue(t).value.1;
      if rest != "" { ItemsIsPrefix(rest[1..]); }
    }
  }

  lemma {:induction false} MembersIsPrefix(t: string, acc: map<string, Value>)
    ensures ReadMembers(t, acc).Some? ==> Suffix(ReadMembers(t, acc).value.1, t)
    decreases |t|, 3
  {
    hide ReadValue, ReadString;
    StringIsPrefix(t);
    if ReadString(t).Some? {
      var (k, rest) := ReadString(t).value;
      if rest != "" {
        ValueIsPrefix(rest[1..]);
        if ReadValue(rest[1..]).Some? {
          var (x, rest') := ReadValue(rest[1..]).value;
          if rest' != "" { MembersIsPrefix(rest'[1..], acc[k := x]); }
        }
      }
    }
  }

  /** The text still to be read before member i of the sorted listing. */
  function Unread(m: map<string, Value>, i: nat): string
    requires i <= |SortedKeys(m.Keys)|
  {
    var ks := SortedKeys(m.Keys);
    var left := Members(Obj(m), ks[i..]) + ['}'];
    if 0 < i < |ks| then [','] + left else left
  }

  /** Reading one member off the unread text gives its key and its printed value. */
  lemma UnreadStep(m: map<string, Value>, i: nat, keyText: string)
    requires WellFormed(Obj(m)) && i < |SortedKeys(m.Keys)|
    requires keyText == if i == 0 then Unread(m, i) else Unread(m, i)[1..]
    ensures var k := SortedKeys(m.Keys)[i];
            k in m && WellFormed(m[k]) && keyText != "" &&
            ReadString(keyText) == Some((k, [':'] + (Compact(m[k]) + Unread(m, i + 1)))) &&
            ReadValue(Compact(m[k]) + Unread(m, i + 1)) == Some((m[k], Unread(m, i + 1)))
  {
    hide ReadValue, ReadString, SortedKeys, Members, MembersTail, Unread, Compact, Quote;
    var ks := SortedKeys(m.Keys);
    assert ks[i] in ks;
    var k := ks[i];
    MembersText(Obj(m), ks[i..], "");
    var tail := MembersTail(Obj(m), ks[i..], "");
    UnreadTail(m, i);
    UnreadText(m, i);
    StringRoundTrip(k, [':'] + (Compact(m[k]) + tail));
    ValueRoundTrip(m[k], tail);
  }

  lemma UnreadText(m: map<string, Value>, i: nat)
    requires i < |SortedKeys(m.Keys)|
    ensures Unread(m, i) != ""
    ensures (if i == 0 then Unread(m, i) else Unread(m, i)[1..])
         == Members(Obj(m), SortedKeys(m.Keys)[i..]) + ['}'] + ""
  {
    hide Members, SortedKeys;
  }

  lemma UnreadTail(m: map<string, Value>, i: nat)
    requires i < |SortedKeys(m.Keys)|
    ensures MembersTail(Obj(m), SortedKeys(m.Keys)[i..], "") == Unread(m, i + 1)
  {
    hide SortedKeys;
    var ks := SortedKeys(m.Keys);
    assert ks[i..][1..] == ks[i + 1..];
    if i + 1 < |ks| {
      assert Members(Obj(m), ks[i + 1..]) + ['}'] + "" == Members(Obj(m), ks[i + 1..]) + ['}'];
    } else {
      assert Members(Obj(m), ks[i + 1..]) == "";
    }
  }

  lemma UnreadMore(m: map<string, Value>, i: nat)
    requires i <= |SortedKeys(m.Keys)|
    ensures Unread(m, i) != ""
    ensures i < |SortedKeys(m.Keys)| <==> Unread(m, i)[0] != '}'
    ensures Unread(m, i)[0] != ']'
    ensures 0 < i < |SortedKeys(m.Keys)| ==> Unread(m, i)[0] == ','
  {
    var ks := SortedKeys(m.Keys);
    if i < |ks| {
      assert ks[i] in ks;
      assert Quote(ks[i])[0] == '"';
    }
  }

  lemma UnreadStart(m: map<string, Value>)
    ensures Compact(Obj(m)) == ['{'] + Unread(m, 0) && Lines(m, SortedKeys(m.Keys)[..0]) == []
  {
    hide SortedKeys;
    assert SortedKeys(m.Keys)[0..] == SortedKeys(m.Keys);
  }

  lemma LinesStep(m: map<string, Value>, ks: seq<string>, i: nat)
    requires i < |ks| && forall k :: k in ks ==> k in m
    ensures ks[i] in ks
    ensures Lines(m, ks[..i + 1]) == Lines(m, ks[..i]) + [Line(ks[i], m[ks[i]])]
  {
  }

  /** renderMySQLConfiguration: the streaming loop computes the simple form and
      never fails on marshalled values. */
  method RenderMySQLConfiguration(params: map<string, Value>) returns (r: Option<string>)
    requires WellFormed(Obj(params))
    ensures r == Some(Render(params))
    ensures exists ks, lines :: LinesOf(params, ks, lines) && r == Some(Join(lines))
  {
    hide ReadValue, ReadString, SortedKeys, Members, Lines, Join, TrimSpace, Unread, WellFormed;
    var raw := Compact(Obj(params));
    var dec := new Decoder(raw);
    var open := dec.NextToken();
    if open != Some(Open) { return None; }

    ghost var ks := SortedKeys(params.Keys);
    ghost var i := 0;
    var lines := [];
    UnreadStart(params);
    UnreadMore(params, 0);
    while dec.More()
      invariant 0 <= i <= |ks|
      invariant dec.rest == Unread(params, i) && dec.state == (if i == 0 then ObjectStart else ObjectComma)
      invariant dec.More() <==> i < |ks|
      invariant lines == Lines(params, ks[..i])
      decreases |ks| - i
    {
      UnreadStep(params, i, dec.KeyText()) by { UnreadMore(params, i); }
      var key := dec.NextToken();
      if key.None? || key.value.Open? { return None; }
      assert dec.rest[1..] == Compact(params[ks[i]]) + Unread(params, i + 1);
      var value := dec.DecodeRaw();
      if value.None? { return None; }
      SameFront(value.value, Compact(params[ks[i]]), Unread(params, i + 1));
      CompactTrimmed(params[ks[i]]);
      lines := lines + [key.value.name + ['='] + TrimSpace(value.value)];
      LinesStep(params, ks, i);
      i := i + 1;
      UnreadMore(params, i);
    }
    assert ks[..i] == ks;
    r := Some(Join(lines));
    RenderedLines(params);
  }

  lemma SameFront(a: string, b: string, tail: string)
    requires a + tail == b + tail
    ensures a == b
  {
    assert |a| == |b|;
    assert a == (a + tail)[..|a|] && b == (b + tail)[..|b|];
  }

  /** Only the parameters decide the snippet: any listing of the map's keys in key
      order gives the same text, so the order in which the map is walked cannot
      show. */
  lemma RenderOrderFree(m: map<string, Value>, ks: seq<string>)
    requires InKeyOrder(ks) && forall k :: k in ks <==> k in m
    ensures Join(Lines(m, ks)) == Render(m)
  {
    AscendingIsKeyOrder(ks);
    AscendingUnique(ks, SortedKeys(m.Keys));
  }

  /** These are the lines of the snippet: one key=value line per entry, the keys in
      key order. */
  ghost predicate LinesOf(m: map<string, Value>, ks: seq<string>, lines: seq<string>) {
    && InKeyOrder(ks) && (forall k :: k in ks <==> k in m)
    && |lines| == |ks|
    && forall i :: 0 <= i < |ks| ==> lines[i] == ks[i] + "=" + Compact(m[ks[i]])
  }

  lemma RenderedLines(m: map<string, Value>)
    ensures var ks := SortedKeys(m.Keys);
            LinesOf(m, ks, Lines(m, ks)) && Render(m) == Join(Lines(m, ks))
  {
    var ks := SortedKeys(m.Keys);
    AscendingIsKeyOrder(ks);
    assert forall i :: 0 <= i < |ks| ==> ks[i] in ks;
    hide SortedKeys, InKeyOrder;
  }

  /** A longer key may come first. */
  lemma LongerKeyFirst()
    ensures Render(map["b" := Num("2"), "aa" := Num("1")]) == "aa=1\nb=2"
  {
    hide SortedKeys, Lines;
    var m := map["b" := Num("2"), "aa" := Num("1")];
    var ks := ["aa", "b"];
    assert FirstDifference("aa", "b", 0) && Before(ks[0], ks[1]);
    RenderOrderFree(m, ks);
    var lines := Lines(m, ks);
    assert "aa" + ['='] + "1" == "aa=1" && Compact(Num("1")) == "1";
    assert "b" + ['='] + "2" == "b=2" && Compact(Num("2")) == "2";
    assert lines[0] == Line(ks[0], Num("1")) == "aa=1" && lines[1] == Line(ks[1], Num("2")) == "b=2";
    assert lines == ["aa=1", "b=2"] && lines[1..] == ["b=2"];
    assert "aa=1" + ['\n'] + "b=2" == "aa=1\nb=2";
  }

  /** The snippet is empty exactly when there are no parameters. */
  lemma RenderEmpty(m: map<string, Value>)
    ensures Render(m) == "" <==> m == map[]
  {
    var ks := SortedKeys(m.Keys);
    if ks != [] {
      var lines := Lines(m, ks);
      assert lines[0] == Line(ks[0], m[ks[0]]);
      assert '=' in lines[0];
      assert lines[0] <= Join(lines);
    }
  }

  // ------------------------------------------------------- reading a snippet back

  function SplitLines(s: string): (r: seq<string>)
    ensures r != [] && forall l :: l in r ==> '\n' !in l
  {
    if s == "" then [""]
    else
      var tail := SplitLines(s[1..]);
      if s[0] == '\n' then [""] + tail
      else
        assert tail[0] in tail;
        [[s[0]] + tail[0]] + tail[1..]
  }

  /** Cuts a line at its first equals sign. */
  function Cut(line: string): (r: Option<(string, string)>)
    ensures r.Some? ==> '=' !in r.value.0 && forall c :: c in r.value.0 ==> c in line
  {
    if line == "" then None
    else if line[0] == '=' then Some(("", line[1..]))
    else match Cut(line[1..])
      case Some((k, v)) => Some(([line[0]] + k, v))
      case None => None
  }

  function ReadLines(lines: seq<string>, acc: map<string, Value>): Option<map<string, Value>> {
    if lines == [] then Some(acc)
    else match Cut(lines[0])
      case None => None
      case Some((k, text)) =>
        match ReadValue(text)
        case Some((v, rest)) => if rest == "" then ReadLines(lines[1..], acc[k := v]) else None
        case None => None
  }

  function ReadBack(snippet: string): Option<map<string, Value>> {
    if snippet == "" then Some(map[]) else ReadLines(SplitLines(snippet), map[])
  }

  predicate CleanKeys(m: map<string, Value>) {
    forall k :: k in m ==> '=' !in k && '\n' !in k
  }

  lemma {:induction false} SplitFirst(line: string, rest: string)
    requires '\n' !in line
    ensures SplitLines(line + ['\n'] + rest) == [line] + SplitLines(rest)
    ensures SplitLines(line) == [line]
  {
    if line == "" {
      assert line + ['\n'] + rest == ['\n'] + rest;
    } else {
      var s := line + ['\n'] + rest;
      assert s[1..] == line[1..] + ['\n'] + rest;
      SplitFirst(line[1..], rest);
      assert line == [line[0]] + line[1..];
    }
  }

  lemma {:induction false} SplitJoin(lines: seq<string>)
    requires lines != [] && forall l :: l in lines ==> '\n' !in l
    ensures SplitLines(Join(lines)) == lines
  {
    assert lines[0] in lines;
    if |lines| == 1 {
      SplitFirst(lines[0], "");
    } else {
      SplitFirst(lines[0], Join(lines[1..]));
      SplitJoin(lines[1..]);
    }
  }

  lemma {:induction false} CutLine(k: string, text: string)
    requires '=' !in k
    ensures Cut(k + ['='] + text) == Some((k, text))
  {
    var line := k + ['='] + text;
    if k == "" {
      assert line == ['='] + text;
    } else {
      assert line[1..] == k[1..] + ['='] + text;
      CutLine(k[1..], text);
      assert k == [k[0]] + k[1..];
    }
  }

  lemma {:induction false} ReadLinesRoundTrip(m: map<string, Value>, ks: seq<string>, acc: map<string, Value>)
    requires WellFormed(Obj(m)) && CleanKeys(m) && forall k :: k in ks ==> k in m
    ensures ReadLines(Lines(m, ks), acc) == Some(acc + Listed(m, ks))
  {
    hide ReadValue;
    var lines := Lines(m, ks);
    if ks == [] {
      assert acc + Listed(m, ks) == acc;
    } else {
      var k := ks[0];
      assert k in ks;
      CutLine(k, Compact(m[k]));
      ValueRoundTrip(m[k], "");
      assert Compact(m[k]) + "" == Compact(m[k]);
      ReadLinesRoundTrip(m, ks[1..], acc[k := m[k]]);
      assert lines[1..] == Lines(m, ks[1..]);
      ListedStep(m, ks, acc);
    }
  }

  /** A map read from lines has only keys that those lines can spell. */
  lemma {:induction false} ReadLinesClean(lines: seq<string>, acc: map<string, Value>)
    requires CleanKeys(acc) && forall l :: l in lines ==> '\n' !in l
    ensures ReadLines(lines, acc).Some? ==> CleanKeys(ReadLines(lines, acc).value)
  {
    hide ReadValue;
    if lines != [] && Cut(lines[0]).Some? {
      assert lines[0] in lines;
      var (k, text) := Cut(lines[0]).value;
      if ReadValue(text).Some? {
        var (v, rest) := ReadValue(text).value;
        ReadLinesClean(lines[1..], acc[k := v]);
      }
    }
  }

  /** The snippet can be read back exactly when no key contains an equals sign
      or a line break. */
  lemma RenderRoundTrip(m: map<string, Value>)
    requires WellFormed(Obj(m))
    ensures ReadBack(Render(m)) == Some(m) <==> CleanKeys(m)
  {
    hide ReadLines;
    RenderEmpty(m);
    if m != map[] {
      if CleanKeys(m) {
        RenderReadBack(m);
      } else {
        ReadLinesClean(SplitLines(Render(m)), map[]);
      }
    }
  }

  lemma LineOneLine(m: map<string, Value>, k: string)
    requires WellFormed(Obj(m)) && CleanKeys(m) && k in m
    ensures '\n' !in Line(k, m[k])
  {
    CompactOneLine(m[k]);
  }

  lemma RenderReadBack(m: map<string, Value>)
    requires WellFormed(Obj(m)) && CleanKeys(m) && m != map[]
    ensures ReadLines(SplitLines(Render(m)), map[]) == Some(m)
  {
    hide ReadLines, SplitLines, SortedKeys, Compact, Join, Lines, WellFormed, CleanKeys;
    var ks := SortedKeys(m.Keys);
    var lines := Lines(m, ks);
    forall l | l in lines ensures '\n' !in l {
      var i :| 0 <= i < |lines| && lines[i] == l;
      LineOneLine(m, ks[i]) by { assert ks[i] in ks; }
    }
    SplitJoin(lines);
    ReadLinesRoundTrip(m, ks, map[]);
    ListedAll(m);
  }

  /** Parameters with clean keys never render to the same snippet. */
  lemma RenderInjective(m: map<string, Value>, n: map<string, Value>)
    requires WellFormed(Obj(m)) && WellFormed(Obj(n)) && CleanKeys(m) && CleanKeys(n)
    requires Render(m) == Render(n)
    ensures m == n
  {
    RenderRoundTrip(m);
    RenderRoundTrip(n);
  }

  lemma {:induction false} JoinLast(lines: seq<string>)
    requires |lines| > 1
    ensures Join(lines) == Join(lines[..|lines| - 1]) + ['\n'] + lines[|lines| - 1]
  {
    var init := lines[..|lines| - 1];
    if |lines| == 2 {
      assert init == [lines[0]];
    } else {
      JoinLast(lines[1..]);
      assert lines[1..][..|lines| - 2] == init[1..];
      JoinSplit(lines[0], Join(init[1..]), lines[|lines| - 1]);
    }
  }

  lemma JoinSplit(first: string, middle: string, last: string)
    ensures first + ['\n'] + (middle + ['\n'] + last) == first + ['\n'] + middle + ['\n'] + last
  {
  }

  /** A map with a single entry renders to a single line. */
  lemma RenderSingle(k: string, v: Value)
    ensures Render(map[k := v]) == Line(k, v)
  {
    var m := map[k := v];
    AscendingUnique([k], SortedKeys(m.Keys));
    assert Lines(m, [k]) == [Line(k, v)];
  }

  /** All lines but the last, taken for the beginning of the last line's key. */
  function SwallowedKey(m: map<string, Value>): string
    requires |SortedKeys(m.Keys)| > 1
  {
    var ks := SortedKeys(m.Keys);
    Join(Lines(m, ks)[..|ks| - 1]) + ['\n'] + ks[|ks| - 1]
  }

  /** Without that condition it is false: every snippet of two lines or more is also
      the snippet of a map with a single entry, whose key holds line breaks. */
  lemma RenderCollides(m: map<string, Value>)
    requires WellFormed(Obj(m)) && |SortedKeys(m.Keys)| > 1
    ensures var ks := SortedKeys(m.Keys);
            var last := ks[|ks| - 1];
            && last in m
            && (var n := map[SwallowedKey(m) := m[last]];
                n != m && WellFormed(Obj(n)) && !CleanKeys(n) && Render(n) == Render(m))
  {
    hide SortedKeys, Join, Compact, Lines, WellFormed;
    var ks := SortedKeys(m.Keys);
    var last := ks[|ks| - 1];
    assert last in ks && ks[0] in ks;
    var key := SwallowedKey(m);
    var n := map[key := m[last]];
    JoinLast(Lines(m, ks));
    RenderSingle(key, m[last]);
    LineSwallowed(Join(Lines(m, ks)[..|ks| - 1]), last, m[last]);
    WellFormedSingle(m, last, key);
    DistinctEnds(ks);
    assert key[|key| - |last| - 1] == '\n';
  }

  lemma LineSwallowed(before: string, k: string, v: Value)
    ensures Line(before + ['\n'] + k, v) == before + ['\n'] + Line(k, v)
  {
  }

  lemma WellFormedSingle(m: map<string, Value>, k: string, key: string)
    requires WellFormed(Obj(m)) && k in m
    ensures WellFormed(Obj(map[key := m[k]]))
  {
  }

  lemma DistinctEnds(ks: seq<string>)
    requires Ascending(ks) && |ks| > 1
    ensures ks[0] != ks[|ks| - 1]
  {
    BelowStrict(ks[0], ks[0]);
  }

  lemma SortedPair()
    ensures SortedKeys({"a", "b"}) == ["a", "b"]
  {
    hide SortedKeys;
    assert Below("a", "b");
    AscendingUnique(["a", "b"], SortedKeys({"a", "b"}));
  }

  /** For instance. */
  lemma CollidingPair()
    ensures var m, n := map["a" := Num("1"), "b" := Num("2")], map["a=1\nb" := Num("2")];
            m != n && WellFormed(Obj(m)) && WellFormed(Obj(n)) && Render(m) == Render(n)
  {
    hide SortedKeys, Lines, Below, ReadValue;
    var m := map["a" := Num("1"), "b" := Num("2")];
    SortedPair();
    assert m.Keys == {"a", "b"};
    var ks := SortedKeys(m.Keys);
    assert ks == ["a", "b"] && ks[0] == "a" && ks[1] == "b";
    var lines := Lines(m, ks);
    assert "a" + ['='] + "1" == "a=1" && Compact(Num("1")) == "1";
    assert lines[0] == Line(ks[0], Num("1")) == "a=1";
    assert lines[..1] == [lines[0]] && Join([lines[0]]) == lines[0];
    assert |ks| == 2;
    assert SwallowedKey(m) == Join(lines[..1]) + ['\n'] + ks[1];
    assert "a=1" + ['\n'] + "b" == "a=1\nb";
    RenderCollides(m);
    hide Render, Join;
  }
}
