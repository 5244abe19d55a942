/**
 The dashboard's event stream: how fragments are printed, and what a client that
 follows sections 9.2.5 and 9.2.6 of the WHATWG HTML Standard reads back.
 */
module EventStream {

  datatype Fragment = Fragment(event: string, selector: string, mergeMode: string, html: string)

  const DEFAULT_EVENT := "datastar-merge-fragments"
  const DEFAULT_SELECTOR := "#metrics-stream"
  const DEFAULT_MODE := "morph"

  const LF: char := '\n'
  const CR: char := '\r'

  // ----- text helpers -----

  /** strings.ReplaceAll(s, "\r\n", "\n"). */
  function ReplaceCRLF(s: string): string {
    if |s| >= 2 && s[0] == CR && s[1] == LF then [LF] + ReplaceCRLF(s[2..])
    else if s == [] then []
    else [s[0]] + ReplaceCRLF(s[1..])
  }

  /** strings.ReplaceAll(s, "\r", "\n"). */
  function ReplaceCR(s: string): string {
    if s == [] then [] else [if s[0] == CR then LF else s[0]] + ReplaceCR(s[1..])
  }

  /** strings.SplitSeq(s, "\n"). */
  function Split(s: string): (r: seq<string>)
    ensures r != []
  {
    if s == [] then [[]]
    else
      var rest := Split(s[1..]);
      if s[0] == LF then [[]] + rest else [[s[0]] + rest[0]] + rest[1..]
  }

  function Join(lines: seq<string>): string {
    if lines == [] then []
    else if |lines| == 1 then lines[0]
    else lines[0] + [LF] + Join(lines[1..])
  }

  predicate OneLine(s: string) {
    LF !in s && CR !in s
  }

  // ----- printing -----

  function Or(s: string, default: string): string {
    if s == "" then default else s
  }

  function Prefixed(prefix: string, lines: seq<string>): (r: seq<string>)
    ensures |r| == |lines| && forall i :: 0 <= i < |r| ==> r[i] == prefix + lines[i]
  {
    seq(|lines|, i requires 0 <= i < |lines| => prefix + lines[i])
  }

  /** Every line ended by LF. */
  function Text(lines: seq<string>): string {
    if lines == [] then [] else lines[0] + [LF] + Text(lines[1..])
  }

  /** What the data lines of a fragment carry. */
  function Body(selector: string, mode: string, html: seq<string>): seq<string> {
    ["selector " + selector, "mergeMode " + mode] + Prefixed("fragments ", html)
  }

  /** An event line, its data lines and the blank line that ends them. */
  function Block(name: string, values: seq<string>): seq<string> {
    ["event: " + name] + Prefixed("data: ", values) + [""]
  }

  /** The lines one fragment is printed as. */
  function Printed(f: Fragment): seq<string> {
    Block(Or(f.event, DEFAULT_EVENT),
          Body(Or(f.selector, DEFAULT_SELECTOR), Or(f.mergeMode, DEFAULT_MODE),
               Split(ReplaceCR(ReplaceCRLF(f.html)))))
  }

  lemma {:induction false} TextAppend(a: seq<string>, b: seq<string>)
    ensures Text(a + b) == Text(a) + Text(b)
  {
    if a == [] {
      assert a + b == b;
    } else {
      TextAppend(a[1..], b);
      assert (a + b)[1..] == a[1..] + b;
    }
  }

  lemma TextOne(line: string)
    ensures Text([line]) == line + [LF]
  {
  }

  lemma BlockAt(name: string, values: seq<string>)
    ensures var all := Block(name, values);
            && |all| == 2 + |values| && all[0] == "event: " + name && all[1 + |values|] == ""
            && forall i :: 0 <= i < |values| ==> all[1 + i] == "data: " + values[i]
  {
  }

  lemma Joined(a: string, b: string, c: string, ab: string)
    requires a + b == ab
    ensures a + (b + c) == ab + c
  {
    assert a + (b + c) == a + b + c;
  }

  /** The data lines are those of the body. */
  lemma BodyAt(selector: string, mode: string, html: seq<string>)
    ensures var body := Body(selector, mode, html);
            && |body| == 2 + |html|
            && "data: " + body[0] == "data: selector " + selector
            && "data: " + body[1] == "data: mergeMode " + mode
            && forall i :: 0 <= i < |html| ==> "data: " + body[2 + i] == "data: fragments " + html[i]
  {
    Joined("data: ", "selector ", selector, "data: selector ");
    Joined("data: ", "mergeMode ", mode, "data: mergeMode ");
    forall i | 0 <= i < |html| ensures "data: " + Body(selector, mode, html)[2 + i] == "data: fragments " + html[i] {
      Joined("data: ", "fragments ", html[i], "data: fragments ");
    }
  }

  lemma PrintedAt(f: Fragment)
    ensures var html := Split(ReplaceCR(ReplaceCRLF(f.html)));
            && |Printed(f)| == 4 + |html|
            && Printed(f)[0] == "event: " + Or(f.event, DEFAULT_EVENT)
            && Printed(f)[1] == "data: selector " + Or(f.selector, DEFAULT_SELECTOR)
            && Printed(f)[2] == "data: mergeMode " + Or(f.mergeMode, DEFAULT_MODE)
            && (forall i :: 0 <= i < |html| ==> Printed(f)[3 + i] == "data: fragments " + html[i])
            && Printed(f)[3 + |html|] == ""
  {
    var selector, mode := Or(f.selector, DEFAULT_SELECTOR), Or(f.mergeMode, DEFAULT_MODE);
    var html := Split(ReplaceCR(ReplaceCRLF(f.html)));
    var body := Body(selector, mode, html);
    BlockAt(Or(f.event, DEFAULT_EVENT), body);
    BodyAt(selector, mode, html);
    forall i | 0 <= i < |html| ensures Printed(f)[3 + i] == "data: fragments " + html[i] {
      assert Printed(f)[1 + (2 + i)] == "data: " + body[2 + i];
    }
  }

  method WriteLine(buf: string, key: string, value: string, ghost all: seq<string>, ghost k: nat) returns (out: string)
    requires k < |all| && buf == Text(all[..k]) && all[k] == key + value
    ensures out == Text(all[..k + 1])
  {
    out := buf + (key + value + [LF]);
    assert all[..k + 1] == all[..k] + [all[k]];
    TextAppend(all[..k], [all[k]]);
    TextOne(all[k]);
  }

  /** Write the fields line by line, and the blank line that ends an event. */
  method WriteFields(event: string, selector: string, mergeMode: string, html: seq<string>, ghost all: seq<string>)
    returns (buf: string)
    requires |all| == 4 + |html| && all[3 + |html|] == ""
    requires all[0] == "event: " + event
    requires all[1] == "data: selector " + selector && all[2] == "data: mergeMode " + mergeMode
    requires forall i :: 0 <= i < |html| ==> all[3 + i] == "data: fragments " + html[i]
    ensures buf == Text(all)
  {
    buf := WriteLine("", "event: ", event, all, 0);
    buf := WriteLine(buf, "data: selector ", selector, all, 1);
    buf := WriteLine(buf, "data: mergeMode ", mergeMode, all, 2);
    for i := 0 to |html|
      invariant buf == Text(all[..3 + i])
    {
      buf := WriteLine(buf, "data: fragments ", html[i], all, 3 + i);
    }
    buf := WriteLine(buf, "", "", all, 3 + |html|);
    assert all[..|all|] == all;
  }

  /** Print one fragment into a buffer. */
  method EncodeFragment(f: Fragment) returns (buf: string)
    ensures buf == Text(Printed(f))
  {
    var event, selector, mergeMode := f.event, f.selector, f.mergeMode;
    if event == "" {
      event := DEFAULT_EVENT;
    }
    if selector == "" {
      selector := DEFAULT_SELECTOR;
    }
    if mergeMode == "" {
      mergeMode := DEFAULT_MODE;
    }
    PrintedAt(f);
    buf := WriteFields(event, selector, mergeMode, Split(ReplaceCR(ReplaceCRLF(f.html))), Printed(f));
  }

  /** The lines of a payload: its fragments one after another. */
  function Payload(fs: seq<Fragment>): seq<string> {
    if fs == [] then [] else Printed(fs[0]) + Payload(fs[1..])
  }

  /** Render a payload by appending each fragment's encoding. */
  method EncodePayload(fs: seq<Fragment>) returns (payload: string)
    ensures payload == Text(Payload(fs))
  {
    payload := "";
    for i := 0 to |fs|
      invariant payload + Text(Payload(fs[i..])) == Text(Payload(fs))
    {
      var part := EncodeFragment(fs[i]);
      TextAppend(Printed(fs[i]), Payload(fs[i + 1..]));
      assert fs[i..][0] == fs[i] && fs[i..][1..] == fs[i + 1..];
      payload := payload + part;
    }
  }

  /** What the server writes on one stream: the retry hint, keep-alives and payloads. */
  datatype Chunk = Retry(millis: string) | KeepAlive | Fragments(fs: seq<Fragment>)

  function ChunkLines(c: Chunk): seq<string> {
    match c
    case Retry(millis) => ["retry: " + millis, ""]
    case KeepAlive => [": keepalive", ""]
    case Fragments(fs) => Payload(fs)
  }

  function Written(chunks: seq<Chunk>): seq<string> {
    if chunks == [] then [] else ChunkLines(chunks[0]) + Written(chunks[1..])
  }

  /** What the stream handler writes, one write after another. */
  method WriteStream(chunks: seq<Chunk>) returns (out: string)
    ensures out == Text(Written(chunks))
  {
    out := "";
    for i := 0 to |chunks|
      invariant out + Text(Written(chunks[i..])) == Text(Written(chunks))
    {
      var part := WriteChunk(chunks[i]);
      assert chunks[i..][0] == chunks[i] && chunks[i..][1..] == chunks[i + 1..];
      TextAppend(ChunkLines(chunks[i]), Written(chunks[i + 1..]));
      Associates(out, part, Text(Written(chunks[i + 1..])));
      out := out + part;
    }
  }

  lemma Associates(a: string, b: string, c: string)
    ensures a + (b + c) == a + b + c
  {
  }

  method WriteChunk(c: Chunk) returns (part: string)
    ensures part == Text(ChunkLines(c))
  {
    match c {
      case Retry(millis) =>
        TwoLines("retry: " + millis);
        part := "retry: " + millis + [LF, LF];
      case KeepAlive =>
        TwoLines(": keepalive");
        part := ": keepalive" + [LF, LF];
      case Fragments(fs) =>
        part := EncodePayload(fs);
    }
  }

  lemma TwoLines(line: string)
    ensures Text([line, ""]) == line + [LF, LF]
  {
    TextOne("");
    assert [line, ""][1..] == [""];
    assert line + [LF] + ("" + [LF]) == line + [LF, LF];
  }

  // ----- reading, by sections 9.2.5 and 9.2.6 of the WHATWG HTML Standard -----

  /** Where the first line break is, or the length. */
  function Break(s: string): (n: nat)
    ensures n <= |s| && OneLine(s[..n])
    ensures n < |s| ==> s[n] == LF || s[n] == CR
  {
    if s == [] || s[0] == LF || s[0] == CR then 0
    else
      var n := 1 + Break(s[1..]);
      assert s[..n] == [s[0]] + s[1..][..n - 1];
      n
  }

  /** The lines that are ended by CR LF, LF or CR; what follows the last break is discarded. */
  function Lines(s: string): seq<string>
    decreases |s|
  {
    var n := Break(s);
    if n == |s| then []
    else if s[n] == CR && n + 1 < |s| && s[n + 1] == LF then [s[..n]] + Lines(s[n + 2..])
    else [s[..n]] + Lines(s[n + 1..])
  }

  datatype Buffers = Buffers(eventType: string, data: string)

  datatype Message = Message(name: string, data: string)

  const EMPTY := Buffers("", "")

  function Colon(line: string): (k: nat)
    ensures k <= |line| && ':' !in line[..k]
    ensures k < |line| ==> line[k] == ':'
  {
    if line == [] || line[0] == ':' then 0
    else
      var k := 1 + Colon(line[1..]);
      assert line[..k] == [line[0]] + line[1..][..k - 1];
      k
  }

  /** The value of a field line: what follows the colon, less one leading space. */
  function Value(line: string): string {
    var k := Colon(line);
    if k == |line| then ""
    else if k + 1 < |line| && line[k + 1] == ' ' then line[k + 2..]
    else line[k + 1..]
  }

  function Process(b: Buffers, line: string): Buffers {
    var name := line[..Colon(line)];
    if name == "event" then b.(eventType := Value(line))
    else if name == "data" then b.(data := b.data + Value(line) + [LF])
    else b
  }

  function Dispatch(b: Buffers): seq<Message> {
    if b.data == "" then [] else [Message(Or(b.eventType, "message"), b.data[..|b.data| - 1])]
  }

  function Messages(lines: seq<string>, b: Buffers): seq<Message> {
    if lines == [] then []
    else if lines[0] == "" then Dispatch(b) + Messages(lines[1..], EMPTY)
    else Messages(lines[1..], Process(b, lines[0]))
  }

  // ----- reading a message as a fragment -----

  /** The rest of every line whose first word is `key`. */
  function Under(key: string, lines: seq<string>): seq<string> {
    if lines == [] then []
    else
      var rest := Under(key, lines[1..]);
      if key + " " <= lines[0] then [lines[0][|key| + 1..]] + rest else rest
  }

  function View(m: Message): Fragment {
    var lines := Split(m.data);
    Fragment(m.name, Join(Under("selector", lines)), Join(Under("mergeMode", lines)), Join(Under("fragments", lines)))
  }

  function Views(ms: seq<Message>): seq<Fragment> {
    if ms == [] then [] else [View(ms[0])] + Views(ms[1..])
  }

  function ReadLines(lines: seq<string>): seq<Fragment> {
    Views(Messages(lines, EMPTY))
  }

  // ----- the fragment a client should see -----

  /** CR LF and CR become LF. */
  function Normalised(s: string): string {
    if s == [] then []
    else if s[0] == CR then [LF] + Normalised(if |s| >= 2 && s[1] == LF then s[2..] else s[1..])
    else [s[0]] + Normalised(s[1..])
  }

  function Expected(f: Fragment): Fragment {
    Fragment(Or(f.event, DEFAULT_EVENT), Or(f.selector, DEFAULT_SELECTOR),
             Or(f.mergeMode, DEFAULT_MODE), Normalised(f.html))
  }

  predicate Plain(f: Fragment) {
    OneLine(f.event) && OneLine(f.selector) && OneLine(f.mergeMode)
  }

  // ----- lemmas -----

  lemma {:induction false} ReplacedIsNormalised(s: string)
    ensures ReplaceCR(ReplaceCRLF(s)) == Normalised(s) && CR !in Normalised(s)
  {
    if s != [] {
      if |s| >= 2 && s[0] == CR && s[1] == LF {
        ReplacedIsNormalised(s[2..]);
        assert ReplaceCRLF(s)[1..] == ReplaceCRLF(s[2..]);
      } else {
        ReplacedIsNormalised(s[1..]);
        assert ReplaceCRLF(s)[1..] == ReplaceCRLF(s[1..]);
      }
    }
  }

  predicate NoLF(lines: seq<string>) {
    forall i :: 0 <= i < |lines| ==> LF !in lines[i]
  }

  predicate AllOneLine(lines: seq<string>) {
    forall i :: 0 <= i < |lines| ==> OneLine(lines[i])
  }

  lemma {:induction false} SplitIsLines(s: string)
    requires CR !in s
    ensures AllOneLine(Split(s))
  {
    if s != [] {
      SplitIsLines(s[1..]);
      var rest := Split(s[1..]);
      assert s[0] != CR;
      assert OneLine(rest[0]);
      if s[0] != LF {
        assert OneLine([s[0]] + rest[0]);
      }
    }
  }

  lemma {:induction false} JoinCons(c: char, lines: seq<string>)
    requires lines != []
    ensures Join([[c] + lines[0]] + lines[1..]) == [c] + Join(lines)
    ensures Join([[]] + lines) == [LF] + Join(lines)
  {
    assert ([[]] + lines)[1..] == lines;
    if |lines| > 1 {
      assert ([[c] + lines[0]] + lines[1..])[1..] == lines[1..];
    }
  }

  lemma {:induction false} SplitThenJoin(s: string)
    ensures Join(Split(s)) == s
  {
    if s != [] {
      SplitThenJoin(s[1..]);
      JoinCons(s[0], Split(s[1..]));
    }
  }

  lemma {:induction false} SplitLine(line: string, rest: string)
    requires LF !in line
    ensures Split(line + [LF] + rest) == [line] + Split(rest)
    ensures Split(line) == [line]
  {
    if line != [] {
      SplitLine(line[1..], rest);
      assert (line + [LF] + rest)[1..] == line[1..] + [LF] + rest;
      assert line == [line[0]] + line[1..];
    } else {
      assert (line + [LF] + rest)[1..] == rest;
    }
  }

  lemma {:induction false} JoinThenSplit(lines: seq<string>)
    requires lines != [] && NoLF(lines)
    ensures Split(Join(lines)) == lines
  {
    if |lines| == 1 {
      SplitLine(lines[0], []);
    } else {
      JoinThenSplit(lines[1..]);
      SplitLine(lines[0], Join(lines[1..]));
    }
  }

  lemma {:induction false} BreakAt(line: string, rest: string)
    requires OneLine(line) && rest != [] && !OneLine(rest[..1])
    ensures Break(line + rest) == |line|
  {
    if line != [] {
      assert (line + rest)[1..] == line[1..] + rest;
      BreakAt(line[1..], rest);
    }
  }

  lemma FirstLine(line: string, rest: string)
    requires OneLine(line)
    ensures Lines(line + [LF] + rest) == [line] + Lines(rest)
  {
    var s := line + [LF] + rest;
    assert s == line + ([LF] + rest);
    BreakAt(line, [LF] + rest);
    assert s[..|line|] == line && s[|line| + 1..] == rest;
  }

  /** Lines written out are read back as they were. */
  lemma {:induction false} LinesBack(lines: seq<string>)
    requires AllOneLine(lines)
    ensures Lines(Text(lines)) == lines
  {
    if lines != [] {
      FirstLine(lines[0], Text(lines[1..]));
      LinesBack(lines[1..]);
    }
  }

  lemma {:induction false} ColonAfter(name: string, rest: string)
    requires ':' !in name
    ensures Colon(name + ":" + rest) == |name|
  {
    if name != [] {
      assert (name + ":" + rest)[1..] == name[1..] + ":" + rest;
      ColonAfter(name[1..], rest);
    }
  }

  /** A line `name: value` has that name and that value. */
  lemma FieldLine(name: string, value: string)
    requires ':' !in name
    ensures var line := name + ": " + value;
            line[..Colon(line)] == name && Value(line) == value
  {
    assert name + ": " + value == name + ":" + (" " + value);
    ColonAfter(name, " " + value);
  }

  lemma TextCons(before: string, lines: seq<string>)
    requires lines != []
    ensures before + lines[0] + [LF] + Text(lines[1..]) == before + Text(lines)
  {
  }

  lemma ReadDataLine(field: string, value: string, lines: seq<string>, b: Buffers)
    requires field == "data: " && lines != [] && lines[0] == field + value
    ensures Messages(lines, b) == Messages(lines[1..], b.(data := b.data + value + [LF]))
  {
    assert field == "data" + ": ";
    FieldLine("data", value);
  }

  lemma {:induction false} ReadData(field: string, values: seq<string>, rest: seq<string>, b: Buffers)
    requires field == "data: "
    ensures Messages(Prefixed(field, values) + rest, b) == Messages(rest, b.(data := b.data + Text(values)))
  {
    var lines := Prefixed(field, values) + rest;
    if values == [] {
      assert lines == rest && b.data + Text(values) == b.data;
    } else {
      ReadDataLine(field, values[0], lines, b);
      assert lines[1..] == Prefixed(field, values[1..]) + rest;
      ReadData(field, values[1..], rest, b.(data := b.data + values[0] + [LF]));
      TextCons(b.data, values);
    }
  }

  lemma {:induction false} TextIsJoin(lines: seq<string>)
    requires lines != []
    ensures Text(lines) == Join(lines) + [LF]
  {
    if |lines| > 1 {
      TextIsJoin(lines[1..]);
    }
  }

  /** An event line, data lines and a blank line make one message. */
  lemma ReadBlock(name: string, values: seq<string>, rest: seq<string>)
    requires name != "" && values != []
    ensures Messages(Block(name, values) + rest, EMPTY) == [Message(name, Join(values))] + Messages(rest, EMPTY)
  {
    var lines := Block(name, values) + rest;
    assert "event: " == "event" + ": ";
    FieldLine("event", name);
    assert lines[1..] == Prefixed("data: ", values) + ([""] + rest);
    ReadData("data: ", values, [""] + rest, Buffers(name, ""));
    TextIsJoin(values);
    assert "" + Text(values) == Join(values) + [LF];
    assert ([""] + rest)[1..] == rest;
  }

  lemma {:induction false} UnderPrefixed(key: string, lines: seq<string>)
    ensures Under(key, Prefixed(key + " ", lines)) == lines
  {
    if lines != [] {
      UnderPrefixed(key, lines[1..]);
      var p := Prefixed(key + " ", lines);
      assert p[1..] == Prefixed(key + " ", lines[1..]);
      assert p[0][|key| + 1..] == lines[0];
    }
  }

  lemma {:induction false} UnderOther(key: string, lines: seq<string>)
    requires key != "" && forall i :: 0 <= i < |lines| ==> lines[i] != "" && lines[i][0] != key[0]
    ensures Under(key, lines) == []
  {
    if lines != [] {
      UnderOther(key, lines[1..]);
    }
  }

  lemma UnderOwn(key: string, value: string, rest: seq<string>)
    ensures Under(key, [key + " " + value] + rest) == [value] + Under(key, rest)
  {
    var lines := [key + " " + value] + rest;
    assert lines[1..] == rest && lines[0][|key| + 1..] == value;
  }

  lemma UnderSkips(key: string, line: string, rest: seq<string>)
    requires key != "" && line != "" && line[0] != key[0]
    ensures Under(key, [line] + rest) == Under(key, rest)
  {
    var lines := [line] + rest;
    assert lines[1..] == rest && !(key + " " <= line);
  }

  lemma UnderBody(selector: string, mode: string, lines: seq<string>)
    ensures Under("selector", Body(selector, mode, lines)) == [selector]
    ensures Under("mergeMode", Body(selector, mode, lines)) == [mode]
    ensures Under("fragments", Body(selector, mode, lines)) == lines
  {
    var s, m, tail := "selector" + " " + selector, "mergeMode" + " " + mode, Prefixed("fragments" + " ", lines);
    assert "selector" + " " == "selector " && "mergeMode" + " " == "mergeMode " && "fragments" + " " == "fragments ";
    assert Body(selector, mode, lines) == [s] + ([m] + tail);
    UnderOther("selector", tail);
    UnderOther("mergeMode", tail);
    UnderPrefixed("fragments", lines);
    UnderOwn("selector", selector, [m] + tail);
    UnderSkips("selector", m, tail);
    UnderSkips("mergeMode", s, [m] + tail);
    UnderOwn("mergeMode", mode, tail);
    UnderSkips("fragments", s, [m] + tail);
    UnderSkips("fragments", m, tail);
  }

  lemma ViewBody(name: string, selector: string, mode: string, html: string)
    requires OneLine(selector) && OneLine(mode) && CR !in html
    ensures View(Message(name, Join(Body(selector, mode, Split(html))))) == Fragment(name, selector, mode, html)
  {
    var b := Body(selector, mode, Split(html));
    SplitIsLines(html);
    assert NoLF(b);
    JoinThenSplit(b);
    UnderBody(selector, mode, Split(html));
    SplitThenJoin(html);
  }

  lemma PrefixedIsLines(prefix: string, lines: seq<string>)
    requires OneLine(prefix) && AllOneLine(lines)
    ensures AllOneLine(Prefixed(prefix, lines))
  {
  }

  lemma OrIsLine(s: string, default: string)
    requires OneLine(s) && OneLine(default)
    ensures OneLine(Or(s, default))
  {
  }

  lemma BodyIsLines(selector: string, mode: string, html: seq<string>)
    requires OneLine(selector) && OneLine(mode) && AllOneLine(html)
    ensures AllOneLine(Body(selector, mode, html))
  {
    PrefixedIsLines("fragments ", html);
    PrefixedIsLines("selector ", [selector]);
    PrefixedIsLines("mergeMode ", [mode]);
    assert Body(selector, mode, html)
        == Prefixed("selector ", [selector]) + Prefixed("mergeMode ", [mode]) + Prefixed("fragments ", html);
  }

  lemma BlockIsLines(name: string, values: seq<string>)
    requires OneLine(name) && AllOneLine(values)
    ensures AllOneLine(Block(name, values))
  {
    PrefixedIsLines("data: ", values);
    PrefixedIsLines("event: ", [name]);
    assert Block(name, values) == Prefixed("event: ", [name]) + Prefixed("data: ", values) + [""];
  }

  lemma DefaultsAreLines()
    ensures OneLine(DEFAULT_EVENT) && OneLine(DEFAULT_SELECTOR) && OneLine(DEFAULT_MODE)
  {
  }

  lemma ExpectedIsLines(f: Fragment)
    requires Plain(f)
    ensures OneLine(Expected(f).event) && OneLine(Expected(f).selector) && OneLine(Expected(f).mergeMode)
    ensures AllOneLine(Split(Expected(f).html))
  {
    DefaultsAreLines();
    OrIsLine(f.event, DEFAULT_EVENT);
    OrIsLine(f.selector, DEFAULT_SELECTOR);
    OrIsLine(f.mergeMode, DEFAULT_MODE);
    ReplacedIsNormalised(f.html);
    SplitIsLines(Normalised(f.html));
  }

  lemma PrintedIsBlock(f: Fragment)
    ensures var x := Expected(f);
            Printed(f) == Block(x.event, Body(x.selector, x.mergeMode, Split(x.html)))
  {
    ReplacedIsNormalised(f.html);
  }

  lemma PrintedIsLines(f: Fragment)
    requires Plain(f)
    ensures AllOneLine(Printed(f))
  {
    var x := Expected(f);
    ExpectedIsLines(f);
    PrintedIsBlock(f);
    BodyIsLines(x.selector, x.mergeMode, Split(x.html));
    BlockIsLines(x.event, Body(x.selector, x.mergeMode, Split(x.html)));
  }

  /** Reading a printed fragment gives it back and leaves the rest to be read. */
  lemma ReadPrinted(f: Fragment, rest: seq<string>)
    requires Plain(f)
    ensures ReadLines(Printed(f) + rest) == [Expected(f)] + ReadLines(rest)
  {
    var x := Expected(f);
    ReplacedIsNormalised(f.html);
    ExpectedIsLines(f);
    PrintedIsBlock(f);
    ReadBlock(x.event, Body(x.selector, x.mergeMode, Split(x.html)), rest);
    ViewBody(x.event, x.selector, x.mergeMode, x.html);
  }

  predicate AllPlain(fs: seq<Fragment>) {
    forall i :: 0 <= i < |fs| ==> Plain(fs[i])
  }

  function Shown(fs: seq<Fragment>): seq<Fragment> {
    if fs == [] then [] else [Expected(fs[0])] + Shown(fs[1..])
  }

  lemma {:induction false} PayloadIsLines(fs: seq<Fragment>)
    requires AllPlain(fs)
    ensures AllOneLine(Payload(fs))
  {
    if fs != [] {
      PayloadIsLines(fs[1..]);
      PrintedIsLines(fs[0]);
      AppendIsLines(Printed(fs[0]), Payload(fs[1..]));
    }
  }

  lemma {:induction false} ReadPayload(fs: seq<Fragment>, rest: seq<string>)
    requires AllPlain(fs)
    ensures ReadLines(Payload(fs) + rest) == Shown(fs) + ReadLines(rest)
  {
    if fs == [] {
      assert Payload(fs) + rest == rest;
    } else {
      var more := Payload(fs[1..]) + rest;
      ReadPayload(fs[1..], rest);
      Regroup(Printed(fs[0]), Payload(fs[1..]), rest);
      ReadPrinted(fs[0], more);
      RegroupShown(Expected(fs[0]), Shown(fs[1..]), ReadLines(rest));
    }
  }

  lemma RegroupShown(x: Fragment, a: seq<Fragment>, b: seq<Fragment>)
    ensures [x] + (a + b) == [x] + a + b
  {
  }

  lemma Regroup(a: seq<string>, b: seq<string>, c: seq<string>)
    ensures a + b + c == a + (b + c)
  {
  }

  lemma AppendIsLines(a: seq<string>, b: seq<string>)
    requires AllOneLine(a) && AllOneLine(b)
    ensures AllOneLine(a + b)
  {
  }

  /** What a client should see of a whole stream. */
  function ShownOf(chunks: seq<Chunk>): seq<Fragment> {
    if chunks == [] then []
    else (if chunks[0].Fragments? then Shown(chunks[0].fs) else []) + ShownOf(chunks[1..])
  }

  predicate PlainChunk(c: Chunk) {
    match c
    case Retry(millis) => OneLine(millis)
    case KeepAlive => true
    case Fragments(fs) => AllPlain(fs)
  }

  /** A line that is neither an event nor a data field, then a blank one, shows nothing. */
  lemma ReadQuiet(line: string, rest: seq<string>)
    requires line != "" && line[..Colon(line)] != "event" && line[..Colon(line)] != "data"
    ensures ReadLines([line, ""] + rest) == ReadLines(rest)
  {
    var lines := [line, ""] + rest;
    assert lines[1..] == [""] + rest && ([""] + rest)[1..] == rest;
    assert Messages(lines, EMPTY) == Messages([""] + rest, EMPTY);
    assert Dispatch(EMPTY) + Messages(rest, EMPTY) == Messages(rest, EMPTY);
  }

  lemma ReadRetry(millis: string, rest: seq<string>)
    requires OneLine(millis)
    ensures AllOneLine(["retry: " + millis, ""]) && ReadLines(["retry: " + millis, ""] + rest) == ReadLines(rest)
  {
    PrefixedIsLines("retry: ", [millis]);
    assert ["retry: " + millis, ""] == Prefixed("retry: ", [millis]) + [""];
    assert "retry" + ": " == "retry: ";
    FieldLine("retry", millis);
    ReadQuiet("retry: " + millis, rest);
  }

  /** A line that starts with a colon names no field. */
  lemma CommentLine(text: string)
    ensures var line := ":" + text; line != "" && line[..Colon(line)] == ""
  {
    assert (":" + text)[0] == ':';
  }

  lemma ReadKeepAlive(rest: seq<string>)
    ensures AllOneLine([": keepalive", ""]) && ReadLines([": keepalive", ""] + rest) == ReadLines(rest)
  {
    assert ":" + " keepalive" == ": keepalive";
    CommentLine(" keepalive");
    ReadQuiet(": keepalive", rest);
  }

  lemma ReadChunk(c: Chunk, rest: seq<string>)
    requires PlainChunk(c)
    ensures AllOneLine(ChunkLines(c))
    ensures ReadLines(ChunkLines(c) + rest) == (if c.Fragments? then Shown(c.fs) else []) + ReadLines(rest)
  {
    match c {
      case Retry(millis) =>
        ReadRetry(millis, rest);
      case KeepAlive =>
        ReadKeepAlive(rest);
      case Fragments(fs) =>
        PayloadIsLines(fs);
        ReadPayload(fs, rest);
    }
  }

  lemma {:induction false} ReadWritten(chunks: seq<Chunk>)
    requires forall i :: 0 <= i < |chunks| ==> PlainChunk(chunks[i])
    ensures ReadLines(Written(chunks)) == ShownOf(chunks) && AllOneLine(Written(chunks))
  {
    if chunks != [] {
      ReadWritten(chunks[1..]);
      ReadChunk(chunks[0], Written(chunks[1..]));
    }
  }

  /** Everything a stream is sent, read by the standard's rules, is the fragments in
      order; retry hints and keep-alives show nothing. */
  lemma RoundTrip(chunks: seq<Chunk>)
    requires forall i :: 0 <= i < |chunks| ==> PlainChunk(chunks[i])
    ensures ReadLines(Lines(Text(Written(chunks)))) == ShownOf(chunks)
  {
    ReadWritten(chunks);
    LinesBack(Written(chunks));
  }
}
