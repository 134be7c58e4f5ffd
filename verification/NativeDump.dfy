/**
 * The dump around those numbers: modules, frames and lines as the handler writes them, the line
 * parser, and what survives when the dump is cut off.
 */
module NativeDump {
  import opened Base
  import opened Decimal
  import opened NativeCrash

  datatype Frame = Frame(name: string, offset: nat, buildId: string)

  datatype Dump = Dump(signalNo: int, code: int, faultAddr: nat, frames: seq<Frame>)

  datatype Module = Module(start: nat, end: nat, name: string, buildId: seq<nat>)

  const MAGIC := "tombstone-native-crash"
  const UNKNOWN := "??"

  // ------------------------------------------------- what the handler writes

  predicate Holds(m: Module, addr: nat) { m.start <= addr < m.end }

  /** The first module that holds an address; the table's length when none does. */
  function Resolved(ms: seq<Module>, addr: nat): (i: nat)
    ensures i <= |ms| && (i < |ms| ==> Holds(ms[i], addr))
    ensures forall k :: 0 <= k < i ==> !Holds(ms[k], addr)
  {
    if ms == [] || Holds(ms[0], addr) then 0 else 1 + Resolved(ms[1..], addr)
  }

  method ResolveModule(ms: seq<Module>, addr: nat) returns (index: int, offset: nat)
    ensures index == if Resolved(ms, addr) < |ms| then Resolved(ms, addr) else -1
    ensures index >= 0 ==> offset == addr - ms[index].start
  {
    for i := 0 to |ms|
      invariant Resolved(ms, addr) == i + Resolved(ms[i..], addr)
    {
      assert ms[i..][1..] == ms[i + 1..];
      if ms[i].start <= addr < ms[i].end {
        return i, addr - ms[i].start;
      }
    }
    return -1, 0;
  }

  predicate Bytes(b: seq<nat>) { forall i :: 0 <= i < |b| ==> b[i] < 256 }

  function BytesText(b: seq<nat>): string
    requires Bytes(b)
  {
    if b == [] then ""
    else BytesText(b[..|b| - 1]) + [HexDigit(b[|b| - 1] / 16)] + [HexDigit(b[|b| - 1] % 16)]
  }

  predicate Loaded(ms: seq<Module>) { forall i :: 0 <= i < |ms| ==> Bytes(ms[i].buildId) }

  function FrameOf(ms: seq<Module>, addr: nat): Frame
    requires Loaded(ms)
  {
    var i := Resolved(ms, addr);
    if i == |ms| then Frame(UNKNOWN, addr, "") else Frame(ms[i].name, addr - ms[i].start, BytesText(ms[i].buildId))
  }

  function FrameLine(f: Frame): string { "frame " + f.name + " " + HexText(f.offset) + " " + f.buildId }

  method WriteFrame(ms: seq<Module>, addr: nat) returns (text: string)
    requires Loaded(ms) && addr < WORD
    ensures text == FrameLine(FrameOf(ms, addr)) + "\n"
  {
    var index, offset := ResolveModule(ms, addr);
    text := "frame ";
    if index < 0 {
      var unresolved := HexTo(addr);
      text := text + "?? " + unresolved + " \n";
      UnresolvedText(unresolved);
      return;
    }
    var m := ms[index];
    text := text + m.name;
    text := text + " ";
    var hex := HexTo(offset);
    text := text + hex;
    text := text + " ";
    var bid := "";
    for i := 0 to |m.buildId|
      invariant bid == BytesText(m.buildId[..i])
    {
      assert m.buildId[..i + 1][..i] == m.buildId[..i];
      bid := bid + [HexDigit(m.buildId[i] / 16)];
      bid := bid + [HexDigit(m.buildId[i] % 16)];
    }
    assert m.buildId[..|m.buildId|] == m.buildId;
    text := text + bid;
    text := text + "\n";
  }

  lemma UnresolvedText(hex: string)
    ensures "frame " + "?? " + hex + " \n" == "frame " + UNKNOWN + " " + hex + " " + "" + "\n"
  {
  }

  function FrameLines(fs: seq<Frame>): (lines: seq<string>)
    ensures |lines| == |fs|
  {
    seq(|fs|, i requires 0 <= i < |fs| => FrameLine(fs[i]))
  }

  function HeadLines(d: Dump): seq<string> {
    [MAGIC + " 1", "signal " + IntText(d.signalNo), "code " + IntText(d.code), "fault " + HexText(d.faultAddr)]
  }

  function Lines(d: Dump): seq<string> { HeadLines(d) + FrameLines(d.frames) + ["end"] }

  function TextOf(lines: seq<string>): string {
    if lines == [] then "" else TextOf(lines[..|lines| - 1]) + lines[|lines| - 1] + "\n"
  }

  function RegisterFrame(ms: seq<Module>, addr: nat): seq<Frame>
    requires Loaded(ms)
  {
    if addr != 0 then [FrameOf(ms, addr)] else []
  }

  /** What a signal with this program counter and link register is dumped as; 0 stands for no register. */
  function Captured(signalNo: int, code: int, fault: nat, pc: nat, lr: nat, ms: seq<Module>): Dump
    requires Loaded(ms)
  {
    Dump(signalNo, code, fault,
         RegisterFrame(ms, pc) + RegisterFrame(ms, lr))
  }

  lemma TextPush(lines: seq<string>, line: string)
    ensures TextOf(lines + [line]) == TextOf(lines) + line + "\n"
  {
    assert (lines + [line])[..|lines|] == lines;
  }

  /** One more line of the dump. */
  method WriteLine(text: string, keyword: string, value: string, ghost lines: seq<string>)
    returns (r: string, ghost lines': seq<string>)
    requires text == TextOf(lines)
    ensures lines' == lines + [keyword + value] && r == TextOf(lines')
  {
    r := text + keyword;
    r := r + value;
    r := r + "\n";
    lines' := lines + [keyword + value];
    Assoc(text, keyword, value);
    TextPush(lines, keyword + value);
  }

  method HandlerDump(signalNo: int, code: int, fault: nat, pc: nat, lr: nat, ms: seq<Module>) returns (text: string)
    requires Loaded(ms) && fault < WORD && pc < WORD && lr < WORD
    ensures text == TextOf(Lines(Captured(signalNo, code, fault, pc, lr, ms)))
  {
    ghost var d := Captured(signalNo, code, fault, pc, lr, ms);
    text := WriteHead(signalNo, code, fault, d);
    text := WriteFrames(text, ms, pc, lr, HeadLines(d), d.frames);
    ghost var lines;
    text, lines := WriteLine(text, "end", "", HeadLines(d) + FrameLines(d.frames));
    assert "end" + "" == "end";
  }

  method WriteFrames(text: string, ms: seq<Module>, pc: nat, lr: nat, ghost head: seq<string>, ghost frames: seq<Frame>)
    returns (r: string)
    requires Loaded(ms) && pc < WORD && lr < WORD && text == TextOf(head)
    requires frames == RegisterFrame(ms, pc) + RegisterFrame(ms, lr)
    ensures r == TextOf(head + FrameLines(frames))
  {
    ghost var fs := [];
    assert head + FrameLines([]) == head;
    r, fs := WriteFrameOf(text, ms, pc, head, fs);
    assert fs == RegisterFrame(ms, pc);
    r, fs := WriteFrameOf(r, ms, lr, head, fs);
  }

  /** A register's frame, unless the register was not available. */
  method WriteFrameOf(text: string, ms: seq<Module>, addr: nat, ghost head: seq<string>, ghost fs: seq<Frame>)
    returns (r: string, ghost fs': seq<Frame>)
    requires Loaded(ms) && addr < WORD && text == TextOf(head + FrameLines(fs))
    ensures fs' == fs + RegisterFrame(ms, addr) && r == TextOf(head + FrameLines(fs'))
  {
    r, fs' := text, fs;
    if addr != 0 {
      var frame := WriteFrame(ms, addr);
      FramePush(head, fs, FrameOf(ms, addr), text, frame);
      r := text + frame;
      fs' := fs + [FrameOf(ms, addr)];
    }
  }

  method WriteHead(signalNo: int, code: int, fault: nat, ghost d: Dump) returns (text: string)
    requires fault < WORD && d.signalNo == signalNo && d.code == code && d.faultAddr == fault
    ensures text == TextOf(HeadLines(d))
  {
    ghost var lines := [];
    text, lines := WriteLine("", MAGIC, " 1", []);
    var number := DecTo(signalNo);
    text, lines := WriteLine(text, "signal ", number, lines);
    number := DecTo(code);
    text, lines := WriteLine(text, "code ", number, lines);
    number := HexTo(fault);
    text, lines := WriteLine(text, "fault ", number, lines);
    assert lines == HeadLines(d);
  }

  lemma FramePush(lines: seq<string>, fs: seq<Frame>, f: Frame, text: string, frame: string)
    requires text == TextOf(lines + FrameLines(fs)) && frame == FrameLine(f) + "\n"
    ensures text + frame == TextOf(lines + FrameLines(fs + [f]))
  {
    assert lines + FrameLines(fs + [f]) == lines + FrameLines(fs) + [FrameLine(f)];
    TextPush(lines + FrameLines(fs), FrameLine(f));
    Assoc(text, FrameLine(f), "\n");
  }

  // ------------------------------------------------- the parser

  /** What has been read so far. */
  datatype Parse = Parse(sawHeader: bool, dump: Dump)

  const NOTHING := Parse(false, Dump(0, 0, 0, []))

  /** Index of the first `c`; the length when there is none. */
  function IndexOf(s: string, c: char): (i: nat)
    ensures i <= |s| && (i < |s| ==> s[i] == c) && forall k :: 0 <= k < i ==> s[k] != c
  {
    if s == "" || s[0] == c then 0 else 1 + IndexOf(s[1..], c)
  }

  method Find(s: string, c: char, from: nat) returns (at: nat)
    requires from <= |s|
    ensures at == from + IndexOf(s[from..], c)
  {
    at := from;
    while at < |s| && s[at] != c
      invariant from <= at <= |s|
      invariant IndexOf(s[from..], c) == at - from + IndexOf(s[at..], c)
    {
      assert s[at..][1..] == s[at + 1..];
      at := at + 1;
    }
  }

  function TrimSpaces(s: string): string {
    if s != "" && s[|s| - 1] == ' ' then TrimSpaces(s[..|s| - 1]) else s
  }

  /** The spaces at the end are gone, and nothing else. */
  lemma {:induction false} TrimsTheEnd(s: string)
    ensures var r := TrimSpaces(s);
            r <= s && (r == "" || r[|r| - 1] != ' ') && forall i :: |r| <= i < |s| ==> s[i] == ' '
  {
    if s != "" && s[|s| - 1] == ' ' {
      TrimsTheEnd(s[..|s| - 1]);
    }
  }

  /** The frame a line's rest describes, if it names a module and an offset. */
  function FrameIn(rest: string): Option<Frame> {
    var sp := IndexOf(rest, ' ');
    if sp == |rest| then None
    else
      var after := rest[sp + 1..];
      var sp2 := IndexOf(after, ' ');
      Some(Frame(rest[..sp], ParsedHex(after[..sp2]), if sp2 == |after| then "" else TrimSpaces(after[sp2 + 1..])))
  }

  function Step(p: Parse, line: string): Parse {
    if MAGIC <= line then p.(sawHeader := true)
    else if "signal " <= line then p.(dump := p.dump.(signalNo := Int32(ParsedDec(line[7..]))))
    else if "code " <= line then p.(dump := p.dump.(code := Int32(ParsedDec(line[5..]))))
    else if "fault " <= line then p.(dump := p.dump.(faultAddr := ParsedHex(line[6..])))
    else if "frame " <= line && FrameIn(line[6..]).Some? then
      p.(dump := p.dump.(frames := p.dump.frames + [FrameIn(line[6..]).value]))
    else p
  }

  function ParseText(p: Parse, text: string): Parse
    decreases |text|
  {
    if text == "" then p
    else
      var nl := IndexOf(text, '\n');
      ParseText(Step(p, text[..nl]), if nl < |text| then text[nl + 1..] else "")
  }

  function Read(text: string): Option<Dump> {
    var p := ParseText(NOTHING, text);
    if p.sawHeader then Some(p.dump) else None
  }

  method TrimEnd(text: string) returns (s: string)
    ensures s == TrimSpaces(text)
  {
    s := text;
    while s != "" && s[|s| - 1] == ' '
      invariant TrimSpaces(s) == TrimSpaces(text)
      decreases |s|
    {
      s := s[..|s| - 1];
    }
  }

  method ParseFrame(rest: string) returns (frame: Option<Frame>)
    ensures frame == FrameIn(rest)
  {
    var sp1 := Find(rest, ' ', 0);
    assert rest[0..] == rest;
    if sp1 == |rest| {
      return None;
    }
    var name := rest[..sp1];
    var after := rest[sp1 + 1..];
    var sp2 := Find(after, ' ', 0);
    assert after[0..] == after;
    var offset := ParseHex(after[..sp2]);
    var buildId := "";
    if sp2 < |after| {
      buildId := TrimEnd(after[sp2 + 1..]);
    }
    frame := Some(Frame(name, offset, buildId));
  }

  method ParseLine(p: Parse, line: string) returns (q: Parse)
    ensures q == Step(p, line)
  {
    q := p;
    if MAGIC <= line {
      q := q.(sawHeader := true);
    } else if "signal " <= line {
      var n := ParseDec(line[7..]);
      q := q.(dump := q.dump.(signalNo := Int32(n)));
    } else if "code " <= line {
      var n := ParseDec(line[5..]);
      q := q.(dump := q.dump.(code := Int32(n)));
    } else if "fault " <= line {
      var n := ParseHex(line[6..]);
      q := q.(dump := q.dump.(faultAddr := n));
    } else if "frame " <= line {
      var frame := ParseFrame(line[6..]);
      if frame.Some? {
        q := q.(dump := q.dump.(frames := q.dump.frames + [frame.value]));
      }
    }
  }

  lemma NextLine(p: Parse, text: string, pos: nat, nl: nat)
    requires pos < |text| && nl == pos + IndexOf(text[pos..], '\n')
    ensures ParseText(p, text[pos..])
         == ParseText(Step(p, text[pos..nl]), if nl == |text| then text[|text|..] else text[nl + 1..])
  {
    var rest := text[pos..];
    assert rest[..nl - pos] == text[pos..nl];
    if nl < |text| {
      assert rest[nl - pos + 1..] == text[nl + 1..];
    }
  }

  method ParseDump(text: string) returns (r: Option<Dump>)
    ensures r == Read(text)
  {
    var p := NOTHING;
    var pos := 0;
    assert text[0..] == text;
    while pos < |text|
      invariant 0 <= pos <= |text| && ParseText(NOTHING, text) == ParseText(p, text[pos..])
    {
      var nl := Find(text, '\n', pos);
      var line := text[pos..nl];
      NextLine(p, text, pos, nl);
      pos := if nl == |text| then |text| else nl + 1;
      if line == "" {
        assert Step(p, line) == p;
        continue;
      }
      p := ParseLine(p, line);
    }
    r := if p.sawHeader then Some(p.dump) else None;
  }
}
