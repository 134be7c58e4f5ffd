/**
 * What the next launch gets out of a dump: everything, when it was written to the end, and every
 * fully written line, wherever the write broke off.
 */
module DumpRecovery {
  import opened Base
  import opened Decimal
  import opened NativeCrash
  import opened NativeDump

  predicate OneWord(s: string) { forall i :: 0 <= i < |s| ==> s[i] != ' ' && s[i] != '\n' }

  /** What the handler can be given: 32-bit numbers, 64-bit addresses, build ids in hexadecimal. */
  predicate Capturable(d: Dump) {
    && IsInt32(d.signalNo) && IsInt32(d.code) && d.faultAddr < WORD
    && forall i :: 0 <= i < |d.frames| ==> OneWord(d.frames[i].buildId) && d.frames[i].offset < WORD
  }

  predicate Named(d: Dump) { forall i :: 0 <= i < |d.frames| ==> OneWord(d.frames[i].name) }

  predicate Writable(d: Dump) { Capturable(d) && Named(d) }

  lemma CapturedIsCapturable(signalNo: int, code: int, fault: nat, pc: nat, lr: nat, ms: seq<Module>)
    requires Loaded(ms) && IsInt32(signalNo) && IsInt32(code) && fault < WORD && pc < WORD && lr < WORD
    ensures Capturable(Captured(signalNo, code, fault, pc, lr, ms))
  {
    FrameIsCapturable(pc, ms);
    FrameIsCapturable(lr, ms);
  }

  lemma FrameIsCapturable(addr: nat, ms: seq<Module>)
    requires Loaded(ms) && addr < WORD
    ensures var f := FrameOf(ms, addr); OneWord(f.buildId) && f.offset < WORD
  {
    var i := Resolved(ms, addr);
    if i < |ms| {
      BytesAreOneWord(ms[i].buildId);
    }
  }

  lemma {:induction false} BytesAreOneWord(b: seq<nat>)
    requires Bytes(b)
    ensures OneWord(BytesText(b))
  {
    if b != [] {
      var n := |b| - 1;
      BytesAreOneWord(b[..n]);
      HexDigitValue(b[n] / 16);
      HexDigitValue(b[n] % 16);
    }
  }

  // ------------------------------------------------- lines and text

  predicate Plain(line: string) { forall i :: 0 <= i < |line| ==> line[i] != '\n' }

  predicate AllPlain(lines: seq<string>) { forall i :: 0 <= i < |lines| ==> Plain(lines[i]) }

  lemma {:induction false} IndexAfter(a: string, c: char, b: string)
    requires (forall i :: 0 <= i < |a| ==> a[i] != c) && (b == "" || b[0] == c)
    ensures IndexOf(a + b, c) == |a|
  {
    if a == "" {
      assert a + b == b;
    } else {
      assert (a + b)[1..] == a[1..] + b;
      IndexAfter(a[1..], c, b);
    }
  }

  lemma ParseLineThen(p: Parse, line: string, rest: string)
    requires Plain(line)
    ensures ParseText(p, line + "\n" + rest) == ParseText(Step(p, line), rest)
  {
    var text := line + "\n" + rest;
    assert text == line + ("\n" + rest);
    IndexAfter(line, '\n', "\n" + rest);
    assert text[..|line|] == line && text[|line| + 1..] == rest;
  }

  lemma ParsePartial(p: Parse, q: string)
    requires Plain(q)
    ensures ParseText(p, q) == Step(p, q)
  {
    if q != "" {
      assert q + "" == q;
      IndexAfter(q, '\n', "");
      assert q[..|q|] == q;
    }
  }

  function Fold(p: Parse, lines: seq<string>): Parse {
    if lines == [] then p else Step(Fold(p, lines[..|lines| - 1]), lines[|lines| - 1])
  }

  /** Complete lines are read one by one, whatever follows them. */
  lemma {:induction false} ParseLines(p: Parse, lines: seq<string>, rest: string)
    requires AllPlain(lines)
    ensures ParseText(p, TextOf(lines) + rest) == ParseText(Fold(p, lines), rest)
  {
    if lines == [] {
      assert TextOf(lines) + rest == rest;
    } else {
      var front, last := lines[..|lines| - 1], lines[|lines| - 1];
      Assoc(TextOf(front) + last, "\n", rest);
      Assoc(TextOf(front), last, "\n" + rest);
      Assoc(last, "\n", rest);
      ParseLines(p, front, last + "\n" + rest);
      ParseLineThen(Fold(p, front), last, rest);
    }
  }

  /** A text broken off anywhere: its complete lines, and the beginning of the next. */
  lemma {:induction false} CutAnywhere(lines: seq<string>, text: string) returns (k: nat, q: string)
    requires text <= TextOf(lines)
    ensures k <= |lines| && text == TextOf(lines[..k]) + q
    ensures if k == |lines| then q == "" else q <= lines[k]
  {
    if |text| == |TextOf(lines)| {
      k, q := |lines|, "";
      assert lines[..k] == lines;
    } else {
      var n := |lines| - 1;
      var front := lines[..n];
      if |text| >= |TextOf(front)| {
        k, q := n, text[|TextOf(front)|..];
        InLastLine(TextOf(front), lines[n], text);
      } else {
        assert text <= TextOf(front);
        k, q := CutAnywhere(front, text);
        assert front[..k] == lines[..k];
      }
    }
  }

  lemma InLastLine(front: string, last: string, text: string)
    requires text <= front + last + "\n" && |front| <= |text| <= |front| + |last|
    ensures text == front + text[|front|..] && text[|front|..] <= last
  {
    assert text == (front + last + "\n")[..|text|];
    assert text[|front|..] == last[..|text| - |front|];
  }

  // ------------------------------------------------- one line

  /** What a line that starts with one of the keywords adds. */
  lemma SignalLine(p: Parse, n: int)
    requires IsInt32(n)
    ensures Step(p, "signal " + IntText(n)) == p.(dump := p.dump.(signalNo := n))
  {
    var line := "signal " + IntText(n);
    assert line[0] == 's' && line[7..] == IntText(n) && MAGIC[0] == 't';
    DecRoundTrip(n);
    Int32Identity(n);
  }

  lemma CodeLine(p: Parse, n: int)
    requires IsInt32(n)
    ensures Step(p, "code " + IntText(n)) == p.(dump := p.dump.(code := n))
  {
    var line := "code " + IntText(n);
    assert line[0] == 'c' && line[5..] == IntText(n) && MAGIC[0] == 't' && "signal "[0] == 's';
    DecRoundTrip(n);
    Int32Identity(n);
  }

  lemma FaultLine(p: Parse, n: nat)
    requires n < WORD
    ensures Step(p, "fault " + HexText(n)) == p.(dump := p.dump.(faultAddr := n))
  {
    var line := "fault " + HexText(n);
    assert line[0] == 'f' && line[6..] == HexText(n) && MAGIC[0] == 't' && "signal "[0] == 's' && "code "[0] == 'c';
    HexRoundTrip(n);
  }

  lemma TrimNothing(s: string)
    requires OneWord(s)
    ensures TrimSpaces(s) == s
  {
  }

  lemma SpaceSplit(word: string, rest: string)
    requires OneWord(word)
    ensures var s := word + " " + rest;
            IndexOf(s, ' ') == |word| && s[..|word|] == word && s[|word| + 1..] == rest
  {
    assert word + " " + rest == word + (" " + rest);
    IndexAfter(word, ' ', " " + rest);
  }

  lemma FrameReadBack(f: Frame)
    requires OneWord(f.name) && OneWord(f.buildId) && f.offset < WORD
    ensures FrameIn(FrameRest(f)) == Some(f)
  {
    var hex := HexText(f.offset);
    HexHasNoSpace(f.offset);
    Assoc(f.name + " ", hex, " ");
    Assoc(f.name + " ", hex + " ", f.buildId);
    SpaceSplit(f.name, hex + " " + f.buildId);
    SpaceSplit(hex, f.buildId);
    HexRoundTrip(f.offset);
    TrimNothing(f.buildId);
  }

  lemma HexHasNoSpace(n: nat)
    requires n < WORD
    ensures OneWord(HexText(n))
  {
    HexOfDigits(n);
  }

  function FrameRest(f: Frame): string { f.name + " " + HexText(f.offset) + " " + f.buildId }

  lemma FrameLineSplits(f: Frame)
    ensures FrameLine(f) == "frame " + FrameRest(f)
  {
    Assoc("frame ", f.name, " ");
    Assoc("frame ", f.name + " ", HexText(f.offset));
    Assoc("frame ", f.name + " " + HexText(f.offset), " ");
    Assoc("frame ", f.name + " " + HexText(f.offset) + " ", f.buildId);
  }

  lemma FrameStep(p: Parse, rest: string)
    requires FrameIn(rest).Some?
    ensures Step(p, "frame " + rest) == p.(dump := p.dump.(frames := p.dump.frames + [FrameIn(rest).value]))
  {
    var line := "frame " + rest;
    assert line[0] == 'f' && line[1] == 'r' && line[6..] == rest;
    Keywords();
  }

  lemma FrameLineRead(p: Parse, f: Frame)
    requires OneWord(f.name) && OneWord(f.buildId) && f.offset < WORD
    ensures Step(p, FrameLine(f)) == p.(dump := p.dump.(frames := p.dump.frames + [f]))
  {
    FrameLineSplits(f);
    FrameReadBack(f);
    FrameStep(p, FrameRest(f));
  }

  // ------------------------------------------------- all complete lines

  /** Frames that are complete once `k` lines are. */
  function FrameCount(d: Dump, k: nat): nat { Max(0, Min(k - 4, |d.frames|)) }

  /** What the first `k` lines of a dump say. */
  function Facts(d: Dump, k: nat): Parse {
    Parse(k >= 1, Dump(if k >= 2 then d.signalNo else 0, if k >= 3 then d.code else 0, if k >= 4 then d.faultAddr else 0,
                       d.frames[..FrameCount(d, k)]))
  }

  lemma HeadLineGrows(d: Dump, k: nat)
    requires Writable(d) && k < 4
    ensures Step(Facts(d, k), HeadLines(d)[k]) == Facts(d, k + 1)
  {
    var p := Facts(d, k);
    if k == 0 {
      assert MAGIC <= MAGIC + " 1";
    } else if k == 1 {
      SignalLine(p, d.signalNo);
    } else if k == 2 {
      CodeLine(p, d.code);
    } else {
      FaultLine(p, d.faultAddr);
    }
  }

  lemma OneMoreFrame(fs: seq<Frame>, i: nat)
    requires i < |fs|
    ensures fs[..i] + [fs[i]] == fs[..i + 1]
  {
  }

  lemma FrameLineGrows(d: Dump, i: nat)
    requires Writable(d) && i < |d.frames|
    ensures Step(Facts(d, 4 + i), FrameLine(d.frames[i])) == Facts(d, 5 + i)
  {
    var p := Facts(d, 4 + i);
    FrameLineRead(p, d.frames[i]);
    OneMoreFrame(d.frames, i);
    assert p.dump.frames == d.frames[..i] && Facts(d, 5 + i).dump.frames == d.frames[..i + 1];
  }

  lemma FactsGrow(d: Dump, k: nat, line: string)
    requires Writable(d) && k <= 4 + |d.frames|
    requires line == if k < 4 then HeadLines(d)[k] else if k - 4 < |d.frames| then FrameLine(d.frames[k - 4]) else "end"
    ensures Step(Facts(d, k), line) == Facts(d, k + 1)
  {
    if k < 4 {
      HeadLineGrows(d, k);
    } else if k - 4 < |d.frames| {
      FrameLineGrows(d, k - 4);
    } else {
      EndLine(Facts(d, k), line);
      LastFacts(d, k);
    }
  }

  /** The last line adds nothing. */
  lemma LastFacts(d: Dump, k: nat)
    requires k == 4 + |d.frames|
    ensures Facts(d, k) == Facts(d, k + 1)
  {
  }

  lemma LineAt(d: Dump, k: nat)
    requires k < |Lines(d)|
    ensures Lines(d)[k] == if k < 4 then HeadLines(d)[k] else if k - 4 < |d.frames| then FrameLine(d.frames[k - 4]) else "end"
  {
  }

  lemma EndLine(p: Parse, line: string)
    requires line == "end"
    ensures Step(p, line) == p
  {
    Keywords();
    assert line[0] == 'e';
  }

  lemma {:induction false} FoldIsFacts(d: Dump, k: nat)
    requires Writable(d) && k <= |Lines(d)|
    ensures Fold(NOTHING, Lines(d)[..k]) == Facts(d, k)
  {
    if k > 0 {
      assert Lines(d)[..k][..k - 1] == Lines(d)[..k - 1];
      FoldIsFacts(d, k - 1);
      LineAt(d, k - 1);
      FactsGrow(d, k - 1, Lines(d)[k - 1]);
    }
  }

  lemma NumbersArePlain(n: int, h: nat)
    requires h < WORD
    ensures Plain(IntText(n)) && Plain(HexText(h))
  {
    HexHasNoSpace(h);
  }

  lemma HeadIsPlain(d: Dump)
    requires Writable(d)
    ensures AllPlain(HeadLines(d))
  {
    NumbersArePlain(d.signalNo, d.faultAddr);
    NumbersArePlain(d.code, 0);
  }

  lemma LinesArePlain(d: Dump)
    requires Writable(d)
    ensures AllPlain(Lines(d))
  {
    HeadIsPlain(d);
    forall i | 0 <= i < |d.frames|
      ensures Plain(FrameLine(d.frames[i]))
    {
      HexHasNoSpace(d.frames[i].offset);
    }
    assert AllPlain(FrameLines(d.frames)) && Plain("end");
  }

  /** A frame that is read never has a space or a newline in its name. */
  lemma FrameNameIsWord(rest: string)
    requires Plain(rest) && FrameIn(rest).Some?
    ensures OneWord(FrameIn(rest).value.name)
  {
  }

  lemma StepReadsWords(p: Parse, line: string)
    requires Named(p.dump) && Plain(line)
    ensures Named(Step(p, line).dump)
  {
    if "frame " <= line && FrameIn(line[6..]).Some? {
      FrameNameIsWord(line[6..]);
      NamedPush(p.dump, FrameIn(line[6..]).value);
    }
  }

  lemma NamedPush(d: Dump, f: Frame)
    requires Named(d) && OneWord(f.name)
    ensures Named(d.(frames := d.frames + [f]))
  {
  }

  lemma {:induction false} ReadsWords(p: Parse, text: string)
    requires Named(p.dump)
    ensures Named(ParseText(p, text).dump)
    decreases |text|
  {
    if text != "" {
      var nl := IndexOf(text, '\n');
      StepReadsWords(p, text[..nl]);
      ReadsWords(Step(p, text[..nl]), if nl < |text| then text[nl + 1..] else "");
    }
  }

  lemma WritableRoundTrip(d: Dump)
    requires Writable(d)
    ensures Read(TextOf(Lines(d))) == Some(d)
  {
    LinesArePlain(d);
    var n := |Lines(d)|;
    assert Lines(d)[..n] == Lines(d) && TextOf(Lines(d)) + "" == TextOf(Lines(d));
    ParseLines(NOTHING, Lines(d), "");
    FoldIsFacts(d, n);
    assert d.frames[..|d.frames|] == d.frames;
  }

  /** A dump of the handler's is read back exactly when no module name in it has a space or a newline. */
  lemma DumpRoundTrip(d: Dump)
    requires Capturable(d)
    ensures Read(TextOf(Lines(d))) == Some(d) <==> Named(d)
  {
    if Named(d) {
      WritableRoundTrip(d);
    }
    ReadsWords(NOTHING, TextOf(Lines(d)));
  }

  /** So whatever the signal, the registers and the modules, the captured dump is. */
  lemma CapturedRoundTrip(signalNo: int, code: int, fault: nat, pc: nat, lr: nat, ms: seq<Module>)
    requires Loaded(ms) && IsInt32(signalNo) && IsInt32(code) && fault < WORD && pc < WORD && lr < WORD
    ensures var d := Captured(signalNo, code, fault, pc, lr, ms); Read(TextOf(Lines(d))) == Some(d) <==> Named(d)
  {
    CapturedIsCapturable(signalNo, code, fault, pc, lr, ms);
    DumpRoundTrip(Captured(signalNo, code, fault, pc, lr, ms));
  }

  /** A frame says which module holds an address - the first that does - and where in it; else the address. */
  ghost predicate Locates(f: Frame, ms: seq<Module>, addr: nat) {
    || (f == Frame("??", addr, "") && forall k :: 0 <= k < |ms| ==> !(ms[k].start <= addr < ms[k].end))
    || exists i :: 0 <= i < |ms| && ms[i].start <= addr < ms[i].end
                   && (forall k :: 0 <= k < i ==> !(ms[k].start <= addr < ms[k].end))
                   && f.name == ms[i].name && f.offset == addr - ms[i].start && Spells(f.buildId, ms[i].buildId)
  }

  /** A build id has the two digits of each byte, the high one first. */
  predicate Spells(text: string, bytes: seq<nat>) {
    && |text| == 2 * |bytes|
    && forall i :: 0 <= i < |bytes| ==>
         && 0 <= bytes[i] < 256
         && text[2 * i] == "0123456789abcdef"[bytes[i] / 16] && text[2 * i + 1] == "0123456789abcdef"[bytes[i] % 16]
  }

  lemma {:induction false} BytesAreSpelled(b: seq<nat>)
    requires Bytes(b)
    ensures Spells(BytesText(b), b)
  {
    if b != [] {
      var n := |b| - 1;
      BytesAreSpelled(b[..n]);
      assert forall i :: 0 <= i < n ==> b[..n][i] == b[i];
    }
  }

  lemma FrameLocates(ms: seq<Module>, addr: nat)
    requires Loaded(ms)
    ensures Locates(FrameOf(ms, addr), ms, addr)
  {
    var i := Resolved(ms, addr);
    if i < |ms| {
      assert Holds(ms[i], addr);
      BytesAreSpelled(ms[i].buildId);
    }
  }

  /**
   * What is captured: the signal as it came, then the program counter's place and after it the link
   * register's, each unless the register is 0.
   */
  lemma CapturedPlaces(signalNo: int, code: int, fault: nat, pc: nat, lr: nat, ms: seq<Module>)
    requires Loaded(ms)
    ensures var d := Captured(signalNo, code, fault, pc, lr, ms);
            && d.signalNo == signalNo && d.code == code && d.faultAddr == fault
            && |d.frames| == (if pc == 0 then 0 else 1) + (if lr == 0 then 0 else 1)
            && (pc != 0 ==> Locates(d.frames[0], ms, pc)) && (lr != 0 ==> Locates(d.frames[|d.frames| - 1], ms, lr))
  {
    FrameLocates(ms, pc);
    FrameLocates(ms, lr);
  }

  // ------------------------------------------------- a cut line

  /** Everything the first `k` lines say, and at most one thing about the line after them. */
  predicate Recovered(d: Dump, k: nat, r: Dump) {
    && (k >= 2 ==> r.signalNo == d.signalNo) && (k >= 3 ==> r.code == d.code) && (k >= 4 ==> r.faultAddr == d.faultAddr)
    && d.frames[..FrameCount(d, k)] <= r.frames && |r.frames| <= FrameCount(d, k) + (if k >= 4 then 1 else 0)
  }

  /** The beginning of a line says nothing about other fields than the line's own. */
  lemma CutLine(d: Dump, k: nat, q: string)
    requires Writable(d) && k < |Lines(d)| && q <= Lines(d)[k]
    ensures var p := Step(Facts(d, k), q);
            Recovered(d, k, p.dump) && (p.sawHeader <==> k >= 1 || MAGIC <= q)
  {
    var line := Lines(d)[k];
    assert forall i :: 0 <= i < |q| ==> q[i] == line[i];
    if k >= 4 && k - 4 < |d.frames| {
      assert line == FrameLine(d.frames[k - 4]);
      assert line[0] == 'f' && line[1] == 'r';
    } else if k >= 4 {
      assert line == "end";
    }
    Keywords();
    assert d.frames[..FrameCount(d, k)] <= d.frames[..FrameCount(d, k)];
  }

  /** The letters that tell the keywords apart. */
  lemma Keywords()
    ensures MAGIC[0] == 't' && "signal "[0] == 's' && "code "[0] == 'c' && "fault "[0] == 'f' && "frame "[0] == 'f'
    ensures "fault "[1] == 'a' && "frame "[1] == 'r'
  {
  }

  /**
   * For every byte prefix that reaches past the magic word: what the fully written lines say is
   * recovered exactly, and the broken one adds at most a frame.
   */
  lemma PrefixRecovery(d: Dump, text: string) returns (k: nat)
    requires Writable(d) && text <= TextOf(Lines(d)) && MAGIC <= text
    ensures k <= |Lines(d)| && TextOf(Lines(d)[..k]) <= text
    ensures k < |Lines(d)| ==> |text| <= |TextOf(Lines(d)[..k])| + |Lines(d)[k]|
    ensures Read(text).Some? && Recovered(d, k, Read(text).value)
  {
    var q;
    k, q := CutAnywhere(Lines(d), text);
    LinesArePlain(d);
    var front := Lines(d)[..k];
    assert AllPlain(front);
    ParseLines(NOTHING, front, q);
    FoldIsFacts(d, k);
    if k < |Lines(d)| {
      assert Plain(q);
      ParsePartial(Facts(d, k), q);
      CutLine(d, k, q);
      if k == 0 {
        assert text == q;
      }
    } else {
      ParsePartial(Facts(d, k), q);
    }
  }
}
