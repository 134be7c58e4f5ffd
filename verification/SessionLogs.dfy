/**
 * The rolling session log of src/session_log.cpp: lines buffered in memory and flushed to a file
 * that is trimmed from the front, and what becomes of every line.
 */
module SessionLogs {
  import opened Base
  import opened Decimal

  const MAX_LOG_BYTES := 524288
  const TRIMMED_LOG_BYTES := 262144
  const MAX_PENDING_BYTES := 65536

  datatype Log = Log(
    pending: string, dropped: nat,                              // in memory
    configured: bool,
    current: Option<string>, previous: Option<string>,          // the two files
    fileBytes: nat)                                             // size the code tracks

  /** One appended line; it always ends with a newline. */
  function Line(ts: string, level: string, message: string): (s: string)
    requires message != ""
    ensures s != "" && s[|s| - 1] == '\n'
  {
    var body := ts + " [" + level + "] " + message;
    if message[|message| - 1] == '\n' then body else body + "\n"
  }

  function OverflowNote(n: nat): (s: string)
    ensures s != "" && s[|s| - 1] == '\n'
  {
    "[tombstone] session log buffer overflow: " + Digits(n) + " lines dropped\n"
  }

  function Terminated(message: string): string
    requires message != ""
  {
    if message[|message| - 1] == '\n' then message else message + "\n"
  }

  /** A line tells the time, the level and the message it was made of, but for the message's own newline. */
  lemma LineTellsParts(ts: string, level: string, message: string, ts': string, level': string, message': string)
    requires message != "" && message' != "" && ' ' !in ts && ' ' !in ts' && ']' !in level && ']' !in level'
    requires Line(ts, level, message) == Line(ts', level', message')
    ensures ts == ts' && level == level' && Terminated(message) == Terminated(message')
  {
    LineParts(ts, level, message);
    LineParts(ts', level', message');
    SplitAtFirst(ts, ' ', "[" + (level + ("]" + (" " + Terminated(message)))),
                 ts', "[" + (level' + ("]" + (" " + Terminated(message')))));
    TailEqual('[', level + ("]" + (" " + Terminated(message))), level' + ("]" + (" " + Terminated(message'))));
    SplitAtFirst(level, ']', " " + Terminated(message), level', " " + Terminated(message'));
    TailEqual(' ', Terminated(message), Terminated(message'));
  }

  lemma LineParts(ts: string, level: string, message: string)
    requires message != ""
    ensures Line(ts, level, message) == ts + (" " + ("[" + (level + ("]" + (" " + Terminated(message))))))
  {
  }

  lemma TailEqual(c: char, a: string, b: string)
    requires [c] + a == [c] + b
    ensures a == b
  {
    assert ([c] + a)[1..] == a && ([c] + b)[1..] == b;
  }

  lemma SplitAtFirst(a: string, c: char, b: string, a': string, b': string)
    requires c !in a && c !in a' && a + ([c] + b) == a' + ([c] + b')
    ensures a == a' && b == b'
  {
    var s, s' := a + ([c] + b), a' + ([c] + b');
    assert s[|a|] == c && s'[|a'|] == c;
    assert forall i :: 0 <= i < |a| ==> s[i] == a[i] != c;
    assert forall i :: 0 <= i < |a'| ==> s'[i] == a'[i] != c;
    assert s[..|a|] == a && s'[..|a'|] == a' && s[|a| + 1..] == b && s'[|a'| + 1..] == b';
  }

  /** The note tells how many lines were dropped. */
  lemma NoteTellsCount(n: nat) returns (count: string)
    ensures OverflowNote(n) == "[tombstone] session log buffer overflow: " + count + " lines dropped\n"
    ensures AllDigits(count) && Value(count) == n
  {
    count := Digits(n);
    ValueOfDigits(n);
  }

  predicate Accepts(l: Log) { |l.pending| < MAX_PENDING_BYTES }

  function Appended(l: Log, ts: string, level: string, message: string): Log {
    if message == "" then l
    else if !Accepts(l) then l.(dropped := l.dropped + 1)
    else l.(pending := l.pending + Line(ts, level, message))
  }

  /** What a flush takes: the buffered lines and, if any were dropped, how many. */
  function Chunk(l: Log): string {
    if l.pending == "" then "" else l.pending + if l.dropped > 0 then OverflowNote(l.dropped) else ""
  }

  function Taken(l: Log): Log { if l.pending == "" then l else l.(pending := "", dropped := 0) }

  /** Index of the first newline from `at` on; the length when there is none. */
  function NewlineFrom(s: string, at: nat): (k: nat)
    requires at <= |s|
    ensures at <= k <= |s| && (k < |s| ==> s[k] == '\n') && forall i :: at <= i < k ==> s[i] != '\n'
    decreases |s| - at
  {
    if at == |s| || s[at] == '\n' then at else NewlineFrom(s, at + 1)
  }

  /** Where the kept part starts: after the first line end in the newest 256 KiB. */
  function KeptFrom(all: string): (k: nat)
    ensures k <= |all|
  {
    if |all| <= TRIMMED_LOG_BYTES then 0
    else
      var newline := NewlineFrom(all, |all| - TRIMMED_LOG_BYTES);
      if newline < |all| then newline + 1 else newline
  }

  /** Whether the file can be opened to append to, and read back and rewritten when it has grown too long. */
  datatype Io = Io(opens: bool, readsBack: bool, rewrites: bool)

  /** A chunk for a file that cannot be opened is gone; a file that cannot be rewritten stays too long. */
  function Written(l: Log, chunk: string, io: Io): Log {
    if !l.configured || !io.opens then l
    else
      var all := l.current.GetOr("") + chunk;
      if l.fileBytes + |chunk| <= MAX_LOG_BYTES then l.(current := Some(all), fileBytes := l.fileBytes + |chunk|)
      else Trimmed(l.(current := Some(all), fileBytes := l.fileBytes + |chunk|), all, io)
  }

  /** A file that cannot be read back passes for an empty one. */
  function Trimmed(l: Log, all: string, io: Io): Log {
    if !io.readsBack then l.(fileBytes := 0)
    else if |all| <= TRIMMED_LOG_BYTES then l.(fileBytes := |all|)
    else if !io.rewrites then l
    else l.(current := Some(all[KeptFrom(all)..]), fileBytes := |all| - KeptFrom(all))
  }

  function Flushed(l: Log, io: Io): Log { if Chunk(l) == "" then Taken(l) else Written(Taken(l), Chunk(l), io) }

  /** `removes` is for the stale previous file, `renames` for the current one; a rename replaces what is there. */
  function Rotated(l: Log, removes: bool, renames: bool): Log {
    if !l.configured then l
    else
      var stale := if removes then None else l.previous;
      if l.current.Some? && renames then l.(previous := l.current, current := None, fileBytes := 0)
      else l.(previous := stale, fileBytes := 0)
  }

  // ------------------------------------------------- the code

  class SessionLog {
    var pending: string
    var droppedLines: nat
    var configured: bool
    var current: Option<string>
    var previous: Option<string>
    var fileBytes: nat

    function State(): Log
      reads this
    {
      Log(pending, droppedLines, configured, current, previous, fileBytes)
    }

    constructor (currentFile: Option<string>, previousFile: Option<string>)
      ensures State() == Log("", 0, false, currentFile, previousFile, 0)
    {
      pending, droppedLines, configured, fileBytes := "", 0, false, 0;
      current, previous := currentFile, previousFile;
    }

    method Configure()
      modifies this
      ensures State() == old(State()).(configured := true)
    {
      configured := true;
    }

    /** The last session's file becomes the previous one; a stale previous file is deleted either way. */
    method RotateForNewSession(removes: bool, renames: bool) returns (hasPrevious: bool)
      modifies this
      ensures State() == Rotated(old(State()), removes, renames)
      ensures hasPrevious == (old(configured) && State().previous.Some?)
    {
      if !configured {
        return false;
      }
      if removes {
        previous := None;
      }
      if current.Some? && renames {
        previous := current;
        current := None;
      }
      fileBytes := 0;
      hasPrevious := previous.Some?;
    }

    method Append(ts: string, level: string, message: string)
      modifies this
      ensures State() == Appended(old(State()), ts, level, message)
    {
      if message == "" {
        return;
      }
      if |pending| >= MAX_PENDING_BYTES {
        droppedLines := droppedLines + 1;
        return;
      }
      ghost var before := pending;
      pending := pending + ts;
      pending := pending + " [";
      pending := pending + level;
      pending := pending + "] ";
      pending := pending + message;
      Regroup(before, ts, " [", level, "] ");
      Assoc(before, ts + " [" + level + "] ", message);
      if message[|message| - 1] != '\n' {
        Assoc(before, ts + " [" + level + "] " + message, "\n");
        pending := pending + "\n";
      }
    }

    method TakePending() returns (chunk: string)
      modifies this
      ensures chunk == Chunk(old(State())) && State() == Taken(old(State()))
    {
      if pending == "" {
        return "";
      }
      if droppedLines > 0 {
        pending := pending + ("[tombstone] session log buffer overflow: " + IntText(droppedLines) + " lines dropped\n");
        droppedLines := 0;
      }
      chunk := pending;
      pending := "";
    }

    method WriteChunk(chunk: string, io: Io)
      modifies this
      ensures State() == Written(old(State()), chunk, io)
    {
      if !configured || !io.opens {
        return;
      }
      current := Some(current.GetOr("") + chunk);
      fileBytes := fileBytes + |chunk|;
      if fileBytes > MAX_LOG_BYTES {
        TrimFromFront(io);
      }
    }

    method TrimFromFront(io: Io)
      requires current.Some?
      modifies `current, `fileBytes
      ensures State() == Trimmed(old(State()), old(current).value, io)
    {
      var all := if io.readsBack then current.value else "";
      if |all| <= TRIMMED_LOG_BYTES {
        fileBytes := |all|;
        return;
      }
      var start := |all| - TRIMMED_LOG_BYTES;
      while start < |all| && all[start] != '\n'
        invariant |all| - TRIMMED_LOG_BYTES <= start <= |all|
        invariant NewlineFrom(all, |all| - TRIMMED_LOG_BYTES) == NewlineFrom(all, start)
      {
        start := start + 1;
      }
      if start < |all| {
        start := start + 1;
      }
      if !io.rewrites {
        return;
      }
      current := Some(all[start..]);
      fileBytes := |all| - start;
    }

    method FlushNow(io: Io)
      modifies this
      ensures State() == Flushed(old(State()), io)
    {
      var chunk := TakePending();
      if chunk != "" {
        WriteChunk(chunk, io);
      }
    }

    method ReadCurrent(io: Io) returns (bytes: string)
      modifies this
      ensures State() == Flushed(old(State()), io) && bytes == State().current.GetOr("")
    {
      FlushNow(io);
      bytes := current.GetOr("");
    }
  }

  // ------------------------------------------------- histories since a rotation

  /**
   * What threads do after a rotation. A flush takes the buffer under one lock and writes it under
   * another, so several taken chunks may wait to be written, in any order.
   */
  datatype Action =
    | Append(ts: string, level: string, message: string)
    | Take
    | Write(i: nat, io: Io)

  datatype Entry = Kept(text: string) | Overflow(text: string, count: nat)

  function NoteEntry(count: nat): Entry { Overflow(OverflowNote(count), count) }

  function TextOf(es: seq<Entry>): string {
    if es == [] then "" else TextOf(es[..|es| - 1]) + es[|es| - 1].text
  }

  /**
   * The log with what its texts consist of: the stream written so far, chunks in hand, the buffer, and
   * what went into chunks for which the file could not be opened.
   */
  datatype History =
    History(log: Log, stream: seq<Entry>, inHand: seq<seq<Entry>>, buffered: seq<Entry>, lost: seq<Entry>)

  predicate Enabled(h: History, a: Action) { a.Write? ==> a.i < |h.inHand| }

  function Next(h: History, a: Action): History
    requires Enabled(h, a)
  {
    match a
    case Append(ts, level, message) =>
      h.(log := Appended(h.log, ts, level, message),
         buffered := if message != "" && Accepts(h.log) then h.buffered + [Kept(Line(ts, level, message))] else h.buffered)
    case Take =>
      if h.log.pending == "" then h
      else h.(log := Taken(h.log), buffered := [],
              inHand := h.inHand + [h.buffered + if h.log.dropped > 0 then [NoteEntry(h.log.dropped)] else []])
    case Write(i, io) =>
      h.(log := Written(h.log, TextOf(h.inHand[i]), io), inHand := h.inHand[..i] + h.inHand[i + 1..],
         stream := if io.opens then h.stream + h.inHand[i] else h.stream,
         lost := if io.opens then h.lost else h.lost + h.inHand[i])
  }

  predicate Possible(h: History, acts: seq<Action>)
    decreases |acts|
  {
    acts == [] || (Enabled(h, acts[0]) && Possible(Next(h, acts[0]), acts[1..]))
  }

  function After(h: History, acts: seq<Action>): History
    requires Possible(h, acts)
    decreases |acts|
  {
    if acts == [] then h else After(Next(h, acts[0]), acts[1..])
  }

  /** Right after the rotation of a configured log whose buffer is still empty. */
  function Start(previous: Option<string>): History { History(Log("", 0, true, None, previous, 0), [], [], [], []) }

  // ------------------------------------------------- what becomes of every line

  /** How often a line occurs among entries. */
  function Times(es: seq<Entry>, line: string): nat {
    if es == [] then 0
    else Times(es[..|es| - 1], line) + if es[|es| - 1] == Kept(line) then 1 else 0
  }

  function Counted(es: seq<Entry>): nat {
    if es == [] then 0 else Counted(es[..|es| - 1]) + if es[|es| - 1].Overflow? then es[|es| - 1].count else 0
  }

  function Flat(chunks: seq<seq<Entry>>): seq<Entry> {
    if chunks == [] then [] else Flat(chunks[..|chunks| - 1]) + chunks[|chunks| - 1]
  }

  /** How often a line is in the stream, on its way there, or in a chunk that could not be written. */
  function Occurrences(h: History, line: string): nat {
    Times(h.stream, line) + Times(Flat(h.inHand), line) + Times(h.buffered, line) + Times(h.lost, line)
  }

  /** Drops that were announced, are about to be, or are still being counted; an announcement too can be lost. */
  function AllDrops(h: History): nat {
    Counted(h.stream) + Counted(Flat(h.inHand)) + Counted(h.buffered) + Counted(h.lost) + h.log.dropped
  }

  predicate Admits(h: History, a: Action, line: string) {
    a.Append? && a.message != "" && |h.log.pending| < 65536 && Line(a.ts, a.level, a.message) == line
  }

  predicate Refuses(h: History, a: Action) { a.Append? && a.message != "" && |h.log.pending| >= 65536 }

  /** Non-empty appends of a run that made this line and found room, and the number that did not. */
  function Admitted(h: History, acts: seq<Action>, line: string): nat
    requires Possible(h, acts)
    decreases |acts|
  {
    if acts == [] then 0
    else (if Admits(h, acts[0], line) then 1 else 0) + Admitted(Next(h, acts[0]), acts[1..], line)
  }

  function Refused(h: History, acts: seq<Action>): nat
    requires Possible(h, acts)
    decreases |acts|
  {
    if acts == [] then 0 else (if Refuses(h, acts[0]) then 1 else 0) + Refused(Next(h, acts[0]), acts[1..])
  }

  lemma CountPush(es: seq<Entry>, e: Entry, line: string)
    ensures Times(es + [e], line) == Times(es, line) + if e == Kept(line) then 1 else 0
    ensures Counted(es + [e]) == Counted(es) + if e.Overflow? then e.count else 0
  {
    assert (es + [e])[..|es|] == es;
  }

  lemma {:induction false} CountAppend(a: seq<Entry>, b: seq<Entry>, line: string)
    ensures Times(a + b, line) == Times(a, line) + Times(b, line) && Counted(a + b) == Counted(a) + Counted(b)
  {
    if b == [] {
      assert a + b == a;
    } else {
      var front, last := b[..|b| - 1], b[|b| - 1];
      CountAppend(a, front, line);
      CountPush(a + front, last, line);
      assert a + front + [last] == a + b;
    }
  }

  lemma TextPush(es: seq<Entry>, e: Entry)
    ensures TextOf(es + [e]) == TextOf(es) + e.text
  {
    assert (es + [e])[..|es|] == es;
  }

  lemma {:induction false} TextAppend(a: seq<Entry>, b: seq<Entry>)
    ensures TextOf(a + b) == TextOf(a) + TextOf(b)
  {
    if b == [] {
      assert a + b == a;
    } else {
      var front, last := b[..|b| - 1], b[|b| - 1];
      TextAppend(a, front);
      TextPush(a + front, last);
      assert a + front + [last] == a + b;
      Assoc(TextOf(a), TextOf(front), last.text);
    }
  }

  lemma FlatPush(chunks: seq<seq<Entry>>, c: seq<Entry>)
    ensures Flat(chunks + [c]) == Flat(chunks) + c
  {
    assert (chunks + [c])[..|chunks|] == chunks;
  }

  lemma {:induction false} FlatAppend(a: seq<seq<Entry>>, b: seq<seq<Entry>>)
    ensures Flat(a + b) == Flat(a) + Flat(b)
  {
    if b == [] {
      assert a + b == a;
    } else {
      var front, last := b[..|b| - 1], b[|b| - 1];
      FlatAppend(a, front);
      FlatPush(a + front, last);
      assert a + front + [last] == a + b;
      Assoc(Flat(a), Flat(front), last);
    }
  }

  lemma FlatSplit(chunks: seq<seq<Entry>>, i: nat, line: string)
    requires i < |chunks|
    ensures var rest := chunks[..i] + chunks[i + 1..];
            && Times(Flat(chunks), line) == Times(Flat(rest), line) + Times(chunks[i], line)
            && Counted(Flat(chunks)) == Counted(Flat(rest)) + Counted(chunks[i])
  {
    var a, c, b := chunks[..i], chunks[i], chunks[i + 1..];
    assert chunks == a + [c] + b;
    FlatAppend(a + [c], b);
    FlatPush(a, c);
    FlatAppend(a, b);
    CountAppend(Flat(a) + c, Flat(b), line);
    CountAppend(Flat(a), c, line);
    CountAppend(Flat(a), Flat(b), line);
  }

  /** The overflow note carries the whole count and is no line. */
  lemma CountNote(es: seq<Entry>, count: nat, line: string)
    ensures Times(es + [NoteEntry(count)], line) == Times(es, line)
    ensures Counted(es + [NoteEntry(count)]) == Counted(es) + count
  {
    CountPush(es, NoteEntry(count), line);
  }

  lemma TakeConserves(h: History, line: string)
    ensures Occurrences(Next(h, Take), line) == Occurrences(h, line) && AllDrops(Next(h, Take)) == AllDrops(h)
  {
    if h.log.pending != "" {
      var note := if h.log.dropped > 0 then [NoteEntry(h.log.dropped)] else [];
      FlatPush(h.inHand, h.buffered + note);
      CountAppend(Flat(h.inHand), h.buffered + note, line);
      CountNote(h.buffered, h.log.dropped, line);
      assert h.log.dropped == 0 ==> h.buffered + note == h.buffered;
    }
  }

  /** A chunk goes from those in hand to the end of what was written, or of what was lost. */
  lemma ChunkMoves(inHand: seq<seq<Entry>>, i: nat, goal: seq<Entry>, line: string)
    requires i < |inHand|
    ensures var rest := inHand[..i] + inHand[i + 1..];
            && Times(goal + inHand[i], line) + Times(Flat(rest), line) == Times(goal, line) + Times(Flat(inHand), line)
            && Counted(goal + inHand[i]) + Counted(Flat(rest)) == Counted(goal) + Counted(Flat(inHand))
  {
    FlatSplit(inHand, i, line);
    CountAppend(goal, inHand[i], line);
  }

  lemma WriteConserves(h: History, i: nat, io: Io, line: string)
    requires i < |h.inHand|
    ensures Occurrences(Next(h, Write(i, io)), line) == Occurrences(h, line) && AllDrops(Next(h, Write(i, io))) == AllDrops(h)
  {
    var h' := Next(h, Write(i, io));
    assert h'.buffered == h.buffered && h'.log.dropped == h.log.dropped;
    if io.opens {
      assert h'.stream == h.stream + h.inHand[i] && h'.lost == h.lost;
      ChunkMoves(h.inHand, i, h.stream, line);
    } else {
      assert h'.stream == h.stream && h'.lost == h.lost + h.inHand[i];
      ChunkMoves(h.inHand, i, h.lost, line);
    }
  }

  lemma StepConserves(h: History, a: Action, line: string)
    requires Enabled(h, a)
    ensures Occurrences(Next(h, a), line) == Occurrences(h, line) + if Admits(h, a, line) then 1 else 0
    ensures AllDrops(Next(h, a)) == AllDrops(h) + if Refuses(h, a) then 1 else 0
  {
    match a
    case Append(ts, level, message) =>
      if message != "" {
        CountPush(h.buffered, Kept(Line(ts, level, message)), line);
      }
    case Take => TakeConserves(h, line);
    case Write(i, io) => WriteConserves(h, i, io, line);
  }

  /**
   * Every non-empty append is in the stream, or on its way there, or was in a chunk for which the file
   * could not be opened, or is counted as dropped - exactly once.
   */
  lemma {:induction false} EveryLineAccountedFor(h: History, acts: seq<Action>, line: string)
    requires Possible(h, acts)
    ensures Occurrences(After(h, acts), line) == Occurrences(h, line) + Admitted(h, acts, line)
    ensures AllDrops(After(h, acts)) == AllDrops(h) + Refused(h, acts)
    decreases |acts|
  {
    if acts != [] {
      StepConserves(h, acts[0], line);
      EveryLineAccountedFor(Next(h, acts[0]), acts[1..], line);
    }
  }

  // ------------------------------------------------- the file

  /** A suffix that starts where a line starts. */
  predicate LineAligned(all: string, from: nat) { from <= |all| && (from == 0 || all[from - 1] == '\n') }

  predicate Ended(s: string) { s == "" || s[|s| - 1] == '\n' }

  /** Texts and their parts agree, and the file is a line-aligned end of the stream. */
  ghost predicate Consistent(h: History) {
    && h.log.configured
    && h.log.pending == TextOf(h.buffered)
    && (h.log.dropped > 0 ==> h.log.pending != "")
    && (forall i :: 0 <= i < |h.inHand| ==> Ended(TextOf(h.inHand[i])))
    && Ended(TextOf(h.buffered)) && Ended(TextOf(h.stream))
    && FileIsTail(h.log, TextOf(h.stream)) && h.log.fileBytes <= |h.log.current.GetOr("")|
  }

  /**
   * Nothing is missing in front of `from`, or the text was cut after its first `cut` characters, more
   * than 512 KiB, and then kept all whole lines of the 256 KiB before there.
   */
  ghost predicate CutAt(stream: string, from: nat, cut: nat) {
    || from == 0
    || (&& 524288 < cut <= |stream| && from <= cut < from + 262144
        && forall k :: cut - 262144 < k <= cut && LineAligned(stream, k) ==> from <= k)
  }

  /** The file is the end of a text from a line start on, and the rest was cut off as it has to be. */
  ghost predicate FileIsTail(l: Log, stream: string) {
    exists from: nat, cut: nat :: LineAligned(stream, from) && CutAt(stream, from, cut) && l.current.GetOr("") == stream[from..]
  }

  predicate SizeTracked(l: Log) { l.fileBytes == |l.current.GetOr("")| }

  /** Whatever follows the cut, the kept part starts at a line start. */
  lemma KeptIsAligned(all: string)
    requires Ended(all)
    ensures LineAligned(all, KeptFrom(all))
  {
  }

  /** What is kept of a text over 256 KiB is shorter than that, and no shorter than its whole lines there. */
  lemma KeptIsLongest(all: string)
    requires |all| > 262144
    ensures |all| - KeptFrom(all) < 262144
    ensures forall k :: |all| - 262144 < k <= |all| && LineAligned(all, k) ==> KeptFrom(all) <= k
  {
  }

  /** Whatever the file was before, a write that works out leaves it within the bound. */
  lemma WriteKeepsBound(l: Log, chunk: string)
    requires l.configured
    ensures Written(l, chunk, Io(true, true, true)).fileBytes <= MAX_LOG_BYTES
  {
  }

  lemma SuffixOfSuffix(stream: string, from: nat, chunk: string, cut: nat)
    requires LineAligned(stream, from) && LineAligned(stream[from..] + chunk, cut)
    ensures LineAligned(stream + chunk, from + cut) && (stream[from..] + chunk)[cut..] == (stream + chunk)[from + cut..]
  {
    assert stream[from..] + chunk == (stream + chunk)[from..];
  }

  lemma EndedAppend(a: string, b: string)
    requires Ended(a) && Ended(b)
    ensures Ended(a + b)
  {
    if b == "" {
      assert a + b == a;
    }
  }

  predicate Trims(l: Log, chunk: string, io: Io) { l.fileBytes + |chunk| > MAX_LOG_BYTES && io.readsBack && io.rewrites }

  /** A write adds its chunk to the file, and trims what there is now when it has grown too long. */
  lemma WrittenFile(l: Log, chunk: string, io: Io)
    requires l.configured && io.opens && l.fileBytes <= |l.current.GetOr("")|
    ensures var w, all := Written(l, chunk, io), l.current.GetOr("") + chunk;
            && w.current == Some(if Trims(l, chunk, io) then all[KeptFrom(all)..] else all)
            && w.fileBytes <= |w.current.value| && (Trims(l, chunk, io) ==> |all| > 524288)
  {
  }

  lemma TrimKeepsTail(stream: string, from: nat, chunk: string)
    requires from <= |stream| && Ended(stream) && Ended(chunk) && LineAligned(stream, from)
    requires |stream[from..] + chunk| > 524288
    ensures var k := KeptFrom(stream[from..] + chunk);
            && LineAligned(stream + chunk, from + k) && CutAt(stream + chunk, from + k, |stream + chunk|)
            && (stream[from..] + chunk)[k..] == (stream + chunk)[from + k..]
  {
    hide CutAt, KeptFrom, LineAligned, Ended;
    var all := stream[from..] + chunk;
    EndedTail(stream, from);
    EndedAppend(stream[from..], chunk);
    KeptIsAligned(all);
    SuffixOfSuffix(stream, from, chunk, KeptFrom(all));
    TailGrows(stream, from, chunk);
    CutHere(stream + chunk, from, all);
  }

  lemma EndedTail(stream: string, from: nat)
    requires Ended(stream) && LineAligned(stream, from)
    ensures Ended(stream[from..])
  {
  }

  lemma TailGrows(stream: string, from: nat, chunk: string)
    requires from <= |stream|
    ensures stream[from..] + chunk == (stream + chunk)[from..]
  {
  }

  lemma GrowthKeepsTail(stream: string, from: nat, cut: nat, chunk: string)
    requires LineAligned(stream, from) && CutAt(stream, from, cut)
    ensures LineAligned(stream + chunk, from) && CutAt(stream + chunk, from, cut)
    ensures stream[from..] + chunk == (stream + chunk)[from..]
  {
    if from != 0 {
      forall k | cut - 262144 < k <= cut && LineAligned(stream + chunk, k)
        ensures from <= k
      {
        assert LineAligned(stream, k);
      }
    }
  }

  lemma CutHere(stream: string, from: nat, all: string)
    requires from <= |stream| && all == stream[from..] && |all| > 524288
    ensures CutAt(stream, from + KeptFrom(all), |stream|)
  {
    KeptIsLongest(all);
    forall k | |stream| - 262144 < k <= |stream| && LineAligned(stream, k)
      ensures from + KeptFrom(all) <= k
    {
      assert LineAligned(all, k - from);
    }
  }

  lemma AppendKeepsConsistent(h: History, line: string)
    requires Consistent(h) && line != "" && Ended(line)
    ensures Consistent(h.(log := h.log.(pending := h.log.pending + line), buffered := h.buffered + [Kept(line)]))
  {
    TextPush(h.buffered, Kept(line));
    EndedAppend(h.log.pending, line);
  }

  lemma WriteKeepsConsistent(h: History, i: nat, io: Io)
    requires Consistent(h) && i < |h.inHand|
    ensures Consistent(Next(h, Write(i, io)))
  {
    if io.opens {
      TextAppend(h.stream, h.inHand[i]);
      WriteKeepsTail(h.log, TextOf(h.stream), TextOf(h.inHand[i]), io);
    }
    assert Next(h, Write(i, io)).log.pending == h.log.pending && Next(h, Write(i, io)).log.dropped == h.log.dropped;
  }

  lemma WriteKeepsTail(l: Log, stream: string, chunk: string, io: Io)
    requires l.configured && io.opens && Ended(stream) && Ended(chunk) && FileIsTail(l, stream)
    requires l.fileBytes <= |l.current.GetOr("")|
    ensures var w := Written(l, chunk, io);
            FileIsTail(w, stream + chunk) && Ended(stream + chunk) && w.fileBytes <= |w.current.GetOr("")|
  {
    var from: nat, cut: nat :| LineAligned(stream, from) && CutAt(stream, from, cut) && l.current.GetOr("") == stream[from..];
    WrittenFile(l, chunk, io);
    if Trims(l, chunk, io) {
      TrimKeepsTail(stream, from, chunk);
    } else {
      GrowthKeepsTail(stream, from, cut, chunk);
    }
    EndedAppend(stream, chunk);
  }

  lemma StepKeepsConsistent(h: History, a: Action)
    requires Consistent(h) && Enabled(h, a)
    ensures Consistent(Next(h, a))
  {
    match a
    case Append(ts, level, message) =>
      if message != "" {
        AppendKeepsConsistent(h, Line(ts, level, message));
      }
    case Take =>
      if h.log.pending != "" {
        TakeKeepsEnds(h);
      }
    case Write(i, io) => WriteKeepsConsistent(h, i, io);
  }

  lemma TakeKeepsEnds(h: History)
    requires Consistent(h) && h.log.pending != ""
    ensures Consistent(Next(h, Take))
    ensures TextOf(Next(h, Take).inHand[|h.inHand|]) == Chunk(h.log)
  {
    var note := if h.log.dropped > 0 then [NoteEntry(h.log.dropped)] else [];
    TextAppend(h.buffered, note);
    TextPush([], NoteEntry(h.log.dropped));
    assert [] + [NoteEntry(h.log.dropped)] == [NoteEntry(h.log.dropped)];
    assert "" + OverflowNote(h.log.dropped) == OverflowNote(h.log.dropped);
    assert h.log.pending + "" == h.log.pending;
    EndedAppend(h.log.pending, TextOf(note));
    var t := Next(h, Take);
    assert t.inHand[..|h.inHand|] == h.inHand;
  }

  lemma {:induction false} RunKeepsConsistent(h: History, acts: seq<Action>)
    requires Consistent(h) && Possible(h, acts)
    ensures Consistent(After(h, acts))
    decreases |acts|
  {
    if acts != [] {
      StepKeepsConsistent(h, acts[0]);
      RunKeepsConsistent(Next(h, acts[0]), acts[1..]);
    }
  }

  // ------------------------------------------------- what failures cost

  predicate AllReadBack(acts: seq<Action>) { forall i :: 0 <= i < |acts| && acts[i].Write? ==> acts[i].io.readsBack }

  predicate AllRewrite(acts: seq<Action>) { forall i :: 0 <= i < |acts| && acts[i].Write? ==> acts[i].io.rewrites }

  predicate AllOpen(acts: seq<Action>) { forall i :: 0 <= i < |acts| && acts[i].Write? ==> acts[i].io.opens }

  lemma {:induction false} RunTracksSize(h: History, acts: seq<Action>)
    requires h.log.configured && SizeTracked(h.log) && Possible(h, acts) && AllReadBack(acts)
    ensures SizeTracked(After(h, acts).log)
    decreases |acts|
  {
    if acts != [] {
      RunTracksSize(Next(h, acts[0]), acts[1..]);
    }
  }

  lemma StepKeepsBound(h: History, a: Action)
    requires h.log.configured && h.log.fileBytes <= MAX_LOG_BYTES && Enabled(h, a)
    requires a.Write? ==> a.io.readsBack && a.io.rewrites
    ensures Next(h, a).log.configured && Next(h, a).log.fileBytes <= MAX_LOG_BYTES
  {
    if a.Write? {
      WriteKeepsBound(h.log, TextOf(h.inHand[a.i]));
    }
  }

  lemma {:induction false} RunKeepsBound(h: History, acts: seq<Action>)
    requires h.log.configured && h.log.fileBytes <= MAX_LOG_BYTES && Possible(h, acts) && AllReadBack(acts) && AllRewrite(acts)
    ensures After(h, acts).log.fileBytes <= MAX_LOG_BYTES
    decreases |acts|
  {
    if acts != [] {
      StepKeepsBound(h, acts[0]);
      RunKeepsBound(Next(h, acts[0]), acts[1..]);
    }
  }

  /** No chunk is taken from an empty buffer. */
  predicate ChunksHoldSomething(h: History) { forall i :: 0 <= i < |h.inHand| ==> h.inHand[i] != [] }

  lemma StepKeepsChunks(h: History, a: Action)
    requires Consistent(h) && ChunksHoldSomething(h) && Enabled(h, a)
    ensures ChunksHoldSomething(Next(h, a))
  {
  }

  /** What is lost only grows, and stays the same exactly while the file can be opened. */
  lemma {:induction false} LostExactly(h: History, acts: seq<Action>)
    requires Consistent(h) && ChunksHoldSomething(h) && Possible(h, acts)
    ensures |h.lost| <= |After(h, acts).lost| && (|h.lost| == |After(h, acts).lost| <==> AllOpen(acts))
    decreases |acts|
  {
    if acts != [] {
      var h' := Next(h, acts[0]);
      StepKeepsConsistent(h, acts[0]);
      StepKeepsChunks(h, acts[0]);
      LostExactly(h', acts[1..]);
      StepLoses(h, acts[0]);
      AllOpenOne(acts);
    }
  }

  lemma StepLoses(h: History, a: Action)
    requires ChunksHoldSomething(h) && Enabled(h, a)
    ensures |h.lost| <= |Next(h, a).lost| && (|h.lost| == |Next(h, a).lost| <==> (a.Write? ==> a.io.opens))
  {
  }

  lemma AllOpenOne(acts: seq<Action>)
    requires acts != []
    ensures AllOpen(acts) <==> (acts[0].Write? ==> acts[0].io.opens) && AllOpen(acts[1..])
  {
  }

  /**
   * After any actions that follow a rotation: the file is a line-aligned end of everything written,
   * which lost its front only past 512 KiB and then kept the whole lines of the last 256 KiB; its
   * size is tracked unless it could not be read back, and at most 512 KiB unless a rewrite failed
   * besides; and no append is counted twice, or lost but in a chunk for which the file could not be
   * opened, each of which loses something.
   */
  lemma LogIsFaithful(previous: Option<string>, acts: seq<Action>, line: string)
    requires Possible(Start(previous), acts)
    ensures var h := After(Start(previous), acts);
            && FileIsTail(h.log, TextOf(h.stream)) && h.log.pending == TextOf(h.buffered)
            && (AllReadBack(acts) ==> SizeTracked(h.log))
            && (AllReadBack(acts) && AllRewrite(acts) ==> |h.log.current.GetOr("")| <= 524288)
            && Occurrences(h, line) == Admitted(Start(previous), acts, line)
            && AllDrops(h) == Refused(Start(previous), acts)
            && (h.lost == [] <==> AllOpen(acts))
  {
    StartIsConsistent(previous);
    RunKeepsConsistent(Start(previous), acts);
    EveryLineAccountedFor(Start(previous), acts, line);
    LostExactly(Start(previous), acts);
    if AllReadBack(acts) {
      RunTracksSize(Start(previous), acts);
      if AllRewrite(acts) {
        RunKeepsBound(Start(previous), acts);
      }
    }
  }

  lemma StartIsConsistent(previous: Option<string>)
    ensures Consistent(Start(previous))
  {
    var s := Start(previous);
    assert LineAligned(TextOf(s.stream), 0) && CutAt(TextOf(s.stream), 0, 0) && TextOf(s.stream)[0..] == "";
  }

  /**
   * A rotation starts the session from an empty file, whose size it tracks, exactly when the file
   * could be renamed or there was nothing in it. The last session's log is kept in either case.
   */
  lemma RotationStartsAfresh(l: Log, removes: bool, renames: bool)
    requires l.configured
    ensures var r := Rotated(l, removes, renames);
            && (r.fileBytes == |r.current.GetOr("")| <==> renames || l.current.GetOr("") == "")
            && (renames ==> r.current == None)
            && (l.current.Some? ==> l.current == if renames then r.previous else r.current)
  {
  }
}
