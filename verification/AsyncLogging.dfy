/** base/AsyncLogging.cc: front-end threads appending lines under the mutex, and one back-end thread
    that swaps the full buffers out, writes them and recycles two of them.

    A FixedBuffer is the text it holds (base/LogStream.h). The steps are the test of running_, the
    critical sections and the back end's writes; the wait may end at any time, so the back end may
    collect whenever it is past the test, also when stop() came meanwhile. */
module AsyncLogMachine {
  import opened Common

  type Text = seq<char>

  const LARGE_BUFFER: nat := 4 * 1024 * 1024
  const MAX_BATCH: nat := 25

  /** What reaches the LogFile. */
  datatype Chunk = Data(text: Text) | DropNotice(count: nat)

  datatype Pc = Head | Entered | Writing(batch: seq<Text>, next: nat) | Exited

  datatype State = State(
    current: Text,                // currentBuffer_
    spare: Option<Text>,          // nextBuffer_
    buffers: seq<Text>,           // buffers_
    new1: Option<Text>,           // newBuffer1
    new2: Option<Text>,           // newBuffer2
    running: bool,
    pc: Pc,                       // Writing holds buffersToWrite
    file: seq<Chunk>,
    lines: seq<Text>,             // history: every line appended
    batches: seq<seq<Text>>)      // history: every batch swapped out, before any drop

  datatype Step =
    | Append(line: Text)
    | Test
    | Collect
    | WriteOne
    | Recycle
    | Stop

  const Init: State := State([], Some([]), [], Some([]), Some([]), true, Head, [], [], [])

  /** FixedBuffer::append: a text that does not fit with a byte to spare is not copied at all. */
  function Fill(buffer: Text, line: Text): Text {
    if LARGE_BUFFER - |buffer| > |line| then buffer + line else buffer
  }

  function DoAppend(s: State, line: Text): State {
    if LARGE_BUFFER - |s.current| > |line|
    then s.(current := Fill(s.current, line), lines := s.lines + [line])
    else s.(buffers := s.buffers + [s.current],
            current := Fill(if s.spare.Some? then s.spare.value else [], line),
            spare := None,
            lines := s.lines + [line])
  }

  /** The buffers of a batch that are written: all, or the first two of an oversized one. */
  function Written(batch: seq<Text>): seq<Text> {
    if |batch| > MAX_BATCH then batch[..2] else batch
  }

  function Notice(batch: seq<Text>): seq<Chunk> {
    if |batch| > MAX_BATCH then [DropNotice(|batch| - 2)] else []
  }

  function DoCollect(s: State): State
    requires s.new1.Some?
  {
    var batch := s.buffers + [s.current];
    s.(current := s.new1.value,
       new1 := None,
       buffers := [],
       spare := if s.spare.None? then s.new2 else s.spare,
       new2 := if s.spare.None? then None else s.new2,
       pc := Writing(Written(batch), 0),
       file := s.file + Notice(batch),
       batches := s.batches + [batch])
  }

  /** Buffers left in buffersToWrite when the spares are refilled. */
  function Reusable(s: State): nat
    requires s.pc.Writing?
  {
    if |s.pc.batch| > 2 then 2 else |s.pc.batch|
  }

  predicate Enabled(s: State, a: Step) {
    match a
    case Append(_) => true
    case Test => s.pc.Head?
    // waited or not
    case Collect => s.pc.Entered? && s.new1.Some?
    case WriteOne => s.pc.Writing? && s.pc.next < |s.pc.batch|
    // both pop_backs find a buffer
    case Recycle => s.pc.Writing? && s.pc.next == |s.pc.batch|
                    && Reusable(s) >= (if s.new1.None? then 1 else 0) + (if s.new2.None? then 1 else 0)
    case Stop => true
  }

  function Next(s: State, a: Step): State
    requires Enabled(s, a)
  {
    match a
    case Append(line) => DoAppend(s, line)
    case Test => s.(pc := if s.running then Entered else Exited)
    case Collect => DoCollect(s)
    case WriteOne => s.(file := s.file + [Data(s.pc.batch[s.pc.next])], pc := s.pc.(next := s.pc.next + 1))
    case Recycle => s.(pc := Head,
                       new1 := if s.new1.None? then Some([]) else s.new1,
                       new2 := if s.new2.None? then Some([]) else s.new2)
    case Stop => s.(running := false)
  }

  ghost predicate IsRun(states: seq<State>, steps: seq<Step>) {
    && |states| == |steps| + 1 && states[0] == Init
    && forall i | 0 <= i < |steps| :: Enabled(states[i], steps[i]) && states[i + 1] == Next(states[i], steps[i])
  }

  // ----- Texts -----

  function Concat(texts: seq<Text>): Text {
    if texts == [] then [] else Concat(texts[..|texts| - 1]) + texts[|texts| - 1]
  }

  lemma ConcatAppend(texts: seq<Text>, text: Text)
    ensures Concat(texts + [text]) == Concat(texts) + text
  {
    assert (texts + [text])[..|texts|] == texts;
  }

  lemma {:induction false} ConcatConcat(a: seq<Text>, b: seq<Text>)
    ensures Concat(a + b) == Concat(a) + Concat(b)
    decreases |b|
  {
    if b == [] {
      assert a + b == a;
    } else {
      var front, last := b[..|b| - 1], b[|b| - 1];
      ConcatConcat(a, front);
      assert a + b == (a + front) + [last] && b == front + [last];
      ConcatAppend(a + front, last);
    }
  }

  /** A line too long for a large buffer is not kept. */
  function Kept(line: Text): Text { if |line| < LARGE_BUFFER then line else [] }

  /** The lines short enough for a large buffer, end to end. */
  function Accepted(lines: seq<Text>): Text {
    if lines == [] then []
    else
      var line := lines[|lines| - 1];
      Accepted(lines[..|lines| - 1]) + Kept(line)
  }

  lemma AcceptedAppend(lines: seq<Text>, line: Text)
    ensures Accepted(lines + [line]) == Accepted(lines) + Kept(line)
  {
    assert (lines + [line])[..|lines|] == lines;
  }

  function Flatten(batches: seq<seq<Text>>): seq<Text> {
    if batches == [] then [] else Flatten(batches[..|batches| - 1]) + batches[|batches| - 1]
  }

  lemma FlattenAppend(batches: seq<seq<Text>>, batch: seq<Text>)
    ensures Flatten(batches + [batch]) == Flatten(batches) + batch
  {
    assert (batches + [batch])[..|batches|] == batches;
  }

  function AsData(texts: seq<Text>): seq<Chunk> { seq(|texts|, i requires 0 <= i < |texts| => Data(texts[i])) }

  /** What finished batches leave in the file. */
  function Output(batches: seq<seq<Text>>): seq<Chunk> {
    if batches == [] then []
    else
      var b := batches[|batches| - 1];
      Output(batches[..|batches| - 1]) + Notice(b) + AsData(Written(b))
  }

  // ----- Refill safety -----

  ghost predicate RefillInv(s: State) {
    && (s.spare.None? || s.spare == Some([]))
    && (s.spare.None? ==> |s.buffers| >= 1)
    && (s.pc.Head? || s.pc.Entered? ==> s.new1 == Some([]) && s.new2 == Some([]))
    && (s.pc.Writing? ==>
          && s.new1.None? && |s.pc.batch| >= 1 && s.pc.next <= |s.pc.batch|
          && (s.new2.None? || s.new2 == Some([]))
          && (s.new2.None? ==> |s.pc.batch| >= 2))
  }

  lemma RefillNext(s: State, a: Step)
    requires RefillInv(s) && Enabled(s, a)
    ensures RefillInv(Next(s, a))
  {
  }

  lemma {:induction false} RefillAlways(states: seq<State>, steps: seq<Step>, i: nat)
    requires IsRun(states, steps) && i < |states|
    ensures RefillInv(states[i])
  {
    if i > 0 {
      RefillAlways(states, steps, i - 1);
      RefillNext(states[i - 1], steps[i - 1]);
    }
  }

  /** In every interleaving both spares are there and empty from the loop head to the swap, nextBuffer_
      is null or empty, newBuffer2 is used up only by a batch of at least two buffers, and so both pop_backs
      succeed whenever the writing is done. */
  lemma RefillSafety(states: seq<State>, steps: seq<Step>, i: nat)
    requires IsRun(states, steps) && i < |states|
    ensures var s := states[i];
            && (s.pc.Head? || s.pc.Entered? ==> s.new1 == Some([]) && s.new2 == Some([]))
            && (s.spare.None? || s.spare == Some([]))
            && (s.pc.Writing? && s.new2.None? ==> |s.pc.batch| >= 2)
            && (s.pc.Writing? && s.pc.next == |s.pc.batch| ==> Enabled(s, Recycle))
  {
    RefillAlways(states, steps, i);
  }

  // ----- Conservation -----

  /** Every buffer ever filled, oldest first. */
  function AllBuffers(s: State): seq<Text> { Flatten(s.batches) + s.buffers + [s.current] }

  function ExpectedFile(s: State): seq<Chunk> {
    if s.pc.Writing? && s.batches != [] && s.pc.next <= |s.pc.batch| then
      var last := s.batches[|s.batches| - 1];
      Output(s.batches[..|s.batches| - 1]) + Notice(last) + AsData(s.pc.batch[..s.pc.next])
    else Output(s.batches)
  }

  ghost predicate LogInv(s: State) {
    && RefillInv(s)
    && Concat(AllBuffers(s)) == Accepted(s.lines)
    && FileInv(s)
  }

  /** Appending adds the line at the end of what the buffers hold, whatever was filled before them. */
  lemma AppendAdds(before: seq<Text>, s: State, line: Text)
    requires RefillInv(s)
    ensures var t := DoAppend(s, line);
            Concat(before + t.buffers + [t.current]) == Concat(before + s.buffers + [s.current]) + Kept(line)
  {
    hide Concat;
    var t := DoAppend(s, line);
    var full := before + s.buffers;
    ConcatAppend(full, s.current);
    if LARGE_BUFFER - |s.current| > |line| {
      ConcatAppend(full, s.current + line);
      Associative(Concat(full), s.current, line);
    } else {
      Associative(before, s.buffers, [s.current]);
      ConcatAppend(full + [s.current], t.current);
    }
  }

  lemma AppendConserves(s: State, line: Text)
    requires RefillInv(s) && Concat(AllBuffers(s)) == Accepted(s.lines)
    ensures Concat(AllBuffers(DoAppend(s, line))) == Accepted(DoAppend(s, line).lines)
  {
    hide Concat, Accepted, Flatten;
    AcceptedAppend(s.lines, line);
    AppendAdds(Flatten(s.batches), s, line);
  }

  lemma CollectConserves(s: State)
    requires RefillInv(s) && Enabled(s, Collect) && Concat(AllBuffers(s)) == Accepted(s.lines)
    ensures Concat(AllBuffers(DoCollect(s))) == Accepted(s.lines)
  {
    hide Concat, Accepted, Flatten, Written, Notice;
    FlattenAppend(s.batches, s.buffers + [s.current]);
    Associative(Flatten(s.batches), s.buffers, [s.current]);
    assert AllBuffers(s) + [] == AllBuffers(s);
    ConcatAppend(AllBuffers(s), []);
  }

  lemma DataAppend(texts: seq<Text>, n: nat)
    requires n < |texts|
    ensures AsData(texts[..n + 1]) == AsData(texts[..n]) + [Data(texts[n])]
  {
  }

  ghost predicate FileInv(s: State) {
    && (s.pc.Writing? ==> s.batches != [] && s.pc.batch == Written(s.batches[|s.batches| - 1]))
    && s.file == ExpectedFile(s)
  }

  lemma FileCollect(s: State)
    requires FileInv(s) && Enabled(s, Collect)
    ensures FileInv(DoCollect(s))
  {
    hide Output;
    var t := DoCollect(s);
    assert t.batches[..|s.batches|] == s.batches;
    assert AsData(t.pc.batch[..0]) == [];
    assert Output(s.batches) + Notice(s.buffers + [s.current]) + []
        == Output(s.batches) + Notice(s.buffers + [s.current]);
  }

  lemma FileWriteOne(s: State)
    requires FileInv(s) && Enabled(s, WriteOne)
    ensures FileInv(Next(s, WriteOne))
  {
    hide Output, AsData;
    DataAppend(s.pc.batch, s.pc.next);
  }

  lemma FileRecycle(s: State)
    requires FileInv(s) && Enabled(s, Recycle)
    ensures FileInv(Next(s, Recycle))
  {
    hide AsData;
    assert s.pc.batch[..s.pc.next] == s.pc.batch;
  }

  lemma LogNext(s: State, a: Step)
    requires LogInv(s) && Enabled(s, a)
    ensures LogInv(Next(s, a))
  {
    RefillNext(s, a);
    BuffersNext(s, a);
    FileNext(s, a);
    hide RefillInv, FileInv, AllBuffers, Concat, Accepted, Next, Enabled;
  }

  lemma BuffersNext(s: State, a: Step)
    requires RefillInv(s) && Enabled(s, a) && Concat(AllBuffers(s)) == Accepted(s.lines)
    ensures Concat(AllBuffers(Next(s, a))) == Accepted(Next(s, a).lines)
  {
    hide Concat, Accepted, Flatten, DoAppend, DoCollect, RefillInv;
    match a
    case Append(line) => AppendConserves(s, line);
    case Collect =>
      CollectConserves(s);
      CollectKeepsLines(s);
    case _ =>
  }

  lemma CollectKeepsLines(s: State)
    requires s.new1.Some?
    ensures DoCollect(s).lines == s.lines
  {
  }

  lemma FileNext(s: State, a: Step)
    requires FileInv(s) && Enabled(s, a)
    ensures FileInv(Next(s, a))
  {
    hide Output, AsData, Notice, Written;
    match a
    case Append(line) => SameFile(s, Next(s, a));
    case Test => SameFile(s, Next(s, a));
    case Collect => FileCollect(s);
    case WriteOne => FileWriteOne(s);
    case Recycle => FileRecycle(s);
    case Stop => SameFile(s, Next(s, a));
  }

  lemma SameFile(s: State, t: State)
    requires FileInv(s) && t.file == s.file && t.batches == s.batches
    requires t.pc == s.pc || (!t.pc.Writing? && !s.pc.Writing?)
    ensures FileInv(t)
  {
    hide Output, AsData, Notice, Written;
  }

  lemma InitInv()
    ensures LogInv(Init)
  {
    assert AllBuffers(Init) == [] + [[]];
    ConcatAppend([], []);
  }

  lemma {:induction false} LogAlways(states: seq<State>, steps: seq<Step>, i: nat)
    requires IsRun(states, steps) && i < |states|
    ensures LogInv(states[i])
  {
    if i == 0 {
      InitInv();
    } else {
      LogAlways(states, steps, i - 1);
      LogNext(states[i - 1], steps[i - 1]);
    }
  }

  /** In every interleaving the buffers swapped out, then buffers_, then currentBuffer_ hold exactly the
      lines that fit a large buffer, in append order; and the file holds, batch by batch, every buffer
      swapped out except whole ones past the second of a batch of more than 25, each such batch
      announced by its notice. */
  lemma LogConservation(states: seq<State>, steps: seq<Step>, i: nat)
    requires IsRun(states, steps) && i < |states|
    ensures Concat(Flatten(states[i].batches) + states[i].buffers + [states[i].current]) == Accepted(states[i].lines)
    ensures states[i].pc.Writing? ==>
              states[i].batches != [] && states[i].pc.batch == Written(states[i].batches[|states[i].batches| - 1])
    ensures states[i].file == ExpectedFile(states[i])
  {
    LogAlways(states, steps, i);
  }

  function FileText(file: seq<Chunk>): Text {
    if file == [] then []
    else
      var c := file[|file| - 1];
      FileText(file[..|file| - 1]) + (if c.Data? then c.text else [])
  }

  lemma {:induction false} FileTextData(file: seq<Chunk>, texts: seq<Text>)
    ensures FileText(file + AsData(texts)) == FileText(file) + Concat(texts)
    decreases |texts|
  {
    if texts == [] {
      assert file + AsData(texts) == file;
    } else {
      hide FileText, Concat;
      var front, last := texts[..|texts| - 1], texts[|texts| - 1];
      assert texts == front + [last];
      FileTextData(file, front);
      ConcatAppend(front, last);
      DataSnoc(front, last);
      hide AsData;
      Associative(file, AsData(front), [Data(last)]);
      FileTextAppend(file + AsData(front), Data(last));
      Associative(FileText(file), Concat(front), last);
    }
  }

  lemma DataSnoc(texts: seq<Text>, text: Text)
    ensures AsData(texts + [text]) == AsData(texts) + [Data(text)]
  {
  }

  lemma FileTextAppend(file: seq<Chunk>, c: Chunk)
    ensures FileText(file + [c]) == FileText(file) + (if c.Data? then c.text else [])
  {
    assert (file + [c])[..|file|] == file;
  }

  lemma {:induction false} OutputText(batches: seq<seq<Text>>)
    requires forall k | 0 <= k < |batches| :: |batches[k]| <= MAX_BATCH
    ensures FileText(Output(batches)) == Concat(Flatten(batches))
  {
    if batches != [] {
      var front, last := batches[..|batches| - 1], batches[|batches| - 1];
      OutputText(front);
      FileTextData(Output(front), last);
      ConcatConcat(Flatten(front), last);
      assert Output(front) + [] == Output(front);
    }
  }

  /** The buffers of the current batch still to be written. */
  function InFlight(s: State): seq<Text> {
    if s.pc.Writing? && s.pc.next <= |s.pc.batch| then s.pc.batch[s.pc.next..] else []
  }

  /** With no batch over 25 buffers nothing is lost: the file, then the buffers in flight, then buffers_,
      then currentBuffer_ are the appended lines in order. */
  lemma NothingLost(states: seq<State>, steps: seq<Step>, i: nat)
    requires IsRun(states, steps) && i < |states|
    requires forall k | 0 <= k < |states[i].batches| :: |states[i].batches[k]| <= MAX_BATCH
    ensures var s := states[i];
            FileText(s.file) + Concat(InFlight(s)) + Concat(s.buffers) + s.current == Accepted(s.lines)
  {
    LogAlways(states, steps, i);
    var s := states[i];
    FileAndInFlight(s);
    ConcatAppend(Flatten(s.batches) + s.buffers, s.current);
    ConcatConcat(Flatten(s.batches), s.buffers);
  }

  // ----- What the file holds between batches, and when the back end is done -----

  lemma {:induction false} AcceptedConcat(a: seq<Text>, b: seq<Text>)
    ensures Accepted(a + b) == Accepted(a) + Accepted(b)
    decreases |b|
  {
    if b == [] {
      assert a + b == a;
    } else {
      hide Accepted;
      var front, last := b[..|b| - 1], b[|b| - 1];
      assert b == front + [last];
      Associative(a, front, [last]);
      AcceptedConcat(a, front);
      AcceptedAppend(a + front, last);
      AcceptedAppend(front, last);
      Associative(Accepted(a), Accepted(front), Kept(last));
    }
  }

  /** The lines from n on are those in buffers_ and currentBuffer_. */
  ghost predicate UncollectedFrom(s: State, n: nat) {
    n <= |s.lines| && Concat(s.buffers + [s.current]) == Accepted(s.lines[n..])
  }

  lemma UncollectedNext(s: State, a: Step, n: nat)
    requires RefillInv(s) && UncollectedFrom(s, n) && Enabled(s, a) && !a.Collect?
    ensures UncollectedFrom(Next(s, a), n)
  {
    hide Concat, Accepted, RefillInv;
    if a.Append? {
      AppendAdds([], s, a.line);
      assert [] + s.buffers == s.buffers && [] + Next(s, a).buffers == Next(s, a).buffers;
      assert Next(s, a).lines[n..] == s.lines[n..] + [a.line];
      AcceptedAppend(s.lines[n..], a.line);
    }
  }

  lemma {:induction false} UncollectedSince(states: seq<State>, steps: seq<Step>, c: nat, i: nat)
    requires IsRun(states, steps) && c < i < |states| && steps[c].Collect?
    requires forall k | c < k < i :: !steps[k].Collect?
    ensures UncollectedFrom(states[i], |states[c].lines|) && states[c].lines <= states[i].lines
    decreases i
  {
    hide UncollectedFrom, RefillInv, Next, Enabled;
    RefillAlways(states, steps, i - 1);
    LinesGrow(states[i - 1], steps[i - 1]);
    if i == c + 1 {
      UncollectedStart(states[c]);
    } else {
      UncollectedSince(states, steps, c, i - 1);
      UncollectedNext(states[i - 1], steps[i - 1], |states[c].lines|);
    }
  }

  lemma LinesGrow(s: State, a: Step)
    requires Enabled(s, a)
    ensures s.lines <= Next(s, a).lines
  {
  }

  lemma UncollectedStart(s: State)
    requires RefillInv(s) && Enabled(s, Collect)
    ensures UncollectedFrom(Next(s, Collect), |s.lines|)
  {
    hide Concat, Accepted, Written, Notice;
    var t := Next(s, Collect);
    assert t.buffers + [t.current] == [] + [[]];
    ConcatAppend([], []);
    assert t.lines[|s.lines|..] == [];
    NothingHeld();
  }

  lemma NothingHeld()
    ensures Concat([]) == [] && Accepted([]) == []
  {
  }

  /** With no batch over 25 buffers: whenever no batch is being written, the file holds exactly the lines
      appended before the last swap. So what the back end leaves behind when it exits are the lines
      appended since then, and no others. */
  lemma FileHoldsCollected(states: seq<State>, steps: seq<Step>, c: nat, i: nat)
    requires IsRun(states, steps) && c < i < |states| && steps[c].Collect? && !states[i].pc.Writing?
    requires forall k | c < k < i :: !steps[k].Collect?
    requires forall k | 0 <= k < |states[i].batches| :: |states[i].batches[k]| <= MAX_BATCH
    ensures FileText(states[i].file) == Accepted(states[c].lines)
  {
    hide Concat, Accepted, FileText;
    NothingLost(states, steps, i);
    UncollectedSince(states, steps, c, i);
    var s, n := states[i], |states[c].lines|;
    ConcatNothing(s);
    ConcatAppend(s.buffers, s.current);
    Associative(FileText(s.file), Concat(s.buffers), s.current);
    assert s.lines == states[c].lines + s.lines[n..];
    AcceptedConcat(states[c].lines, s.lines[n..]);
    SamePrefix(FileText(s.file), Accepted(states[c].lines), Accepted(s.lines[n..]));
  }

  lemma SamePrefix(a: Text, b: Text, tail: Text)
    requires a + tail == b + tail
    ensures a == b
  {
    assert |a + tail| == |a| + |tail| && |b + tail| == |b| + |tail|;
    assert (a + tail)[..|a|] == a && (b + tail)[..|b|] == b;
  }

  lemma FileAndInFlight(s: State)
    requires LogInv(s) && forall k | 0 <= k < |s.batches| :: |s.batches[k]| <= MAX_BATCH
    ensures FileText(s.file) + Concat(InFlight(s)) == Concat(Flatten(s.batches))
  {
    hide Concat, Flatten, Output, FileText, AsData;
    if s.pc.Writing? {
      var front, last := s.batches[..|s.batches| - 1], s.batches[|s.batches| - 1];
      assert s.batches == front + [last];
      assert Output(front) + [] == Output(front);
      HalfWritten(front, last, s.pc.next);
    } else {
      OutputText(s.batches);
      ConcatNothing(s);
    }
  }

  lemma ConcatNothing(s: State)
    requires !s.pc.Writing?
    ensures FileText(s.file) + Concat(InFlight(s)) == FileText(s.file)
  {
  }

  lemma HalfWritten(front: seq<seq<Text>>, last: seq<Text>, n: nat)
    requires forall k | 0 <= k < |front| :: |front[k]| <= MAX_BATCH
    requires n <= |last|
    ensures FileText(Output(front) + AsData(last[..n])) + Concat(last[n..]) == Concat(Flatten(front + [last]))
  {
    var done, rest := last[..n], last[n..];
    hide Concat, Flatten, Output, FileText, AsData;
    FlattenAppend(front, last);
    assert last == done + rest;
    OutputText(front);
    FileTextData(Output(front), done);
    ConcatConcat(Flatten(front), last);
    ConcatConcat(done, rest);
    Associative(Concat(Flatten(front)), Concat(done), Concat(rest));
  }
}

/** The logger in the form the source has. */
module AsyncLoggings {
  import opened Common
  import opened AsyncLogMachine

  class AsyncLogging {
    var current: Text
    var spare: Option<Text>
    var buffers: seq<Text>
    var running: bool
    // locals of threadFunc
    var new1: Option<Text>
    var new2: Option<Text>
    var buffersToWrite: seq<Text>
    var file: seq<Chunk>
    ghost var pc: Pc
    ghost var lines: seq<Text>
    ghost var batches: seq<seq<Text>>

    ghost function View(): State
      reads this
    {
      State(current, spare, buffers, new1, new2, running, pc, file, lines, batches)
    }

    ghost predicate Valid()
      reads this
    {
      LogInv(View()) && (pc.Writing? ==> buffersToWrite == pc.batch)
    }

    constructor ()
      ensures Valid() && View() == Init
    {
      current, spare, buffers, running := [], Some([]), [], true;
      new1, new2, buffersToWrite, file := Some([]), Some([]), [], [];
      pc, lines, batches := Head, [], [];
      InitInv();
    }

    method Append(line: Text)
      requires Valid()
      modifies this
      ensures Valid() && View() == Next(old(View()), Step.Append(line)) && buffersToWrite == old(buffersToWrite)
    {
      hide LogInv;
      LogNext(View(), Step.Append(line));
      lines := lines + [line];
      if LARGE_BUFFER - |current| > |line| {
        current := Fill(current, line);
      } else {
        buffers := buffers + [current];
        if spare.Some? {
          current, spare := spare.value, None;
        } else {
          current := [];
        }
        current := Fill(current, line);
      }
    }

    /** The loop's test of running_. */
    method Test() returns (again: bool)
      requires Valid() && pc.Head?
      modifies `pc
      ensures Valid() && View() == Next(old(View()), Step.Test)
      ensures again == running && pc == (if again then Entered else Exited)
    {
      LogNext(View(), Step.Test);
      again := running;
      pc := if again then Entered else Exited;
    }

    /** The back end's critical section, and the drop that follows it. */
    method Collect()
      requires Valid() && pc.Entered?
      modifies this
      ensures Valid() && Enabled(old(View()), Step.Collect) && View() == Next(old(View()), Step.Collect)
      ensures var all := old(buffers) + [old(current)];
              && buffersToWrite == (if |all| > 25 then all[..2] else all)
              && file == old(file) + (if |all| > 25 then [DropNotice(|all| - 2)] else [])
    {
      hide LogInv, RefillInv;
      RefillFacts(View());
      LogNext(View(), Step.Collect);
      hide Written, Notice;
      SwapOut();
      batches := batches + [buffersToWrite];
      assert buffersToWrite != [];
      DropExcess();
      pc := Writing(buffersToWrite, 0);
    }

    method SwapOut()
      requires new1.Some?
      modifies `current, `new1, `buffers, `buffersToWrite, `spare, `new2
      ensures buffersToWrite == old(buffers) + [old(current)] && buffers == []
      ensures current == old(new1).value && new1.None?
      ensures spare == (if old(spare).None? then old(new2) else old(spare))
      ensures new2 == (if old(spare).None? then None else old(new2))
    {
      buffers := buffers + [current];
      current, new1 := new1.value, None;
      buffersToWrite, buffers := buffers, [];
      if spare.None? {
        spare, new2 := new2, None;
      }
    }

    method DropExcess()
      modifies `file, `buffersToWrite
      ensures buffersToWrite == Written(old(buffersToWrite)) && file == old(file) + Notice(old(buffersToWrite))
      ensures var all := old(buffersToWrite);
              && buffersToWrite == (if |all| > 25 then all[..2] else all)
              && file == old(file) + (if |all| > 25 then [DropNotice(|all| - 2)] else [])
    {
      if |buffersToWrite| > MAX_BATCH {
        file := file + [DropNotice(|buffersToWrite| - 2)];
        buffersToWrite := buffersToWrite[..2];
      }
      assert old(file) + [] == old(file);
    }

    method Write()
      requires Valid() && pc.Writing? && pc.next == 0
      modifies `file, `pc
      ensures Valid() && pc == Writing(buffersToWrite, |buffersToWrite|)
      ensures file == old(file) + AsData(buffersToWrite)
    {
      hide LogInv;
      var i := 0;
      while i < |buffersToWrite|
        invariant 0 <= i <= |buffersToWrite|
        invariant Valid() && pc == Writing(buffersToWrite, i)
        invariant file == old(file) + AsData(buffersToWrite[..i])
      {
        LogNext(View(), WriteOne);
        file := file + [Data(buffersToWrite[i])];
        pc := pc.(next := i + 1);
        assert AsData(buffersToWrite[..i + 1]) == AsData(buffersToWrite[..i]) + [Data(buffersToWrite[i])];
        i := i + 1;
      }
      assert buffersToWrite[..i] == buffersToWrite;
    }

    method Recycle()
      requires Valid() && pc.Writing? && pc.next == |buffersToWrite|
      modifies this
      ensures Valid() && Enabled(old(View()), Step.Recycle) && View() == Next(old(View()), Step.Recycle)
      ensures pc.Head? && new1 == Some([]) && new2 == Some([])
    {
      hide LogInv;
      RefillFacts(View());
      LogNext(View(), Step.Recycle);
      if |buffersToWrite| > 2 {
        buffersToWrite := buffersToWrite[..2];
      }
      if new1.None? {
        assert buffersToWrite != [];
        buffersToWrite := buffersToWrite[..|buffersToWrite| - 1];
        new1 := Some([]);
      }
      if new2.None? {
        assert buffersToWrite != [];
        buffersToWrite := buffersToWrite[..|buffersToWrite| - 1];
        new2 := Some([]);
      }
      buffersToWrite := [];
      pc := Head;
    }
  }

  lemma RefillFacts(s: State)
    requires LogInv(s)
    ensures RefillInv(s)
    ensures s.pc.Head? || s.pc.Entered? ==> s.new1 == Some([]) && s.new2 == Some([])
  {
  }
}
