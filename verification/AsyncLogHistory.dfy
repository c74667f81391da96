/** The logger of base/AsyncLogging.cc told by the steps of its run, and its file told by the buffers
    that were swapped out. */
module AsyncLogHistories {
  import opened Common
  import opened AsyncLogMachine

  // ----- The file -----

  /** What a batch leaves in the file: every buffer, or, of more than 25, a notice of how many are
      dropped and then the first two. */
  function BatchChunks(batch: seq<Text>): seq<Chunk> {
    if |batch| > 25 then [DropNotice(|batch| - 2), Data(batch[0]), Data(batch[1])]
    else seq(|batch|, k requires 0 <= k < |batch| => Data(batch[k]))
  }

  function AllChunks(batches: seq<seq<Text>>): seq<Chunk> {
    if batches == [] then [] else AllChunks(batches[..|batches| - 1]) + BatchChunks(batches[|batches| - 1])
  }

  lemma ChunksOfBatch(batch: seq<Text>)
    ensures BatchChunks(batch) == Notice(batch) + AsData(Written(batch))
  {
  }

  lemma {:induction false} OutputIsAllChunks(batches: seq<seq<Text>>)
    ensures Output(batches) == AllChunks(batches)
  {
    if batches != [] {
      var front, last := batches[..|batches| - 1], batches[|batches| - 1];
      OutputIsAllChunks(front);
      ChunksOfBatch(last);
      hide Notice, AsData, Written, BatchChunks;
      Associative(Output(front), Notice(last), AsData(Written(last)));
    }
  }

  /** In every run the buffers being written are a prefix of the last batch: all of it, or the first two
      of more than 25. */
  lemma WritesFirstBuffers(states: seq<State>, steps: seq<Step>, i: nat)
    requires IsRun(states, steps) && i < |states| && states[i].pc.Writing?
    ensures states[i].batches != []
    ensures var last := states[i].batches[|states[i].batches| - 1];
            && states[i].pc.batch <= last
            && |states[i].pc.batch| == if |last| > 25 then 2 else |last|
  {
    LogAlways(states, steps, i);
  }

  /** In every run the file holds, batch by batch, what each batch leaves; while one is being written, its
      notice if any and the buffers written so far. */
  lemma FileIsAllChunks(states: seq<State>, steps: seq<Step>, i: nat)
    requires IsRun(states, steps) && i < |states|
    ensures !states[i].pc.Writing? ==> states[i].file == AllChunks(states[i].batches)
    ensures states[i].pc.Writing? ==>
              && states[i].batches != [] && states[i].pc.next <= |states[i].pc.batch|
              && var n := |states[i].batches| - 1;
                 var last := states[i].batches[n];
                 var written := states[i].pc.next + (if |last| > 25 then 1 else 0);
                 && written <= |BatchChunks(last)|
                 && states[i].file == AllChunks(states[i].batches[..n]) + BatchChunks(last)[..written]
  {
    LogAlways(states, steps, i);
    var s := states[i];
    if s.pc.Writing? {
      var n := |s.batches| - 1;
      OutputIsAllChunks(s.batches[..n]);
      PartOfBatch(s.batches[n], s.pc.next);
      Associative(Output(s.batches[..n]), Notice(s.batches[n]), AsData(s.pc.batch[..s.pc.next]));
    } else {
      OutputIsAllChunks(s.batches);
    }
  }

  lemma PartOfBatch(batch: seq<Text>, n: nat)
    requires n <= |Written(batch)|
    ensures n + (if |batch| > 25 then 1 else 0) <= |BatchChunks(batch)|
    ensures Notice(batch) + AsData(Written(batch)[..n]) == BatchChunks(batch)[..n + (if |batch| > 25 then 1 else 0)]
  {
  }

  // ----- Lines -----

  function Appended(steps: seq<Step>): seq<Text> {
    if steps == [] then []
    else
      var a := steps[|steps| - 1];
      Appended(steps[..|steps| - 1]) + (if a.Append? then [a.line] else [])
  }

  /** In every run the lines that the results speak of are those of the append calls, in order. */
  lemma {:induction false} LinesAreAppended(states: seq<State>, steps: seq<Step>, i: nat)
    requires IsRun(states, steps) && i < |states|
    ensures states[i].lines == Appended(steps[..i])
  {
    if i > 0 {
      LinesAreAppended(states, steps, i - 1);
      assert steps[..i][..i - 1] == steps[..i - 1];
      LineStep(states[i - 1], steps[i - 1]);
      hide Next, Enabled;
    }
  }

  lemma LineStep(s: State, a: Step)
    requires Enabled(s, a)
    ensures Next(s, a).lines == s.lines + (if a.Append? then [a.line] else [])
  {
  }

  // ----- Rotation -----

  /** Buffers never fill up completely, and the spare is gone exactly after a rotation since the swap. */
  ghost predicate RotationInv(s: State) {
    && |s.current| < 4194304 && (forall k | 0 <= k < |s.buffers| :: |s.buffers[k]| < 4194304)
    && (s.spare.None? <==> s.buffers != [])
    && (s.pc.Writing? ==> (s.new2.None? <==> |s.pc.batch| >= 2))
  }

  lemma RotationNext(s: State, a: Step)
    requires RefillInv(s) && RotationInv(s) && Enabled(s, a)
    ensures RotationInv(Next(s, a))
  {
  }

  lemma {:induction false} RotationAlways(states: seq<State>, steps: seq<Step>, i: nat)
    requires IsRun(states, steps) && i < |states|
    ensures RotationInv(states[i])
  {
    hide Next, Enabled, RotationInv, RefillInv;
    if i > 0 {
      RotationAlways(states, steps, i - 1);
      RefillAlways(states, steps, i - 1);
      RotationNext(states[i - 1], steps[i - 1]);
    } else {
      RotationStart();
    }
  }

  lemma RotationStart()
    ensures RotationInv(Init)
  {
  }

  /** In every run append rotates the buffers exactly if the line does not fit with a byte to spare; the
      spare is there exactly if none has been rotated since the swap, and newBuffer2 was used exactly for
      a batch of two buffers or more. */
  lemma RotatesExactly(states: seq<State>, steps: seq<Step>, i: nat)
    requires IsRun(states, steps) && i < |states|
    ensures states[i].spare.None? <==> states[i].buffers != []
    ensures states[i].pc.Writing? ==> (states[i].new2.None? <==> |states[i].pc.batch| >= 2)
    ensures i < |steps| && steps[i].Append? ==>
              var s, t, line := states[i], states[i + 1], steps[i].line;
              if |s.current| + |line| < 4194304 then t.buffers == s.buffers && t.current == s.current + line
              else && t.buffers == s.buffers + [s.current]
                   && t.current == if |line| < 4194304 then line else []
  {
    RotationAlways(states, steps, i);
    RefillAlways(states, steps, i);
  }

  // ----- Stopping -----

  ghost predicate Stopped(steps: seq<Step>) { Stop in steps }

  lemma RunningStep(s: State, a: Step)
    requires Enabled(s, a)
    ensures Next(s, a).running <==> s.running && !a.Stop?
  {
  }

  /** In every run running_ is set exactly until stop() is called. */
  lemma {:induction false} RunningUntilStop(states: seq<State>, steps: seq<Step>, i: nat)
    requires IsRun(states, steps) && i < |states|
    ensures states[i].running <==> !Stopped(steps[..i])
  {
    if i > 0 {
      RunningUntilStop(states, steps, i - 1);
      assert steps[..i] == steps[..i - 1] + [steps[i - 1]];
      RunningStep(states[i - 1], steps[i - 1]);
      hide Next, Enabled;
    }
  }

  /** And the back end leaves exactly at the first test after that; until then each test enters the body. */
  lemma ExitsExactly(states: seq<State>, steps: seq<Step>, i: nat)
    requires IsRun(states, steps) && i < |steps| && steps[i].Test?
    ensures states[i + 1].pc == if Stopped(steps[..i]) then Exited else Entered
  {
    RunningUntilStop(states, steps, i);
  }
}
