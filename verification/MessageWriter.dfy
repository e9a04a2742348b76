/**
 Writing WebSocket messages: nextWriter holds writeLk for as long as its callback runs, and lazyWriter
 asks for a writer only at the first write and keeps the callback waiting until the encoder is done.
 */
module MessageWriter {
  import opened Options
  import opened Runs
  import opened Slices

  // The goroutine inside nextWriter on behalf of one encoder.
  datatype Acquirer = Absent | Waiting | InCallback | Returned

  /** One request or response being written. `blocked` is the chunk whose Write waits for `acquired`;
      `writes` counts its calls to Write, `wrote` are the bytes its writer has taken; `discard` says NextWriter failed
      and it got io.Discard. */
  datatype Task = Task(
    lazy: bool,
    acquirer: Acquirer,
    blocked: Option<seq<int>>,
    writes: nat,
    wrote: seq<int>,
    acquisitions: nat,
    discard: bool,
    ended: bool)

  datatype Message = Message(task: nat, bytes: seq<int>)

  datatype Writers = Writers(tasks: seq<Task>, writeLk: Option<nat>, frame: seq<int>, wire: seq<Message>)

  const INIT := Writers([], None, [], [])

  datatype Event =
    | Begin(lazy: bool)
    | Write(task: nat, chunk: seq<int>)
    | Lock(task: nat, works: bool)
    | Resume(task: nat)
    | End(task: nat)
    | Unlock(task: nat, works: bool)

  predicate Enabled(s: Writers, e: Event) {
    match e
    case Begin(_) => true
    case Write(i, _) =>
      i < |s.tasks| && !s.tasks[i].ended && s.tasks[i].blocked.None? &&
      (s.tasks[i].acquirer.InCallback? || (s.tasks[i].lazy && s.tasks[i].acquirer.Absent?))
    case Lock(i, _) => i < |s.tasks| && s.tasks[i].acquirer.Waiting? && s.writeLk.None?
    case Resume(i) => i < |s.tasks| && s.tasks[i].blocked.Some? && s.tasks[i].acquirer.InCallback?
    case End(i) =>
      i < |s.tasks| && !s.tasks[i].ended && s.tasks[i].blocked.None? &&
          (s.tasks[i].lazy || s.tasks[i].acquirer.InCallback?)
    case Unlock(i, _) => i < |s.tasks| && s.tasks[i].acquirer.InCallback? && s.tasks[i].ended
  }

  // The writer of task i takes a chunk; io.Discard forgets it.
  function Take(s: Writers, i: nat, chunk: seq<int>): Writers
    requires i < |s.tasks|
  {
    var t := s.tasks[i];
    s.(tasks := s.tasks[i := t.(wrote := t.wrote + chunk, blocked := None)],
       frame := if t.discard then s.frame else s.frame + chunk)
  }

  function Count(s: Writers, i: nat): Writers
    requires i < |s.tasks|
  {
    s.(tasks := s.tasks[i := s.tasks[i].(writes := s.tasks[i].writes + 1)])
  }

  function Next(s: Writers, e: Event): Writers
    requires Enabled(s, e)
  {
    match e
    case Begin(lazy) =>
      s.(tasks := s.tasks + [Task(lazy, if lazy then Absent else Waiting, None, 0, [], 0, false, false)])
    case Write(i, chunk) =>
      if s.tasks[i].acquirer.Absent? then
        var t := s.tasks[i];
        s.(tasks := s.tasks[i := t.(acquirer := Waiting, blocked := Some(chunk), writes := t.writes + 1)])
      else Take(Count(s, i), i, chunk)
    case Lock(i, works) =>
      var t := s.tasks[i];
      s.(tasks := s.tasks[i := t.(acquirer := InCallback, acquisitions := t.acquisitions + 1, discard := !works)],
         writeLk := Some(i), frame := [])
    case Resume(i) => Take(s, i, s.tasks[i].blocked.value)
    case End(i) => s.(tasks := s.tasks[i := s.tasks[i].(ended := true)])
    case Unlock(i, works) =>
      s.(tasks := s.tasks[i := s.tasks[i].(acquirer := Returned)],
         writeLk := None,
         wire := if s.tasks[i].discard || !works then s.wire else s.wire + [Message(i, s.frame)])
  }

  function Step(s: Writers, e: Event): Option<Writers> {
    if Enabled(s, e) then Some(Next(s, e)) else None
  }

  ghost predicate TaskOk(s: Writers, i: nat, t: Task) {
    && t.acquisitions == (if t.acquirer.InCallback? || t.acquirer.Returned? then 1 else 0)
    && (t.acquirer.InCallback? <==> s.writeLk == Some(i))
    && (t.acquirer.InCallback? && !t.discard ==> s.frame == t.wrote)
    && (t.acquirer.Absent? ==> t.lazy && t.wrote == [] && t.blocked.None?)
    && (t.lazy ==> (t.acquirer.Absent? <==> t.writes == 0))
    && (t.acquirer.Waiting? ==> t.wrote == [] && !t.ended && (t.lazy ==> t.blocked.Some?))
    && (t.blocked.Some? ==> t.acquirer.Waiting? || t.acquirer.InCallback?)
    && (t.ended ==> t.blocked.None?)
    && (t.acquirer.Returned? ==> t.ended)
  }

  ghost predicate MessageOk(s: Writers, m: Message) {
    m.task < |s.tasks| && s.tasks[m.task].acquirer.Returned? && m.bytes == s.tasks[m.task].wrote
  }

  ghost predicate Inv(s: Writers) {
    && (forall i | 0 <= i < |s.tasks| :: TaskOk(s, i, s.tasks[i]))
    && (s.writeLk.Some? ==> s.writeLk.value < |s.tasks|)
    && (forall k | 0 <= k < |s.wire| :: MessageOk(s, s.wire[k]))
    && (forall k, l | 0 <= k < l < |s.wire| :: s.wire[k].task != s.wire[l].task)
  }

  lemma StepKeepsTasks(s: Writers, e: Event)
    requires Inv(s) && Enabled(s, e)
    ensures forall i | 0 <= i < |Next(s, e).tasks| :: TaskOk(Next(s, e), i, Next(s, e).tasks[i])
    ensures Next(s, e).writeLk.Some? ==> Next(s, e).writeLk.value < |Next(s, e).tasks|
  {
    var t := Next(s, e);
    forall i | 0 <= i < |t.tasks| ensures TaskOk(t, i, t.tasks[i]) {
      assert i < |s.tasks| ==> TaskOk(s, i, s.tasks[i]);
    }
  }

  lemma StepKeepsMessages(s: Writers, e: Event)
    requires Inv(s) && Enabled(s, e)
    ensures forall k | 0 <= k < |Next(s, e).wire| :: MessageOk(Next(s, e), Next(s, e).wire[k])
    ensures forall k, l | 0 <= k < l < |Next(s, e).wire| :: Next(s, e).wire[k].task != Next(s, e).wire[l].task
  {
    var t := Next(s, e);
    forall k | 0 <= k < |s.wire| ensures MessageOk(t, s.wire[k]) {
      assert MessageOk(s, s.wire[k]);
    }
  }

  lemma StepKeeps(s: Writers, e: Event)
    requires Inv(s) && Enabled(s, e)
    ensures Inv(Next(s, e))
  {
    StepKeepsTasks(s, e);
    StepKeepsMessages(s, e);
  }

  lemma RunKeeps(run: seq<Event>, s: Writers)
    requires After(INIT, Step, run) == Some(s)
    ensures Inv(s)
  {
    forall u, e | Inv(u) && Step(u, e).Some? ensures Inv(Step(u, e).value) {
      StepKeeps(u, e);
    }
    Invariant(INIT, Step, u => Inv(u), run);
  }

  // Every message on the wire holds all the bytes of exactly one request or response, which has at most that message.
  lemma MessagesAreAtomic(run: seq<Event>, s: Writers, k: nat)
    requires After(INIT, Step, run) == Some(s) && k < |s.wire|
    ensures s.wire[k].task < |s.tasks| && s.tasks[s.wire[k].task].ended
    ensures s.wire[k].bytes == s.tasks[s.wire[k].task].wrote
    ensures forall l | 0 <= l < |s.wire| && l != k :: s.wire[l].task != s.wire[k].task
  {
    RunKeeps(run, s);
    assert MessageOk(s, s.wire[k]);
  }

  // A lazy writer is acquired at most once: not before a Write, and nothing is written before it is acquired. The
  // first Write waits for it.
  lemma AcquiredOnFirstWrite(run: seq<Event>, s: Writers, i: nat)
    requires After(INIT, Step, run) == Some(s) && i < |s.tasks|
    ensures s.tasks[i].acquisitions <= 1
    ensures s.tasks[i].wrote != [] ==> s.tasks[i].acquisitions == 1
    ensures s.tasks[i].lazy && s.tasks[i].acquisitions == 1 ==> s.tasks[i].writes > 0
    ensures s.tasks[i].lazy && s.tasks[i].writes > 0 && s.tasks[i].acquisitions == 0 ==>
              s.tasks[i].acquirer.Waiting? && s.tasks[i].blocked.Some?
  {
    RunKeeps(run, s);
    assert TaskOk(s, i, s.tasks[i]);
  }

  // A writer that waits can go on, or its acquirer can, or the holder of writeLk can, unless that
  // holder's own encoder is still running. It never waits for a callback that is not made.
  lemma WaitingWriterIsServed(run: seq<Event>, s: Writers, i: nat)
    requires After(INIT, Step, run) == Some(s) && i < |s.tasks| && s.tasks[i].blocked.Some?
    ensures || Enabled(s, Resume(i))
            || Enabled(s, Lock(i, false))
            || (s.writeLk.Some? && s.writeLk.value != i && s.writeLk.value < |s.tasks| &&
                (|| Enabled(s, Unlock(s.writeLk.value, false))
                 || Enabled(s, Resume(s.writeLk.value))
                 || (!s.tasks[s.writeLk.value].ended && s.tasks[s.writeLk.value].blocked.None?)))
  {
    RunKeeps(run, s);
    assert TaskOk(s, i, s.tasks[i]);
    if s.writeLk.Some? {
      assert TaskOk(s, s.writeLk.value, s.tasks[s.writeLk.value]);
    }
  }

  // The end of the callback: the message goes out with what was written, if NextWriter and Close worked, and
  // writeLk is free.
  lemma UnlockEffect(s: Writers, i: nat, works: bool)
    requires Enabled(s, Unlock(i, works))
    ensures var t := Next(s, Unlock(i, works));
            && t.writeLk == None && t.frame == s.frame
            && t.wire == s.wire + (if !s.tasks[i].discard && works then [Message(i, s.frame)] else [])
            && t.tasks == s.tasks[i := s.tasks[i].(acquirer := Returned)]
  {
  }

  // A chunk is appended to what its task has written, and to the frame unless the writer discards.
  lemma TakeEffect(s: Writers, i: nat, chunk: seq<int>)
    requires i < |s.tasks|
    ensures var t := Take(s, i, chunk);
            && t.tasks == s.tasks[i := t.tasks[i]] && t.tasks[i].wrote == s.tasks[i].wrote + chunk
            && t.tasks[i].blocked == None && t.wire == s.wire && t.writeLk == s.writeLk
            && t.frame == if s.tasks[i].discard then s.frame else s.frame + chunk
  {
  }

  // ---------- lazyWriter and nextWriter in one go ----------

  // The whole life of a response that is encoded in these chunks while nobody else holds writeLk: no chunk, no message.
  function Encoded(s: Writers, chunks: seq<seq<int>>, works: bool, closes: bool): Writers {
    var i := |s.tasks|;
    if chunks == [] then s.(tasks := s.tasks + [Task(true, Absent, None, 0, [], 0, false, true)])
    else
      s.(tasks := s.tasks + [Task(true, Returned, None, |chunks|, Concat(chunks), 1, !works, true)],
         frame := if works then Concat(chunks) else [],
         wire := if works && closes then s.wire + [Message(i, Concat(chunks))] else s.wire)
  }

  // The state after an encoder has written these chunks.
  function Midway(s: Writers, chunks: seq<seq<int>>, works: bool): Writers {
    if chunks == [] then s.(tasks := s.tasks + [Task(true, Absent, None, 0, [], 0, false, false)])
    else
      s.(tasks := s.tasks + [Task(true, InCallback, None, |chunks|, Concat(chunks), 1, !works, false)],
         writeLk := Some(|s.tasks|), frame := if works then Concat(chunks) else [])
  }

  // One more chunk: the first acquires the writer.
  lemma MidwayNext(s: Writers, chunks: seq<seq<int>>, n: nat, works: bool)
    requires n < |chunks|
    ensures var i, t := |s.tasks|, Midway(s, chunks[..n], works);
            Midway(s, chunks[..n + 1], works) ==
              if n > 0 then Take(Count(t, i), i, chunks[n])
              else t.(writeLk := Some(i), frame := if works then chunks[n] else [],
                      tasks := t.tasks[i := Task(true, InCallback, None, 1, chunks[n], 1, !works, false)])
  {
    assert chunks[..n + 1][..n] == chunks[..n];
    assert n == 0 ==> Concat(chunks[..1]) == chunks[0];
  }

  class Connection {
    var tasks: seq<Task>
    var writeLk: Option<nat>
    var frame: seq<int>
    var wire: seq<Message>

    function View(): Writers
      reads this
    {
      Writers(tasks, writeLk, frame, wire)
    }

    // lazyWriter.Write: the first one starts the goroutine that acquires the writer, and waits for it.
    method Write(i: nat, chunk: seq<int>, works: bool) returns (ghost run: seq<Event>)
      requires i < |tasks| && tasks[i].lazy && !tasks[i].ended && tasks[i].blocked.None?
      requires tasks[i].acquirer.InCallback? || (tasks[i].acquirer.Absent? && writeLk.None?)
      modifies this
      ensures After(old(View()), Step, run) == Some(View())
      ensures old(tasks[i]).acquirer.InCallback? ==> View() == Take(Count(old(View()), i), i, chunk)
      ensures old(tasks[i]).acquirer.Absent? ==>
                var t := old(tasks[i]);
                View() == old(View()).(writeLk := Some(i), frame := if works then chunk else [],
                            tasks := old(tasks)[i := t.(acquirer := InCallback, acquisitions := t.acquisitions + 1,
                                                        discard := !works,
                                                        writes := t.writes + 1, wrote := t.wrote + chunk)])
    {
      ghost var start := View();
      if tasks[i].acquirer.Absent? {
        run := Acquire(i, chunk, works);
        ghost var s := View();
        WriteChunk(i, chunk);
        run := Advance(start, Step, run, s, Resume(i), View());
      } else {
        tasks := tasks[i := tasks[i].(writes := tasks[i].writes + 1)];
        WriteChunk(i, chunk);
        run := Advance(start, Step, [], start, Event.Write(i, chunk), View());
      }
    }

    // The writer asks for the lock, and the goroutine gets it.
    method Acquire(i: nat, chunk: seq<int>, works: bool) returns (ghost run: seq<Event>)
      requires i < |tasks| && tasks[i].lazy && !tasks[i].ended && tasks[i].blocked.None? && tasks[i].acquirer.Absent?
      requires writeLk.None?
      modifies this
      ensures After(old(View()), Step, run) == Some(View())
      ensures var t := old(tasks[i]);
              View() == old(View()).(writeLk := Some(i), frame := [],
                          tasks := old(tasks)[i := t.(acquirer := InCallback, blocked := Some(chunk),
                                                      writes := t.writes + 1,
                                                      acquisitions := t.acquisitions + 1, discard := !works)])
    {
      ghost var start, s := View(), View();
      tasks := tasks[i := tasks[i].(acquirer := Waiting, blocked := Some(chunk), writes := tasks[i].writes + 1)];
      run := Advance(start, Step, [], s, Event.Write(i, chunk), View());
      s := View();
      writeLk, frame := Some(i), [];
      tasks := tasks[i := tasks[i].(acquirer := InCallback, acquisitions := tasks[i].acquisitions + 1,
          discard := !works)];
      run := Advance(start, Step, run, s, Lock(i, works), View());
    }

    method WriteChunk(i: nat, chunk: seq<int>)
      requires i < |tasks|
      modifies this`tasks, this`frame
      ensures View() == Take(old(View()), i, chunk)
    {
      if !tasks[i].discard {
        frame := frame + chunk;
      }
      tasks := tasks[i := tasks[i].(wrote := tasks[i].wrote + chunk, blocked := None)];
    }

    // withLazyWriter around an encoder that writes these chunks: one message with all of them and nothing else, or
    // none.
    method WithLazyWriter(chunks: seq<seq<int>>, works: bool, closes: bool) returns (ghost run: seq<Event>)
      requires writeLk.None?
      modifies this
      ensures After(old(View()), Step, run) == Some(View())
      ensures View() == Encoded(old(View()), chunks, works, closes)
      ensures writeLk == None && |tasks| == |old(tasks)| + 1
      ensures tasks[|old(tasks)|].wrote == Concat(chunks) && tasks[|old(tasks)|].writes == |chunks|
      ensures wire == old(wire) +
                (if chunks != [] && works && closes then [Message(|old(tasks)|, Concat(chunks))] else [])
    {
      ghost var start, s := View(), View();
      var i: nat := |tasks|;
      tasks := tasks + [Task(true, Absent, None, 0, [], 0, false, false)];
      run := Advance(start, Step, [], s, Begin(true), View());
      for n := 0 to |chunks|
        invariant After(start, Step, run) == Some(View())
        invariant View() == Midway(start, chunks[..n], works)
      {
        s := View();
        ghost var more := Write(i, chunks[n], works);
        run := Join(start, Step, run, s, more, View());
        MidwayNext(start, chunks, n, works);
      }
      assert chunks[..|chunks|] == chunks;
      s := View();
      ghost var rest := EndCallback(i, closes);
      run := Join(start, Step, run, s, rest, View());
    }

    // The encoder is done: the callback, if there is one, ends.
    method EndCallback(i: nat, closes: bool) returns (ghost run: seq<Event>)
      requires Enabled(View(), End(i))
      modifies this
      ensures After(old(View()), Step, run) == Some(View())
      ensures var s := Next(old(View()), End(i));
              View() == if s.tasks[i].acquirer.InCallback? then Next(s, Event.Unlock(i, closes)) else s
    {
      ghost var start := View();
      tasks := tasks[i := tasks[i].(ended := true)];
      run := Advance(start, Step, [], start, End(i), View());
      if tasks[i].acquirer.InCallback? {
        ghost var s := View();
        Unlock(i, closes);
        run := Advance(start, Step, run, s, Event.Unlock(i, closes), View());
      }
    }

    // The end of nextWriter's callback: the message goes out if the writer closes, then writeLk is free.
    method Unlock(i: nat, closes: bool)
      requires Enabled(View(), Event.Unlock(i, closes))
      modifies this
      ensures View() == Next(old(View()), Event.Unlock(i, closes))
    {
      if !tasks[i].discard && closes {
        wire := wire + [Message(i, frame)];
      }
      tasks := tasks[i := tasks[i].(acquirer := Returned)];
      writeLk := None;
    }
  }
}
