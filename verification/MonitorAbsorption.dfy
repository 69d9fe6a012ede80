/** Exactly-once absorption of the log, over every run of the monitor
    (native/discord-monitor.py:492-526, 666-702, 728-761). */
module MonitorAbsorption {
  import opened Options
  import opened OrderedDict
  import opened Records
  import opened DeliveryQueue
  import opened MonitorProtocol
  import SC = SessionClusters
  import W = EnrichmentWorker

  predicate Within(files: seq<Bytes>, p: Position) {
    p.file < |files| && p.offset <= |files[p.file]| && AtBoundary(files[p.file][..p.offset])
  }

  /** The lines of the files left behind, up to where each was left, file after file. */
  function LinesOf(files: seq<Bytes>, visited: seq<Position>): seq<Bytes> {
    if visited == [] then [] else
      var v := visited[|visited| - 1];
      LinesOf(files, visited[..|visited| - 1]) + (if Within(files, v) then Split(files[v.file][..v.offset]) else [])
  }

  predicate Rising(visited: seq<Position>, bound: nat) {
    && (forall i :: 0 <= i < |visited| ==> visited[i].file < bound)
    && (forall i, j :: 0 <= i < j < |visited| ==> visited[i].file < visited[j].file)
  }

  predicate AllWithin(files: seq<Bytes>, visited: seq<Position>) {
    forall i :: 0 <= i < |visited| ==> Within(files, visited[i])
  }

  /** What was handed to queue_line is exactly, and in order, the complete lines of every file left
      behind, before the offset at which it was left, and those of the tailed file before the present
      offset; all these offsets are record boundaries. */
  predicate FedRight(m: Durable, files: seq<Bytes>) {
    match m.source
    case None => m.fed == [] && m.visited == []
    case Some(p) =>
      && Within(files, p)
      && Rising(m.visited, p.file) && AllWithin(files, m.visited)
      && m.fed == LinesOf(files, m.visited) + Split(files[p.file][..p.offset])
  }

  predicate SameReading(m: Durable, m': Durable) {
    m.source == m'.source && m.fed == m'.fed && m.visited == m'.visited
  }

  lemma QueueLineReads(m: Durable, manager: SC.Clusters, line: Bytes, now: real, cfg: Config)
    ensures SameReading(QueueLine(m, manager, line, now, cfg).0, m)
  {
    hide Record, Enqueue, SC.Observed;
  }

  lemma {:induction false} RecoverReads(m: Durable, entries: seq<Task>, cfg: Config)
    ensures SameReading(RecoverAll(m, entries, cfg), m)
  {
    if entries != [] {
      hide Enqueue;
      RecoverReads(m, entries[..|entries| - 1], cfg);
    }
  }

  /** Steps of no concern to reading: the state dict keeps what it has, or is loaded from disk. */
  predicate Unconcerned(a: Action) {
    !a.Write? && !a.Rotate? && !a.Begin? && !a.Absorb? && !a.Switch? && !a.Skip?
  }

  predicate Reloads(t: State, s: State) {
    && t.files == s.files
    && (SameReading(t.mem, s.mem) || SameReading(t.mem, s.disk))
    && (SameReading(t.disk, s.disk) || SameReading(t.disk, s.mem))
  }

  lemma ReadyStepReads(s: State, a: Action, cfg: Config)
    requires Unconcerned(a)
    ensures Reloads(ReadyStep(s, a, cfg), s)
  {
    hide Enqueue, Settle, SettleAll, DelAll, ToFlush, KeptActive, AllSettled, HeadId, Unread, Current;
  }

  lemma BusyStepReads(s: State, cfg: Config)
    ensures s.phase.Flushing? && s.phase.rest != [] ==> Reloads(FlushNext(s, cfg), s)
    ensures s.phase.Collecting? && s.phase.taken != [] ==> Reloads(HandleNext(s, cfg), s)
  {
    hide Enqueue, Put, Del, Accepts, W.Submitted, W.HasRoom, FlushIdOf;
  }

  lemma EndPostReads(s: State, r: Reply)
    requires s.phase.Posting? && s.mem.queues.pending.Of(s.phase.channel) != []
    ensures Reloads(EndPost(s, r), s)
  {
    hide Settle, HeadId;
  }

  lemma RestartReads(s: State, taken: bool, order: seq<Task>, cfg: Config)
    ensures Reloads(Restarted(s, taken, order, cfg), s)
  {
    hide Restart, HeadId, RecoverAll;
    var loaded := s.disk.(queues := Restart(s.disk.queues));
    RecoverReads(loaded, if multiset(order) == multiset(s.disk.awaiting) then order else s.disk.awaiting, cfg);
  }

  lemma OtherStepsRead(s: State, a: Action, cfg: Config)
    requires Unconcerned(a)
    ensures Reloads(Step(s, a, cfg), s)
  {
    hide ReadyStep, FlushNext, HandleNext, EndPost, Restarted, W.Finished, W.Delivered;
    ReadyStepReads(s, a, cfg);
    BusyStepReads(s, cfg);
    if a.FinishPost? && s.phase.Posting? && s.mem.queues.pending.Of(s.phase.channel) != [] {
      EndPostReads(s, a.reply);
    }
    if a.Crash? {
      RestartReads(s, a.taken, a.order, cfg);
    }
  }

  /** Appending to the current file touches neither earlier files nor the bytes already read. */
  lemma {:induction false} LinesKept(files: seq<Bytes>, files': seq<Bytes>, visited: seq<Position>, bound: nat)
    requires Rising(visited, bound) && bound <= |files| && bound <= |files'|
    requires files[..bound] == files'[..bound]
    ensures LinesOf(files, visited) == LinesOf(files', visited)
    ensures AllWithin(files, visited) == AllWithin(files', visited)
  {
    forall i | 0 <= i < |visited|
      ensures files[visited[i].file] == files'[visited[i].file]
    {
      assert files[..bound][visited[i].file] == files'[..bound][visited[i].file];
    }
    if visited != [] {
      LinesKept(files, files', visited[..|visited| - 1], bound);
    }
  }

  predicate Extends(files: seq<Bytes>, files': seq<Bytes>) {
    && 0 < |files| <= |files'|
    && files[..|files| - 1] == files'[..|files| - 1]
    && files[|files| - 1] <= files'[|files| - 1]
  }

  lemma GrowingKeeps(m: Durable, files: seq<Bytes>, files': seq<Bytes>)
    requires FedRight(m, files) && Extends(files, files')
    ensures FedRight(m, files')
  {
    hide Split, AtBoundary, Rising;
    if m.source.Some? {
      var p := m.source.value;
      assert files'[p.file][..p.offset] == files[p.file][..p.offset] by {
        if p.file < |files| - 1 {
          assert files[..|files| - 1][p.file] == files'[..|files| - 1][p.file];
        }
      }
      assert files[..p.file] == files'[..p.file] by {
        assert files[..|files| - 1][..p.file] == files'[..|files| - 1][..p.file];
      }
      LinesKept(files, files', m.visited, p.file);
    }
  }

  lemma LineSplits(content: Bytes, offset: nat)
    requires offset <= |content| && HasLF(content[offset..]) && AtBoundary(content[..offset])
    ensures var line := content[offset..][..FirstLF(content[offset..]) + 1];
      && offset + |line| <= |content| && content[..offset + |line|] == content[..offset] + line
      && AtBoundary(content[..offset + |line|])
      && Split(content[..offset + |line|]) == Split(content[..offset]) + [line]
  {
    hide Split;
    var rest := content[offset..];
    var line := rest[..FirstLF(rest) + 1];
    assert rest[..FirstLF(rest) + 1][..FirstLF(rest)] == rest[..FirstLF(rest)];
    assert content[..offset + |line|] == content[..offset] + line;
    SplitAppend(content[..offset], line);
    assert line[|line| - 1] == LF;
    SplitOneLine(line);
  }

  lemma SplitOneLine(line: Bytes)
    requires line != [] && line[|line| - 1] == LF && !HasLF(line[..|line| - 1])
    ensures Split(line) == [line]
  {
    assert IsRecord(line);
    FirstLFOf(line, []);
    assert line + [] == line && line[..|line|] == line && line[|line|..] == [];
  }

  lemma AbsorbFeeds(s: State, now: real, cfg: Config)
    requires FedRight(s.mem, s.files) && HasLF(Unread(s))
    ensures FedRight(AbsorbNext(s, now, cfg).mem, s.files)
  {
    hide QueueLine, Split, Rising, LinesOf, AtBoundary;
    var p := s.mem.source.value;
    LineSplits(s.files[p.file], p.offset);
    QueueLineReads(s.mem, s.manager, NextLine(s), now, cfg);
    var m := AbsorbNext(s, now, cfg).mem;
    var line := NextLine(s);
    assert m.fed == s.mem.fed + [line];
    assert LinesOf(s.files, m.visited) + (Split(s.files[p.file][..p.offset]) + [line])
      == LinesOf(s.files, m.visited) + Split(s.files[p.file][..p.offset]) + [line];
  }

  /** Leaving the tailed file for the current one. */
  function Left(m: Durable, current: nat): Durable
    requires m.source.Some?
  {
    m.(source := Some(Position(current, 0)), visited := m.visited + [m.source.value])
  }

  lemma LeftFeeds(m: Durable, files: seq<Bytes>, current: nat)
    requires FedRight(m, files) && m.source.Some? && m.source.value.file < current < |files|
    ensures FedRight(Left(m, current), files)
  {
    hide Split, AtBoundary;
    var visited := m.visited + [m.source.value];
    assert visited[..|visited| - 1] == m.visited;
    StartOfFile(files, current);
    assert m.fed + [] == m.fed;
  }

  lemma StartOfFile(files: seq<Bytes>, f: nat)
    requires f < |files|
    ensures Within(files, Position(f, 0)) && Split(files[f][..0]) == []
  {
    assert files[f][..0] == [];
    EmptySplit();
  }

  lemma LeavingFeeds(s: State, a: Action, cfg: Config)
    requires FedRight(s.mem, s.files) && (a.Switch? || a.Skip?)
    ensures FedRight(ReadyStep(s, a, cfg).mem, s.files)
  {
    hide FedRight, HasLF, Unread;
    if s.mem.source.Some? && s.mem.source.value.file < Current(s) {
      LeftFeeds(s.mem, s.files, Current(s));
    }
  }

  lemma EmptySplit()
    ensures Split([]) == []
  {
  }

  lemma BeginFeeds(s: State, cfg: Config)
    requires FedRight(s.mem, s.files)
    ensures FedRight(ReadyStep(s, Begin, cfg).mem, s.files)
  {
    if s.mem.source.None? && s.files != [] {
      assert s.files[Current(s)][..0] == [];
      EmptySplit();
    }
  }

  predicate ReadsRight(s: State) {
    s.files != [] && FedRight(s.mem, s.files) && FedRight(s.disk, s.files)
  }

  lemma WriterKeeps(s: State, a: Action, cfg: Config)
    requires ReadsRight(s) && (a.Write? || a.Rotate?)
    ensures ReadsRight(Step(s, a, cfg))
  {
    hide FedRight;
    var t := Step(s, a, cfg);
    GrowingKeeps(s.mem, s.files, t.files);
    GrowingKeeps(s.disk, s.files, t.files);
  }

  lemma StepReads(s: State, a: Action, cfg: Config)
    requires ReadsRight(s)
    ensures ReadsRight(Step(s, a, cfg))
  {
    hide FedRight, SameReading, AbsorbNext;
    if Unconcerned(a) {
      OtherStepsRead(s, a, cfg);
      SameReadingFed(Step(s, a, cfg), s);
    } else if a.Write? || a.Rotate? {
      WriterKeeps(s, a, cfg);
    } else if s.phase.Ready? {
      if a.Absorb? && HasLF(Unread(s)) {
        AbsorbFeeds(s, a.now, cfg);
        AbsorbFrame(s, a.now, cfg);
      }
      BeginFeeds(s, cfg);
      if a.Switch? || a.Skip? {
        LeavingFeeds(s, a, cfg);
      }
    }
  }

  lemma AbsorbFrame(s: State, now: real, cfg: Config)
    requires HasLF(Unread(s))
    ensures AbsorbNext(s, now, cfg).files == s.files && AbsorbNext(s, now, cfg).disk == s.disk
  {
    hide QueueLine;
  }

  lemma SameReadingFed(t: State, s: State)
    ensures forall m, m' :: SameReading(m, m') && FedRight(m', s.files) ==> FedRight(m, s.files)
  {
    hide Split, LinesOf, Rising, AtBoundary;
  }

  /** In every run, through appends, rotations, failed saves and crashes at any step: the live and the
      saved offset are record boundaries inside the tailed file, and exactly the complete lines before
      them were handed to queue_line, each once, in order. */
  lemma {:induction false} LinesFedOnce(actions: seq<Action>, cfg: Config)
    ensures ReadsRight(Run(actions, cfg))
  {
    hide Step, ReadsRight;
    if actions == [] {
      StartReads();
    } else {
      LinesFedOnce(actions[..|actions| - 1], cfg);
      StepReads(Run(actions[..|actions| - 1], cfg), actions[|actions| - 1], cfg);
    }
  }

  lemma StartReads()
    ensures ReadsRight(Start)
  {
  }

  /** No rotation is missed: the monitor moves on while only one newer file exists, and every file it
      leaves could be read to its end. */
  predicate EveryRotationSeen(actions: seq<Action>, cfg: Config) {
    && (forall n :: 0 <= n < |actions| ==> !actions[n].Skip?)
    && forall n :: 0 <= n < |actions| && actions[n].Switch? ==> OneBehind(Run(actions[..n], cfg))
  }

  predicate OneBehind(s: State) {
    s.mem.source.Some? ==> s.mem.source.value.file + 1 >= Current(s)
  }

  /** All files before the tailed one were visited, none skipped. */
  predicate NoGap(m: Durable) {
    match m.source
    case None => m.visited == []
    case Some(p) => (forall i :: 0 <= i < |m.visited| ==> m.visited[i].file == m.visited[0].file + i)
                    && (m.visited != [] ==> p.file == m.visited[0].file + |m.visited|)
  }

  /** Every file left behind was read to its last complete line. */
  predicate ReadOut(m: Durable, files: seq<Bytes>) {
    forall i :: 0 <= i < |m.visited| ==>
      var v := m.visited[i];
      v.file + 1 < |files| && v.offset <= |files[v.file]| && !HasLF(files[v.file][v.offset..])
  }

  predicate NoGaps(s: State) {
    NoGap(s.mem) && NoGap(s.disk) && ReadOut(s.mem, s.files) && ReadOut(s.disk, s.files)
  }

  lemma SameReadingNoGap(m: Durable, m': Durable, files: seq<Bytes>)
    requires SameReading(m, m') && NoGap(m') && ReadOut(m', files)
    ensures NoGap(m) && ReadOut(m, files)
  {
    hide HasLF;
  }

  lemma GrowingReadsOut(m: Durable, files: seq<Bytes>, files': seq<Bytes>)
    requires ReadOut(m, files) && Extends(files, files')
    ensures ReadOut(m, files')
  {
    hide HasLF;
    forall i | 0 <= i < |m.visited|
      ensures files'[m.visited[i].file] == files[m.visited[i].file]
    {
      var f := m.visited[i].file;
      assert files[..|files| - 1][f] == files'[..|files| - 1][f];
    }
  }

  lemma WriterNoGap(s: State, a: Action, cfg: Config)
    requires NoGaps(s) && s.files != [] && (a.Write? || a.Rotate?)
    ensures NoGaps(Step(s, a, cfg))
  {
    hide NoGap, ReadOut;
    var t := Step(s, a, cfg);
    GrowingReadsOut(s.mem, s.files, t.files);
    GrowingReadsOut(s.disk, s.files, t.files);
  }

  lemma ReaderNoGap(s: State, a: Action, cfg: Config)
    requires NoGaps(s) && FedRight(s.mem, s.files) && !Unconcerned(a) && !a.Write? && !a.Rotate? && !a.Skip?
    requires a.Switch? ==> OneBehind(s)
    ensures NoGaps(ReadyStep(s, a, cfg))
  {
    hide QueueLine, FedRight, NoGap, ReadOut, NextLine;
    if a.Absorb? && HasLF(Unread(s)) {
      QueueLineReads(s.mem, s.manager, NextLine(s), a.now, cfg);
      SamePlaceNoGap(s.mem, AbsorbNext(s, a.now, cfg).mem, s.files);
    } else if s.mem.source.Some? && s.mem.source.value.file < Current(s) && !HasLF(Unread(s)) && a.Switch? {
      TailedWithin(s.mem, s.files);
      LeftNoGap(s.mem, s.files, Current(s));
    } else if a.Begin? && s.mem.source.None? && s.files != [] {
      BegunNoGap(s.mem, s.files, Current(s));
    }
  }

  lemma SamePlaceNoGap(m: Durable, m': Durable, files: seq<Bytes>)
    requires NoGap(m) && ReadOut(m, files) && m'.visited == m.visited
    requires m.source.Some? && m'.source.Some? && m.source.value.file == m'.source.value.file
    ensures NoGap(m') && ReadOut(m', files)
  {
    hide HasLF;
  }

  lemma BegunNoGap(m: Durable, files: seq<Bytes>, current: nat)
    requires NoGap(m) && ReadOut(m, files) && m.source.None?
    ensures var m' := m.(source := Some(Position(current, 0))); NoGap(m') && ReadOut(m', files)
  {
  }

  lemma LeftNoGap(m: Durable, files: seq<Bytes>, current: nat)
    requires NoGap(m) && ReadOut(m, files) && m.source.Some?
    requires m.source.value.file < current < |files| && current <= m.source.value.file + 1
    requires var p := m.source.value; p.offset <= |files[p.file]| && !HasLF(files[p.file][p.offset..])
    ensures NoGap(Left(m, current)) && ReadOut(Left(m, current), files)
  {
    hide HasLF;
  }

  lemma TailedWithin(m: Durable, files: seq<Bytes>)
    requires FedRight(m, files) && m.source.Some?
    ensures Within(files, m.source.value)
  {
  }

  lemma StepNoGap(s: State, a: Action, cfg: Config)
    requires NoGaps(s) && ReadsRight(s) && (a.Switch? ==> OneBehind(s)) && !a.Skip?
    ensures NoGaps(Step(s, a, cfg))
  {
    hide NoGap, ReadOut, FedRight, SameReading, ReadyStep, OneBehind;
    if Unconcerned(a) {
      hide Step;
      OtherStepsRead(s, a, cfg);
      var t := Step(s, a, cfg);
      SameReadingNoGap(t.mem, if SameReading(t.mem, s.mem) then s.mem else s.disk, s.files);
      SameReadingNoGap(t.disk, if SameReading(t.disk, s.disk) then s.disk else s.mem, s.files);
    } else if a.Write? || a.Rotate? {
      WriterNoGap(s, a, cfg);
    } else {
      ReaderNoGap(s, a, cfg);
    }
  }

  /** At the end of a file's complete lines, the lines before the offset are all it has. */
  lemma AllLinesRead(content: Bytes, offset: nat)
    requires offset <= |content| && AtBoundary(content[..offset]) && !HasLF(content[offset..])
    ensures Split(content) == Split(content[..offset])
  {
    assert content == content[..offset] + content[offset..];
    SplitAppend(content[..offset], content[offset..]);
    assert Split(content[offset..]) == [];
  }

  /** All complete lines of the files left behind. */
  function WholeLines(files: seq<Bytes>, visited: seq<Position>): seq<Bytes> {
    if visited == [] then [] else
      var v := visited[|visited| - 1];
      WholeLines(files, visited[..|visited| - 1]) + (if v.file < |files| then Split(files[v.file]) else [])
  }

  lemma {:induction false} ReadOutIsWhole(m: Durable, files: seq<Bytes>)
    requires ReadOut(m, files) && AllWithin(files, m.visited)
    ensures LinesOf(files, m.visited) == WholeLines(files, m.visited)
    decreases |m.visited|
  {
    hide Split, HasLF, AtBoundary;
    if m.visited != [] {
      var n := |m.visited| - 1;
      ReadOutIsWhole(m.(visited := m.visited[..n]), files);
      AllLinesRead(files[m.visited[n].file], m.visited[n].offset);
    }
  }

  /** When no rotation is missed, the files the absorbed lines come from follow one another, from
      the first one tailed to the current one, and all complete lines of each but the current one were
      absorbed: none is skipped or repeated. */
  lemma {:induction false} NoFileSkipped(actions: seq<Action>, cfg: Config)
    requires EveryRotationSeen(actions, cfg)
    ensures var s := Run(actions, cfg);
      && NoGaps(s)
      && LinesOf(s.files, s.mem.visited) == WholeLines(s.files, s.mem.visited)
      && LinesOf(s.files, s.disk.visited) == WholeLines(s.files, s.disk.visited)
  {
    hide Step, NoGaps, OneBehind, LinesOf, WholeLines;
    if actions == [] {
      assert NoGaps(Start) by { StartNoGap(); }
    } else {
      var n := |actions| - 1;
      forall i | 0 <= i < n && actions[..n][i].Switch?
        ensures OneBehind(Run(actions[..n][..i], cfg))
      {
        assert actions[..n][..i] == actions[..i];
      }
      NoFileSkipped(actions[..n], cfg);
      LinesFedOnce(actions[..n], cfg);
      StepNoGap(Run(actions[..n], cfg), actions[n], cfg);
    }
    LinesFedOnce(actions, cfg);
    GapsAreRead(Run(actions, cfg));
  }

  lemma GapsAreRead(s: State)
    requires NoGaps(s) && ReadsRight(s)
    ensures LinesOf(s.files, s.mem.visited) == WholeLines(s.files, s.mem.visited)
    ensures LinesOf(s.files, s.disk.visited) == WholeLines(s.files, s.disk.visited)
  {
    hide Split, LinesOf, WholeLines, Rising, Within;
    ReadOutIsWhole(s.mem, s.files);
    ReadOutIsWhole(s.disk, s.files);
  }

  lemma StartNoGap()
    ensures NoGaps(Start)
  {
  }
}
