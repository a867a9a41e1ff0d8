/**
  The framed progress protocol between a scenario child process and its runner
  (`_FileProgress`, `_read_process_frames`, `_fold_process_frames`): the child
  appends one line per acknowledgement, the runner reads back whatever a kill
  left and folds it into the acknowledged prefix of the World.
  */
module Progress {
  import opened Options
  import opened World
  import opened WorldSafety
  import opened WorldGuards
  import opened Replay

  type Byte = b: int | 0 <= b < 256
  const LF: Byte := 10
  const CR: Byte := 13

  datatype ProcessAttempt = ConstructWorld | CloseWorld(generation: nat) | OnWorld(attempt: Attempt)

  datatype Frame =
    | StartedFrame(sequence: nat, scenario: string)
    | WorldFrame(sequence: nat, metadata: string)
    | AttemptFrame(sequence: nat, attempt: ProcessAttempt)
    | BoundaryFrame(sequence: nat, operations: seq<Operation>, journal: seq<Entry>, instant: nat,
                    generation: Option<nat>, disposition: Option<Disposition>)
    | CompleteFrame(sequence: nat, scenario: string, artifact: Artifact)
    | FailedFrame(sequence: nat, code: string)

  /** The canonical JSON line codec: strict decoding inverts encoding, and a line holds no line break. */
  datatype Codec = Codec(encode: Frame -> seq<Byte>, decode: seq<Byte> -> Option<Frame>)

  ghost predicate Faithful(codec: Codec) {
    forall f :: && codec.decode(codec.encode(f)) == Some(f)
                && LF !in codec.encode(f) && CR !in codec.encode(f)
  }

  function Line(codec: Codec, f: Frame): seq<Byte> { codec.encode(f) + [LF] }

  /** Everything the writer appended. */
  function File(codec: Codec, frames: seq<Frame>): seq<Byte> {
    if frames == [] then [] else Line(codec, frames[0]) + File(codec, frames[1..])
  }

  // ---- Reading back -------------------------------------------------------

  function BreakAt(payload: seq<Byte>): (k: nat)
    ensures k <= |payload|
    ensures forall i :: 0 <= i < k ==> payload[i] != LF && payload[i] != CR
    ensures k < |payload| ==> payload[k] == LF || payload[k] == CR
  {
    if payload == [] || payload[0] == LF || payload[0] == CR then 0 else 1 + BreakAt(payload[1..])
  }

  /** `bytes.splitlines`: lines end at LF, CR or CR LF. */
  function SplitLines(payload: seq<Byte>): seq<seq<Byte>>
    decreases |payload|
  {
    if payload == [] then []
    else
      var k := BreakAt(payload);
      if k == |payload| then [payload]
      else
        var skip := if payload[k] == CR && k + 1 < |payload| && payload[k + 1] == LF then 2 else 1;
        [payload[..k]] + SplitLines(payload[k + skip..])
  }

  /** `payload.rpartition(LF)`: keep everything up to the last line feed, and the feed itself. */
  function Whole(payload: seq<Byte>): seq<Byte> {
    if payload == [] then []
    else if payload[|payload| - 1] == LF then payload
    else Whole(payload[..|payload| - 1])
  }

  function DecodeAll(codec: Codec, lines: seq<seq<Byte>>): (seq<Frame>, Option<string>) {
    if lines == [] then ([], None)
    else match codec.decode(lines[0])
      case None => ([], Some("malformed-frame"))
      case Some(frame) =>
        var (frames, code) := DecodeAll(codec, lines[1..]);
        ([frame] + frames, code)
  }

  function Read(codec: Codec, payload: seq<Byte>, limit: nat, allowPartial: bool): (seq<Frame>, Option<string>) {
    if |payload| > limit then ([], Some("progress-overflow"))
    else if payload != [] && payload[|payload| - 1] != LF && !allowPartial then ([], Some("partial-frame"))
    else DecodeAll(codec, SplitLines(Whole(payload)))
  }

  /** How many whole lines the first `n` bytes hold. */
  function WholeLines(codec: Codec, frames: seq<Frame>, n: nat): (k: nat)
    ensures k <= |frames|
  {
    if frames == [] || n < |Line(codec, frames[0])| then 0
    else 1 + WholeLines(codec, frames[1..], n - |Line(codec, frames[0])|)
  }

  lemma {:induction false} SplitFirst(line: seq<Byte>, rest: seq<Byte>)
    requires LF !in line && CR !in line
    ensures SplitLines(line + [LF] + rest) == [line] + SplitLines(rest)
  {
    var payload := line + [LF] + rest;
    var k := BreakAt(payload);
    assert payload[|line|] == LF;
    assert forall i :: 0 <= i < |line| ==> payload[i] == line[i] && payload[i] in line;
    assert payload[..k] == line && payload[k + 1..] == rest;
  }

  lemma {:induction false} SplitFile(codec: Codec, frames: seq<Frame>)
    requires Faithful(codec)
    ensures DecodeAll(codec, SplitLines(File(codec, frames))) == (frames, None)
  {
    if frames == [] {
    } else {
      var rest := File(codec, frames[1..]);
      SplitFirst(codec.encode(frames[0]), rest);
      assert Line(codec, frames[0]) + rest == codec.encode(frames[0]) + [LF] + rest;
      SplitFile(codec, frames[1..]);
      assert ([codec.encode(frames[0])] + SplitLines(rest))[1..] == SplitLines(rest);
      assert [frames[0]] + frames[1..] == frames;
    }
  }

  lemma {:induction false} WholeKeeps(head: seq<Byte>, partial: seq<Byte>)
    requires LF !in partial
    requires head == [] || head[|head| - 1] == LF
    ensures Whole(head + partial) == head
    decreases |partial|
  {
    var payload := head + partial;
    if partial == [] {
      assert payload == head;
    } else {
      var shorter := partial[..|partial| - 1];
      assert payload[..|payload| - 1] == head + shorter;
      assert payload[|payload| - 1] == partial[|partial| - 1];
      WholeKeeps(head, shorter);
    }
  }

  /** A cut file is some whole lines followed by a piece that holds no line feed. */
  lemma {:induction false} CutFile(codec: Codec, frames: seq<Frame>, n: nat) returns (partial: seq<Byte>)
    requires Faithful(codec) && n <= |File(codec, frames)|
    ensures var k := WholeLines(codec, frames, n);
            && File(codec, frames)[..n] == File(codec, frames[..k]) + partial
            && LF !in partial
            && (k == |frames| ==> partial == [])
  {
    if frames == [] {
      partial := [];
    } else {
      var line, rest := Line(codec, frames[0]), File(codec, frames[1..]);
      var k := WholeLines(codec, frames, n);
      assert File(codec, frames) == line + rest;
      if n < |line| {
        partial := line[..n];
        assert (line + rest)[..n] == partial;
        assert partial == codec.encode(frames[0])[..n];
        assert frames[..0] == [];
      } else {
        partial := CutFile(codec, frames[1..], n - |line|);
        var head := File(codec, frames[1..][..k - 1]);
        assert frames[..k][1..] == frames[1..][..k - 1] && frames[..k][0] == frames[0];
        assert File(codec, frames[..k]) == line + head;
        hide File, Line, WholeLines, Faithful;
        CutLater(line, rest, head, partial, n);
      }
    }
  }

  lemma CutLater(line: seq<Byte>, rest: seq<Byte>, head: seq<Byte>, partial: seq<Byte>, n: nat)
    requires |line| <= n <= |line| + |rest| && rest[..n - |line|] == head + partial
    ensures (line + rest)[..n] == (line + head) + partial
  {
    assert (line + rest)[..n] == line + rest[..n - |line|];
  }

  lemma {:induction false} FileEndsLine(codec: Codec, frames: seq<Frame>)
    ensures var file := File(codec, frames); file == [] || file[|file| - 1] == LF
  {
    if frames == [] {
    } else {
      FileEndsLine(codec, frames[1..]);
    }
  }

  /** Whatever the kill cut off, the runner reads back exactly the whole lines. */
  lemma ReadCut(codec: Codec, frames: seq<Frame>, n: nat, limit: nat)
    requires Faithful(codec) && n <= |File(codec, frames)| <= limit
    ensures Read(codec, File(codec, frames)[..n], limit, true) == (frames[..WholeLines(codec, frames, n)], None)
  {
    var k := WholeLines(codec, frames, n);
    var partial := CutFile(codec, frames, n);
    FileEndsLine(codec, frames[..k]);
    WholeKeeps(File(codec, frames[..k]), partial);
    SplitFile(codec, frames[..k]);
  }

  // ---- Folding ------------------------------------------------------------

  datatype Acked = Acked(metadata: Option<string>, operations: seq<Operation>, journal: seq<Entry>, instant: nat,
                         generation: Option<nat>, disposition: Option<Disposition>,
                         attempt: Option<ProcessAttempt>, artifact: Option<Artifact>, child: Option<string>,
                         started: bool, terminal: bool)

  const Nothing := Acked(None, [], [], 0, None, None, None, None, None, false, false)

  predicate DensePositions(operations: seq<Operation>, from: nat) {
    forall i :: 0 <= i < |operations| ==> operations[i].position == from + i
  }

  predicate DenseEntries(journal: seq<Entry>, from: nat) {
    forall i :: 0 <= i < |journal| ==> journal[i].position == from + i
  }

  /** One frame of the fold; an error code leaves the state as it was. */
  function FoldFrame(scenario: string, s: Acked, frame: Frame, sequence: nat): (Acked, Option<string>) {
    var disorder := (s, Some("frame-order"));
    if frame.sequence != sequence || s.terminal then disorder
    else match frame
      case StartedFrame(_, name) =>
        if s.started || sequence != 0 || name != scenario then disorder else (s.(started := true), None)
      case WorldFrame(_, metadata) =>
        if !s.started || s.metadata.Some? || s.attempt.Some? then disorder else (s.(metadata := Some(metadata)), None)
      case AttemptFrame(_, attempt) =>
        if !s.started || s.metadata.None? || s.attempt.Some? then disorder else (s.(attempt := Some(attempt)), None)
      case BoundaryFrame(_, operations, journal, instant, generation, disposition) =>
        if s.attempt.None? then disorder
        else if !DensePositions(operations, |s.operations|) || !DenseEntries(journal, |s.journal|) then
          (s, Some("prefix-position"))
        else
          (s.(operations := s.operations + operations, journal := s.journal + journal, instant := instant,
              generation := generation, disposition := disposition, attempt := None), None)
      case CompleteFrame(_, name, artifact) =>
        if s.attempt.Some? || s.metadata.None? || name != scenario then disorder
        else (s.(artifact := Some(artifact), terminal := true), None)
      case FailedFrame(_, code) => (s.(child := Some(code), terminal := true), None)
  }

  function FoldFrom(scenario: string, s: Acked, frames: seq<Frame>, sequence: nat): (Acked, Option<string>)
    decreases frames
  {
    if frames == [] then (s, None)
    else
      var (s', code) := FoldFrame(scenario, s, frames[0], sequence);
      if code.Some? then (s', code) else FoldFrom(scenario, s', frames[1..], sequence + 1)
  }

  /** `_fold_process_frames`: a file without its started frame is an error of its own. */
  function Fold(scenario: string, frames: seq<Frame>): (Acked, Option<string>) {
    var (s, code) := FoldFrom(scenario, Nothing, frames, 0);
    if code.Some? then (s.(artifact := None, child := None), code)
    else if !s.started then (s.(artifact := None, child := None), Some("start-missing"))
    else (s, None)
  }

  /** The fold as the runner's loop performs it. */
  method FoldFrames(scenario: string, frames: seq<Frame>) returns (s: Acked, code: Option<string>)
    ensures (s, code) == Fold(scenario, frames)
  {
    s, code := Nothing, None;
    assert frames[0..] == frames;
    for sequence := 0 to |frames|
      invariant FoldFrom(scenario, Nothing, frames, 0) == FoldFrom(scenario, s, frames[sequence..], sequence)
      invariant code.None?
    {
      assert frames[sequence..][0] == frames[sequence] && frames[sequence..][1..] == frames[sequence + 1..];
      var next := FoldFrame(scenario, s, frames[sequence], sequence);
      s, code := next.0, next.1;
      if code.Some? {
        s := s.(artifact := None, child := None);
        return;
      }
    }
    if !s.started {
      s, code := s.(artifact := None, child := None), Some("start-missing");
    }
  }

  lemma {:induction false} FoldSplits(scenario: string, s: Acked, left: seq<Frame>, right: seq<Frame>, sequence: nat)
    ensures var (s', code) := FoldFrom(scenario, s, left, sequence);
            FoldFrom(scenario, s, left + right, sequence)
            == if code.Some? then (s', code) else FoldFrom(scenario, s', right, sequence + |left|)
    decreases left
  {
    if left == [] {
      assert left + right == right;
    } else {
      var (s', code) := FoldFrame(scenario, s, left[0], sequence);
      assert (left + right)[0] == left[0] && (left + right)[1..] == left[1..] + right;
      if code.None? {
        FoldSplits(scenario, s', left[1..], right, sequence + 1);
      }
    }
  }

  // ---- What a run writes --------------------------------------------------

  function BoundaryOf<H>(sequence: nat, before: State<H>, after: State<H>): Frame
    requires |before.operations| <= |after.operations| && |before.journal| <= |after.journal|
  {
    BoundaryFrame(sequence, after.operations[|before.operations|..], after.journal[|before.journal|..],
                  after.instant, after.generation, after.disposition)
  }

  /** An attempt reaches a boundary unless it is refused (or the profile broke its protocol). */
  predicate Reaches<H>(c: Config<H>, w: State<H>, a: Attempt) {
    var t := Try(c, w, a);
    && (t.outcome.Done? || Failing(t.outcome))
    && |w.operations| <= |t.world.operations| && |w.journal| <= |t.world.journal|
  }

  function FramesOf<H>(c: Config<H>, w: State<H>, attempts: seq<Attempt>, sequence: nat): seq<Frame>
    decreases attempts
  {
    if attempts == [] then []
    else
      var a, w' := attempts[0], Try(c, w, attempts[0]).world;
      if Reaches(c, w, a) then
        [AttemptFrame(sequence, OnWorld(a)), BoundaryOf(sequence + 1, w, w')]
            + FramesOf(c, w', attempts[1..], sequence + 2)
      else
        [AttemptFrame(sequence, OnWorld(a))] + FramesOf(c, w', attempts[1..], sequence + 1)
  }

  /** Everything a session writes before its terminal frame. */
  function SessionFrames<H>(c: Config<H>, scenario: string, metadata: string, attempts: seq<Attempt>): seq<Frame> {
    var w := Construct(c).world;
    Prelude(c, scenario, metadata) + FramesOf(c, w, attempts, 4)
  }

  function Prelude<H>(c: Config<H>, scenario: string, metadata: string): seq<Frame> {
    var w := Construct(c).world;
    [StartedFrame(0, scenario), WorldFrame(1, metadata), AttemptFrame(2, ConstructWorld),
     BoundaryFrame(3, w.operations, w.journal, w.instant, w.generation, w.disposition)]
  }

  /** The folded prefix is exactly the World `w`, with nothing outstanding. */
  ghost predicate Mirrors<H>(s: Acked, w: State<H>) {
    && s.operations == w.operations && s.journal == w.journal && s.instant == w.instant
    && s.generation == w.generation && s.disposition == w.disposition
    && s.attempt.None? && s.started && s.metadata.Some? && !s.terminal
  }

  ghost predicate AllReach<H>(c: Config<H>, w: State<H>, attempts: seq<Attempt>)
    decreases attempts
  {
    attempts == [] || (Reaches(c, w, attempts[0]) && AllReach(c, Try(c, w, attempts[0]).world, attempts[1..]))
  }

  /** What an attempt adds continues the log and the journal densely. */
  lemma BoundaryFits<H>(c: Config<H>, w: State<H>, a: Attempt)
    requires Ready(c, w) && Reaches(c, w, a)
    ensures var w' := Try(c, w, a).world;
            && Inv(c, w')
            && w.operations + w'.operations[|w.operations|..] == w'.operations
            && w.journal + w'.journal[|w.journal|..] == w'.journal
            && DensePositions(w'.operations[|w.operations|..], |w.operations|)
            && DenseEntries(w'.journal[|w.journal|..], |w.journal|)
  {
    hide Try;
    TryKeeps(c, w, a);
    var w' := Try(c, w, a).world;
    assert w'.operations[..|w.operations|] == w.operations;
    assert w'.operations[..|w.operations|] + w'.operations[|w.operations|..] == w'.operations;
    assert w'.journal[..|w.journal|] + w'.journal[|w.journal|..] == w'.journal;
  }

  lemma FoldPair<H>(c: Config<H>, scenario: string, s: Acked, w: State<H>, a: Attempt, sequence: nat)
    requires Ready(c, w) && Mirrors(s, w) && Reaches(c, w, a)
    ensures var w' := Try(c, w, a).world;
            var (s1, code1) := FoldFrame(scenario, s, AttemptFrame(sequence, OnWorld(a)), sequence);
            var (s2, code2) := FoldFrame(scenario, s1, BoundaryOf(sequence + 1, w, w'), sequence + 1);
            && code1.None? && s1 == s.(attempt := Some(OnWorld(a)))
            && code2.None? && Mirrors(s2, w') && Inv(c, w')
            && s2.metadata == s.metadata && s2.artifact == s.artifact && s2.child == s.child
  {
    hide Try;
    hide Inv;
    BoundaryFits(c, w, a);
  }

  /** After any `k` frames: the World of the last boundary, and an unfinished attempt exactly in between. */
  lemma {:induction false} FoldRun<H>(c: Config<H>, scenario: string, s: Acked, w: State<H>, attempts: seq<Attempt>,
                                      sequence: nat, k: nat)
    requires Inv(c, w) && Mirrors(s, w) && Orderly(c, w, attempts) && AllReach(c, w, attempts)
    requires k <= 2 * |attempts|
    ensures |FramesOf(c, w, attempts, sequence)| == 2 * |attempts|
    ensures var (s', code) := FoldFrom(scenario, s, FramesOf(c, w, attempts, sequence)[..k], sequence);
            && code.None? && s'.metadata == s.metadata && s'.artifact == s.artifact && s'.child == s.child
            && Mirrors(s'.(attempt := None), Exec(c, w, attempts[..k / 2]))
            && s'.attempt == (if k % 2 == 1 then Some(OnWorld(attempts[k / 2])) else None)
    decreases attempts
  {
    hide Try;
    hide FoldFrame;
    hide BoundaryOf;
    hide Inv;
    if attempts != [] {
      var a, rest := attempts[0], attempts[1..];
      if w.disposition.Some? {
        EndedRefuses(c, w, a);
        assert false;
      }
      FoldPair(c, scenario, s, w, a, sequence);
      var w' := Try(c, w, a).world;
      var frames, tail := FramesOf(c, w, attempts, sequence), FramesOf(c, w', rest, sequence + 2);
      var pair := [AttemptFrame(sequence, OnWorld(a)), BoundaryOf(sequence + 1, w, w')];
      assert frames == pair + tail;
      var s1 := FoldFrame(scenario, s, pair[0], sequence).0;
      var s2 := FoldFrame(scenario, s1, pair[1], sequence + 1).0;
      if k < 2 {
        FoldRun(c, scenario, s2, w', rest, sequence + 2, 0);
        FoldOne(scenario, s, pair[0], sequence);
        assert k == 1 ==> frames[..k] == [pair[0]];
        assert attempts[..0] == [];
      } else {
        FoldRun(c, scenario, s2, w', rest, sequence + 2, k - 2);
        FoldMore(scenario, s, pair[0], [pair[1]] + tail[..k - 2], sequence);
        FoldMore(scenario, s1, pair[1], tail[..k - 2], sequence + 1);
        assert frames[..k] == [pair[0]] + ([pair[1]] + tail[..k - 2]);
        assert attempts[..k / 2][1..] == rest[..(k - 2) / 2] && attempts[..k / 2][0] == a;
      }
    } else {
      assert attempts[..0] == [];
    }
  }

  lemma FoldPrelude<H>(c: Config<H>, scenario: string, metadata: string)
    requires Construct(c).outcome.Done?
    ensures var (s, code) := FoldFrom(scenario, Nothing, Prelude(c, scenario, metadata), 0);
            && code.None? && Mirrors(s, Construct(c).world) && s.metadata == Some(metadata)
            && s.artifact.None? && s.child.None?
  {
    hide Construct;
    ConstructKeeps(c);
    var f := Prelude(c, scenario, metadata);
    assert f == [f[0]] + ([f[1]] + ([f[2]] + [f[3]]));
    var s1 := FoldFrame(scenario, Nothing, f[0], 0).0;
    var s2 := FoldFrame(scenario, s1, f[1], 1).0;
    var s3 := FoldFrame(scenario, s2, f[2], 2).0;
    FoldOne(scenario, s3, f[3], 3);
    FoldMore(scenario, s2, f[2], [f[3]], 2);
    FoldMore(scenario, s1, f[1], [f[2]] + [f[3]], 1);
    FoldMore(scenario, Nothing, f[0], [f[1]] + ([f[2]] + [f[3]]), 0);
  }

  lemma FoldMore(scenario: string, s: Acked, frame: Frame, rest: seq<Frame>, sequence: nat)
    ensures var (s', code) := FoldFrame(scenario, s, frame, sequence);
            FoldFrom(scenario, s, [frame] + rest, sequence)
            == if code.Some? then (s', code) else FoldFrom(scenario, s', rest, sequence + 1)
  {
    assert ([frame] + rest)[0] == frame && ([frame] + rest)[1..] == rest;
  }

  lemma FoldOne(scenario: string, s: Acked, frame: Frame, sequence: nat)
    ensures FoldFrom(scenario, s, [frame], sequence) == FoldFrame(scenario, s, frame, sequence)
  {
    assert [frame][1..] == [];
  }

  /** The three cuts inside the prelude acknowledge no World progress. */
  lemma FoldEarly<H>(c: Config<H>, scenario: string, metadata: string, k: nat)
    requires 1 <= k <= 3
    ensures var (s, code) := FoldFrom(scenario, Nothing, Prelude(c, scenario, metadata)[..k], 0);
            && code.None? && s.started && s.operations == [] && s.journal == []
            && s.attempt == (if k == 3 then Some(ConstructWorld) else None)
  {
    hide Construct;
    var f := Prelude(c, scenario, metadata);
    var s1 := FoldFrame(scenario, Nothing, f[0], 0).0;
    var s2 := FoldFrame(scenario, s1, f[1], 1).0;
    FoldOne(scenario, Nothing, f[0], 0);
    FoldOne(scenario, s1, f[1], 1);
    FoldOne(scenario, s2, f[2], 2);
    FoldMore(scenario, Nothing, f[0], [f[1]], 0);
    FoldMore(scenario, s1, f[1], [f[2]], 1);
    FoldMore(scenario, Nothing, f[0], [f[1]] + [f[2]], 0);
    assert k == 1 ==> f[..k] == [f[0]];
    assert k == 2 ==> f[..k] == [f[0]] + [f[1]];
    assert k == 3 ==> f[..k] == [f[0]] + ([f[1]] + [f[2]]);
  }

  /**
    Crash consistency: for every byte at which the file may be cut, as long as the started line survived, reading and
    folding reports no error, acknowledges exactly the World of the last boundary, and reports an unfinished attempt
    exactly when the cut lies between an attempt and its boundary.
    */
  lemma CrashConsistent<H>(codec: Codec, c: Config<H>, scenario: string, metadata: string, attempts: seq<Attempt>,
                           n: nat, limit: nat)
    requires Faithful(codec) && Construct(c).outcome.Done?
    requires Orderly(c, Construct(c).world, attempts) && NoneStopped(c, Construct(c).world, attempts)
    requires n <= |File(codec, SessionFrames(c, scenario, metadata, attempts))| <= limit
    requires WholeLines(codec, SessionFrames(c, scenario, metadata, attempts), n) >= 1
    ensures var frames := SessionFrames(c, scenario, metadata, attempts);
            var k := WholeLines(codec, frames, n);
            var (read, readCode) := Read(codec, File(codec, frames)[..n], limit, true);
            var (s, code) := Fold(scenario, read);
            && readCode.None? && code.None?
            && |frames| == 4 + 2 * |attempts|
            && (k < 4 ==>
                  s.operations == [] && s.journal == [] && s.attempt == (if k == 3 then Some(ConstructWorld) else None))
            && (k >= 4 ==>
                  var w := Exec(c, Construct(c).world, attempts[..(k - 4) / 2]);
                  && s.operations == w.operations && s.journal == w.journal && s.instant == w.instant
                  && s.generation == w.generation && s.disposition == w.disposition
                  && s.attempt == (if k % 2 == 1 then Some(OnWorld(attempts[(k - 4) / 2])) else None))
  {
    hide Construct;
    hide Try;
    hide FoldFrame;
    hide Inv;
    hide File;
    hide FramesOf;
    hide Read;
    hide WholeLines;
    hide Faithful;
    hide Orderly;
    hide NoneStopped;
    hide AllReach;
    hide Exec;
    var w, frames := Construct(c).world, SessionFrames(c, scenario, metadata, attempts);
    var k := WholeLines(codec, frames, n);
    ReadCut(codec, frames, n, limit);
    ConstructKeeps(c);
    ReachesUnlessStopped(c, w, attempts);
    FoldPrelude(c, scenario, metadata);
    var prelude, tail := Prelude(c, scenario, metadata), FramesOf(c, w, attempts, 4);
    var (s0, _) := FoldFrom(scenario, Nothing, prelude, 0);
    if k < 4 {
      FoldRun(c, scenario, s0, w, attempts, 4, 0);
      FoldEarly(c, scenario, metadata, k);
      assert frames[..k] == prelude[..k];
    } else {
      FoldRun(c, scenario, s0, w, attempts, 4, 0);
      FoldRun(c, scenario, s0, w, attempts, 4, k - 4);
      FoldSplits(scenario, Nothing, prelude, tail[..k - 4], 0);
      assert frames[..k] == prelude + tail[..k - 4];
    }
  }

  /** Without all attempts reaching a boundary the fold fails: it accepts a run iff only the last attempt may not. */
  lemma {:induction false} FoldsWhenReached<H>(c: Config<H>, scenario: string, s: Acked, w: State<H>,
                                               attempts: seq<Attempt>, sequence: nat)
    requires Inv(c, w) && Mirrors(s, w) && Orderly(c, w, attempts) && attempts != []
    ensures FoldFrom(scenario, s, FramesOf(c, w, attempts, sequence), sequence).1.None?
            <==> AllReach(c, w, attempts[..|attempts| - 1])
    decreases attempts
  {
    hide Try;
    hide Inv;
    var a, rest := attempts[0], attempts[1..];
    var w' := Try(c, w, a).world;
    var frame := AttemptFrame(sequence, OnWorld(a));
    var s1 := FoldFrame(scenario, s, frame, sequence).0;
    if w.disposition.Some? {
      EndedRefuses(c, w, a);
    }
    if Reaches(c, w, a) {
      FoldPair(c, scenario, s, w, a, sequence);
      var boundary := BoundaryOf(sequence + 1, w, w');
      var tail := FramesOf(c, w', rest, sequence + 2);
      assert FramesOf(c, w, attempts, sequence) == [frame] + ([boundary] + tail);
      FoldMore(scenario, s, frame, [boundary] + tail, sequence);
      FoldMore(scenario, s1, boundary, tail, sequence + 1);
      if rest == [] {
        assert attempts[..0] == [];
      } else {
        FoldsWhenReached(c, scenario, FoldFrame(scenario, s1, boundary, sequence + 1).0, w', rest, sequence + 2);
        assert attempts[..|attempts| - 1][0] == a && attempts[..|attempts| - 1][1..] == rest[..|rest| - 1];
      }
    } else {
      var tail := FramesOf(c, w', rest, sequence + 1);
      assert FramesOf(c, w, attempts, sequence) == [frame] + tail;
      FoldMore(scenario, s, frame, tail, sequence);
      if rest == [] {
        assert attempts[..0] == [];
      } else {
        assert tail[0].AttemptFrame?;
        assert attempts[..|attempts| - 1][0] == a;
      }
    }
  }

  /** In an orderly run an attempt reaches its boundary exactly when its guard does not stop it. */
  lemma {:induction false} ReachesUnlessStopped<H>(c: Config<H>, w: State<H>, attempts: seq<Attempt>)
    requires Inv(c, w) && Orderly(c, w, attempts)
    ensures AllReach(c, w, attempts) <==> NoneStopped(c, w, attempts)
    decreases attempts
  {
    hide Inv;
    if attempts == [] {
    } else {
      var a := attempts[0];
      RefusedWhen(c, w, a);
      RunKeeps(c, w, attempts[..1]);
      OneAttempt(c, w, a);
      assert attempts[..1] == [a];
      if w.disposition.None? {
        TryKeeps(c, w, a);
      }
      hide Try;
      hide Stopped;
      hide Orderly;
      ReachesUnlessStopped(c, Try(c, w, a).world, attempts[1..]);
    }
  }

  lemma OneAttempt<H>(c: Config<H>, w: State<H>, a: Attempt)
    ensures Exec(c, w, [a]) == Try(c, w, a).world
  {
    hide Try;
    assert [a][1..] == [];
  }

  /**
    A refused attempt writes no boundary frame: a run's frames fold without error if
    and only if no attempt before the last is stopped by its guard.
    */
  lemma RefusalBreaksOrder<H>(c: Config<H>, scenario: string, s: Acked, w: State<H>, attempts: seq<Attempt>,
                              sequence: nat)
    requires Inv(c, w) && Mirrors(s, w) && Orderly(c, w, attempts) && attempts != []
    ensures FoldFrom(scenario, s, FramesOf(c, w, attempts, sequence), sequence).1.None?
            <==> NoneStopped(c, w, attempts[..|attempts| - 1])
  {
    FoldsWhenReached(c, scenario, s, w, attempts, sequence);
    OrderlyPrefix(c, w, attempts, |attempts| - 1);
    ReachesUnlessStopped(c, w, attempts[..|attempts| - 1]);
  }

  lemma {:induction false} OrderlyPrefix<H>(c: Config<H>, w: State<H>, attempts: seq<Attempt>, k: nat)
    requires Orderly(c, w, attempts) && k <= |attempts|
    ensures Orderly(c, w, attempts[..k])
    decreases attempts
  {
    hide Try;
    if k == 0 {
    } else {
      OrderlyPrefix(c, Try(c, w, attempts[0]).world, attempts[1..], k - 1);
      assert attempts[..k][0] == attempts[0] && attempts[..k][1..] == attempts[1..][..k - 1];
    }
  }

  /** Such a run: an observation for a generation that is not live, then anything at all. */
  lemma RefusedThenNext<H>(c: Config<H>, scenario: string, s: Acked, w: State<H>, g: nat, request: Request,
                           next: Attempt, sequence: nat)
    requires Inv(c, w) && Mirrors(s, w) && w.generation != Some(g)
    requires Orderly(c, w, [Observe(g, request, false), next])
    ensures FoldFrom(scenario, s, FramesOf(c, w, [Observe(g, request, false), next], sequence), sequence).1.Some?
  {
    var attempts := [Observe(g, request, false), next];
    RefusalBreaksOrder(c, scenario, s, w, attempts, sequence);
    assert attempts[..1][0] == attempts[0];
    assert Stopped(c, w, attempts[0]);
    hide FoldFrom;
    hide FramesOf;
    hide Try;
  }

  /** `close` writes its pair of frames only for a live generation; then the artifact is handed over. */
  function ClosingFrames<H>(c: Config<H>, scenario: string, w: State<H>, n: nat): seq<Frame>
    requires w.disposition.Some?
  {
    if w.generation.None? then [CompleteFrame(n, scenario, ArtifactOf(c, w))]
    else [AttemptFrame(n, CloseWorld(w.generation.value)),
          BoundaryFrame(n + 1, [], [], w.instant, None, w.disposition),
          CompleteFrame(n + 2, scenario, ArtifactOf(c, w))]
  }

  /**
    A session that closes its World and hands over the artifact is read
    back as completed, prefix and artifact equal.
    */
  lemma CompletedSession<H>(c: Config<H>, scenario: string, metadata: string, attempts: seq<Attempt>)
    requires Construct(c).outcome.Done?
    requires Orderly(c, Construct(c).world, attempts) && NoneStopped(c, Construct(c).world, attempts)
    requires Exec(c, Construct(c).world, attempts).disposition.Some?
    ensures var w := Exec(c, Construct(c).world, attempts);
            var frames := SessionFrames(c, scenario, metadata, attempts);
            var (s, code) := Fold(scenario, frames + ClosingFrames(c, scenario, w, |frames|));
            && code.None? && s.attempt.None? && s.child.None? && s.artifact == Some(ArtifactOf(c, w))
            && s.operations == s.artifact.value.operations && s.journal == s.artifact.value.journal
  {
    hide Construct;
    hide Try;
    hide FoldFrame;
    var w, frames := Exec(c, Construct(c).world, attempts), SessionFrames(c, scenario, metadata, attempts);
    ConstructKeeps(c);
    ReachesUnlessStopped(c, Construct(c).world, attempts);
    FoldSession(c, scenario, metadata, attempts);
    var s1 := FoldFrom(scenario, Nothing, frames, 0).0;
    FoldSplits(scenario, Nothing, frames, ClosingFrames(c, scenario, w, |frames|), 0);
    FoldClosing(c, scenario, s1, w, |frames|);
  }

  lemma FoldSession<H>(c: Config<H>, scenario: string, metadata: string, attempts: seq<Attempt>)
    requires Construct(c).outcome.Done?
    requires Orderly(c, Construct(c).world, attempts) && AllReach(c, Construct(c).world, attempts)
    ensures var (s, code) := FoldFrom(scenario, Nothing, SessionFrames(c, scenario, metadata, attempts), 0);
            code.None? && Mirrors(s, Exec(c, Construct(c).world, attempts)) && s.artifact.None? && s.child.None?
  {
    hide Construct;
    hide Try;
    hide FoldFrame;
    var w0 := Construct(c).world;
    var prelude, tail := Prelude(c, scenario, metadata), FramesOf(c, w0, attempts, 4);
    ConstructKeeps(c);
    FoldPrelude(c, scenario, metadata);
    var s0 := FoldFrom(scenario, Nothing, prelude, 0).0;
    FoldRun(c, scenario, s0, w0, attempts, 4, 2 * |attempts|);
    assert tail[..2 * |attempts|] == tail && attempts[..|attempts|] == attempts;
    FoldSplits(scenario, Nothing, prelude, tail, 0);
  }

  lemma FoldClosing<H>(c: Config<H>, scenario: string, s: Acked, w: State<H>, n: nat)
    requires Mirrors(s, w) && w.disposition.Some? && s.artifact.None? && s.child.None?
    ensures var (s', code) := FoldFrom(scenario, s, ClosingFrames(c, scenario, w, n), n);
            && code.None? && s'.started && s'.attempt.None? && s'.child.None? && s'.artifact == Some(ArtifactOf(c, w))
            && s'.operations == w.operations && s'.journal == w.journal
  {
    if w.generation.None? {
      FoldOne(scenario, s, CompleteFrame(n, scenario, ArtifactOf(c, w)), n);
    } else {
      var f0 := AttemptFrame(n, CloseWorld(w.generation.value));
      var f1 := BoundaryFrame(n + 1, [], [], w.instant, None, w.disposition);
      var f2 := CompleteFrame(n + 2, scenario, ArtifactOf(c, w));
      assert [f0, f1, f2] == [f0] + ([f1] + [f2]);
      FoldMore(scenario, s, f0, [f1] + [f2], n);
      var s2 := FoldFrame(scenario, s, f0, n).0;
      FoldMore(scenario, s2, f1, [f2], n + 1);
      FoldOne(scenario, FoldFrame(scenario, s2, f1, n + 1).0, f2, n + 2);
    }
  }
}
