/**
  Exactly which progress files fold without an error, which error the others report,
  and what reading a file reports before any frame is folded.
  */
module ProgressOrder {
  import opened Options
  import opened World
  import opened Replay
  import opened Progress

  // ---- Where a frame may stand --------------------------------------------

  /** An attempt before `k` has no boundary yet. */
  predicate Open(frames: seq<Frame>, k: nat)
    requires k <= |frames|
  {
    k > 0 && (frames[k - 1].AttemptFrame? || (!frames[k - 1].BoundaryFrame? && Open(frames, k - 1)))
  }

  predicate Described(frames: seq<Frame>, k: nat)
    requires k <= |frames|
  {
    exists j :: 0 <= j < k && frames[j].WorldFrame?
  }

  predicate Ended(frames: seq<Frame>, k: nat)
    requires k <= |frames|
  {
    exists j :: 0 <= j < k && (frames[j].CompleteFrame? || frames[j].FailedFrame?)
  }

  predicate Begun(frames: seq<Frame>, k: nat)
    requires k <= |frames|
  {
    exists j :: 0 <= j < k && frames[j].StartedFrame?
  }

  /** How many operations, and how many journal entries, boundaries before `k` acknowledged. */
  function Logged(frames: seq<Frame>, k: nat): (nat, nat)
    requires k <= |frames|
  {
    if k == 0 then (0, 0)
    else
      var before := Logged(frames, k - 1);
      if frames[k - 1].BoundaryFrame?
      then (before.0 + |frames[k - 1].operations|, before.1 + |frames[k - 1].journal|) else before
  }

  /** Frame `k` stands where it may: numbered in order, nothing after an end, attempts and boundaries alternating. */
  predicate InPlace(scenario: string, frames: seq<Frame>, k: nat)
    requires k < |frames|
  {
    && frames[k].sequence == k && !Ended(frames, k)
    && match frames[k]
       case StartedFrame(_, name) => k == 0 && name == scenario
       case WorldFrame(_, _) => Begun(frames, k) && !Described(frames, k) && !Open(frames, k)
       case AttemptFrame(_, _) => Begun(frames, k) && Described(frames, k) && !Open(frames, k)
       case BoundaryFrame(_, _, _, _, _, _) => Open(frames, k)
       case CompleteFrame(_, name, _) => Described(frames, k) && !Open(frames, k) && name == scenario
       case FailedFrame(_, _) => true
  }

  /** A boundary goes on exactly where the one before it ended. */
  predicate GoesOn(frames: seq<Frame>, k: nat)
    requires k < |frames|
  {
    frames[k].BoundaryFrame? ==>
      && (forall i :: 0 <= i < |frames[k].operations| ==>
            frames[k].operations[i].position == Logged(frames, k).0 + i)
      && (forall i :: 0 <= i < |frames[k].journal| ==> frames[k].journal[i].position == Logged(frames, k).1 + i)
  }

  ghost predicate Fine(scenario: string, frames: seq<Frame>, k: nat)
    requires k <= |frames|
  {
    forall j :: 0 <= j < k ==> InPlace(scenario, frames, j) && GoesOn(frames, j)
  }

  // ---- The fold keeps track of it -----------------------------------------

  ghost predicate Tracks(s: Acked, frames: seq<Frame>, k: nat)
    requires k <= |frames|
  {
    && s.started == Begun(frames, k) && s.metadata.Some? == Described(frames, k) && s.attempt.Some? == Open(frames, k)
    && s.terminal == Ended(frames, k) && (|s.operations|, |s.journal|) == Logged(frames, k)
  }

  lemma OneMoreFrame(frames: seq<Frame>, k: nat)
    requires k < |frames|
    ensures Begun(frames, k + 1) <==> Begun(frames, k) || frames[k].StartedFrame?
    ensures Described(frames, k + 1) <==> Described(frames, k) || frames[k].WorldFrame?
    ensures Ended(frames, k + 1) <==> Ended(frames, k) || frames[k].CompleteFrame? || frames[k].FailedFrame?
  {
  }

  lemma FrameTracks(scenario: string, s: Acked, frames: seq<Frame>, k: nat)
    requires k < |frames| && Tracks(s, frames, k)
    ensures var (s', code) := FoldFrame(scenario, s, frames[k], k);
            && (code.None? <==> InPlace(scenario, frames, k) && GoesOn(frames, k))
            && (code.None? ==> Tracks(s', frames, k + 1))
            && (code.Some? ==>
                  code.value == if InPlace(scenario, frames, k) then "prefix-position" else "frame-order")
  {
    OneMoreFrame(frames, k);
    NotYetBegun(frames);
    hide Begun, Described, Ended;
  }

  lemma NotYetBegun(frames: seq<Frame>)
    ensures !Begun(frames, 0)
  {
  }

  /** The fold of the rest, from wherever the frames before were fine. */
  lemma {:induction false} FoldJudges(scenario: string, s: Acked, frames: seq<Frame>, k: nat)
    requires k <= |frames| && Tracks(s, frames, k) && Fine(scenario, frames, k)
    ensures var (s', code) := FoldFrom(scenario, s, frames[k..], k);
            && (code.None? <==> Fine(scenario, frames, |frames|))
            && (code.None? ==> Tracks(s', frames, |frames|))
            && (code.Some? ==>
                  exists j :: && k <= j < |frames| && Fine(scenario, frames, j)
                              && !(InPlace(scenario, frames, j) && GoesOn(frames, j))
                              && code.value == if InPlace(scenario, frames, j) then "prefix-position"
                                               else "frame-order")
    decreases |frames| - k
  {
    hide FoldFrame, InPlace, GoesOn, Tracks;
    if k < |frames| {
      FrameTracks(scenario, s, frames, k);
      assert frames[k..][0] == frames[k] && frames[k..][1..] == frames[k + 1..];
      var (s', code) := FoldFrame(scenario, s, frames[k], k);
      if code.None? {
        FoldJudges(scenario, s', frames, k + 1);
      }
    }
  }

  /**
    Frames fold without an error if and only if every one stands in its place and goes
    on where the last boundary ended, and the file was started; otherwise the first
    frame that does not says which error it is.
    */
  lemma FoldsWhen(scenario: string, frames: seq<Frame>)
    ensures var code := Fold(scenario, frames).1;
            && (code.None? <==> Fine(scenario, frames, |frames|) && Begun(frames, |frames|))
            && (code.Some? ==>
                  || (code == Some("start-missing") && Fine(scenario, frames, |frames|) && !Begun(frames, |frames|))
                  || exists j :: && 0 <= j < |frames| && Fine(scenario, frames, j)
                                 && !(InPlace(scenario, frames, j) && GoesOn(frames, j))
                                 && code.value == if InPlace(scenario, frames, j) then "prefix-position"
                                                  else "frame-order")
            && (code.Some? ==> Fold(scenario, frames).0.artifact.None? && Fold(scenario, frames).0.child.None?)
  {
    assert Tracks(Nothing, frames, 0);
    FoldJudges(scenario, Nothing, frames, 0);
    assert frames[0..] == frames;
    hide FoldFrom, InPlace, GoesOn;
    var (s, code) := FoldFrom(scenario, Nothing, frames, 0);
    assert code.None? ==> Tracks(s, frames, |frames|);
    hide Begun, Fine;
    if code.Some? {
      var j :| && 0 <= j < |frames| && Fine(scenario, frames, j)
               && !(InPlace(scenario, frames, j) && GoesOn(frames, j))
               && code.value == if InPlace(scenario, frames, j) then "prefix-position" else "frame-order";
      assert Fold(scenario, frames).1 == code;
    }
  }

  // ---- Reading ------------------------------------------------------------

  /** The lines up to the first that does not decode, and whether there is one. */
  lemma {:induction false} DecodesUpTo(codec: Codec, lines: seq<seq<Byte>>) returns (k: nat)
    ensures k <= |lines| && forall i :: 0 <= i < k ==> codec.decode(lines[i]).Some?
    ensures var (frames, code) := DecodeAll(codec, lines);
            && |frames| == k && (forall i :: 0 <= i < k ==> codec.decode(lines[i]) == Some(frames[i]))
            && (if k < |lines| then codec.decode(lines[k]).None? && code == Some("malformed-frame") else code.None?)
  {
    if lines == [] {
      k := 0;
    } else if codec.decode(lines[0]).None? {
      k := 0;
    } else {
      var rest := DecodesUpTo(codec, lines[1..]);
      k := rest + 1;
      var (frames, code) := DecodeAll(codec, lines);
      forall i | 0 <= i < k ensures codec.decode(lines[i]) == Some(frames[i]) {
        assert i > 0 ==> lines[i] == lines[1..][i - 1] && frames[i] == DecodeAll(codec, lines[1..]).0[i - 1];
      }
    }
  }

  /** A file is refused unread exactly when it is too long, or ends within a line that may not be cut. */
  lemma ReadsWhen(codec: Codec, payload: seq<Byte>, limit: nat, allowPartial: bool)
    ensures var (frames, code) := Read(codec, payload, limit, allowPartial);
            var cut := payload != [] && payload[|payload| - 1] != LF;
            && (code == Some("progress-overflow") <==> |payload| > limit)
            && (code == Some("partial-frame") <==> |payload| <= limit && cut && !allowPartial)
            && (|payload| > limit || (cut && !allowPartial) ==> frames == [])
  {
    var k := DecodesUpTo(codec, SplitLines(Whole(payload)));
    hide DecodeAll, SplitLines, Whole;
  }
}
