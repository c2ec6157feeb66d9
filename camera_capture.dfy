/** The letter-sequence accumulator of the live camera view: which predicted letters are
    admitted into the transcript, the bounded undo history, manual spaces, the rendered
    text, and the guard at the call site that keeps replies without a usable letter away
    from the accumulator. Wall-clock time is the `now` parameter, in milliseconds. */
module CameraCapture {
  import opened Wrappers
  import Text
  import Backend

  /** Minimum time between two accepted letters, whatever the letters are. */
  const CooldownMs: int := 2500
  /** A letter already in the sequence with a timestamp younger than this blocks itself. */
  const DuplicateWindowMs: int := 5000
  /** Lowest confidence that is admitted (inclusive). */
  const ConfidenceFloor: real := 0.2
  /** Number of undo snapshots kept. */
  const UndoDepth: nat := 10

  datatype Source = Manual | Timer | Auto

  /** One transcript entry. Letters carry the backend confidence; spaces carry 1.0. */
  datatype Entry = Entry(id: int, letter: string, confidence: real, timestamp: int, isSpace: bool, source: Source)

  /** The mode recorded on an accepted letter. */
  function SourceOf(isAutoCapture: bool, countdown: int): Source
  {
    if isAutoCapture then Auto else if countdown > 0 then Timer else Manual
  }

  // ---------------------------------------------------------------------------------
  // Admission policy

  predicate IsRecentSame(e: Entry, letter: string, now: int)
  {
    e.letter == letter && now - e.timestamp < DuplicateWindowMs
  }

  predicate RecentSame(entries: seq<Entry>, letter: string, now: int)
  {
    exists k :: 0 <= k < |entries| && IsRecentSame(entries[k], letter, now)
  }

  /** `letterSequence.find(...)`: the first entry with the same letter that is younger
      than the duplicate window. */
  function FindRecentSame(entries: seq<Entry>, letter: string, now: int): (r: Option<nat>)
    ensures r.None? <==> !RecentSame(entries, letter, now)
    ensures r.Some? ==> r.value < |entries| && IsRecentSame(entries[r.value], letter, now)
    ensures r.Some? ==> forall j :: 0 <= j < r.value ==> !IsRecentSame(entries[j], letter, now)
  {
    if |entries| == 0 then None
    else if IsRecentSame(entries[0], letter, now) then Some(0)
    else
      match FindRecentSame(entries[1..], letter, now)
      case None =>
        assert forall k :: 1 <= k < |entries| ==> entries[k] == entries[1..][k - 1];
        None
      case Some(k) => Some(k + 1)
  }

  predicate MeetsFloor(confidence: Option<real>)
  {
    confidence.Some? && confidence.value >= ConfidenceFloor
  }

  datatype Verdict = Accepted | CoolingDown | RecentDuplicate | LowConfidence

  /** The three checks, in the order the source applies them; the first failing one decides. */
  function Admission(entries: seq<Entry>, lastAccepted: int, letter: string, confidence: Option<real>, now: int): (v: Verdict)
    ensures v == CoolingDown <==> now - lastAccepted < CooldownMs
    ensures v == RecentDuplicate <==> now - lastAccepted >= CooldownMs && RecentSame(entries, letter, now)
    ensures v == Accepted <==>
      now - lastAccepted >= CooldownMs && !RecentSame(entries, letter, now) && MeetsFloor(confidence)
    ensures v == LowConfidence <==>
      now - lastAccepted >= CooldownMs && !RecentSame(entries, letter, now) && !MeetsFloor(confidence)
  {
    if now - lastAccepted < CooldownMs then CoolingDown
    else if FindRecentSame(entries, letter, now).Some? then RecentDuplicate
    else if MeetsFloor(confidence) then Accepted
    else LowConfidence
  }

  // ---------------------------------------------------------------------------------
  // Undo history

  /** `[...prev.slice(-9), snapshot]`: keep the newest nine snapshots and add one. */
  function PushSnapshot(history: seq<seq<Entry>>, snapshot: seq<Entry>): (h: seq<seq<Entry>>)
    ensures |h| == if |history| < UndoDepth then |history| + 1 else UndoDepth
    ensures h[|h| - 1] == snapshot
    ensures h[..|h| - 1] == history[|history| - (|h| - 1)..]
  {
    var kept := if |history| <= UndoDepth - 1 then history else history[|history| - (UndoDepth - 1)..];
    assert (kept + [snapshot])[..|kept|] == kept;
    kept + [snapshot]
  }

  // ---------------------------------------------------------------------------------
  // The accumulator as a state machine (the specification of the class below)

  datatype State = State(entries: seq<Entry>, history: seq<seq<Entry>>, lastAccepted: int)

  /** The state on mount: no entries, no history, `lastPredictionRef` at 0. */
  const Initial: State := State([], [], 0)

  datatype Action =
    | Observe(letter: string, confidence: Option<real>, now: int, source: Source)
    | InsertSpace(now: int)
    | ClearAll
    | UndoLast

  function LetterEntry(letter: string, confidence: real, now: int, source: Source): Entry
  {
    Entry(now, letter, confidence, now, false, source)
  }

  function SpaceEntry(now: int): Entry
  {
    Entry(now, " ", 1.0, now, true, Manual)
  }

  /** One action. Every change but undo first snapshots the entries for undo; only an
      acceptance moves the cooldown clock, and only forward. */
  function Step(s: State, a: Action): (t: State)
    ensures t.lastAccepted >= s.lastAccepted
    ensures Bounded(s) ==> Bounded(t)
    ensures a.Observe? ==>
      t == s || (|t.history| > 0 && t.history[|t.history| - 1] == s.entries && t.lastAccepted == a.now)
    ensures a.InsertSpace? || a.ClearAll? ==>
      |t.history| > 0 && t.history[|t.history| - 1] == s.entries && t.lastAccepted == s.lastAccepted
    ensures a.UndoLast? && |s.history| > 0 ==>
      t.entries == s.history[|s.history| - 1] && t.history == s.history[..|s.history| - 1]
    ensures a.UndoLast? && |s.history| == 0 ==> t == s
  {
    match a
    case Observe(letter, confidence, now, source) =>
      if Admission(s.entries, s.lastAccepted, letter, confidence, now) == Accepted then
        State(s.entries + [LetterEntry(letter, confidence.value, now, source)],
              PushSnapshot(s.history, s.entries), now)
      else s
    case InsertSpace(now) =>
      State(s.entries + [SpaceEntry(now)], PushSnapshot(s.history, s.entries), s.lastAccepted)
    case ClearAll =>
      State([], PushSnapshot(s.history, s.entries), s.lastAccepted)
    case UndoLast =>
      if |s.history| > 0 then State(s.history[|s.history| - 1], s.history[..|s.history| - 1], s.lastAccepted)
      else s
  }

  /** The actions in order. The cooldown clock never moves back (undo and clear do not
      rewind it), and no sequence of actions keeps more than 10 undo snapshots. */
  function Run(s: State, actions: seq<Action>): (r: State)
    ensures r.lastAccepted >= s.lastAccepted
    ensures Bounded(s) ==> Bounded(r)
    decreases |actions|
  {
    if |actions| == 0 then s else Run(Step(s, actions[0]), actions[1..])
  }

  lemma {:induction false} RunAppend(s: State, a: seq<Action>, b: seq<Action>)
    ensures Run(s, a + b) == Run(Run(s, a), b)
    decreases |a|
  {
    if |a| == 0 {
      assert a + b == b;
    } else {
      assert (a + b)[0] == a[0];
      assert (a + b)[1..] == a[1..] + b;
      RunAppend(Step(s, a[0]), a[1..], b);
    }
  }

  /** The rendered transcript: every entry's letter, spaces included, in order. */
  function Letters(entries: seq<Entry>): (ls: seq<string>)
    ensures |ls| == |entries| && forall k :: 0 <= k < |entries| ==> ls[k] == entries[k].letter
  {
    seq(|entries|, k requires 0 <= k < |entries| => entries[k].letter)
  }

  /** The transcript as shown: each entry's letter in order, so with one-character
      letters the k-th character is the k-th entry's letter. */
  function RenderText(entries: seq<Entry>): (t: string)
    ensures (forall k :: 0 <= k < |entries| ==> |entries[k].letter| == 1) ==>
      |t| == |entries| && forall k :: 0 <= k < |entries| ==> t[k] == entries[k].letter[0]
  {
    if forall k :: 0 <= k < |entries| ==> |entries[k].letter| == 1 then
      Text.ConcatSingles(Letters(entries));
      Text.Concat(Letters(entries))
    else
      Text.Concat(Letters(entries))
  }

  lemma RenderAppend(entries: seq<Entry>, e: Entry)
    ensures RenderText(entries + [e]) == RenderText(entries) + e.letter
  {
    assert Letters(entries + [e]) == Letters(entries) + [e.letter];
    Text.ConcatAppend(Letters(entries), [e.letter]);
    assert Text.Concat([e.letter]) == e.letter + Text.Concat([]);
  }

  // ---------------------------------------------------------------------------------
  // Properties of the admission policy

  /** A rejected observation leaves no trace: entries, history and the cooldown clock stay. */
  lemma RejectedIsInvisible(s: State, letter: string, confidence: Option<real>, now: int, source: Source)
    requires Admission(s.entries, s.lastAccepted, letter, confidence, now) != Accepted
    ensures Step(s, Observe(letter, confidence, now, source)) == s
  {
  }

  /** An accepted observation appends exactly one entry, makes the text grow by that letter,
      snapshots the old entries for undo and restarts the cooldown clock at `now`. */
  lemma AcceptedAppendsOne(s: State, letter: string, confidence: Option<real>, now: int, source: Source)
    requires Admission(s.entries, s.lastAccepted, letter, confidence, now) == Accepted
    ensures var t := Step(s, Observe(letter, confidence, now, source));
      && t.entries == s.entries + [LetterEntry(letter, confidence.value, now, source)]
      && RenderText(t.entries) == RenderText(s.entries) + letter
      && t.history[|t.history| - 1] == s.entries
      && t.lastAccepted == now
  {
    RenderAppend(s.entries, LetterEntry(letter, confidence.value, now, source));
  }

  /** Within 2500 ms of the last accepted letter every observation is rejected. */
  lemma CooldownRejects(entries: seq<Entry>, lastAccepted: int, letter: string, confidence: Option<real>, now: int)
    requires now - lastAccepted < CooldownMs
    ensures Admission(entries, lastAccepted, letter, confidence, now) == CoolingDown
  {
  }

  /** After the cooldown, the same letter younger than 5000 ms in the sequence still blocks. */
  lemma DuplicateRejects(entries: seq<Entry>, lastAccepted: int, confidence: Option<real>, now: int, k: nat)
    requires now - lastAccepted >= CooldownMs
    requires k < |entries| && now - entries[k].timestamp < DuplicateWindowMs
    ensures Admission(entries, lastAccepted, entries[k].letter, confidence, now) == RecentDuplicate
  {
  }

  /** The confidence floor is inclusive: below 0.2 is rejected, 0.2 itself is accepted once
      the cooldown and duplicate checks pass. */
  lemma ConfidenceFloorBoundary(entries: seq<Entry>, lastAccepted: int, letter: string, c: real, now: int)
    requires now - lastAccepted >= CooldownMs && !RecentSame(entries, letter, now)
    ensures c < 0.2 ==> Admission(entries, lastAccepted, letter, Some(c), now) == LowConfidence
    ensures c == 0.2 ==> Admission(entries, lastAccepted, letter, Some(c), now) == Accepted
    ensures Admission(entries, lastAccepted, letter, None, now) == LowConfidence
  {
  }

  /** Cooldown monotonicity: once a letter is accepted at time t, any observation at a time in
      [t, t + 2500) is rejected, whatever letters, spaces, clears and undos come in between. */
  lemma CooldownAfterAcceptance(s: State, first: Action, between: seq<Action>, letter: string, confidence: Option<real>, now: int)
    requires first.Observe?
    requires Admission(s.entries, s.lastAccepted, first.letter, first.confidence, first.now) == Accepted
    requires first.now <= now < first.now + CooldownMs
    ensures var t := Run(s, [first] + between);
      Admission(t.entries, t.lastAccepted, letter, confidence, now) == CoolingDown
  {
    RunAppend(s, [first], between);
    var s1 := Step(s, first);
    assert Run(s, [first]) == Run(s1, []) == s1;
  }

  /** Duplicate suppression: "A" accepted at t blocks "A" at t + 3000 (after the cooldown),
      and "A" at t + 5001 is accepted. */
  lemma DuplicateWindowScenario(s: State, t: int)
    requires s.entries == [] && s.lastAccepted <= t - CooldownMs
    ensures var s1 := Step(s, Observe("A", Some(0.9), t, Manual));
      && s1.entries == [LetterEntry("A", 0.9, t, Manual)]
      && Admission(s1.entries, s1.lastAccepted, "A", Some(0.9), t + 3000) == RecentDuplicate
      && Admission(s1.entries, s1.lastAccepted, "A", Some(0.9), t + 5001) == Accepted
  {
    assert Admission(s.entries, s.lastAccepted, "A", Some(0.9), t) == Accepted;
    var s1 := Step(s, Observe("A", Some(0.9), t, Manual));
    assert IsRecentSame(s1.entries[0], "A", t + 3000);
    assert !IsRecentSame(s1.entries[0], "A", t + 5001);
  }

  /** "A", then "L" 2500 ms later, a space, and "L" again 5000 ms after the first "L"
      render as "AL L". */
  lemma TranscriptScenario()
    ensures RenderText(Run(Initial, [
      Observe("A", Some(0.8), 10000, Manual),
      Observe("L", Some(0.8), 12500, Manual),
      InsertSpace(13000),
      Observe("L", Some(0.8), 17500, Manual)]).entries) == "AL L"
  {
    TranscriptEntries();
    TranscriptRender();
  }

  /** The entries the four actions of the scenario leave, all four accepted. */
  lemma TranscriptEntries()
    ensures Run(Initial, [
      Observe("A", Some(0.8), 10000, Manual),
      Observe("L", Some(0.8), 12500, Manual),
      InsertSpace(13000),
      Observe("L", Some(0.8), 17500, Manual)]).entries ==
      [LetterEntry("A", 0.8, 10000, Manual), LetterEntry("L", 0.8, 12500, Manual),
       SpaceEntry(13000), LetterEntry("L", 0.8, 17500, Manual)]
  {
    var a1, a2 := Observe("A", Some(0.8), 10000, Manual), Observe("L", Some(0.8), 12500, Manual);
    var a3, a4 := InsertSpace(13000), Observe("L", Some(0.8), 17500, Manual);
    var s2 := Step(Step(Initial, a1), a2);
    TranscriptFirstLetter();
    TranscriptSecondLetter(Step(Initial, a1));
    TranscriptSecondHalf(s2);
    var s3 := Step(s2, a3);
    var s4 := Step(s3, a4);
    assert Run(s3, [a4]) == s4 by { assert [a4][1..] == []; }
    assert Run(s2, [a3, a4]) == Run(s3, [a4]) by { assert [a3, a4][1..] == [a4]; }
    assert Run(Step(Initial, a1), [a2, a3, a4]) == Run(s2, [a3, a4]) by { assert [a2, a3, a4][1..] == [a3, a4]; }
    assert Run(Initial, [a1, a2, a3, a4]) == Run(Step(Initial, a1), [a2, a3, a4]) by { assert [a1, a2, a3, a4][1..] == [a2, a3, a4]; }
  }

  /** "A" at 10000 opens the transcript. */
  lemma TranscriptFirstLetter()
    ensures Step(Initial, Observe("A", Some(0.8), 10000, Manual)).entries == [LetterEntry("A", 0.8, 10000, Manual)]
    ensures Step(Initial, Observe("A", Some(0.8), 10000, Manual)).lastAccepted == 10000
  {
    assert !RecentSame([], "A", 10000);
  }

  /** "L" at 12500 passes the cooldown and is not a duplicate of "A". */
  lemma TranscriptSecondLetter(s1: State)
    requires s1.entries == [LetterEntry("A", 0.8, 10000, Manual)] && s1.lastAccepted == 10000
    ensures Step(s1, Observe("L", Some(0.8), 12500, Manual)).entries ==
      [LetterEntry("A", 0.8, 10000, Manual), LetterEntry("L", 0.8, 12500, Manual)]
    ensures Step(s1, Observe("L", Some(0.8), 12500, Manual)).lastAccepted == 12500
  {
    assert !IsRecentSame(s1.entries[0], "L", 12500);
  }

  /** After those two, a space at 13000 and "L" at 17500 (5000 ms after the first "L") are
      both taken. */
  lemma TranscriptSecondHalf(s2: State)
    requires s2.entries == [LetterEntry("A", 0.8, 10000, Manual), LetterEntry("L", 0.8, 12500, Manual)]
    requires s2.lastAccepted == 12500
    ensures Step(Step(s2, InsertSpace(13000)), Observe("L", Some(0.8), 17500, Manual)).entries ==
      [LetterEntry("A", 0.8, 10000, Manual), LetterEntry("L", 0.8, 12500, Manual),
       SpaceEntry(13000), LetterEntry("L", 0.8, 17500, Manual)]
  {
    var s3 := Step(s2, InsertSpace(13000));
    assert s3.entries == s2.entries + [SpaceEntry(13000)];
    assert s3.lastAccepted == 12500;
    assert Admission(s3.entries, s3.lastAccepted, "L", Some(0.8), 17500) == Accepted by {
      assert !IsRecentSame(s3.entries[0], "L", 17500);
      assert !IsRecentSame(s3.entries[1], "L", 17500);
      assert !IsRecentSame(s3.entries[2], "L", 17500);
    }
  }

  lemma TranscriptRender()
    ensures RenderText([LetterEntry("A", 0.8, 10000, Manual), LetterEntry("L", 0.8, 12500, Manual),
                        SpaceEntry(13000), LetterEntry("L", 0.8, 17500, Manual)]) == "AL L"
  {
    var e1, e2 := LetterEntry("A", 0.8, 10000, Manual), LetterEntry("L", 0.8, 12500, Manual);
    var e3, e4 := SpaceEntry(13000), LetterEntry("L", 0.8, 17500, Manual);
    var es := [e1, e2, e3, e4];
    assert forall k :: 0 <= k < |es| ==> |es[k].letter| == 1;
    var t := RenderText(es);
    assert t[0] == 'A' && t[1] == 'L' && t[2] == ' ' && t[3] == 'L';
  }

  // ---------------------------------------------------------------------------------
  // Properties of the undo history

  predicate Bounded(s: State)
  {
    |s.history| <= UndoDepth
  }

  /** Undo right after an accepted letter, a space or a clear gives back the entries from
      before it. */
  lemma UndoReverts(s: State, a: Action)
    requires !a.UndoLast?
    requires a.Observe? ==> Admission(s.entries, s.lastAccepted, a.letter, a.confidence, a.now) == Accepted
    ensures Step(Step(s, a), UndoLast).entries == s.entries
  {
  }

  function UndoTimes(s: State, n: nat): State
    decreases n
  {
    if n == 0 then s else UndoTimes(Step(s, UndoLast), n - 1)
  }

  /** Repeated undo pops one snapshot per call; once the history is empty further undos change
      nothing, and the entries are then the oldest snapshot that was kept. */
  lemma {:induction false} UndoDrains(s: State, n: nat)
    ensures |UndoTimes(s, n).history| == if n < |s.history| then |s.history| - n else 0
    ensures n < |s.history| ==> UndoTimes(s, n).history == s.history[..|s.history| - n]
    ensures n >= |s.history| > 0 ==> UndoTimes(s, n).entries == s.history[0]
    ensures n >= |s.history| ==> Step(UndoTimes(s, n), UndoLast) == UndoTimes(s, n)
    ensures |s.history| == 0 ==> UndoTimes(s, n) == s
    decreases n
  {
    if n > 0 {
      var s1 := Step(s, UndoLast);
      UndoDrains(s1, n - 1);
      if |s.history| > 0 {
        assert s1.history == s.history[..|s.history| - 1];
        if n < |s.history| {
          assert s1.history[..|s1.history| - (n - 1)] == s.history[..|s.history| - n];
        } else if |s.history| > 1 {
          assert s1.history[0] == s.history[0];
        }
      }
    }
  }

  // ---------------------------------------------------------------------------------
  // The accumulator as the component holds it

  class LetterSequence {
    /** `letterSequence` */
    var entries: seq<Entry>
    /** `sequenceHistory`, oldest snapshot first */
    var history: seq<seq<Entry>>
    /** `lastPredictionRef.current` */
    var lastAccepted: int

    ghost predicate Valid()
      reads this
    {
      |history| <= UndoDepth
    }

    function Model(): State
      reads this
    {
      State(entries, history, lastAccepted)
    }

    constructor ()
      ensures Valid() && Model() == Initial
    {
      entries, history, lastAccepted := [], [], 0;
    }

    /** `addLetterToSequence(prediction, confidence)` at time `now`. */
    method AddLetter(prediction: string, confidence: Option<real>, now: int, isAutoCapture: bool, countdown: int)
      returns (added: bool)
      requires Valid()
      modifies this
      ensures Valid()
      ensures added <==> Admission(old(entries), old(lastAccepted), prediction, confidence, now) == Accepted
      ensures added ==> (entries == old(entries) + [LetterEntry(prediction, confidence.value, now, SourceOf(isAutoCapture, countdown))]
                         && history == PushSnapshot(old(history), old(entries))
                         && lastAccepted == now)
      ensures !added ==> unchanged(this)
      ensures Model() == Step(old(Model()), Observe(prediction, confidence, now, SourceOf(isAutoCapture, countdown)))
    {
      if now - lastAccepted < CooldownMs {
        return false;
      }
      var recentSame := FindRecentSame(entries, prediction, now);
      if recentSame.Some? {
        return false;
      }
      if confidence.Some? && confidence.value >= ConfidenceFloor {
        var newLetter := Entry(now, prediction, confidence.value, now, false, SourceOf(isAutoCapture, countdown));
        history := PushSnapshot(history, entries);
        entries := entries + [newLetter];
        lastAccepted := now;
        return true;
      } else {
        return false;
      }
    }

    /** `clearSequence` */
    method Clear()
      requires Valid()
      modifies this
      ensures Valid()
      ensures entries == [] && history == PushSnapshot(old(history), old(entries)) && lastAccepted == old(lastAccepted)
      ensures Model() == Step(old(Model()), ClearAll)
    {
      history := PushSnapshot(history, entries);
      entries := [];
    }

    /** `undoLastLetter` */
    method Undo()
      requires Valid()
      modifies this
      ensures Valid()
      ensures |old(history)| > 0 ==> (entries == old(history)[|old(history)| - 1]
                                      && history == old(history)[..|old(history)| - 1])
      ensures |old(history)| == 0 ==> entries == old(entries) && history == old(history)
      ensures lastAccepted == old(lastAccepted)
      ensures Model() == Step(old(Model()), UndoLast)
    {
      if |history| > 0 {
        var previous := history[|history| - 1];
        entries := previous;
        history := history[..|history| - 1];
      }
    }

    /** `addSpaceToSequence`: always accepted, and the cooldown clock does not move. */
    method AddSpace(now: int)
      requires Valid()
      modifies this
      ensures Valid()
      ensures entries == old(entries) + [SpaceEntry(now)]
      ensures history == PushSnapshot(old(history), old(entries)) && lastAccepted == old(lastAccepted)
      ensures Model() == Step(old(Model()), InsertSpace(now))
    {
      var spaceItem := Entry(now, " ", 1.0, now, true, Manual);
      history := PushSnapshot(history, entries);
      entries := entries + [spaceItem];
    }

    /** The text `copySequenceText` puts on the clipboard. */
    function Text(): string
      reads this
    {
      RenderText(entries)
    }

    /** The call site in `predictFromCamera`: only a successful reply with a letter other than
        "No hand detected" reaches `addLetterToSequence`. */
    method OnPrediction(result: Backend.Prediction, now: int, isAutoCapture: bool, countdown: int)
      returns (added: bool)
      requires Valid()
      modifies this
      ensures Valid()
      ensures !Backend.CarriesLetter(result) ==> !added && unchanged(this)
      ensures Backend.CarriesLetter(result) ==>
        Model() == Step(old(Model()), Observe(result.prediction, result.confidence, now, SourceOf(isAutoCapture, countdown)))
    {
      if result.success && result.prediction != "" && result.prediction != Backend.NoHandDetected {
        added := AddLetter(result.prediction, result.confidence, now, isAutoCapture, countdown);
      } else {
        added := false;
      }
    }
  }

  // ---------------------------------------------------------------------------------
  // Camera start-up failures

  const PermissionDenied: string := "Camera permission denied - please allow camera access"
  const NoCamera: string := "No camera found - check camera connection"
  const CameraBusy: string := "Camera is busy - close other apps using camera"
  const ConstraintsUnsupported: string := "Camera constraints not supported"
  const StartFailed: string := "Camera failed to start"

  /** The message shown when the camera cannot be started, by the browser's error name. */
  function StartupErrorMessage(name: string, message: string): (m: string)
    ensures |m| > 0
    ensures name == "NotAllowedError" ==> m == PermissionDenied
    ensures name == "NotFoundError" ==> m == NoCamera
    ensures name == "NotReadableError" ==> m == CameraBusy
    ensures name == "OverconstrainedError" ==> m == ConstraintsUnsupported
    ensures name !in {"NotAllowedError", "NotFoundError", "NotReadableError", "OverconstrainedError"} ==>
      m == if message != "" then message else StartFailed
  {
    if name == "NotAllowedError" then PermissionDenied
    else if name == "NotFoundError" then NoCamera
    else if name == "NotReadableError" then CameraBusy
    else if name == "OverconstrainedError" then ConstraintsUnsupported
    else if message != "" then message
    else StartFailed
  }

  /** The four known errors show their own fixed text whatever the browser's message says,
      and no two causes (nor the fallback) share a text. */
  lemma KnownStartupErrorsAreDistinct(message: string, other: string)
    ensures forall name :: name in {"NotAllowedError", "NotFoundError", "NotReadableError", "OverconstrainedError"} ==>
      StartupErrorMessage(name, message) == StartupErrorMessage(name, other)
    ensures |{PermissionDenied, NoCamera, CameraBusy, ConstraintsUnsupported, StartFailed}| == 5
  {
  }

  // ---------------------------------------------------------------------------------
  // Backend connectivity and the camera prediction gate

  /** `backendStatus`: 'checking' on mount, then what the connectivity check found. */
  datatype BackendStatus = Checking | Connected | Disconnected | Errored(message: string)

  /** What asking the backend whether it is up gives: yes, no, or an exception. */
  datatype Probe = Up | Down | Threw(message: string)

  /** The debug API client exports `request`, `healthCheck`, `getModelInfo`,
      `predictImage`, `validateImageFile` and `debugFullFlow`, but no availability check. */
  const ClientDefinesAvailabilityCheck: bool := false

  /** `checkBackendConnectivity` as written: it calls the client's availability check;
      on a client that lacks it the call throws a TypeError before any probe, and the
      catch sets 'error'. */
  function ConnectivityAsWritten(definesCheck: bool, probe: Probe): (st: BackendStatus)
    ensures !definesCheck ==> st.Errored?
    ensures definesCheck ==> (st == Connected <==> probe == Up)
  {
    if !definesCheck then Errored("Backend error: apiService.isBackendAvailable is not a function")
    else match probe
      case Up => Connected
      case Down => Disconnected
      case Threw(message) => Errored("Backend error: " + message)
  }

  /** The connectivity check as intended, through the client's health check: connected
      exactly when the backend answers that it is up. */
  function Connectivity(probe: Probe): (st: BackendStatus)
    ensures st == Connected <==> probe == Up
    ensures st == Disconnected <==> probe == Down
    ensures st.Errored? <==> probe.Threw?
  {
    match probe
    case Up => Connected
    case Down => Disconnected
    case Threw(message) => Errored("Backend error: " + message)
  }

  /** `predictFromCamera` goes on to capture only while streaming, with a video element,
      and with the backend connected. */
  function CameraMayPredict(streaming: bool, hasVideo: bool, status: BackendStatus): (go: bool)
    ensures go <==> streaming && hasVideo && status == Connected
  {
    streaming && hasVideo && status.Connected?
  }

  /** As written, the camera never predicts: even with the backend up, the status is
      'error' and every capture stops at the gate. */
  lemma CameraNeverPredictsAsWritten()
    ensures ConnectivityAsWritten(ClientDefinesAvailabilityCheck, Up).Errored?
    ensures forall probe: Probe :: !CameraMayPredict(true, true, ConnectivityAsWritten(ClientDefinesAvailabilityCheck, probe))
  {
  }

  /** With the intended check, a streaming camera predicts exactly when the backend is up. */
  lemma CameraPredictsWhenBackendUp(probe: Probe)
    ensures CameraMayPredict(true, true, Connectivity(probe)) <==> probe == Up
  {
  }
}
