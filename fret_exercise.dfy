/** The game logic of the fret memorization exercise: the pool of target
    notes chosen from the preferences, the pick that never repeats the
    previous target, and the round state machine driven by detected
    frequencies. Audio capture, timers and rendering are not modelled; a
    detected frequency is an input, and the random numbers the page draws
    are supplied by the caller. */
module FretExercise {
  import PitchUtils

  datatype Option<T> = None | Some(value: T)

  /** The seven naturals, and the five accidentals in either spelling. */
  const Notes: seq<string> := ["A", "B", "C", "D", "E", "F", "G"]
  const Sharps: seq<string> := ["A#", "C#", "D#", "F#", "G#"]
  const Flats: seq<string> := ["Bb", "Db", "Eb", "Gb", "Ab"]

  /** Number of notes to play in one game. */
  const TotalRounds: nat := 20

  /** The page starts with Preferences(false, true): naturals only. */
  datatype Preferences = Preferences(includeInBetweens: bool, useSharps: bool)

  /** The pool of notes a target is drawn from; every pool starts with
      the seven naturals. */
  function NotePool(prefs: Preferences): (pool: seq<string>)
    ensures |pool| >= 7 && pool[..7] == Notes
  {
    if !prefs.includeInBetweens then Notes
    else if prefs.useSharps then Notes + Sharps
    else Notes + Flats
  }

  /** No name occurs twice. */
  predicate Distinct(s: seq<string>) {
    forall i, j :: 0 <= i < j < |s| ==> s[i] != s[j]
  }

  /** A single-letter name A..G. */
  predicate IsNatural(s: string) {
    |s| == 1 && 'A' <= s[0] <= 'G'
  }

  /** The three pools: the seven naturals alone; or the naturals followed
      by five accidentals, all sharps or all flats; every pool distinct. */
  lemma PoolContents(prefs: Preferences)
    ensures var pool := NotePool(prefs);
      && Distinct(pool)
      && |pool| == (if prefs.includeInBetweens then 12 else 7)
      && pool[..7] == Notes
      && (forall i :: 0 <= i < 7 ==> IsNatural(pool[i]))
      && (forall i :: 7 <= i < |pool| ==>
            if prefs.useSharps then PitchUtils.IsSharpSpelling(pool[i])
            else PitchUtils.IsFlatSpelling(pool[i]))
  {
  }

  /** Every natural is in every pool. */
  lemma NaturalsAlwaysInPool(prefs: Preferences, n: string)
    requires IsNatural(n)
    ensures n in NotePool(prefs)
  {
    assert n == [n[0]];
    assert n in Notes;
  }

  // ---------------------------------------------------------------------
  // Picking a target

  /** Math.floor(r * n) for a draw r of Math.random, which lies in [0, 1). */
  function DrawIndex(n: nat, r: real): (i: nat)
    requires n > 0 && 0.0 <= r < 1.0
    ensures i < n && i as real <= r * n as real < i as real + 1.0
  {
    assert 0.0 <= r * n as real < n as real by {
      assert r * n as real <= r * n as real + (1.0 - r) * n as real;
    }
    (r * n as real).Floor
  }

  /** Every draw lies in [0, 1), as Math.random's do. */
  predicate ValidDraws(draws: seq<real>) {
    forall j :: 0 <= j < |draws| ==> 0.0 <= draws[j] < 1.0
  }

  /** The note that draw r selects from pool. */
  function PickAt(pool: seq<string>, r: real): (note: string)
    requires |pool| > 0 && 0.0 <= r < 1.0
    ensures note in pool
  {
    pool[DrawIndex(|pool|, r)]
  }

  /** The draws eventually select a note other than prev. */
  predicate CanPick(pool: seq<string>, prev: Option<string>, draws: seq<real>) {
    && |pool| > 0
    && ValidDraws(draws)
    && exists k :: 0 <= k < |draws| && Some(PickAt(pool, draws[k])) != prev
  }

  /** Draw k is the first whose note differs from prev. */
  predicate FirstDiffering(pool: seq<string>, prev: Option<string>, draws: seq<real>, k: nat)
    requires |pool| > 0 && ValidDraws(draws)
  {
    && k < |draws|
    && Some(PickAt(pool, draws[k])) != prev
    && forall j :: 0 <= j < k ==> Some(PickAt(pool, draws[j])) == prev
  }

  /** The do..while retry loop: draw until the note differs from prev.
      Returns the note and the index of the draw that produced it. */
  method ChooseNote(pool: seq<string>, prev: Option<string>, draws: seq<real>) returns (note: string, k: nat)
    requires CanPick(pool, prev, draws)
    ensures FirstDiffering(pool, prev, draws, k)
    ensures note == PickAt(pool, draws[k])
    ensures note in pool && Some(note) != prev
  {
    ghost var w :| 0 <= w < |draws| && Some(PickAt(pool, draws[w])) != prev;
    k := 0;
    note := PickAt(pool, draws[0]);
    while Some(note) == prev
      invariant k <= w && note == PickAt(pool, draws[k])
      invariant forall j :: 0 <= j < k ==> Some(PickAt(pool, draws[j])) == prev
      decreases w - k
    {
      k := k + 1;
      note := PickAt(pool, draws[k]);
    }
  }

  /** Whatever the pool, some note differs from any previous target. */
  lemma PickAlwaysPossible(prefs: Preferences, prev: Option<string>)
    ensures exists n :: n in NotePool(prefs) && Some(n) != prev
  {
    var pool := NotePool(prefs);
    PoolContents(prefs);
    if Some(pool[0]) != prev {
      assert pool[0] in pool;
    } else {
      assert pool[1] in pool && Some(pool[1]) != prev;
    }
  }

  /** Whatever the pool and the previous target, a sequence of draws that
      the retry loop accepts exists: one draw that selects a pool note
      other than prev. */
  lemma DrawsExist(prefs: Preferences, prev: Option<string>)
    ensures exists draws :: CanPick(NotePool(prefs), prev, draws)
  {
    var pool := NotePool(prefs);
    PoolContents(prefs);
    var n := |pool|;
    var j: nat := if Some(pool[0]) != prev then 0 else 1;
    var r := j as real / n as real;
    assert r * n as real == j as real;
    assert DrawIndex(n, r) == j;
    assert Some(PickAt(pool, [r][0])) != prev;
    assert CanPick(pool, prev, [r]);
  }

  // ---------------------------------------------------------------------
  // The consequence for flat targets

  /** A flat target can never be matched: the classifier never returns a
      flat spelling, so the equality test on a detected note always fails. */
  lemma FlatTargetNeverMatches(prefs: Preferences, t: string, x: real)
    requires t in NotePool(prefs) && PitchUtils.IsFlatSpelling(t)
    ensures PitchUtils.GetNoteFromFrequency(x) != t
  {
  }

  /** A pool entry can be matched by some frequency exactly when it is not
      spelled with a flat. */
  lemma TargetMatchable(prefs: Preferences, t: string)
    requires t in NotePool(prefs)
    ensures (exists x :: PitchUtils.GetNoteFromFrequency(x) == t) <==> !PitchUtils.IsFlatSpelling(t)
  {
    if !PitchUtils.IsFlatSpelling(t) {
      assert t in Notes + Sharps;
      var i: nat :=
        if t == "E" then 0 else if t == "F" then 1 else if t == "F#" then 2
        else if t == "G" then 4 else if t == "G#" then 5 else if t == "A" then 7
        else if t == "A#" then 8 else if t == "B" then 10 else if t == "C" then 11
        else if t == "C#" then 12 else if t == "D" then 14 else 15;
      assert PitchUtils.NoteFreqs[i].note == t;
      PitchUtils.RowReached(i);
    }
  }

  /** With in-betweens and flats enabled, five of the twelve pool entries
      are such unmatchable targets. */
  lemma FlatPoolHasUnmatchableTargets(x: real)
    ensures var pool := NotePool(Preferences(true, false));
      forall i :: 7 <= i < |pool| ==> PitchUtils.GetNoteFromFrequency(x) != pool[i]
  {
    PoolContents(Preferences(true, false));
  }

  // ---------------------------------------------------------------------
  // The round state machine

  /** One game of the exercise: the state the page keeps between renders. */
  class NoteTrainer {
    var playing: bool
    var round: nat
    var finished: bool
    var target: Option<string>
    var detected: Option<string>
    var history: seq<string>
    const prefs: Preferences

    /** Before the first start nothing is set; while playing the round is
        within 1..TotalRounds, one record per completed round; a finished
        game has no target and a full history; targets and records come
        from the pool. */
    ghost predicate Valid()
      reads this
    {
      && round <= TotalRounds
      && (!playing ==> round == 0 && !finished && target == None && history == [])
      && (playing ==> 1 <= round)
      && (playing && !finished ==> target.Some? && |history| == round - 1)
      && (finished ==> playing && target == None && round == TotalRounds && |history| == TotalRounds)
      && (target.Some? ==> target.value in NotePool(prefs))
      && (forall i :: 0 <= i < |history| ==> history[i] in NotePool(prefs))
    }

    constructor (prefs: Preferences)
      ensures Valid() && this.prefs == prefs
      ensures !playing && round == 0 && !finished
      ensures target == None && detected == None && history == []
    {
      this.prefs := prefs;
      playing := false;
      round := 0;
      finished := false;
      target := None;
      detected := None;
      history := [];
    }

    /** Draws a new target different from prev. This is a step inside
        StartGame and OnDetected (the page's pickNewNote is private to it):
        it neither needs nor restores Valid(), which the caller
        re-establishes afterwards. */
    method PickNewNote(prev: Option<string>, draws: seq<real>)
      requires CanPick(NotePool(prefs), prev, draws)
      modifies this`target
      ensures target.Some? && target.value in NotePool(prefs) && Some(target.value) != prev
      ensures exists k: nat :: FirstDiffering(NotePool(prefs), prev, draws, k) &&
                          target.value == PickAt(NotePool(prefs), draws[k])
    {
      var note, k := ChooseNote(NotePool(prefs), prev, draws);
      target := Some(note);
    }

    /** Starts a new game: empty history, round 1, not finished, a fresh
        target from the first draw, playing. */
    method StartGame(draws: seq<real>)
      requires Valid()
      requires |draws| > 0 && ValidDraws(draws)
      modifies this
      ensures Valid()
      ensures history == [] && round == 1 && !finished && playing
      ensures target == Some(PickAt(NotePool(prefs), draws[0]))
      ensures detected == old(detected)
    {
      PoolContents(prefs);
      history := [];
      round := 1;
      finished := false;
      assert Some(PickAt(NotePool(prefs), draws[0])) != None;
      PickNewNote(None, draws);
      playing := true;
    }

    /** Whether a detection of frequency x completes the current round: a
        target is set, the game is not finished, the reading is non-zero
        and its note equals the target. A matched target is never a flat. */
    predicate Matches(x: real)
      reads this
      ensures Matches(x) ==> target.Some? && !PitchUtils.IsFlatSpelling(target.value)
    {
      target.Some? && !finished && x != 0.0 && PitchUtils.GetNoteFromFrequency(x) == target.value
    }

    /** Handles one detected frequency x. With no target, a finished game or
        a zero reading nothing changes. Otherwise the detected note is
        recorded; on a match the target is appended to the history, and
        either the next round starts with a target different from the old
        one (the countdown is taken as elapsed at once), or after the last
        round the game finishes with no target. */
    method OnDetected(x: real, draws: seq<real>)
      requires Valid()
      requires Matches(x) && round < TotalRounds ==> CanPick(NotePool(prefs), target, draws)
      modifies this
      ensures Valid()
      ensures playing == old(playing)
      ensures old(target).None? || old(finished) || x == 0.0 ==> detected == old(detected)
      ensures old(target).Some? && !old(finished) && x != 0.0 ==>
                detected == Some(PitchUtils.GetNoteFromFrequency(x))
      ensures !old(Matches(x)) ==>
                history == old(history) && round == old(round) &&
                finished == old(finished) && target == old(target)
      ensures old(Matches(x)) ==> history == old(history) + [old(target).value]
      ensures old(Matches(x)) && old(round) < TotalRounds ==>
                round == old(round) + 1 && !finished &&
                target.Some? && target != old(target) &&
                exists k: nat :: FirstDiffering(NotePool(prefs), old(target), draws, k) &&
                            target.value == PickAt(NotePool(prefs), draws[k])
      ensures old(Matches(x)) && old(round) >= TotalRounds ==>
                round == old(round) && finished && target == None
      ensures old(target).Some? && PitchUtils.IsFlatSpelling(old(target).value) ==>
                history == old(history) && round == old(round) && target == old(target)
    {
      if target.None? || finished || x == 0.0 {
        return;
      }
      var note := PitchUtils.GetNoteFromFrequency(x);
      detected := Some(note);
      if note == target.value {
        var hit := target;
        history := history + [hit.value];
        target := None;
        if round < TotalRounds {
          round := round + 1;
          PickNewNote(hit, draws);
        } else {
          finished := true;
          target := None;
        }
      }
    }
  }
}
