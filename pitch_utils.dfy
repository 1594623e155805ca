/** The frequency-to-note classifier: a constant table of reference frequencies
    per note name, and a nearest-match scan over it. Frequencies are exact
    reals; every table constant is a two-decimal literal. */
module PitchUtils {

  /** One row of the reference table: a note name and its reference
      frequencies in Hz, one per octave. */
  datatype NoteFreq = NoteFreq(note: string, freq: seq<real>)

  /** The reference table, in source order. Each flat row repeats the list of
      the sharp row just above it. */
  const NoteFreqs: seq<NoteFreq> := [
    NoteFreq("E", [82.41, 164.81, 329.63, 659.25]),
    NoteFreq("F", [87.31, 174.61, 349.23]),
    NoteFreq("F#", [92.5, 185.0, 369.99]),
    NoteFreq("Gb", [92.5, 185.0, 369.99]),
    NoteFreq("G", [98.0, 196.0, 392.0]),
    NoteFreq("G#", [103.83, 207.65, 415.3]),
    NoteFreq("Ab", [103.83, 207.65, 415.3]),
    NoteFreq("A", [110.0, 220.0, 440.0]),
    NoteFreq("A#", [116.54, 233.08, 466.16]),
    NoteFreq("Bb", [116.54, 233.08, 466.16]),
    NoteFreq("B", [123.47, 246.94, 493.88]),
    NoteFreq("C", [130.81, 261.63, 523.25]),
    NoteFreq("C#", [138.59, 277.18, 554.37]),
    NoteFreq("Db", [138.59, 277.18, 554.37]),
    NoteFreq("D", [146.83, 293.66, 587.33]),
    NoteFreq("D#", [155.56, 311.13, 622.25]),
    NoteFreq("Eb", [155.56, 311.13, 622.25])
  ]

  /** A name spelled with a flat accidental, such as "Bb". */
  predicate IsFlatSpelling(s: string) {
    |s| == 2 && s[1] == 'b'
  }

  function Abs(x: real): (r: real)
    ensures r >= 0.0 && (r == x || r == -x)
  {
    if x < 0.0 then -x else x
  }

  /** Every row has at least one reference frequency. */
  predicate NonEmptyRows(rows: seq<NoteFreq>) {
    forall i :: 0 <= i < |rows| ==> |rows[i].freq| > 0
  }

  /** Distance from x to the nearest frequency in freqs: the smallest
      |f - x| over the list, scanned left to right as Math.min does. */
  function MinDiff(freqs: seq<real>, x: real): (d: real)
    requires |freqs| > 0
    ensures d >= 0.0
  {
    if |freqs| == 1 then Abs(freqs[0] - x)
    else
      var m := MinDiff(freqs[..|freqs| - 1], x);
      var last := Abs(freqs[|freqs| - 1] - x);
      if last < m then last else m
  }

  /** MinDiff is the distance to some entry of the list, and no entry is
      nearer. */
  lemma {:induction false} MinDiffIsNearest(freqs: seq<real>, x: real)
    requires |freqs| > 0
    ensures exists i :: 0 <= i < |freqs| && MinDiff(freqs, x) == Abs(freqs[i] - x)
    ensures forall i :: 0 <= i < |freqs| ==> MinDiff(freqs, x) <= Abs(freqs[i] - x)
  {
    if |freqs| > 1 {
      var init := freqs[..|freqs| - 1];
      MinDiffIsNearest(init, x);
      assert forall i :: 0 <= i < |init| ==> init[i] == freqs[i];
      var j :| 0 <= j < |init| && MinDiff(init, x) == Abs(init[j] - x);
      var n := |freqs| - 1;
      if Abs(freqs[n] - x) < MinDiff(init, x) {
        assert MinDiff(freqs, x) == Abs(freqs[n] - x);
      } else {
        assert MinDiff(freqs, x) == Abs(freqs[j] - x);
      }
    } else {
      assert MinDiff(freqs, x) == Abs(freqs[0] - x);
    }
  }

  /** Distance from x to the nearest reference frequency of one row. */
  function RowDiff(row: NoteFreq, x: real): real
    requires |row.freq| > 0
  {
    MinDiff(row.freq, x)
  }

  /** Index of the row that a left reduce over rows keeps: it starts from
      the first row and replaces the kept row only when the next one is
      strictly closer. The result is the earliest row of least distance. */
  function Closest(rows: seq<NoteFreq>, x: real): (k: nat)
    requires |rows| > 0 && NonEmptyRows(rows)
    ensures k < |rows|
    ensures forall i :: 0 <= i < |rows| ==> RowDiff(rows[k], x) <= RowDiff(rows[i], x)
    ensures forall i :: 0 <= i < k ==> RowDiff(rows[k], x) < RowDiff(rows[i], x)
  {
    if |rows| == 1 then 0
    else
      var last := |rows| - 1;
      var init := rows[..last];
      assert forall i :: 0 <= i < last ==> init[i] == rows[i];
      var prev := Closest(init, x);
      assert forall i :: 0 <= i < last ==> RowDiff(rows[prev], x) <= RowDiff(rows[i], x);
      if RowDiff(rows[last], x) < RowDiff(rows[prev], x) then last else prev
  }

  /** The kept row never repeats the list of the row above it: that row is
      just as near and comes first, and the reduce keeps it on a tie. */
  lemma ClosestSkipsRepeats(rows: seq<NoteFreq>, x: real)
    requires |rows| > 0 && NonEmptyRows(rows)
    ensures var k := Closest(rows, x); k == 0 || rows[k].freq != rows[k - 1].freq
  {
  }

  // ---------------------------------------------------------------------
  // Shape of a reference table

  /** Gap between the two closest reference frequencies of different
      rows (E2 = 82.41 Hz and F2 = 87.31 Hz). */
  const MinGap: real := 4.9

  /** The row that stands for row i's class: the row itself, or the row
      just above it when row i repeats that row's list. */
  function Canonical(rows: seq<NoteFreq>, i: nat): (c: nat)
    requires i < |rows|
    ensures c <= i && rows[c].freq == rows[i].freq
  {
    if i > 0 && rows[i].freq == rows[i - 1].freq then i - 1 else i
  }

  /** hi either repeats lo, or has no more octaves than lo and lies at
      least MinGap above it in each of them. */
  predicate StepsUp(lo: seq<real>, hi: seq<real>) {
    lo == hi ||
    (|hi| <= |lo| && forall p :: 0 <= p < |hi| ==> hi[p] - lo[p] >= MinGap)
  }

  /** Lowest and highest reference frequency of octave p in the table. */
  function BandLow(p: nat): real {
    if p == 0 then 82.41 else if p == 1 then 164.81 else if p == 2 then 329.63 else 659.25
  }

  function BandHigh(p: nat): real {
    if p == 0 then 155.56 else if p == 1 then 311.13 else if p == 2 then 622.25 else 659.25
  }

  /** Octave bands are ordered and at least MinGap apart. */
  lemma BandsSeparated(p: nat, q: nat)
    requires p < q <= 3
    ensures BandLow(q) - BandHigh(p) >= MinGap
  {
  }

  /** Entry p of a list lies in octave band p. */
  predicate InBands(freqs: seq<real>) {
    |freqs| <= 4 &&
    forall p :: 0 <= p < |freqs| ==> BandLow(p) <= freqs[p] <= BandHigh(p)
  }

  /** What the separation argument needs of a table: non-empty rows; each
      row steps up from the one above or repeats it; no list is repeated
      twice in a row; every entry in its octave band. */
  predicate Separable(rows: seq<NoteFreq>) {
    && |rows| > 0
    && NonEmptyRows(rows)
    && (forall a :: 1 <= a < |rows| ==> StepsUp(rows[a - 1].freq, rows[a].freq))
    && (forall a :: 2 <= a < |rows| && rows[a].freq == rows[a - 1].freq ==>
          rows[a - 1].freq != rows[a - 2].freq)
    && (forall a :: 0 <= a < |rows| ==> InBands(rows[a].freq))
  }

  /** Within one octave, entries never decrease down the table, and rows of
      different classes are at least MinGap apart. */
  lemma {:induction false} OctaveAscends(rows: seq<NoteFreq>, a: nat, b: nat, p: nat)
    requires Separable(rows)
    requires a <= b < |rows| && p < |rows[b].freq|
    ensures p < |rows[a].freq|
    ensures rows[a].freq[p] <= rows[b].freq[p]
    ensures Canonical(rows, a) != Canonical(rows, b) ==> rows[b].freq[p] - rows[a].freq[p] >= MinGap
  {
    if a < b {
      assert StepsUp(rows[b - 1].freq, rows[b].freq);
      OctaveAscends(rows, a, b - 1, p);
    }
  }

  /** Two reference frequencies closer than MinGap belong to the same
      class: the same row, or a row and the row repeating its list. */
  lemma FrequenciesSeparated(rows: seq<NoteFreq>, a: nat, p: nat, b: nat, q: nat)
    requires Separable(rows)
    requires a < |rows| && p < |rows[a].freq|
    requires b < |rows| && q < |rows[b].freq|
    requires Abs(rows[a].freq[p] - rows[b].freq[q]) < MinGap
    ensures Canonical(rows, a) == Canonical(rows, b)
  {
    assert InBands(rows[a].freq) && InBands(rows[b].freq);
    if p < q {
      BandsSeparated(p, q);
      assert false;
    } else if q < p {
      BandsSeparated(q, p);
      assert false;
    } else if a <= b {
      OctaveAscends(rows, a, b, p);
    } else {
      OctaveAscends(rows, b, a, p);
    }
  }

  /** In a separable table, an input less than half of MinGap from a reference
      frequency keeps the earliest row of that frequency's class. */
  lemma ClosestNearReference(rows: seq<NoteFreq>, i: nat, p: nat, x: real)
    requires Separable(rows)
    requires i < |rows| && p < |rows[i].freq|
    requires Abs(x - rows[i].freq[p]) < MinGap / 2.0
    ensures Closest(rows, x) == Canonical(rows, i)
  {
    var k := Closest(rows, x);
    MinDiffIsNearest(rows[i].freq, x);
    MinDiffIsNearest(rows[k].freq, x);
    var q :| 0 <= q < |rows[k].freq| && RowDiff(rows[k], x) == Abs(rows[k].freq[q] - x);
    assert Abs(rows[k].freq[q] - x) <= Abs(x - rows[i].freq[p]);
    FrequenciesSeparated(rows, k, q, i, p);
    ClosestSkipsRepeats(rows, x);
  }

  /** In a separable table, an input at or below the first entry of the
      first row keeps the first row. */
  lemma ClosestBelowRange(rows: seq<NoteFreq>, x: real)
    requires Separable(rows)
    requires x <= rows[0].freq[0]
    ensures Closest(rows, x) == 0
  {
    var k := Closest(rows, x);
    MinDiffIsNearest(rows[0].freq, x);
    if k != 0 {
      MinDiffIsNearest(rows[k].freq, x);
      ClosestSkipsRepeats(rows, x);
      OctaveAscends(rows, 0, k, 0);
      assert false;
    }
  }


  /** In a separable table whose first row alone reaches the fourth octave,
      an input at or above that row's last entry keeps the first row. */
  lemma ClosestAboveRange(rows: seq<NoteFreq>, x: real)
    requires Separable(rows)
    requires |rows[0].freq| == 4 && x >= rows[0].freq[3]
    requires forall a :: 1 <= a < |rows| ==> |rows[a].freq| <= 3
    ensures Closest(rows, x) == 0
  {
    var k := Closest(rows, x);
    MinDiffIsNearest(rows[0].freq, x);
    if k != 0 {
      MinDiffIsNearest(rows[k].freq, x);
      assert false;
    }
  }


  // ---------------------------------------------------------------------
  // The constant table and the classifier

  /** A name spelled with a sharp accidental, such as "A#". */
  predicate IsSharpSpelling(s: string) {
    |s| == 2 && s[1] == '#'
  }

  /** The table's shape: 17 rows, none empty; E has four octaves, every
      other row three. */
  lemma TableShape()
    ensures |NoteFreqs| == 17 && NonEmptyRows(NoteFreqs)
    ensures |NoteFreqs[0].freq| == 4
    ensures forall a :: 1 <= a < |NoteFreqs| ==> |NoteFreqs[a].freq| == 3
  {
  }

  /** A row repeats the list of the row above it exactly when it is spelled
      with a flat, and the row above a flat row is spelled with a sharp. */
  lemma TableSpellings()
    ensures !IsFlatSpelling(NoteFreqs[0].note)
    ensures forall a :: 1 <= a < |NoteFreqs| ==>
      (NoteFreqs[a].freq == NoteFreqs[a - 1].freq <==> IsFlatSpelling(NoteFreqs[a].note))
    ensures forall a :: 1 <= a < |NoteFreqs| && IsFlatSpelling(NoteFreqs[a].note) ==>
      IsSharpSpelling(NoteFreqs[a - 1].note)
  {
  }

  /** Down the table each row steps up a semitone from the one above, in
      every octave, or repeats it. */
  lemma TableAscends()
    ensures forall a :: 1 <= a < |NoteFreqs| ==> StepsUp(NoteFreqs[a - 1].freq, NoteFreqs[a].freq)
  {
  }

  /** Every entry lies in its octave band, E2..D#3, E3..D#4, E4..D#5, E5. */
  lemma TableBands()
    ensures forall a :: 0 <= a < |NoteFreqs| ==> InBands(NoteFreqs[a].freq)
  {
  }

  /** The constant table meets what the separation argument needs. */
  lemma TableSeparable()
    ensures Separable(NoteFreqs)
  {
    TableShape();
    TableSpellings();
    TableAscends();
    TableBands();
  }

  /** The note name whose reference frequencies come nearest to x: the
      label of the earliest nearest row. Never a flat spelling, because a
      flat row always follows a row with the same list and loses the tie. */
  function GetNoteFromFrequency(x: real): (note: string)
    ensures exists k :: 0 <= k < |NoteFreqs| && note == NoteFreqs[k].note
    ensures !IsFlatSpelling(note)
    ensures exists k ::
              0 <= k < |NoteFreqs| && note == NoteFreqs[k].note &&
              forall i :: 0 <= i < |NoteFreqs| ==> RowDiff(NoteFreqs[k], x) <= RowDiff(NoteFreqs[i], x)
  {
    TableShape();
    TableSpellings();
    ClosestSkipsRepeats(NoteFreqs, x);
    NoteFreqs[Closest(NoteFreqs, x)].note
  }

  /** Any input less than half of MinGap from a reference frequency resolves to
      that frequency's class, in its natural or sharp spelling. */
  lemma NearReference(i: nat, p: nat, x: real)
    requires i < |NoteFreqs| && p < |NoteFreqs[i].freq|
    requires Abs(x - NoteFreqs[i].freq[p]) < MinGap / 2.0
    ensures GetNoteFromFrequency(x) == NoteFreqs[Canonical(NoteFreqs, i)].note
  {
    TableSeparable();
    ClosestNearReference(NoteFreqs, i, p, x);
  }

  /** Exact hits: a reference frequency resolves to its own row's class. */
  lemma ExactHit(i: nat, p: nat)
    requires i < |NoteFreqs| && p < |NoteFreqs[i].freq|
    ensures GetNoteFromFrequency(NoteFreqs[i].freq[p]) == NoteFreqs[Canonical(NoteFreqs, i)].note
  {
    NearReference(i, p, NoteFreqs[i].freq[p]);
  }

  /** A row not spelled with a flat is reached by its own lowest reference
      frequency, so every natural and sharp in the table can be returned. */
  lemma RowReached(i: nat)
    requires i < |NoteFreqs| && !IsFlatSpelling(NoteFreqs[i].note)
    ensures |NoteFreqs[i].freq| > 0
    ensures GetNoteFromFrequency(NoteFreqs[i].freq[0]) == NoteFreqs[i].note
  {
    TableShape();
    TableSpellings();
    ExactHit(i, 0);
  }

  /** Concrete inputs at reference frequencies and the names they resolve to. */
  lemma ScenarioA2()
    ensures GetNoteFromFrequency(110.0) == "A"
  {
    ExactHit(7, 0);
    assert Canonical(NoteFreqs, 7) == 7;
  }

  lemma ScenarioE2()
    ensures GetNoteFromFrequency(82.41) == "E"
  {
    ExactHit(0, 0);
  }

  lemma ScenarioA4()
    ensures GetNoteFromFrequency(440.0) == "A"
  {
    ExactHit(7, 2);
    assert Canonical(NoteFreqs, 7) == 7;
  }

  lemma ScenarioFSharp2()
    ensures GetNoteFromFrequency(92.5) == "F#"
  {
    ExactHit(3, 0);
    assert Canonical(NoteFreqs, 3) == 2;
  }

  /** A slightly detuned A4 still resolves to "A". */
  lemma DetunedScenario()
    ensures GetNoteFromFrequency(441.0) == "A"
  {
    NearReference(7, 2, 441.0);
    assert Canonical(NoteFreqs, 7) == 7;
  }

  /** At or below the lowest reference frequency (E2), the result is "E". */
  lemma BelowRangeIsE(x: real)
    requires x <= 82.41
    ensures GetNoteFromFrequency(x) == "E"
  {
    TableSeparable();
    ClosestBelowRange(NoteFreqs, x);
  }

  /** At or above the highest reference frequency (E5), the result is "E". */
  lemma AboveRangeIsE(x: real)
    requires x >= 659.25
    ensures GetNoteFromFrequency(x) == "E"
  {
    TableSeparable();
    TableShape();
    ClosestAboveRange(NoteFreqs, x);
  }
}
