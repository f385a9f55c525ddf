/** The arithmetic of the result widgets (components/ResultVisuals.tsx): the
    GO/NO-GO test, the star counts of a score and the colours of the risk
    pie chart. Scores are exact reals. */
module ResultVisuals {
  import opened Common
  import opened JsString

  // ---------------------------------------------------------------------------
  // FinalVerdictCard (line 6)
  // ---------------------------------------------------------------------------

  /** `decision.toUpperCase() === 'GO'`. */
  predicate IsGo(decision: string): (b: bool)
    ensures b ==> |decision| == 2
  {
    ToUpperAscii(decision) == "GO"
  }

  /** Exactly the four spellings of "go" in any letter case count as GO. */
  lemma IsGoSpellings(decision: string)
    ensures IsGo(decision) <==> decision in {"GO", "Go", "gO", "go"}
  {
    if IsGo(decision) {
      var u := ToUpperAscii(decision);
      assert |decision| == 2;
      assert u[0] == 'G' && u[1] == 'O';
      assert decision[0] == 'G' || decision[0] == 'g';
      assert decision[1] == 'O' || decision[1] == 'o';
      assert decision == [decision[0], decision[1]];
    } else {
      assert ToUpperAscii("GO") == "GO";
      assert ToUpperAscii("Go") == "GO";
      assert ToUpperAscii("gO") == "GO";
      assert ToUpperAscii("go") == "GO";
    }
  }

  // ---------------------------------------------------------------------------
  // StarRating (line 14)
  // ---------------------------------------------------------------------------

  const TotalStars: int := 5

  /** JavaScript `x % 1`: the remainder keeps the sign of `x`. */
  function JsRemOne(x: real): (r: real)
    ensures x >= 0.0 ==> r == x - x.Floor as real
    ensures -1.0 < r < 1.0
  {
    if x >= 0.0 then x - x.Floor as real else x + (-x).Floor as real
  }

  datatype StarRow = StarRow(full: int, half: bool, empty: int)

  /** The counts of full, half and empty stars for `score`; `None` when one of
      the two `Array(n)` calls gets a negative length and throws. */
  function StarRating(score: real): (r: Option<StarRow>)
    ensures r.Some? ==> r.value.full >= 0 && r.value.empty >= 0
    ensures r.Some? ==> r.value.full + (if r.value.half then 1 else 0) + r.value.empty == TotalStars
  {
    var full := score.Floor;
    var half := JsRemOne(score) >= 0.5;
    var empty := TotalStars - full - (if half then 1 else 0);
    if full < 0 || empty < 0 then None else Some(StarRow(full, half, empty))
  }

  /** The counts exist exactly for scores in [0, 5.5): at 5.5 and above the
      empty count goes negative, below 0 the full count does. */
  lemma StarRatingDefined(score: real)
    ensures StarRating(score).Some? <==> 0.0 <= score < 5.5
  {
    var f := score.Floor;
    if 0.0 <= score < 5.5 {
      if score < 5.0 {
        assert f <= 4;
      } else {
        assert f == 5;
        assert JsRemOne(score) < 0.5;
      }
    } else if score >= 5.5 {
      if score < 6.0 {
        assert f == 5;
        assert JsRemOne(score) >= 0.5;
      } else {
        assert f >= 6;
      }
    } else {
      assert f < 0;
    }
  }

  /** Within the range: `full` is the floor of the score and the half star
      shows exactly when the fractional part is at least one half. */
  lemma StarRatingCounts(score: real)
    requires 0.0 <= score < 5.5
    ensures StarRating(score).Some?
    ensures StarRating(score).value.full == score.Floor
    ensures StarRating(score).value.half <==> score - score.Floor as real >= 0.5
  {
    StarRatingDefined(score);
  }

  /** The boundary cases. */
  lemma StarRatingExamples()
    ensures StarRating(3.5) == Some(StarRow(3, true, 1))
    ensures StarRating(3.4) == Some(StarRow(3, false, 2))
    ensures StarRating(4.5) == Some(StarRow(4, true, 0))
    ensures StarRating(5.0) == Some(StarRow(5, false, 0))
    ensures StarRating(5.5) == None
    ensures StarRating(-0.5) == None
  {
    assert (3.5).Floor == 3;
    assert (3.4).Floor == 3;
    assert (4.5).Floor == 4;
    assert (5.0).Floor == 5;
    assert (5.5).Floor == 5;
    assert (-0.5).Floor == -1;
  }

  // ---------------------------------------------------------------------------
  // RiskPieChart (lines 21, 28)
  // ---------------------------------------------------------------------------

  const Colours: seq<string> := ["#FBBF24", "#F97316", "#EF4444", "#DC2626"]

  /** `COLORS[index % COLORS.length]`. */
  function SliceColour(index: nat): (c: string)
    ensures c in Colours
  {
    Colours[index % |Colours|]
  }

  /** The fill of each of `n` slices, as `data.map` assigns them. */
  function PieColours(n: nat): (r: seq<string>)
    ensures |r| == n
    ensures forall i :: 0 <= i < n ==> r[i] == SliceColour(i)
  {
    seq(n, i requires 0 <= i < n => SliceColour(i))
  }

  /** Slices four apart share a colour; slices less than four apart do not,
      so neighbouring slices always differ. */
  lemma SliceColourPeriod(i: nat, j: nat)
    requires i <= j
    ensures SliceColour(i) == SliceColour(j) <==> (j - i) % 4 == 0
  {
    var a, b := i % 4, j % 4;
    assert i == 4 * (i / 4) + a && j == 4 * (j / 4) + b;
    assert (j - i) % 4 == 0 <==> a == b by {
      assert j - i == 4 * (j / 4 - i / 4) + (b - a);
      if a == b {
        assert j - i == 4 * (j / 4 - i / 4);
      } else {
        assert -4 < b - a < 4;
      }
    }
    assert Colours[a] == Colours[b] <==> a == b;
  }
}
