/**
 * The 10-slot history ring and the two motion classifiers that read it.
 *
 * The ring is four parallel arrays (heading, velocity, x, y) indexed by a
 * wrapping historyIndex; the variants that keep only heading and velocity
 * use the first two. The functions here give the meaning of the classifier
 * loops on the arrays' contents; the methods are the loops themselves.
 */
module History {
  import opened Common
  import opened Angles

  /** Length of every history array. */
  const SLOTS: int := 10

  /**
   * The contents of the ring: the heading, velocity, x and y arrays (the
   * last two empty in variants without them) and historyIndex.
   */
  datatype Ring = Ring(heading: seq<real>, velocity: seq<real>, xs: seq<real>, ys: seq<real>, index: int)

  /** A ring holding heading and velocity slots and an index within them. */
  predicate HasMotion(r: Ring)
  {
    |r.heading| == SLOTS && |r.velocity| == SLOTS && 0 <= r.index < SLOTS
  }

  /** A ring that also holds the position slots. */
  predicate HasPositions(r: Ring)
  {
    HasMotion(r) && |r.xs| == SLOTS && |r.ys| == SLOTS
  }

  /** Sum of |s[i]| for lo <= i < hi. */
  function SumAbs(s: seq<real>, lo: int, hi: int): real
    requires 0 <= lo <= hi <= |s|
    decreases hi - lo
  {
    if lo == hi then 0.0 else SumAbs(s, lo, hi - 1) + Abs(s[hi - 1])
  }

  /** The normalised heading change between slot i - 1 and slot i. */
  function Turn(h: seq<real>, i: int): real
    requires 1 <= i < |h|
  {
    NormalizeBearing(h[i] - h[i - 1])
  }

  /** Sum of Turn(h, i) for lo <= i < hi. */
  function SumTurn(h: seq<real>, lo: int, hi: int): real
    requires 1 <= lo <= hi <= |h|
    decreases hi - lo
  {
    if lo == hi then 0.0 else SumTurn(h, lo, hi - 1) + Turn(h, hi - 1)
  }

  /** Sum of |Turn(h, i)| for lo <= i < hi. */
  function SumAbsTurn(h: seq<real>, lo: int, hi: int): real
    requires 1 <= lo <= hi <= |h|
    decreases hi - lo
  {
    if lo == hi then 0.0 else SumAbsTurn(h, lo, hi - 1) + Abs(Turn(h, hi - 1))
  }

  /** A recorded position within 100 of any side of the battlefield. */
  predicate NearSide(x: real, y: real, width: real, height: real)
  {
    x < 100.0 || x > width - 100.0 || y < 100.0 || y > height - 100.0
  }

  /** How many of the slots 0 .. hi - 1 hold a position near a side. */
  function CountNearSide(xs: seq<real>, ys: seq<real>, hi: int, width: real, height: real): int
    requires 0 <= hi <= |xs| && hi <= |ys|
  {
    if hi == 0 then 0
    else CountNearSide(xs, ys, hi - 1, width, height) + (if NearSide(xs[hi - 1], ys[hi - 1], width, height) then 1 else 0)
  }

  /** Sum of the non-zero slots of s below hi, and how many there are. */
  function SumNonZero(s: seq<real>, hi: int): real
    requires 0 <= hi <= |s|
  {
    if hi == 0 then 0.0 else SumNonZero(s, hi - 1) + (if s[hi - 1] != 0.0 then s[hi - 1] else 0.0)
  }

  function CountNonZero(s: seq<real>, hi: int): int
    requires 0 <= hi <= |s|
  {
    if hi == 0 then 0 else CountNonZero(s, hi - 1) + (if s[hi - 1] != 0.0 then 1 else 0)
  }

  /** The number of slots the classifiers examine: min(historyIndex, 8). */
  function Window(index: int): int
  {
    MinInt(index, 8)
  }

  /**
   * detectSpinbot: false before 5 recordings; otherwise the mean |velocity|
   * and the mean |turn| over slots 1 .. min(historyIndex, 8) - 1 must exceed
   * 7 and 5. That range holds at least 4 samples, so the source's count > 0
   * guard always passes.
   */
  function SpinDetected(h: seq<real>, v: seq<real>, index: int): (r: bool)
    requires |h| == SLOTS && |v| == SLOTS && 0 <= index < SLOTS
    ensures index < 5 ==> !r
  {
    if index < 5 then false
    else
      var n := Window(index);
      var count := (n - 1) as real;
      SumAbs(v, 1, n) / count > 7.0 && SumAbsTurn(h, 1, n) / count > 5.0
  }

  /**
   * detectWallHugger: false before 5 recordings; otherwise, over the first
   * n = min(historyIndex, 8) slots, more than 60% of the positions are near a
   * side and the mean |velocity| is below 6.
   */
  function WallHuggerDetected(xs: seq<real>, ys: seq<real>, v: seq<real>, index: int, width: real, height: real): (r: bool)
    requires |xs| == SLOTS && |ys| == SLOTS && |v| == SLOTS && 0 <= index < SLOTS
    ensures index < 5 ==> !r
  {
    if index < 5 then false
    else
      var n := Window(index) as real;
      CountNearSide(xs, ys, Window(index), width, height) as real / n > 0.6
      && SumAbs(v, 0, Window(index)) / n < 6.0
  }

  /** The mean |velocity| over all ten slots, zeros included. */
  function MeanSpeed(v: seq<real>): real
    requires |v| == SLOTS
  {
    SumAbs(v, 0, SLOTS) / SLOTS as real
  }

  /**
   * The circular estimator's turn rate: the mean normalised heading change
   * over slots 1 .. n - 1, where n is historyIndex capped by cap (5 in most
   * variants, uncapped in one); 0 when there is no such slot.
   */
  function TurnRate(h: seq<real>, index: int, cap: Option<int>): real
    requires |h| == SLOTS && 0 <= index < SLOTS
  {
    var n := if cap.Some? then MinInt(index, cap.value) else index;
    var hi := if n < 1 then 1 else n;
    if hi - 1 > 0 then SumTurn(h, 1, hi) / (hi - 1) as real else 0.0
  }

  /** predictPattern's heading: the mean of the non-zero heading slots, or the current heading if all are zero. */
  function PatternHeading(h: seq<real>, current: real): real
  {
    var count := CountNonZero(h, |h|);
    if count > 0 then SumNonZero(h, |h|) / count as real else current
  }

  // ---------------------------------------------------------------- loops

  /** detectSpinbot's loop over the heading and velocity arrays. */
  method DetectSpinbot(heading: array<real>, velocity: array<real>, index: int) returns (r: bool)
    requires heading.Length == SLOTS && velocity.Length == SLOTS && 0 <= index < SLOTS
    ensures r == SpinDetected(heading[..], velocity[..], index)
  {
    if index < 5 {
      return false;
    }
    var avgVelocity := 0.0;
    var avgTurnRate := 0.0;
    var count := 0;
    var i := 1;
    while i < MinInt(index, 8)
      invariant 1 <= i <= Window(index)
      invariant count == i - 1
      invariant avgVelocity == SumAbs(velocity[..], 1, i)
      invariant avgTurnRate == SumAbsTurn(heading[..], 1, i)
    {
      avgVelocity := avgVelocity + Abs(velocity[i]);
      var turnChange := NormalizeBearingByLoops(heading[i] - heading[i - 1]);
      avgTurnRate := avgTurnRate + Abs(turnChange);
      count := count + 1;
      i := i + 1;
    }
    if count > 0 {
      avgVelocity := avgVelocity / count as real;
      avgTurnRate := avgTurnRate / count as real;
    }
    r := avgVelocity > 7.0 && avgTurnRate > 5.0;
  }

  /** detectWallHugger's loop over the position and velocity arrays. */
  method DetectWallHugger(xs: array<real>, ys: array<real>, velocity: array<real>, index: int, width: real, height: real)
    returns (r: bool)
    requires xs.Length == SLOTS && ys.Length == SLOTS && velocity.Length == SLOTS && 0 <= index < SLOTS
    ensures r == WallHuggerDetected(xs[..], ys[..], velocity[..], index, width, height)
  {
    if index < 5 {
      return false;
    }
    var nearWallCount := 0;
    var totalMovement := 0.0;
    var n := MinInt(index, 8);
    var i := 0;
    while i < n
      invariant 0 <= i <= n
      invariant nearWallCount == CountNearSide(xs[..], ys[..], i, width, height)
      invariant totalMovement == SumAbs(velocity[..], 0, i)
    {
      if xs[i] < 100.0 || xs[i] > width - 100.0 || ys[i] < 100.0 || ys[i] > height - 100.0 {
        nearWallCount := nearWallCount + 1;
      }
      totalMovement := totalMovement + Abs(velocity[i]);
      i := i + 1;
    }
    var wallPercentage := nearWallCount as real / n as real;
    var avgMovement := totalMovement / n as real;
    r := wallPercentage > 0.6 && avgMovement < 6.0;
  }

  /** The loop averaging |velocity| over the whole velocity array. */
  method AverageSpeed(velocity: array<real>) returns (avg: real)
    requires velocity.Length == SLOTS
    ensures avg == MeanSpeed(velocity[..])
  {
    avg := 0.0;
    for i := 0 to velocity.Length
      invariant avg == SumAbs(velocity[..], 0, i)
    {
      avg := avg + Abs(velocity[i]);
    }
    avg := avg / velocity.Length as real;
  }

  /** predictCircular's turn-rate loop; cap is None where the loop runs to historyIndex. */
  method CircularTurnRate(heading: array<real>, index: int, cap: Option<int>) returns (rate: real)
    requires heading.Length == SLOTS && 0 <= index < SLOTS
    ensures rate == TurnRate(heading[..], index, cap)
  {
    var n := if cap.Some? then MinInt(index, cap.value) else index;
    rate := 0.0;
    var samples := 0;
    var i := 1;
    while i < n
      invariant 1 <= i && (n >= 1 ==> i <= n) && (n < 1 ==> i == 1)
      invariant samples == i - 1
      invariant rate == SumTurn(heading[..], 1, i)
    {
      var change := NormalizeBearingByLoops(heading[i] - heading[i - 1]);
      rate := rate + change;
      samples := samples + 1;
      i := i + 1;
    }
    if samples > 0 {
      rate := rate / samples as real;
    }
  }

  /** predictPattern's loop averaging the non-zero heading slots. */
  method AveragePatternHeading(heading: array<real>, current: real) returns (avg: real)
    ensures avg == PatternHeading(heading[..], current)
  {
    avg := 0.0;
    var validEntries := 0;
    for i := 0 to heading.Length
      invariant avg == SumNonZero(heading[..], i)
      invariant validEntries == CountNonZero(heading[..], i)
    {
      if heading[i] != 0.0 {
        avg := avg + heading[i];
        validEntries := validEntries + 1;
      }
    }
    if validEntries > 0 {
      avg := avg / validEntries as real;
    } else {
      avg := current;
    }
  }
  // ---------------------------------------------------------------- lemmas

  lemma {:induction false} SumAbsAtMost(s: seq<real>, lo: int, hi: int, c: real)
    requires 0 <= lo <= hi <= |s|
    requires forall i :: lo <= i < hi ==> Abs(s[i]) <= c
    ensures SumAbs(s, lo, hi) <= c * (hi - lo) as real
    decreases hi - lo
  {
    if lo < hi {
      SumAbsAtMost(s, lo, hi - 1, c);
    }
  }

  lemma {:induction false} SumAbsTurnAtMost(h: seq<real>, lo: int, hi: int, c: real)
    requires 1 <= lo <= hi <= |h|
    requires forall i :: lo <= i < hi ==> Abs(Turn(h, i)) <= c
    ensures SumAbsTurn(h, lo, hi) <= c * (hi - lo) as real
    decreases hi - lo
  {
    if lo < hi {
      SumAbsTurnAtMost(h, lo, hi - 1, c);
      StepAtMost(SumAbsTurn(h, lo, hi - 1), Abs(Turn(h, hi - 1)), c, hi - 1 - lo);
    }
  }

  lemma {:induction false} SumAbsAtLeast(s: seq<real>, lo: int, hi: int, c: real)
    requires 0 <= lo <= hi <= |s|
    requires forall i :: lo <= i < hi ==> Abs(s[i]) >= c
    ensures SumAbs(s, lo, hi) >= c * (hi - lo) as real
    decreases hi - lo
  {
    if lo < hi {
      SumAbsAtLeast(s, lo, hi - 1, c);
    }
  }

  /**
   * A spinbot verdict needs evidence in single samples: some examined slot
   * has |velocity| > 7 and some examined heading change exceeds 5 degrees.
   */
  lemma SpinNeedsFastTurningSamples(h: seq<real>, v: seq<real>, index: int)
    requires |h| == SLOTS && |v| == SLOTS && 0 <= index < SLOTS
    requires SpinDetected(h, v, index)
    ensures exists i :: 1 <= i < Window(index) && Abs(v[i]) > 7.0
    ensures exists i :: 1 <= i < Window(index) && Abs(Turn(h, i)) > 5.0
  {
    SpinBySums(h, v, index);
    FastTurningSamples(h, v, Window(index));
  }

  /** Sums above 7 and 5 per examined slot have a slot above 7 and a turn above 5. */
  lemma FastTurningSamples(h: seq<real>, v: seq<real>, n: int)
    requires 1 <= n <= |h| && n <= |v|
    requires SumAbs(v, 1, n) > 7.0 * (n - 1) as real && SumAbsTurn(h, 1, n) > 5.0 * (n - 1) as real
    ensures exists i :: 1 <= i < n && Abs(v[i]) > 7.0
    ensures exists i :: 1 <= i < n && Abs(Turn(h, i)) > 5.0
  {
    var i := LargeSample(v, 1, n, 7.0);
    var j := LargeTurn(h, 1, n, 5.0);
  }

  /** One more term of at most c keeps a sum of k terms of at most c within c per term. */
  lemma StepAtMost(sum: real, term: real, c: real, k: int)
    requires sum <= c * k as real && term <= c
    ensures sum + term <= c * (k + 1) as real
  {
  }

  /** One more term of at least c keeps a sum of k terms of at least c at c per term or more. */
  lemma StepAtLeast(sum: real, term: real, c: real, k: int)
    requires sum >= c * k as real && term >= c
    ensures sum + term >= c * (k + 1) as real
  {
  }

  /** Dropping a term of at most c from a sum above c per term leaves a sum above c per term. */
  lemma StepAbove(sum: real, term: real, c: real, k: int)
    requires sum + term > c * (k + 1) as real && term <= c
    ensures sum > c * k as real
  {
  }

  /** sum / count > c exactly when sum > c * count, for a positive count. */
  lemma DivAbove(sum: real, count: real, c: real)
    requires count > 0.0
    ensures sum / count > c <==> sum > c * count
  {
    assert sum == (sum / count) * count;
  }

  /** sum / count < c exactly when sum < c * count, for a positive count. */
  lemma DivBelow(sum: real, count: real, c: real)
    requires count > 0.0
    ensures sum / count < c <==> sum < c * count
  {
    assert sum == (sum / count) * count;
  }

  /** detectSpinbot's two mean tests, restated on the sums. */
  lemma {:induction false} SpinBySums(h: seq<real>, v: seq<real>, index: int)
    requires |h| == SLOTS && |v| == SLOTS && 5 <= index < SLOTS
    ensures SpinDetected(h, v, index) <==>
      SumAbs(v, 1, Window(index)) > 7.0 * (Window(index) - 1) as real
      && SumAbsTurn(h, 1, Window(index)) > 5.0 * (Window(index) - 1) as real
  {
    MeansBySums(SumAbs(v, 1, Window(index)), SumAbsTurn(h, 1, Window(index)), (Window(index) - 1) as real);
  }

  lemma MeansBySums(sv: real, st: real, count: real)
    requires count > 0.0
    ensures (sv / count > 7.0 && st / count > 5.0) <==> (sv > 7.0 * count && st > 5.0 * count)
  {
    DivAbove(sv, count, 7.0);
    DivAbove(st, count, 5.0);
  }

  /** detectWallHugger's two tests, restated on the count and the sum. */
  lemma {:induction false} WallHuggerBySums(xs: seq<real>, ys: seq<real>, v: seq<real>, index: int, width: real, height: real)
    requires |xs| == SLOTS && |ys| == SLOTS && |v| == SLOTS && 5 <= index < SLOTS
    ensures WallHuggerDetected(xs, ys, v, index, width, height) <==>
      CountNearSide(xs, ys, Window(index), width, height) as real > 0.6 * Window(index) as real
      && SumAbs(v, 0, Window(index)) < 6.0 * Window(index) as real
  {
    var n := Window(index) as real;
    var near := CountNearSide(xs, ys, Window(index), width, height) as real;
    var sv := SumAbs(v, 0, Window(index));
    assert (near / n > 0.6) == (near > 0.6 * n) by { DivAbove(near, n, 0.6); }
    assert (sv / n < 6.0) == (sv < 6.0 * n) by { DivBelow(sv, n, 6.0); }
  }

  /** A sum above c per term has a term above c. */
  lemma {:induction false} LargeSample(s: seq<real>, lo: int, hi: int, c: real) returns (i: int)
    requires 0 <= lo <= hi <= |s|
    requires SumAbs(s, lo, hi) > c * (hi - lo) as real
    ensures lo <= i < hi && Abs(s[i]) > c
    decreases hi - lo
  {
    if Abs(s[hi - 1]) > c {
      i := hi - 1;
    } else {
      i := LargeSample(s, lo, hi - 1, c);
    }
  }

  /** A sum of |turns| above c per term has a turn above c. */
  lemma {:induction false} LargeTurn(h: seq<real>, lo: int, hi: int, c: real) returns (i: int)
    requires 1 <= lo <= hi <= |h|
    requires SumAbsTurn(h, lo, hi) > c * (hi - lo) as real
    ensures lo <= i < hi && Abs(Turn(h, i)) > c
    decreases hi - lo
  {
    var last := Abs(Turn(h, hi - 1));
    if last > c {
      i := hi - 1;
    } else {
      StepAbove(SumAbsTurn(h, lo, hi - 1), last, c, hi - 1 - lo);
      i := LargeTurn(h, lo, hi - 1, c);
    }
  }

  /** A robot whose every examined sample moves at 8 (full speed) and turns by more than 5 is a spinbot. */
  lemma FullSpeedCirclerIsSpinbot(h: seq<real>, v: seq<real>, index: int)
    requires |h| == SLOTS && |v| == SLOTS && 5 <= index < SLOTS
    requires forall i :: 1 <= i < Window(index) ==> Abs(v[i]) >= 8.0
    requires forall i :: 1 <= i < Window(index) ==> Abs(Turn(h, i)) >= 6.0
    ensures SpinDetected(h, v, index)
  {
    var n := Window(index);
    SumAbsAtLeast(v, 1, n, 8.0);
    SumAbsTurnAtLeast(h, 1, n, 6.0);
    SpinBySums(h, v, index);
  }

  lemma {:induction false} SumAbsTurnAtLeast(h: seq<real>, lo: int, hi: int, c: real)
    requires 1 <= lo <= hi <= |h|
    requires forall i :: lo <= i < hi ==> Abs(Turn(h, i)) >= c
    ensures SumAbsTurn(h, lo, hi) >= c * (hi - lo) as real
    decreases hi - lo
  {
    if lo < hi {
      SumAbsTurnAtLeast(h, lo, hi - 1, c);
      StepAtLeast(SumAbsTurn(h, lo, hi - 1), Abs(Turn(h, hi - 1)), c, hi - 1 - lo);
    }
  }

  lemma {:induction false} CountNearSideAtMost(xs: seq<real>, ys: seq<real>, hi: int, width: real, height: real)
    requires 0 <= hi <= |xs| && hi <= |ys|
    ensures 0 <= CountNearSide(xs, ys, hi, width, height) <= hi
  {
    if hi > 0 {
      CountNearSideAtMost(xs, ys, hi - 1, width, height);
    }
  }

  /**
   * A wall-hugger verdict needs at least 4 near-side positions among the
   * 5 to 8 examined, and at least one examined slot slower than 6.
   */
  lemma WallHuggerNeedsNearSlowSamples(xs: seq<real>, ys: seq<real>, v: seq<real>, index: int, width: real, height: real)
    requires |xs| == SLOTS && |ys| == SLOTS && |v| == SLOTS && 0 <= index < SLOTS
    requires WallHuggerDetected(xs, ys, v, index, width, height)
    ensures 5 <= Window(index) <= 8
    ensures CountNearSide(xs, ys, Window(index), width, height) >= 4
    ensures exists i :: 0 <= i < Window(index) && Abs(v[i]) < 6.0
  {
    var n := Window(index);
    WallHuggerBySums(xs, ys, v, index, width, height);
    var i := SmallSample(v, 0, n, 6.0);
  }

  /** A sum below c per term has a term below c. */
  lemma {:induction false} SmallSample(s: seq<real>, lo: int, hi: int, c: real) returns (i: int)
    requires 0 <= lo < hi <= |s|
    requires SumAbs(s, lo, hi) < c * (hi - lo) as real
    ensures lo <= i < hi && Abs(s[i]) < c
    decreases hi - lo
  {
    if Abs(s[hi - 1]) < c {
      i := hi - 1;
    } else {
      i := SmallSample(s, lo, hi - 1, c);
    }
  }

  lemma {:induction false} SumTurnBounded(h: seq<real>, lo: int, hi: int)
    requires 1 <= lo <= hi <= |h|
    ensures -180.0 * (hi - lo) as real <= SumTurn(h, lo, hi) <= 180.0 * (hi - lo) as real
    decreases hi - lo
  {
    if lo < hi {
      SumTurnBounded(h, lo, hi - 1);
      NormalizeBearingProperties(h[hi - 1] - h[hi - 2]);
    }
  }

  /** The circular turn rate is a mean of normalised changes, so it lies in [-180, 180]; it is 0 before two recordings. */
  lemma TurnRateBounded(h: seq<real>, index: int, cap: Option<int>)
    requires |h| == SLOTS && 0 <= index < SLOTS
    ensures -180.0 <= TurnRate(h, index, cap) <= 180.0
    ensures index <= 1 ==> TurnRate(h, index, cap) == 0.0
  {
    var n := if cap.Some? then MinInt(index, cap.value) else index;
    var hi := if n < 1 then 1 else n;
    SumTurnBounded(h, 1, hi);
    if hi - 1 > 0 {
      var k := (hi - 1) as real;
      MeanWithin(SumTurn(h, 1, hi), k, 180.0);
    }
  }

  /** A sum within c times the count, in absolute value, has a mean within c. */
  lemma MeanWithin(sum: real, count: real, c: real)
    requires count > 0.0 && -c * count <= sum <= c * count
    ensures -c <= sum / count <= c
  {
    assert sum == (sum / count) * count;
  }

  lemma {:induction false} SumTurnOfConstant(h: seq<real>, lo: int, hi: int)
    requires 1 <= lo <= hi <= |h|
    requires forall i :: 0 <= i < |h| ==> h[i] == h[0]
    ensures SumTurn(h, lo, hi) == 0.0
    decreases hi - lo
  {
    if lo < hi {
      SumTurnOfConstant(h, lo, hi - 1);
      assert h[hi - 1] - h[hi - 2] == 0.0;
    }
  }

  /** A ring that recorded one unchanging heading yields a turn rate of 0. */
  lemma ConstantHeadingHasNoTurnRate(h: seq<real>, index: int, cap: Option<int>)
    requires |h| == SLOTS && 0 <= index < SLOTS
    requires forall i :: 0 <= i < |h| ==> h[i] == h[0]
    ensures TurnRate(h, index, cap) == 0.0
  {
    var n := if cap.Some? then MinInt(index, cap.value) else index;
    var hi := if n < 1 then 1 else n;
    SumTurnOfConstant(h, 1, hi);
  }

  lemma {:induction false} NonZeroOfConstant(s: seq<real>, hi: int, c: real)
    requires 0 <= hi <= |s| && c != 0.0
    requires forall i :: 0 <= i < |s| ==> s[i] == c
    ensures CountNonZero(s, hi) == hi
    ensures SumNonZero(s, hi) == c * hi as real
  {
    if hi > 0 {
      NonZeroOfConstant(s, hi - 1, c);
    }
  }

  /** predictPattern on a ring holding one non-zero heading everywhere returns that heading. */
  lemma PatternOfConstantHeading(h: seq<real>, c: real, current: real)
    requires |h| > 0 && c != 0.0
    requires forall i :: 0 <= i < |h| ==> h[i] == c
    ensures PatternHeading(h, current) == c
  {
    NonZeroOfConstant(h, |h|, c);
  }

  lemma {:induction false} NoNonZero(s: seq<real>, hi: int)
    requires 0 <= hi <= |s|
    requires forall i :: 0 <= i < |s| ==> s[i] == 0.0
    ensures CountNonZero(s, hi) == 0
  {
    if hi > 0 {
      NoNonZero(s, hi - 1);
    }
  }

  /** On a cleared ring predictPattern falls back to the current heading. */
  lemma PatternOfClearedRing(h: seq<real>, current: real)
    requires forall i :: 0 <= i < |h| ==> h[i] == 0.0
    ensures PatternHeading(h, current) == current
  {
    NoNonZero(h, |h|);
  }

  // ---------------------------------------------------------------- ring updates

  /** n slots of 0. */
  function Zeros(n: nat): (z: seq<real>)
    ensures |z| == n && forall i :: 0 <= i < n ==> z[i] == 0.0
  {
    seq(n, _ => 0.0)
  }

  /** resetPatternHistory / resetHistory: every slot of every array 0, index 0. */
  function Cleared(r: Ring): (q: Ring)
    ensures |q.heading| == |r.heading| && |q.velocity| == |r.velocity| && |q.xs| == |r.xs| && |q.ys| == |r.ys|
    ensures q.index == 0
    ensures forall i :: 0 <= i < |q.heading| ==> q.heading[i] == 0.0
    ensures forall i :: 0 <= i < |q.velocity| ==> q.velocity[i] == 0.0
    ensures forall i :: 0 <= i < |q.xs| ==> q.xs[i] == 0.0
    ensures forall i :: 0 <= i < |q.ys| ==> q.ys[i] == 0.0
  {
    Ring(Zeros(|r.heading|), Zeros(|r.velocity|), Zeros(|r.xs|), Zeros(|r.ys|), 0)
  }

  /**
   * One history write: the sighting goes into slot historyIndex of each
   * array the ring has, the other slots keep their values, and the index
   * moves on by one, wrapping from 9 to 0.
   */
  function Recorded(r: Ring, heading: real, velocity: real, x: real, y: real): (q: Ring)
    requires HasMotion(r)
    ensures HasMotion(q) && |q.xs| == |r.xs| && |q.ys| == |r.ys|
    ensures q.index == if r.index == SLOTS - 1 then 0 else r.index + 1
    ensures q.heading[r.index] == heading && q.velocity[r.index] == velocity
    ensures forall i :: 0 <= i < SLOTS && i != r.index ==> q.heading[i] == r.heading[i] && q.velocity[i] == r.velocity[i]
    ensures |r.xs| == SLOTS && |r.ys| == SLOTS ==> q.xs[r.index] == x && q.ys[r.index] == y
    ensures |r.xs| == SLOTS && |r.ys| == SLOTS ==>
              forall i :: 0 <= i < SLOTS && i != r.index ==> q.xs[i] == r.xs[i] && q.ys[i] == r.ys[i]
    ensures |r.xs| != SLOTS || |r.ys| != SLOTS ==> q.xs == r.xs && q.ys == r.ys
  {
    var i := r.index;
    if |r.xs| == SLOTS && |r.ys| == SLOTS then
      Ring(r.heading[i := heading], r.velocity[i := velocity], r.xs[i := x], r.ys[i := y], (i + 1) % SLOTS)
    else
      Ring(r.heading[i := heading], r.velocity[i := velocity], r.xs, r.ys, (i + 1) % SLOTS)
  }

  /**
   * A freshly cleared ring classifies nothing: no spin, no wall hugging, no
   * turn rate, and predictPattern falls back to the current heading.
   */
  lemma ClearedRingIsQuiet(r: Ring, cap: Option<int>, current: real, width: real, height: real)
    requires HasPositions(r)
    ensures !SpinDetected(Cleared(r).heading, Cleared(r).velocity, 0)
    ensures !WallHuggerDetected(Cleared(r).xs, Cleared(r).ys, Cleared(r).velocity, 0, width, height)
    ensures TurnRate(Cleared(r).heading, 0, cap) == 0.0
    ensures PatternHeading(Cleared(r).heading, current) == current
  {
    PatternOfClearedRing(Cleared(r).heading, current);
  }

  /**
   * After a reset, the sighting that follows is the ring's only sample: slot
   * 0 holds it, every other slot is 0 and the index is 1.
   */
  lemma OneSampleAfterReset(r: Ring, heading: real, velocity: real, x: real, y: real)
    requires HasMotion(r)
    ensures var q := Recorded(Cleared(r), heading, velocity, x, y);
      q.index == 1 && q.heading[0] == heading && q.velocity[0] == velocity
      && (forall i :: 1 <= i < SLOTS ==> q.heading[i] == 0.0 && q.velocity[i] == 0.0)
      && (HasPositions(r) ==> q.xs[0] == x && q.ys[0] == y && forall i :: 1 <= i < SLOTS ==> q.xs[i] == 0.0 && q.ys[i] == 0.0)
  {
  }
}
