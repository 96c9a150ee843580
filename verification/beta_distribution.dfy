/** The Beta-distribution tile robot: per tile it keeps two count maps,
    `alpha` and `beta`, both defaulting to one of each colour. A perceived
    white adds one to `beta[position]['white']`, a perceived black adds one
    to `alpha[position]['black']`. A move is reversed, repeatedly, while a
    draw is at most `noise_prob`; perception flips on a draw of at most
    `noise_prob`. The score of a tile is the smaller of the two Beta
    variances. Every `random.random()` draw and the `random.choice` coin
    are parameters; the draws of one move are a finite sequence. */
module BetaDistribution {
  import opened Tiles

  datatype State = State(position: int, alpha: Histograms, beta: Histograms)

  /** The random values one iteration of `simulate` consumes: the tie coin,
      the draws of the (possibly repeatedly reversed) move, and the draw of
      perception. */
  datatype Draws = Draws(tie: Action, moves: seq<real>, perception: real)

  /** Mean and variance of the Beta distribution of each colour at a tile. */
  datatype Moments = Moments(meanWhite: real, varianceWhite: real, meanBlack: real, varianceBlack: real)

  /** `alpha[·]['white']` is never incremented, `beta[·]['black']` neither. */
  predicate AlphaShape(c: Counts) {
    c.white == 1 && c.black >= 1
  }

  predicate BetaShape(c: Counts) {
    c.white >= 1 && c.black == 1
  }

  ghost predicate Inv(platform: seq<Color>, s: State) {
    && 0 <= s.position < |platform|
    && (forall q: int :: AlphaShape(Lookup(s.alpha, q)))
    && (forall q: int :: BetaShape(Lookup(s.beta, q)))
  }

  lemma InvPositive(platform: seq<Color>, s: State)
    requires Inv(platform, s)
    ensures AllPositive(s.alpha) && AllPositive(s.beta)
  {
    forall q: int ensures Positive(Lookup(s.alpha, q)) && Positive(Lookup(s.beta, q)) {
      assert AlphaShape(Lookup(s.alpha, q)) && BetaShape(Lookup(s.beta, q));
    }
  }

  /** `update_histogram` after perception: a perceived white adds one to
      `beta[position]['white']` only, a perceived black adds one to
      `alpha[position]['black']` only; every other count is unchanged. */
  function Record(s: State, seen: Color): (r: State)
    ensures r.position == s.position
    ensures forall q: int, d: Color ::
              Count(Lookup(r.alpha, q), d)
              == Count(Lookup(s.alpha, q), d) + (if q == s.position && d == Black && seen == Black then 1 else 0)
    ensures forall q: int, d: Color ::
              Count(Lookup(r.beta, q), d)
              == Count(Lookup(s.beta, q), d) + (if q == s.position && d == White && seen == White then 1 else 0)
  {
    if seen == White then s.(beta := Observe(s.beta, s.position, White))
    else s.(alpha := Observe(s.alpha, s.position, Black))
  }

  lemma RecordKeepsInv(platform: seq<Color>, s: State, seen: Color)
    requires Inv(platform, s)
    ensures Inv(platform, Record(s, seen))
  {
    var r := Record(s, seen);
    forall q: int ensures AlphaShape(Lookup(r.alpha, q)) && BetaShape(Lookup(r.beta, q)) {
      assert AlphaShape(Lookup(s.alpha, q)) && BetaShape(Lookup(s.beta, q));
      assert Count(Lookup(r.alpha, q), White) == Count(Lookup(s.alpha, q), White);
      assert Count(Lookup(r.alpha, q), Black) >= Count(Lookup(s.alpha, q), Black);
      assert Count(Lookup(r.beta, q), White) >= Count(Lookup(s.beta, q), White);
      assert Count(Lookup(r.beta, q), Black) == Count(Lookup(s.beta, q), Black);
    }
  }

  /** Some draw of the sequence exceeds `noise_prob`, so the chain of
      reversed moves ends within it. */
  ghost predicate Settles(draws: seq<real>, noise: real) {
    exists j :: 0 <= j < |draws| && draws[j] > noise
  }

  lemma SettlesTail(draws: seq<real>, noise: real)
    requires draws != [] && draws[0] <= noise
    ensures Settles(draws, noise) <==> Settles(draws[1..], noise)
  {
    if Settles(draws, noise) {
      var j :| 0 <= j < |draws| && draws[j] > noise;
      assert draws[1..][j - 1] > noise;
    }
    if Settles(draws[1..], noise) {
      var j :| 0 <= j < |draws[1..]| && draws[1..][j] > noise;
      assert draws[j + 1] > noise;
    }
  }

  /** The direction `move_left` / `move_right` finally takes: each draw of
      at most `noise_prob` hands over to the opposite move, which draws
      again; `None` when the draws run out before one exceeds `noise_prob`. */
  function Heading(requested: Action, draws: seq<real>, noise: real): (r: Option<Action>)
    ensures r.Some? <==> Settles(draws, noise)
    decreases |draws|
  {
    if draws == [] then None
    else if draws[0] <= noise then
      SettlesTail(draws, noise);
      Heading(Opposite(requested), draws[1..], noise)
    else Some(requested)
  }

  /** How many leading draws are at most `noise_prob`: the number of times
      the move is handed over to the opposite direction. */
  function Reversals(draws: seq<real>, noise: real): nat {
    if draws == [] || draws[0] > noise then 0 else 1 + Reversals(draws[1..], noise)
  }

  /** The move goes the requested way after an even number of reversals and
      the opposite way after an odd number. */
  lemma {:induction false} HeadingParity(requested: Action, draws: seq<real>, noise: real)
    requires Settles(draws, noise)
    ensures Heading(requested, draws, noise)
         == Some(if Reversals(draws, noise) % 2 == 0 then requested else Opposite(requested))
    decreases |draws|
  {
    if draws[0] <= noise {
      SettlesTail(draws, noise);
      HeadingParity(Opposite(requested), draws[1..], noise);
      assert Opposite(Opposite(requested)) == requested;
    }
  }

  /** With `noise_prob >= 1` every draw of `random.random()` reverses the
      move again: the source's recursion never settles. */
  lemma {:induction false} HeadingNeverSettles(requested: Action, draws: seq<real>, noise: real)
    requires noise >= 1.0
    requires forall j :: 0 <= j < |draws| ==> 0.0 <= draws[j] < 1.0
    ensures Heading(requested, draws, noise) == None
    ensures Reversals(draws, noise) == |draws|
    decreases |draws|
  {
    if draws != [] {
      HeadingNeverSettles(Opposite(requested), draws[1..], noise);
    }
  }

  /** With `noise_prob = 0` a first draw above zero makes the move the
      requested clamped step; a first draw of exactly `0.0` still reverses it. */
  lemma NoiseFreeHeading(requested: Action, draws: seq<real>)
    requires |draws| > 0
    ensures draws[0] > 0.0 ==> Heading(requested, draws, 0.0) == Some(requested)
    ensures draws[0] == 0.0 && |draws| > 1 && draws[1] > 0.0
            ==> Heading(requested, draws, 0.0) == Some(Opposite(requested))
  {
  }

  /** Perceptions recorded on the platform's tiles, in `alpha` or in `beta`,
      beyond the default one-of-each. */
  function Recorded(platform: seq<Color>, s: State): int {
    Evidence(s.alpha, |platform|) + Evidence(s.beta, |platform|)
  }

  /** Recording a perception on the platform adds exactly one to its total. */
  lemma RecordCountsOne(platform: seq<Color>, s: State, seen: Color)
    requires 0 <= s.position < |platform|
    ensures Recorded(platform, Record(s, seen)) == Recorded(platform, s) + 1
  {
    if seen == White {
      ObserveEvidence(s.beta, s.position, White, |platform|);
    } else {
      ObserveEvidence(s.alpha, s.position, Black, |platform|);
    }
  }

  /** The settled move, clamped, then `update_histogram` with perception
      noise `noise` at the tile reached: one perception, in `alpha` if black
      and in `beta` if white, at the tile reached, and no other change. */
  function Moved(platform: seq<Color>, s: State, heading: Action, perception: real, noise: real): (r: State)
    requires Inv(platform, s)
    ensures Inv(platform, r)
    ensures r.position == Step(s.position, |platform|, heading)
    ensures forall q: int, d: Color ::
              Count(Lookup(r.alpha, q), d)
              == Count(Lookup(s.alpha, q), d)
                 + (if q == r.position && d == Black && Perceive(platform[r.position], perception, noise) == Black then 1 else 0)
    ensures forall q: int, d: Color ::
              Count(Lookup(r.beta, q), d)
              == Count(Lookup(s.beta, q), d)
                 + (if q == r.position && d == White && Perceive(platform[r.position], perception, noise) == White then 1 else 0)
  {
    var p := Step(s.position, |platform|, heading);
    RecordKeepsInv(platform, s.(position := p), Perceive(platform[p], perception, noise));
    Record(s.(position := p), Perceive(platform[p], perception, noise))
  }

  /** `predict_color`: white when `alpha_w / (alpha_w + beta_w)` is strictly
      above `alpha_b / (alpha_b + beta_b)`, compared by cross-multiplying. */
  function PredictFromBeta(alpha: Histograms, beta: Histograms, position: int): (r: Color)
    requires AllPositive(alpha) && AllPositive(beta)
    ensures var a := Lookup(alpha, position); var b := Lookup(beta, position);
            r == White <==> a.white * (a.black + b.black) > a.black * (a.white + b.white)
  {
    var a := Lookup(alpha, position);
    var b := Lookup(beta, position);
    assert Positive(a) && Positive(b);
    var totalWhite := a.white + b.white;
    var totalBlack := a.black + b.black;
    var pWhite := a.white as real / totalWhite as real;
    var pBlack := a.black as real / totalBlack as real;
    CrossMultiply(a.white, totalWhite, a.black, totalBlack);
    if pWhite > pBlack then White else Black
  }

  lemma CrossMultiply(x: nat, s: nat, y: nat, t: nat)
    requires s > 0 && t > 0
    ensures x as real / s as real > y as real / t as real <==> x * t > y * s
  {
    var p, q := x as real / s as real, y as real / t as real;
    assert p * s as real == x as real && q * t as real == y as real;
    assert (x * t) as real == p * (s as real * t as real);
    assert (y * s) as real == q * (s as real * t as real);
    ProductOrder(p, q, s as real * t as real);
  }

  lemma ProductOrder(p: real, q: real, k: real)
    requires k > 0.0
    ensures p > q <==> p * k > q * k
  {
    assert p * k - q * k == (p - q) * k;
  }

  /** Under the invariant `alpha[·]['white'] == beta[·]['black'] == 1`,
      the white share is `1 / (1 + beta_w) <= 1/2` and the black share is
      `alpha_b / (alpha_b + 1) >= 1/2`, so `predict_color` answers black
      at every position, however many whites were perceived. */
  lemma PredictAlwaysBlack(platform: seq<Color>, s: State, position: int)
    requires Inv(platform, s)
    ensures AllPositive(s.alpha) && AllPositive(s.beta)
    ensures PredictFromBeta(s.alpha, s.beta, position) == Black
  {
    InvPositive(platform, s);
    var a := Lookup(s.alpha, position);
    var b := Lookup(s.beta, position);
    assert AlphaShape(a) && BetaShape(b);
    assert a.black * b.white >= 1 by {
      MulAtLeastOne(a.black, b.white);
    }
  }

  lemma MulAtLeastOne(x: nat, y: nat)
    requires x >= 1 && y >= 1
    ensures x * y >= 1
  {
    assert x * y == x * (y - 1) + x;
  }

  function BetaMean(a: nat, b: nat): (m: real)
    requires a >= 1 && b >= 1
    ensures 0.0 < m < 1.0
  {
    ShareBounds(a, a + b);
    a as real / (a + b) as real
  }

  /** The Beta variance `a*b / ((a+b)**2 * (a+b+1))`, strictly positive and
      at most 1/12, the variance of the uniform prior `Beta(1, 1)`. */
  function BetaVariance(a: nat, b: nat): (v: real)
    requires a >= 1 && b >= 1
    ensures 0.0 < v <= 1.0 / 12.0
  {
    var n := a + b;
    var num := a * b;
    var den := n * n * (n + 1);
    VarianceBound(a, b);
    num as real / den as real
  }

  lemma VarianceBound(a: nat, b: nat)
    requires a >= 1 && b >= 1
    ensures var n := a + b;
            0.0 < (a * b) as real / (n * n * (n + 1)) as real <= 1.0 / 12.0
  {
    var n := a + b;
    MulAtLeastOne(a, b);
    DenominatorBound(a, b);
    QuotientBound((a * b) as real, (n * n * (n + 1)) as real);
  }

  /** `(a+b)**2 * (a+b+1) >= 12*a*b`: the square is at least `4*a*b` and the
      last factor at least 3. */
  lemma DenominatorBound(a: nat, b: nat)
    requires a >= 1 && b >= 1
    ensures (a + b) * (a + b) * (a + b + 1) >= 12 * (a * b)
  {
    var n := a + b;
    SquareBound(a, b);
    MulMono(n * n, 4 * (a * b), n + 1, 3);
  }

  /** `(a+b)**2 >= 4*a*b`, the difference being `(a-b)**2`. */
  lemma SquareBound(a: nat, b: nat)
    ensures (a + b) * (a + b) >= 4 * (a * b)
  {
    var d := if a >= b then a - b else b - a;
    assert (a + b) * (a + b) == 4 * (a * b) + d * d;
    MulMono(d, 0, d, 0);
  }

  lemma QuotientBound(num: real, den: real)
    requires num > 0.0 && den >= 12.0 * num
    ensures 0.0 < num / den <= 1.0 / 12.0
  {
    var v := num / den;
    assert v * den == num;
  }

  lemma MulMono(x: nat, x0: nat, y: nat, y0: nat)
    requires x >= x0 && y >= y0
    ensures x * y >= x0 * y0
  {
    assert x * y - x0 * y0 == (x - x0) * y + x0 * (y - y0);
  }

  /** `beta_mean_variance(position)`: both means strictly between 0 and 1,
      both variances strictly positive and at most 1/12. */
  function BetaMeanVariance(alpha: Histograms, beta: Histograms, position: int): (m: Moments)
    requires AllPositive(alpha) && AllPositive(beta)
    ensures 0.0 < m.meanWhite < 1.0 && 0.0 < m.meanBlack < 1.0
    ensures 0.0 < m.varianceWhite <= 1.0 / 12.0 && 0.0 < m.varianceBlack <= 1.0 / 12.0
  {
    var a := Lookup(alpha, position);
    var b := Lookup(beta, position);
    assert Positive(a) && Positive(b);
    Moments(BetaMean(a.white, b.white), BetaVariance(a.white, b.white),
            BetaMean(a.black, b.black), BetaVariance(a.black, b.black))
  }

  /** `mean_white` and `mean_black` are the shares `predict_color` compares. */
  lemma MeansDrivePrediction(alpha: Histograms, beta: Histograms, position: int)
    requires AllPositive(alpha) && AllPositive(beta)
    ensures var m := BetaMeanVariance(alpha, beta, position);
            PredictFromBeta(alpha, beta, position) == White <==> m.meanWhite > m.meanBlack
  {
    var a := Lookup(alpha, position);
    var b := Lookup(beta, position);
    assert Positive(a) && Positive(b);
    CrossMultiply(a.white, a.white + b.white, a.black, a.black + b.black);
  }

  /** `calculate_delta`: infinity off the platform, else the smaller of the
      two variances. */
  function CalculateDelta(width: int, alpha: Histograms, beta: Histograms, position: int): (d: Delta)
    requires AllPositive(alpha) && AllPositive(beta)
    ensures d.Infinite? <==> position < 0 || position >= width
    ensures d.Finite? ==>
              var m := BetaMeanVariance(alpha, beta, position);
              && 0.0 < d.value <= 1.0 / 12.0
              && d.value <= m.varianceWhite && d.value <= m.varianceBlack
              && (d.value == m.varianceWhite || d.value == m.varianceBlack)
  {
    if position < 0 || position >= width then Infinite
    else
      var m := BetaMeanVariance(alpha, beta, position);
      Finite(if m.varianceWhite <= m.varianceBlack then m.varianceWhite else m.varianceBlack)
  }

  /** `choose_action_cautious` at `position`. */
  function ChooseActionCautious(width: int, alpha: Histograms, beta: Histograms, position: int, tie: Action): (a: Action)
    requires AllPositive(alpha) && AllPositive(beta)
    ensures width >= 2 && position == 0 ==> a == Right
    ensures width >= 2 && position == width - 1 ==> a == Left
    ensures width >= 2 && 0 <= position < width ==> Open(position, width, a)
  {
    CautiousPick(CalculateDelta(width, alpha, beta, position - 1), CalculateDelta(width, alpha, beta, position + 1), tie)
  }

  /** `choose_action_adventurous` at `position`: at either end of a platform
      of two or more tiles it asks for the missing tile. */
  function ChooseActionAdventurous(width: int, alpha: Histograms, beta: Histograms, position: int, tie: Action): (a: Action)
    requires AllPositive(alpha) && AllPositive(beta)
    ensures width >= 2 && position == 0 ==> a == Left
    ensures width >= 2 && position == width - 1 ==> a == Right
    ensures width >= 2 && 0 <= position < width ==> (Open(position, width, a) <==> 0 < position < width - 1)
  {
    AdventurousPick(CalculateDelta(width, alpha, beta, position - 1), CalculateDelta(width, alpha, beta, position + 1), tie)
  }

  function Choose(strategy: Strategy, width: int, alpha: Histograms, beta: Histograms, position: int, tie: Action): Action
    requires AllPositive(alpha) && AllPositive(beta)
  {
    match strategy
    case Cautious => ChooseActionCautious(width, alpha, beta, position, tie)
    case Adventurous => ChooseActionAdventurous(width, alpha, beta, position, tie)
  }

  /** One iteration of `simulate` with noise `noise`: since the prediction
      is always black, the step counts an error exactly when it ends on a
      white tile. */
  function Advance(platform: seq<Color>, strategy: Strategy, noise: real, s: State, d: Draws): (t: Tally<State>)
    requires Inv(platform, s) && Settles(d.moves, noise)
    ensures Inv(platform, t.state)
    ensures t.errors == if platform[t.state.position] == White then 1 else 0
  {
    InvPositive(platform, s);
    var a := Choose(strategy, |platform|, s.alpha, s.beta, s.position, d.tie);
    var target := Target(s.position, a);
    var predicted := PredictFromBeta(s.alpha, s.beta, target);
    PredictAlwaysBlack(platform, s, target);
    var next := Moved(platform, s, Heading(a, d.moves, noise).value, d.perception, noise);
    Tally(next, if predicted != platform[next.position] then 1 else 0)
  }

  /** Every iteration records exactly one perception on the platform. */
  lemma AdvanceRecordsOne(platform: seq<Color>, strategy: Strategy, noise: real, s: State, d: Draws)
    requires Inv(platform, s) && Settles(d.moves, noise)
    ensures Recorded(platform, Advance(platform, strategy, noise, s, d).state) == Recorded(platform, s) + 1
  {
    InvPositive(platform, s);
    var a := Choose(strategy, |platform|, s.alpha, s.beta, s.position, d.tie);
    var p := Step(s.position, |platform|, Heading(a, d.moves, noise).value);
    RecordCountsOne(platform, s.(position := p), Perceive(platform[p], d.perception, noise));
  }

  ghost predicate AllSettle(draws: seq<Draws>, noise: real) {
    forall i :: 0 <= i < |draws| ==> Settles(draws[i].moves, noise)
  }

  /** The first `steps` iterations of `simulate(steps, strategy, noise)`:
      final state and wrong predictions; the run records exactly one
      perception per step. */
  function Run(platform: seq<Color>, strategy: Strategy, noise: real, s: State, draws: seq<Draws>, steps: nat): (t: Tally<State>)
    requires Inv(platform, s) && AllSettle(draws, noise) && steps <= |draws|
    ensures Inv(platform, t.state)
    ensures t.errors <= steps
    ensures Recorded(platform, t.state) == Recorded(platform, s) + steps
  {
    if steps == 0 then Tally(s, 0)
    else
      var before := Run(platform, strategy, noise, s, draws, steps - 1);
      var last := Advance(platform, strategy, noise, before.state, draws[steps - 1]);
      AdvanceRecordsOne(platform, strategy, noise, before.state, draws[steps - 1]);
      Tally(last.state, before.errors + last.errors)
  }

  /** One more iteration extends a run by one `Advance`. */
  lemma RunStep(platform: seq<Color>, strategy: Strategy, noise: real, s: State, draws: seq<Draws>, steps: nat)
    requires Inv(platform, s) && AllSettle(draws, noise) && steps < |draws|
    ensures Settles(draws[steps].moves, noise)
    ensures Run(platform, strategy, noise, s, draws, steps + 1).state
         == Advance(platform, strategy, noise, Run(platform, strategy, noise, s, draws, steps).state, draws[steps]).state
    ensures Run(platform, strategy, noise, s, draws, steps + 1).errors
         == Run(platform, strategy, noise, s, draws, steps).errors
            + Advance(platform, strategy, noise, Run(platform, strategy, noise, s, draws, steps).state, draws[steps]).errors
  {
  }

  class Robot {
    const platform: seq<Color>
    var position: int
    var alpha: Histograms
    var beta: Histograms
    /** `self.noise_prob`, which exists only once `simulate` has set it. */
    var noiseProb: Option<real>

    ghost predicate Valid()
      reads this
    {
      Inv(platform, Snapshot())
    }

    ghost function Snapshot(): State
      reads this
    {
      State(position, alpha, beta)
    }

    constructor (platform: seq<Color>)
      requires |platform| > 0
      ensures this.platform == platform
      ensures position == 0 && alpha == map[] && beta == map[] && noiseProb == None
      ensures Valid()
    {
      this.platform := platform;
      position := 0;
      alpha := map[];
      beta := map[];
      noiseProb := None;
    }

    method MoveLeft(draws: seq<real>, perception: real)
      requires Valid() && noiseProb.Some? && Settles(draws, noiseProb.value)
      modifies this
      ensures Valid() && noiseProb == old(noiseProb)
      ensures Snapshot()
           == Moved(platform, old(Snapshot()), Heading(Left, draws, noiseProb.value).value, perception, noiseProb.value)
      decreases |draws|
    {
      if draws[0] <= noiseProb.value {
        SettlesTail(draws, noiseProb.value);
        assert Heading(Left, draws, noiseProb.value) == Heading(Right, draws[1..], noiseProb.value);
        MoveRight(draws[1..], perception);
      } else {
        if position > 0 {
          position := position - 1;
        }
        UpdateHistogram(perception);
      }
    }

    method MoveRight(draws: seq<real>, perception: real)
      requires Valid() && noiseProb.Some? && Settles(draws, noiseProb.value)
      modifies this
      ensures Valid() && noiseProb == old(noiseProb)
      ensures Snapshot()
           == Moved(platform, old(Snapshot()), Heading(Right, draws, noiseProb.value).value, perception, noiseProb.value)
      decreases |draws|
    {
      if draws[0] <= noiseProb.value {
        SettlesTail(draws, noiseProb.value);
        assert Heading(Right, draws, noiseProb.value) == Heading(Left, draws[1..], noiseProb.value);
        MoveLeft(draws[1..], perception);
      } else {
        if position < |platform| - 1 {
          position := position + 1;
        }
        UpdateHistogram(perception);
      }
    }

    /** Perceive the current tile (flipped on a draw of at most
        `noise_prob`) and record it in `beta` (white) or `alpha` (black). */
    method UpdateHistogram(perception: real)
      requires Valid() && noiseProb.Some?
      modifies this`alpha, this`beta
      ensures Valid()
      ensures Snapshot() == Record(old(Snapshot()), Perceive(platform[position], perception, noiseProb.value))
    {
      var perceived := platform[position];
      if perception <= noiseProb.value {
        perceived := if perceived == Black then White else Black;
      }
      RecordKeepsInv(platform, Snapshot(), perceived);
      if perceived == White {
        beta := Observe(beta, position, White);
      } else {
        alpha := Observe(alpha, position, Black);
      }
    }

    /** One pass of the loop of `simulate`: choose an action, predict the
        colour of the tile it asks for, move, and report whether the
        prediction differs from the tile reached. */
    method Iteration(strategy: Strategy, d: Draws) returns (wrong: bool)
      requires Valid() && noiseProb.Some? && Settles(d.moves, noiseProb.value)
      modifies this
      ensures Valid() && noiseProb == old(noiseProb)
      ensures Tally(Snapshot(), if wrong then 1 else 0) == Advance(platform, strategy, noiseProb.value, old(Snapshot()), d)
    {
      InvPositive(platform, Snapshot());
      var action := Choose(strategy, |platform|, alpha, beta, position, d.tie);
      var nextPosition := Target(position, action);
      var predicted := PredictFromBeta(alpha, beta, nextPosition);
      if action == Left {
        MoveLeft(d.moves, d.perception);
      } else {
        MoveRight(d.moves, d.perception);
      }
      wrong := predicted != platform[position];
    }

    /** One iteration of `simulate` with its error count: after `i` steps
        of a run from `start`, the robot is one step further along it. */
    method CountedIteration(strategy: Strategy, draws: seq<Draws>, i: nat, ghost start: State, error: nat) returns (total: nat)
      requires Valid() && noiseProb.Some? && Inv(platform, start) && AllSettle(draws, noiseProb.value) && i < |draws|
      requires Tally(Snapshot(), error) == Run(platform, strategy, noiseProb.value, start, draws, i)
      modifies this
      ensures Valid() && noiseProb == old(noiseProb)
      ensures Tally(Snapshot(), total) == Run(platform, strategy, noiseProb.value, start, draws, i + 1)
    {
      RunStep(platform, strategy, noiseProb.value, start, draws, i);
      var wrong := Iteration(strategy, draws[i]);
      total := if wrong then error + 1 else error;
    }

    /** `simulate(steps, strategy, noise_prob)` with the random values of each
        step in `draws`; each step's move draws must contain one above
        `noise_prob`, where the source's chain of reversals ends. */
    method Simulate(steps: nat, strategy: Strategy, noise: real, draws: seq<Draws>) returns (error: nat)
      requires Valid() && |draws| == steps && AllSettle(draws, noise)
      modifies this
      ensures Valid() && noiseProb == Some(noise)
      ensures Tally(Snapshot(), error) == Run(platform, strategy, noise, old(Snapshot()), draws, steps)
    {
      noiseProb := Some(noise);
      error := 0;
      for i := 0 to steps
        invariant Valid() && noiseProb == Some(noise)
        invariant Tally(Snapshot(), error) == Run(platform, strategy, noise, old(Snapshot()), draws, i)
      {
        error := CountedIteration(strategy, draws, i, old(Snapshot()), error);
      }
    }
  }
}
