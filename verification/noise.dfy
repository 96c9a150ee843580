/** The noisy tile robot: a move goes the requested way only when a draw
    exceeds 0.1, may go the opposite way on a second draw of at most 0.1,
    and is clamped at both ends; perception reports the wrong colour when
    a third draw is at most 0.1. The next move is chosen by comparing a
    score of the two neighbouring tiles, cautiously (smaller score) or
    adventurously (larger score). Every `random.random()` draw and the
    `random.choice` coin are parameters. */
module Noise {
  import opened Tiles

  /** The fixed noise level of moves and perception. */
  const FlipChance: real := 0.1

  /** The noisy robot's own state, invariant and observation total: the
      same definitions as the exact robot's, kept per variant as the source
      keeps one `Robot` class per file. */
  datatype State = State(position: int, histograms: Histograms)

  /** The random values one iteration of `simulate` consumes: the tie coin
      of the policy, the two draws of the move and the draw of perception. */
  datatype Draws = Draws(tie: Action, first: real, second: real, perception: real)

  ghost predicate Inv(platform: seq<Color>, s: State) {
    0 <= s.position < |platform| && AllPositive(s.histograms)
  }

  /** Observations recorded on the platform's tiles beyond the default
      one-of-each. */
  function Recorded(platform: seq<Color>, s: State): int {
    Evidence(s.histograms, |platform|)
  }

  /** The position after the noisy `move_left` (`a == Left`) or
      `move_right` (`a == Right`): the requested neighbour when it exists
      and the first draw exceeds 0.1; otherwise the opposite neighbour when
      it exists and the second draw is at most 0.1; otherwise no move. */
  function NoisyStep(position: int, width: int, a: Action, first: real, second: real): (r: int)
    requires 0 <= position < width
    ensures 0 <= r < width
    ensures -1 <= r - position <= 1
    ensures r == Target(position, a) <==> Open(position, width, a) && first > FlipChance
    ensures r == Target(position, Opposite(a))
        <==> !(Open(position, width, a) && first > FlipChance)
             && Open(position, width, Opposite(a)) && second <= FlipChance
  {
    match a
    case Left =>
      if position > 0 && first > FlipChance then position - 1
      else if position < width - 1 && second <= FlipChance then position + 1
      else position
    case Right =>
      if position < width - 1 && first > FlipChance then position + 1
      else if position > 0 && second <= FlipChance then position - 1
      else position
  }

  /** With both move draws above 0.1 the noisy move is the clamped step. */
  lemma NoisyStepWithoutNoise(position: int, width: int, a: Action, first: real, second: real)
    requires 0 <= position < width
    requires first > FlipChance && second > FlipChance
    ensures NoisyStep(position, width, a, first, second) == Step(position, width, a)
  {
  }

  /** A noisy move followed by `update_histogram`: one more observation, at
      the tile reached, of the colour perceived there. */
  function Moved(platform: seq<Color>, s: State, a: Action, first: real, second: real, perception: real): (r: State)
    requires Inv(platform, s)
    ensures Inv(platform, r)
    ensures r.position == NoisyStep(s.position, |platform|, a, first, second)
    ensures forall q: int, d: Color ::
              Count(Lookup(r.histograms, q), d)
              == Count(Lookup(s.histograms, q), d)
                 + (if q == r.position && d == Perceive(platform[r.position], perception, FlipChance) then 1 else 0)
    ensures Recorded(platform, r) == Recorded(platform, s) + 1
  {
    var p := NoisyStep(s.position, |platform|, a, first, second);
    var seen := Perceive(platform[p], perception, FlipChance);
    ObserveKeepsPositive(s.histograms, p, seen);
    ObserveEvidence(s.histograms, p, seen, |platform|);
    State(p, Observe(s.histograms, p, seen))
  }

  /** `calculate_delta`: infinity off the platform, else the white share
      `p_white` plus `p_white * (1 - p_white) / (total + 1)`, which is
      finite and strictly above `p_white`, itself strictly above zero. */
  function CalculateDelta(width: int, h: Histograms, position: int): (d: Delta)
    requires AllPositive(h)
    ensures d.Infinite? <==> position < 0 || position >= width
    ensures d.Finite? ==>
              var c := Lookup(h, position);
              0.0 < c.white as real / (c.white + c.black) as real < d.value
  {
    if position < 0 || position >= width then Infinite
    else
      var c := Lookup(h, position);
      assert Positive(c);
      var total := c.white + c.black;
      var pWhite := c.white as real / total as real;
      var variance := (pWhite * (1.0 - pWhite)) / (total + 1) as real;
      ShareBounds(c.white, total);
      assert pWhite * (1.0 - pWhite) > 0.0;
      Finite(pWhite + variance)
  }

  /** `choose_action_cautious` at `position`. */
  function ChooseActionCautious(width: int, h: Histograms, position: int, tie: Action): (a: Action)
    requires AllPositive(h)
    ensures width >= 2 && position == 0 ==> a == Right
    ensures width >= 2 && position == width - 1 ==> a == Left
    ensures width >= 2 && 0 <= position < width ==> Open(position, width, a)
  {
    CautiousPick(CalculateDelta(width, h, position - 1), CalculateDelta(width, h, position + 1), tie)
  }

  /** `choose_action_adventurous` at `position`: at either end of a platform
      of two or more tiles it asks for the missing tile, whose score is
      infinite. */
  function ChooseActionAdventurous(width: int, h: Histograms, position: int, tie: Action): (a: Action)
    requires AllPositive(h)
    ensures width >= 2 && position == 0 ==> a == Left
    ensures width >= 2 && position == width - 1 ==> a == Right
    ensures width >= 2 && 0 <= position < width ==> (Open(position, width, a) <==> 0 < position < width - 1)
  {
    AdventurousPick(CalculateDelta(width, h, position - 1), CalculateDelta(width, h, position + 1), tie)
  }

  /** On a single tile both neighbours score infinity and the coin decides. */
  lemma SingleTileFallsToCoin(h: Histograms, tie: Action)
    requires AllPositive(h)
    ensures ChooseActionCautious(1, h, 0, tie) == tie
    ensures ChooseActionAdventurous(1, h, 0, tie) == tie
  {
  }

  function Choose(strategy: Strategy, width: int, h: Histograms, position: int, tie: Action): Action
    requires AllPositive(h)
  {
    match strategy
    case Cautious => ChooseActionCautious(width, h, position, tie)
    case Adventurous => ChooseActionAdventurous(width, h, position, tie)
  }

  /** One iteration of `simulate`. */
  function Advance(platform: seq<Color>, strategy: Strategy, s: State, d: Draws): (t: Tally<State>)
    requires Inv(platform, s)
    ensures Inv(platform, t.state) && t.errors <= 1
    ensures Recorded(platform, t.state) == Recorded(platform, s) + 1
  {
    var a := Choose(strategy, |platform|, s.histograms, s.position, d.tie);
    var predicted := PredictColor(s.histograms, Target(s.position, a));
    var next := Moved(platform, s, a, d.first, d.second, d.perception);
    Tally(next, if predicted != platform[next.position] then 1 else 0)
  }

  /** The first `steps` iterations of `simulate(steps, strategy)`: final
      state and wrong predictions; whatever the draws, the run records
      exactly one observation per step. */
  function Run(platform: seq<Color>, strategy: Strategy, s: State, draws: seq<Draws>, steps: nat): (t: Tally<State>)
    requires Inv(platform, s) && steps <= |draws|
    ensures Inv(platform, t.state)
    ensures t.errors <= steps
    ensures Recorded(platform, t.state) == Recorded(platform, s) + steps
  {
    if steps == 0 then Tally(s, 0)
    else
      var before := Run(platform, strategy, s, draws, steps - 1);
      var last := Advance(platform, strategy, before.state, draws[steps - 1]);
      Tally(last.state, before.errors + last.errors)
  }

  /** One more iteration extends a run by one `Advance`. */
  lemma RunStep(platform: seq<Color>, strategy: Strategy, s: State, draws: seq<Draws>, steps: nat)
    requires Inv(platform, s) && steps < |draws|
    ensures Run(platform, strategy, s, draws, steps + 1).state
         == Advance(platform, strategy, Run(platform, strategy, s, draws, steps).state, draws[steps]).state
    ensures Run(platform, strategy, s, draws, steps + 1).errors
         == Run(platform, strategy, s, draws, steps).errors
            + Advance(platform, strategy, Run(platform, strategy, s, draws, steps).state, draws[steps]).errors
  {
  }

  class Robot {
    const platform: seq<Color>
    var position: int
    var histograms: Histograms

    ghost predicate Valid()
      reads this
    {
      Inv(platform, Snapshot())
    }

    ghost function Snapshot(): State
      reads this
    {
      State(position, histograms)
    }

    constructor (platform: seq<Color>)
      requires |platform| > 0
      ensures this.platform == platform
      ensures position == 0 && histograms == map[]
      ensures Valid()
    {
      this.platform := platform;
      position := 0;
      histograms := map[];
    }

    method MoveLeft(first: real, second: real, perception: real)
      requires Valid()
      modifies this
      ensures Valid()
      ensures Snapshot() == Moved(platform, old(Snapshot()), Left, first, second, perception)
    {
      if position > 0 && first > FlipChance {
        position := position - 1;
      } else if position < |platform| - 1 && second <= FlipChance {
        position := position + 1;
      }
      UpdateHistogram(perception);
    }

    method MoveRight(first: real, second: real, perception: real)
      requires Valid()
      modifies this
      ensures Valid()
      ensures Snapshot() == Moved(platform, old(Snapshot()), Right, first, second, perception)
    {
      if position < |platform| - 1 && first > FlipChance {
        position := position + 1;
      } else if position > 0 && second <= FlipChance {
        position := position - 1;
      }
      UpdateHistogram(perception);
    }

    /** One more observation of the colour perceived on the current tile. */
    method UpdateHistogram(perception: real)
      requires Valid()
      modifies this`histograms
      ensures Valid()
      ensures histograms == Observe(old(histograms), position, Perceive(platform[position], perception, FlipChance))
    {
      var perceived := platform[position];
      if perception <= FlipChance {
        perceived := if perceived == Black then White else Black;
      }
      ObserveKeepsPositive(histograms, position, perceived);
      histograms := Observe(histograms, position, perceived);
    }

    /** One pass of the loop of `simulate`: choose an action, predict the
        colour of the tile it asks for, move, and report whether the
        prediction differs from the tile reached. */
    method Iteration(strategy: Strategy, d: Draws) returns (wrong: bool)
      requires Valid()
      modifies this
      ensures Valid()
      ensures Tally(Snapshot(), if wrong then 1 else 0) == Advance(platform, strategy, old(Snapshot()), d)
    {
      var action := if strategy == Cautious
        then ChooseActionCautious(|platform|, histograms, position, d.tie)
        else ChooseActionAdventurous(|platform|, histograms, position, d.tie);
      var nextPosition := Target(position, action);
      var predicted := PredictColor(histograms, nextPosition);
      if action == Left {
        MoveLeft(d.first, d.second, d.perception);
      } else {
        MoveRight(d.first, d.second, d.perception);
      }
      wrong := predicted != platform[position];
    }

    /** `simulate(steps, strategy)` with the random values of each step in `draws`. */
    method Simulate(steps: nat, strategy: Strategy, draws: seq<Draws>) returns (error: nat)
      requires Valid() && |draws| == steps
      modifies this
      ensures Valid()
      ensures Tally(Snapshot(), error) == Run(platform, strategy, old(Snapshot()), draws, steps)
    {
      error := 0;
      for i := 0 to steps
        invariant Valid()
        invariant Tally(Snapshot(), error) == Run(platform, strategy, old(Snapshot()), draws, i)
      {
        RunStep(platform, strategy, old(Snapshot()), draws, i);
        var wrong := Iteration(strategy, draws[i]);
        if wrong {
          error := error + 1;
        }
      }
    }
  }
}
