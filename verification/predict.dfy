/** The noiseless tile robot: it moves exactly as asked (clamped at both
    ends), perceives the true colour of the tile it lands on, predicts the
    colour of the tile it is about to enter from its histogram of that
    tile, and counts wrong predictions over a run. The only randomness,
    the `random.choice` between left and right on an interior tile, is a
    parameter `coin`. */
module Predict {
  import opened Tiles

  /** What the robot changes: its position and its histograms. Each variant
      keeps its own state type, invariant and observation total, as each
      source file defines its own `Robot` class; the noisy variant's are the
      same three definitions. */
  datatype State = State(position: int, histograms: Histograms)

  /** The robot stands on the platform and every count is at least one. */
  ghost predicate Inv(platform: seq<Color>, s: State) {
    0 <= s.position < |platform| && AllPositive(s.histograms)
  }

  /** Observations recorded on the platform's tiles beyond the default
      one-of-each. */
  function Recorded(platform: seq<Color>, s: State): int {
    Evidence(s.histograms, |platform|)
  }

  /** `choose_action`: right on the first tile, left on the last one, the
      coin anywhere else. */
  function ChooseAction(width: int, position: int, coin: Action): (a: Action)
    ensures position == 0 ==> a == Right
    ensures position != 0 && position == width - 1 ==> a == Left
    ensures 0 < position < width - 1 ==> a == coin
    ensures width >= 2 && 0 <= position < width ==> Open(position, width, a)
  {
    if position == 0 then Right
    else if position == width - 1 then Left
    else coin
  }

  /** `move_left` / `move_right` followed by `update_histogram`: the clamped
      step, then one more observation of the true colour where it lands. */
  function Moved(platform: seq<Color>, s: State, a: Action): (r: State)
    requires Inv(platform, s)
    ensures Inv(platform, r)
    ensures r.position == Step(s.position, |platform|, a)
    ensures forall q: int, d: Color ::
              Count(Lookup(r.histograms, q), d)
              == Count(Lookup(s.histograms, q), d) + (if q == r.position && d == platform[r.position] then 1 else 0)
    ensures Recorded(platform, r) == Recorded(platform, s) + 1
  {
    var p := Step(s.position, |platform|, a);
    ObserveKeepsPositive(s.histograms, p, platform[p]);
    ObserveEvidence(s.histograms, p, platform[p], |platform|);
    State(p, Observe(s.histograms, p, platform[p]))
  }

  /** One iteration of `simulate`: choose, predict the tile asked for, move,
      and count one error when the prediction differs from the tile reached;
      it records one observation. */
  function Advance(platform: seq<Color>, s: State, coin: Action): (t: Tally<State>)
    requires Inv(platform, s)
    ensures Inv(platform, t.state) && t.errors <= 1
    ensures Recorded(platform, t.state) == Recorded(platform, s) + 1
  {
    var a := ChooseAction(|platform|, s.position, coin);
    var predicted := PredictColor(s.histograms, Target(s.position, a));
    var next := Moved(platform, s, a);
    Tally(next, if predicted != platform[next.position] then 1 else 0)
  }

  /** The first `steps` iterations of `simulate(steps)`: the state after
      them and the number of wrong predictions, at most one per step; the
      run records exactly one observation per step. */
  function Run(platform: seq<Color>, s: State, coins: seq<Action>, steps: nat): (t: Tally<State>)
    requires Inv(platform, s) && steps <= |coins|
    ensures Inv(platform, t.state)
    ensures t.errors <= steps
    ensures Recorded(platform, t.state) == Recorded(platform, s) + steps
  {
    if steps == 0 then Tally(s, 0)
    else
      var before := Run(platform, s, coins, steps - 1);
      var last := Advance(platform, before.state, coins[steps - 1]);
      Tally(last.state, before.errors + last.errors)
  }

  /** One more iteration extends a run by one `Advance`. */
  lemma RunStep(platform: seq<Color>, s: State, coins: seq<Action>, steps: nat)
    requires Inv(platform, s) && steps < |coins|
    ensures Run(platform, s, coins, steps + 1).state
         == Advance(platform, Run(platform, s, coins, steps).state, coins[steps]).state
    ensures Run(platform, s, coins, steps + 1).errors
         == Run(platform, s, coins, steps).errors + Advance(platform, Run(platform, s, coins, steps).state, coins[steps]).errors
  {
  }

  /** On a platform of two or more tiles the robot is never blocked: every
      chosen move changes its position by exactly one. */
  lemma MoveNeverBlocked(platform: seq<Color>, s: State, coin: Action)
    requires Inv(platform, s) && |platform| >= 2
    ensures Advance(platform, s, coin).state.position
         == Target(s.position, ChooseAction(|platform|, s.position, coin))
  {
  }

  class Robot {
    const platform: seq<Color>
    var position: int
    var histograms: Histograms

    ghost predicate Valid()
      reads this
    {
      Inv(platform, Snapshot())
    }

    ghost function Snapshot(): State
      reads this
    {
      State(position, histograms)
    }

    /** `Robot(platform)`: on the first tile, nothing observed yet. */
    constructor (platform: seq<Color>)
      requires |platform| > 0
      ensures this.platform == platform
      ensures position == 0 && histograms == map[]
      ensures Valid()
    {
      this.platform := platform;
      position := 0;
      histograms := map[];
    }

    method MoveLeft()
      requires Valid()
      modifies this
      ensures Valid()
      ensures Snapshot() == Moved(platform, old(Snapshot()), Left)
    {
      if position > 0 {
        position := position - 1;
      }
      UpdateHistogram();
    }

    method MoveRight()
      requires Valid()
      modifies this
      ensures Valid()
      ensures Snapshot() == Moved(platform, old(Snapshot()), Right)
    {
      if position < |platform| - 1 {
        position := position + 1;
      }
      UpdateHistogram();
    }

    /** One more observation of the true colour of the current tile. */
    method UpdateHistogram()
      requires Valid()
      modifies this`histograms
      ensures Valid()
      ensures histograms == Observe(old(histograms), position, platform[position])
    {
      ObserveKeepsPositive(histograms, position, platform[position]);
      histograms := Observe(histograms, position, platform[position]);
    }

    /** `simulate(steps)` with the coin of each step given in `coins`. */
    method Simulate(steps: nat, coins: seq<Action>) returns (error: nat)
      requires Valid() && |coins| == steps
      modifies this
      ensures Valid()
      ensures Tally(Snapshot(), error) == Run(platform, old(Snapshot()), coins, steps)
    {
      error := 0;
      for i := 0 to steps
        invariant Valid()
        invariant Tally(Snapshot(), error) == Run(platform, old(Snapshot()), coins, i)
      {
        RunStep(platform, old(Snapshot()), coins, i);
        var action := ChooseAction(|platform|, position, coins[i]);
        var nextPosition := Target(position, action);
        var predicted := PredictColor(histograms, nextPosition);
        if action == Left {
          MoveLeft();
        } else {
          MoveRight();
        }
        if predicted != platform[position] {
          error := error + 1;
        }
      }
    }
  }
}
