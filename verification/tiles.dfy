/** Vocabulary shared by the three tile-platform robots: tile colours and
    moves, the per-tile colour counts that default to one of each, the
    clamped single step, perception noise, the "delta" score with its
    infinity for off-platform positions, and the two action policies. */
module Tiles {

  datatype Color = White | Black

  datatype Action = Left | Right

  /** How the robot picks its moves: `simulate(..., strategy='cautious')`
      or any other strategy string, which selects the adventurous policy. */
  datatype Strategy = Cautious | Adventurous

  datatype Option<T> = None | Some(value: T)

  /** Final robot state of a simulation run, with its count of wrong predictions. */
  datatype Tally<S> = Tally(state: S, errors: nat)

  /** The colour reported when perception is flipped by noise. */
  function Flip(c: Color): (r: Color)
    ensures r != c
  {
    if c == Black then White else Black
  }

  function Opposite(a: Action): (r: Action)
    ensures r != a
  {
    if a == Left then Right else Left
  }

  /** The tile a move asks for: `position - 1` for left, `position + 1` for right. */
  function Target(position: int, a: Action): (r: int)
    ensures r == position - 1 || r == position + 1
  {
    if a == Left then position - 1 else position + 1
  }

  /** The requested neighbour exists on a platform of `width` tiles. */
  predicate Open(position: int, width: int, a: Action) {
    0 <= Target(position, a) < width
  }

  /** The clamped move of `move_left` and `move_right`: one tile in the
      requested direction, or no move at all at the end of the platform. */
  function Step(position: int, width: int, a: Action): (r: int)
    requires 0 <= position < width
    ensures 0 <= r < width
    ensures Open(position, width, a) ==> r == Target(position, a)
    ensures !Open(position, width, a) ==> r == position
  {
    match a
    case Left => if position > 0 then position - 1 else position
    case Right => if position < width - 1 then position + 1 else position
  }

  /** The colour perceived on a tile of colour `actual`: flipped when the
      draw is at most the noise probability (`random.random() <= noise`). */
  function Perceive(actual: Color, draw: real, noise: real): (r: Color)
    ensures r == actual <==> draw > noise
  {
    if draw <= noise then Flip(actual) else actual
  }

  /** The two-entry histogram `{'white': w, 'black': b}` of one tile. */
  datatype Counts = Counts(white: nat, black: nat)

  /** A tile never observed reads as `{'white': 1, 'black': 1}` (the
      `defaultdict` factory). */
  const Unseen: Counts := Counts(1, 1)

  function Count(c: Counts, color: Color): nat {
    if color == White then c.white else c.black
  }

  /** `histogram[color] += 1` */
  function Bump(c: Counts, color: Color): (r: Counts)
    ensures Count(r, color) == Count(c, color) + 1
    ensures Count(r, Flip(color)) == Count(c, Flip(color))
  {
    if color == White then c.(white := c.white + 1) else c.(black := c.black + 1)
  }

  /** Histograms keyed by tile position; absent keys read as `Unseen`. */
  type Histograms = map<int, Counts>

  function Lookup(h: Histograms, position: int): Counts {
    if position in h then h[position] else Unseen
  }

  /** `histograms[position][color] += 1` on a defaultdict of histograms. */
  function Observe(h: Histograms, position: int, color: Color): (r: Histograms)
    ensures forall q: int, d: Color ::
              Count(Lookup(r, q), d) == Count(Lookup(h, q), d) + (if q == position && d == color then 1 else 0)
  {
    h[position := Bump(Lookup(h, position), color)]
  }

  predicate Positive(c: Counts) {
    c.white >= 1 && c.black >= 1
  }

  /** Every count at every position, seen or not, is at least one. */
  ghost predicate AllPositive(h: Histograms) {
    forall q: int :: Positive(Lookup(h, q))
  }

  lemma ObserveKeepsPositive(h: Histograms, position: int, color: Color)
    requires AllPositive(h)
    ensures AllPositive(Observe(h, position, color))
  {
    var r := Observe(h, position, color);
    forall q: int ensures Positive(Lookup(r, q)) {
      assert Count(Lookup(r, q), White) >= Count(Lookup(h, q), White);
      assert Count(Lookup(r, q), Black) >= Count(Lookup(h, q), Black);
    }
  }

  /** Observations recorded on tiles `0 .. width - 1` beyond the default
      one-of-each: the sum of `white + black - 2` over those tiles. */
  function Evidence(h: Histograms, width: nat): int {
    if width == 0 then 0
    else Evidence(h, width - 1) + Lookup(h, width - 1).white + Lookup(h, width - 1).black - 2
  }

  /** One `histograms[position][color] += 1` on the platform adds exactly
      one observation to the platform's total. */
  lemma {:induction false} ObserveEvidence(h: Histograms, position: int, color: Color, width: nat)
    requires 0 <= position < width
    ensures Evidence(Observe(h, position, color), width) == Evidence(h, width) + 1
  {
    var r := Observe(h, position, color);
    var last := width - 1;
    assert Count(Lookup(r, last), White) + Count(Lookup(r, last), Black)
        == Count(Lookup(h, last), White) + Count(Lookup(h, last), Black) + (if last == position then 1 else 0);
    if position < last {
      ObserveEvidence(h, position, color, last);
    } else {
      ObserveEvidenceElsewhere(h, position, color, last);
    }
  }

  /** An observation beyond the first `width` tiles leaves their total unchanged. */
  lemma {:induction false} ObserveEvidenceElsewhere(h: Histograms, position: int, color: Color, width: nat)
    requires position < 0 || position >= width
    ensures Evidence(Observe(h, position, color), width) == Evidence(h, width)
  {
    if width > 0 {
      var r := Observe(h, position, color);
      var last := width - 1;
      assert Count(Lookup(r, last), White) == Count(Lookup(h, last), White);
      assert Count(Lookup(r, last), Black) == Count(Lookup(h, last), Black);
      ObserveEvidenceElsewhere(h, position, color, last);
    }
  }

  /** `predict_color` of the histogram and noise robots: the colour whose
      relative frequency `count / total` is strictly larger, black on a tie. */
  function PredictColor(h: Histograms, position: int): (r: Color)
    requires AllPositive(h)
    ensures r == White <==> Lookup(h, position).white > Lookup(h, position).black
  {
    var c := Lookup(h, position);
    assert Positive(c);
    var total := (c.white + c.black) as real;
    var pWhite := c.white as real / total;
    var pBlack := c.black as real / total;
    RatioOrder(c.white as real, c.black as real, total);
    if pWhite > pBlack then White else Black
  }

  lemma RatioOrder(x: real, y: real, t: real)
    requires t > 0.0
    ensures x / t > y / t <==> x > y
  {
    assert x / t * t == x && y / t * t == y;
    if x / t > y / t {
      assert (x / t - y / t) * t > 0.0;
    }
    if x > y {
      assert (x - y) / t > 0.0;
    }
  }

  /** A count of one colour over a total that also holds at least one of the
      other colour is a share strictly between zero and one. */
  lemma ShareBounds(part: nat, total: nat)
    requires 1 <= part < total
    ensures 0.0 < part as real / total as real < 1.0
  {
    var share := part as real / total as real;
    assert share * total as real == part as real;
  }

  /** The score `calculate_delta` returns: `float('inf')` off the platform. */
  datatype Delta = Infinite | Finite(value: real)

  /** Python's `<` on a score where `Infinite` is `float('inf')`:
      infinity is above every finite score and not below itself. */
  predicate Below(a: Delta, b: Delta) {
    a.Finite? && (b.Infinite? || a.value < b.value)
  }

  /** `choose_action_cautious`: the side with the strictly smaller score,
      the coin `tie` (`random.choice`) when neither is smaller. */
  function CautiousPick(left: Delta, right: Delta, tie: Action): (r: Action)
    ensures r == Left ==> !Below(right, left)
    ensures r == Right ==> !Below(left, right)
    ensures left == right ==> r == tie
    ensures left != right ==> (r == Left <==> Below(left, right))
  {
    if Below(left, right) then Left
    else if Below(right, left) then Right
    else tie
  }

  /** `choose_action_adventurous`: the side with the strictly larger score,
      the coin `tie` when neither is larger. */
  function AdventurousPick(left: Delta, right: Delta, tie: Action): (r: Action)
    ensures r == Left ==> !Below(left, right)
    ensures r == Right ==> !Below(right, left)
    ensures left == right ==> r == tie
    ensures left != right ==> (r == Left <==> Below(right, left))
  {
    if Below(right, left) then Left
    else if Below(left, right) then Right
    else tie
  }

  /** Python's `<` on scores is a strict total order: exactly one of
      below, above or equal holds, so only equal scores reach the coin. */
  lemma BelowTrichotomy(a: Delta, b: Delta)
    ensures Below(a, b) || Below(b, a) || a == b
    ensures !(Below(a, b) && Below(b, a))
    ensures !Below(a, a)
  {
  }
}
