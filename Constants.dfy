/** The shared game constants, the AI difficulty table and the in-place
    Fisher–Yates shuffle of the front end's constants file. */
module Constants {

  const PADDLE_WIDTH: real := 10.0
  const PADDLE_HEIGHT: real := 100.0
  const BALL_RADIUS: real := 10.0
  const WINNING_SCORE: int := 3
  const PADDLE_SPEED: real := 8.0
  const INITIAL_BALL_SPEED: real := 5.0
  const ACCELERATION_FACTOR: real := 1.05
  const BOUNCE_ANGLE_FACTOR: real := 15.0

  datatype DifficultyLevel = Easy | Medium | Hard | Impossible

  datatype DifficultyConfig = DifficultyConfig(name: string, errorMargin: real)

  /** The `DIFFICULTY_LEVELS` table: the AI's dead zone in pixels per level. */
  function DifficultyLevels(level: DifficultyLevel): (c: DifficultyConfig)
    ensures c.errorMargin >= 0.0
    ensures c.errorMargin == 0.0 <==> level == Impossible
  {
    match level
    case Easy => DifficultyConfig("Fácil", 70.0)
    case Medium => DifficultyConfig("Medio", 50.0)
    case Hard => DifficultyConfig("Difícil", 15.0)
    case Impossible => DifficultyConfig("Imposible", 0.0)
  }

  /** Position of a level from the easiest (0) to the hardest (3). */
  function Rank(level: DifficultyLevel): (n: nat)
    ensures n < 4
  {
    match level
    case Easy => 0
    case Medium => 1
    case Hard => 2
    case Impossible => 3
  }

  /** A harder level always has a strictly smaller dead zone. */
  lemma MarginsStrictlyDecrease(a: DifficultyLevel, b: DifficultyLevel)
    requires Rank(a) < Rank(b)
    ensures DifficultyLevels(a).errorMargin > DifficultyLevels(b).errorMargin
  {
  }

  /** Exchange of two positions, the body of one Fisher–Yates step. */
  function Swap<T>(s: seq<T>, i: nat, j: nat): (r: seq<T>)
    requires i < |s| && j < |s|
    ensures |r| == |s| && r[i] == s[j] && r[j] == s[i]
    ensures forall k :: 0 <= k < |s| && k != i && k != j ==> r[k] == s[k]
  {
    s[i := s[j]][j := s[i]]
  }

  /** A swap keeps the elements with their multiplicities. */
  lemma SwapPermutes<T>(s: seq<T>, i: nat, j: nat)
    requires i < |s| && j < |s|
    ensures multiset(Swap(s, i, j)) == multiset(s)
  {
  }

  /** The random indices of a shuffle: `js[i]` is the `j` drawn when the loop
      is at `i`, that is `Math.floor(Math.random() * (i + 1))`, so it lies in
      [0, i]. */
  predicate ValidDraws(js: seq<nat>, n: nat)
  {
    |js| == n && forall k :: 0 < k < n ==> js[k] <= k
  }

  /** The contents after the steps i, i - 1, ..., 1 of the loop have run on s. */
  function FisherYates<T>(s: seq<T>, js: seq<nat>, i: nat): (r: seq<T>)
    requires i < |s| && ValidDraws(js, |s|)
    ensures |r| == |s|
    decreases i
  {
    if i == 0 then s else FisherYates(Swap(s, i, js[i]), js, i - 1)
  }

  /** The contents the whole shuffle leaves behind. */
  function Shuffled<T>(s: seq<T>, js: seq<nat>): (r: seq<T>)
    requires ValidDraws(js, |s|)
    ensures |r| == |s|
    ensures |s| <= 1 ==> r == s
  {
    if |s| == 0 then s else FisherYates(s, js, |s| - 1)
  }

  lemma {:induction false} FisherYatesPermutes<T>(s: seq<T>, js: seq<nat>, i: nat)
    requires i < |s| && ValidDraws(js, |s|)
    ensures |FisherYates(s, js, i)| == |s|
    ensures multiset(FisherYates(s, js, i)) == multiset(s)
    decreases i
  {
    if i > 0 {
      var t := Swap(s, i, js[i]);
      SwapPermutes(s, i, js[i]);
      FisherYatesPermutes(t, js, i - 1);
      assert multiset(FisherYates(s, js, i)) == multiset(t) == multiset(s);
    }
  }

  /** Whatever indices are drawn, the shuffle rearranges its input: same
      length, same elements with the same multiplicities. */
  lemma ShuffledPermutes<T>(s: seq<T>, js: seq<nat>)
    requires ValidDraws(js, |s|)
    ensures |Shuffled(s, js)| == |s|
    ensures multiset(Shuffled(s, js)) == multiset(s)
  {
    if |s| > 0 {
      FisherYatesPermutes(s, js, |s| - 1);
    }
  }

  lemma FisherYatesStep<T>(s: seq<T>, js: seq<nat>, i: nat)
    requires 0 < i < |s| && ValidDraws(js, |s|)
    ensures FisherYates(s, js, i) == FisherYates(Swap(s, i, js[i]), js, i - 1)
  {
  }

  /** The destructuring swap `[array[i], array[j]] = [array[j], array[i]]`. */
  method SwapInPlace<T>(a: array<T>, i: nat, j: nat)
    requires i < a.Length && j < a.Length
    modifies a
    ensures a[..] == Swap(old(a[..]), i, j)
  {
    a[i], a[j] := a[j], a[i];
  }

  /** The loop of `shuffleArray`, from index `i` down to 1. */
  method ShuffleSteps<T>(a: array<T>, js: seq<nat>, i: nat)
    requires i < a.Length && ValidDraws(js, a.Length)
    modifies a
    ensures a[..] == FisherYates(old(a[..]), js, i)
  {
    var k: nat := i;
    while k > 0
      invariant k < a.Length
      invariant FisherYates(a[..], js, k) == FisherYates(old(a[..]), js, i)
    {
      FisherYatesStep(a[..], js, k);
      SwapInPlace(a, k, js[k]);
      k := k - 1;
    }
  }

  /** `shuffleArray`: shuffles the array in place and returns the same array.
      The draws of `Math.random` are the parameter `js`. */
  method ShuffleArray<T>(a: array<T>, js: seq<nat>) returns (r: array<T>)
    requires ValidDraws(js, a.Length)
    modifies a
    ensures r == a
    ensures a[..] == Shuffled(old(a[..]), js)
    ensures multiset(a[..]) == multiset(old(a[..]))
    ensures a.Length <= 1 ==> a[..] == old(a[..])
  {
    ShuffledPermutes(a[..], js);
    if a.Length > 0 {
      ShuffleSteps(a, js, a.Length - 1);
    }
    r := a;
  }
}
