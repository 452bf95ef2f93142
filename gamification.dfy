/**
 * The experience system (`GamificationContext`): the XP a level needs,
 * `floor(100 * level^1.5)`, computed exactly as the integer square root of
 * `10000 * level^3`; the tier of a level; and `addXp`, whose loop spends the
 * XP on as many level-ups as it covers and announces each new level.
 */
module Gamification {
  import opened Seqs

  /** Helper: squaring is monotone on naturals. */
  lemma SquareMonotone(a: nat, b: nat)
    requires a <= b
    ensures a * a <= b * b
  {
    assert a * a <= a * b <= b * b;
  }

  /**
   * The integer square root of `n` together with its square, halving the
   * problem at each step; the square is carried along so that the
   * computation needs only additions and doubling.
   */
  function RootAndSquare(n: nat): (nat, nat)
    decreases n
  {
    if n == 0 then (0, 0)
    else
      var p := RootAndSquare(n / 4);
      RootStep(n, p.0, p.1)
  }

  /** One step: from the root `s` of `n / 4` and its square `q`, the root of `n` and its square. */
  function RootStep(n: nat, s: nat, q: nat): (nat, nat)
  {
    if 4 * q + 4 * s + 1 <= n then (2 * s + 1, 4 * q + 4 * s + 1) else (2 * s, 4 * q)
  }

  /** Helper: a step keeps the square the square of the root. */
  lemma RootStepSquares(n: nat, s: nat, q: nat)
    requires q == s * s
    ensures RootStep(n, s, q).1 == RootStep(n, s, q).0 * RootStep(n, s, q).0
  {
    DoubledSquares(s, q);
  }

  /** The integer square root. */
  function ISqrt(n: nat): nat
  {
    RootAndSquare(n).0
  }

  /** Helper: the squares of `2 * s` and `2 * s + 1` from the square of `s`. */
  lemma DoubledSquares(s: nat, q: nat)
    requires q == s * s
    ensures (2 * s) * (2 * s) == 4 * q
    ensures (2 * s + 1) * (2 * s + 1) == 4 * q + 4 * s + 1
  {
  }

  /** Helper: the square after `r * r`. */
  lemma NextSquare(r: nat)
    ensures (r + 1) * (r + 1) == r * r + 2 * r + 1
  {
  }

  /** The root carried along is the largest whose square, the one carried along, fits. */
  lemma {:induction false} RootAndSquareBounds(n: nat)
    ensures RootAndSquare(n).1 <= n < RootAndSquare(n).1 + 2 * RootAndSquare(n).0 + 1
    decreases n
  {
    if n > 0 {
      RootAndSquareBounds(n / 4);
    }
  }

  /** The square carried along is the square of the root. */
  lemma {:induction false} RootAndSquareSquares(n: nat)
    ensures RootAndSquare(n).1 == RootAndSquare(n).0 * RootAndSquare(n).0
    decreases n
  {
    if n > 0 {
      RootAndSquareSquares(n / 4);
      RootStepSquares(n, RootAndSquare(n / 4).0, RootAndSquare(n / 4).1);
    }
  }

  /** The integer square root is the largest `r` with `r * r <= n`. */
  lemma ISqrtIsRoot(n: nat)
    ensures ISqrt(n) * ISqrt(n) <= n < (ISqrt(n) + 1) * (ISqrt(n) + 1)
  {
    RootAndSquareBounds(n);
    RootAndSquareSquares(n);
    NextSquare(ISqrt(n));
  }

  /** Any `k` whose square fits under `n` is at most the root of `n`. */
  lemma RootIsLargest(n: nat, k: nat)
    requires k * k <= n
    ensures k <= ISqrt(n)
  {
    var r := ISqrt(n);
    ISqrtIsRoot(n);
    if k > r {
      SquareMonotone(r + 1, k);
    }
  }

  /** Any `k` whose square exceeds `n` is above the root of `n`. */
  lemma RootIsBelow(n: nat, k: nat)
    requires k * k > n
    ensures ISqrt(n) < k
  {
    var r := ISqrt(n);
    ISqrtIsRoot(n);
    if r >= k {
      SquareMonotone(k, r);
    }
  }

  /** Helper: `a * b` as repeated addition, so that a product appears only where a proof asks for one. */
  function Mul(a: nat, b: nat): nat
    decreases a
  {
    if a == 0 then 0 else b + Mul(a - 1, b)
  }

  lemma {:induction false} MulIsProduct(a: nat, b: nat)
    ensures Mul(a, b) == a * b
    decreases a
  {
    if a > 0 {
      MulIsProduct(a - 1, b);
    }
  }

  /** `l^3`. */
  function Cube(l: nat): nat
  {
    Mul(l, Mul(l, l))
  }

  /** Helper: `Cube` is the cube. */
  lemma CubeIsProduct(l: nat)
    ensures Cube(l) == l * (l * l)
  {
    MulIsProduct(l, l);
    MulIsProduct(l, l * l);
  }

  /** `calculateXpForLevel`: `Math.floor(100 * Math.pow(level, 1.5))`, the square root of `10000 * level^3` rounded down. */
  function XpForLevel(level: nat): nat
  {
    ISqrt(10000 * Cube(level))
  }

  /** From level 1 on, a level needs at least 100 XP. */
  lemma XpAtLeast100(level: nat)
    requires level >= 1
    ensures XpForLevel(level) >= 100
  {
    CubeIsProduct(level);
    assert level * level >= 1;
    assert level * (level * level) >= 1;
    RootIsLargest(10000 * Cube(level), 100);
  }

  /** Helper: the need of a level is at most `100 * level^2`. */
  lemma XpBelowSquare(level: nat)
    ensures XpForLevel(level) <= 100 * (level * level)
  {
    var q := level * level;
    var b := 100 * q;
    CubeIsProduct(level);
    if level >= 1 {
      ProductMonotone(1, level, level);
      ProductMonotone(level, q, q);
      ScaledSquare(q);
      NextSquare(b);
      RootIsBelow(10000 * Cube(level), b + 1);
    }
  }

  /** Helper: a larger factor gives a larger product. */
  lemma ProductMonotone(a: nat, b: nat, c: nat)
    requires a <= b
    ensures a * c <= b * c
  {
  }

  /** Helper: `(100 * q)^2`. */
  lemma ScaledSquare(q: nat)
    ensures (100 * q) * (100 * q) == 10000 * (q * q)
  {
  }

  /** Helper: `(l + 1)^3` expanded. */
  lemma CubeStep(l: nat)
    ensures Cube(l + 1) == Cube(l) + 3 * (l * l) + 3 * l + 1
  {
    CubeIsProduct(l);
    CubeIsProduct(l + 1);
    assert (l + 1) * (l + 1) == l * l + 2 * l + 1;
    assert (l * l + 2 * l + 1) * (l + 1) == l * l * l + 3 * (l * l) + 3 * l + 1;
  }

  /** Helper: a root bounded by `b` grows once the radicand grows by more than `2 * b`. */
  lemma RootGrows(n: nat, m: nat, b: nat)
    requires ISqrt(n) <= b && m >= n + 2 * b + 1
    ensures ISqrt(n) < ISqrt(m)
  {
    ISqrtIsRoot(n);
    SquareStepFits(ISqrt(n), n, m, b);
    RootIsLargest(m, ISqrt(n) + 1);
  }

  /** Helper: the next square after `r * r <= n` fits under `m`. */
  lemma SquareStepFits(r: nat, n: nat, m: nat, b: nat)
    requires r * r <= n && r <= b && m >= n + 2 * b + 1
    ensures (r + 1) * (r + 1) <= m
  {
    assert (r + 1) * (r + 1) == r * r + 2 * r + 1;
  }

  /** Each level needs strictly more XP than the one before it. */
  lemma XpIncreasing(level: nat)
    ensures XpForLevel(level) < XpForLevel(level + 1)
  {
    XpBelowSquare(level);
    CubeStep(level);
    RootGrows(10000 * Cube(level), 10000 * Cube(level + 1), 100 * (level * level));
  }

  /** The XP needed never decreases as the level grows. */
  lemma {:induction false} XpMonotone(a: nat, b: nat)
    requires a <= b
    ensures XpForLevel(a) <= XpForLevel(b)
    decreases b - a
  {
    if a < b {
      XpIncreasing(a);
      XpMonotone(a + 1, b);
    }
  }

  /** `TierName`. */
  datatype Tier = NovatoCreador | EstrategaDeContenido | InfluencerDigital | VisionarioDeLinkedIn

  /** `getTierForLevel`. */
  function TierForLevel(level: int): (t: Tier)
    ensures t == VisionarioDeLinkedIn <==> level >= 20
    ensures t == InfluencerDigital <==> 10 <= level < 20
    ensures t == EstrategaDeContenido <==> 5 <= level < 10
    ensures t == NovatoCreador <==> level < 5
  {
    if level >= 20 then VisionarioDeLinkedIn
    else if level >= 10 then InfluencerDigital
    else if level >= 5 then EstrategaDeContenido
    else NovatoCreador
  }

  function TierRank(t: Tier): nat
  {
    match t
    case NovatoCreador => 0
    case EstrategaDeContenido => 1
    case InfluencerDigital => 2
    case VisionarioDeLinkedIn => 3
  }

  /** A higher level never has a lower tier. */
  lemma TierMonotone(a: int, b: int)
    requires a <= b
    ensures TierRank(TierForLevel(a)) <= TierRank(TierForLevel(b))
  {
  }

  /** A level and the XP gathered towards the next one. */
  datatype Standing = Standing(level: nat, xp: int)

  /** The XP spent on the level-ups from `from` to `to`: the needs of levels `from`, ..., `to - 1`. */
  function Thresholds(from: nat, to: nat): int
    requires from <= to
    decreases (to as int) - (from as int)
  {
    if from == to then 0 else XpForLevel(from) + Thresholds(from + 1, to)
  }

  /**
   * Where `xp` at `level` settles: while the XP covers the current level's
   * need, pay it and go up a level. The XP left is below the need of the
   * level reached, it is never negative when `xp` was not, and nothing is lost:
   * the XP left plus the XP paid is the XP given.
   */
  function Settle(level: nat, xp: int): (r: Standing)
    requires level >= 1
    ensures r.level >= level
    ensures r.xp < XpForLevel(r.level)
    ensures xp >= 0 ==> r.xp >= 0
    ensures xp == r.xp + Thresholds(level, r.level)
    ensures xp < XpForLevel(level) ==> r == Standing(level, xp)
    decreases if xp < 0 then 0 else xp
  {
    if xp < XpForLevel(level) then Standing(level, xp)
    else
      XpAtLeast100(level);
      Settle(level + 1, xp - XpForLevel(level))
  }

  /** The levels announced on the way from `from` to `to`: `from + 1`, ..., `to`. */
  function LevelUps(from: nat, to: nat): (r: seq<nat>)
    requires from <= to
    ensures |r| == to - from
    ensures forall i :: 0 <= i < |r| ==> r[i] == from + 1 + i
  {
    seq(to - from, i requires 0 <= i < to - from => from + 1 + i)
  }

  /** Helper: one more level announced. */
  lemma LevelUpsSnoc(from: nat, to: nat)
    requires from <= to
    ensures LevelUps(from, to) + [to + 1] == LevelUps(from, to + 1)
  {
    assert |LevelUps(from, to) + [to + 1]| == |LevelUps(from, to + 1)|;
  }

  /**
   * The `while` loop of `addXp`: pays each level's need in turn and collects
   * the level of each "level up" toast.
   */
  method AddXpLoop(level: nat, currentXp: int, amount: int) returns (newLevel: nat, newXp: int, levelUps: seq<nat>)
    requires level >= 1
    ensures Standing(newLevel, newXp) == Settle(level, currentXp + amount)
    ensures newLevel >= level && levelUps == LevelUps(level, newLevel)
  {
    newXp := currentXp + amount;
    newLevel := level;
    var xpNeeded := XpForLevel(newLevel);
    levelUps := [];
    assert LevelUps(level, level) == [];
    while newXp >= xpNeeded
      invariant newLevel >= level
      invariant xpNeeded == XpForLevel(newLevel)
      invariant Settle(newLevel, newXp) == Settle(level, currentXp + amount)
      invariant levelUps == LevelUps(level, newLevel)
      decreases newXp
    {
      XpAtLeast100(newLevel);
      LevelUpsSnoc(level, newLevel);
      newXp := newXp - xpNeeded;
      newLevel := newLevel + 1;
      levelUps := levelUps + [newLevel];
      xpNeeded := XpForLevel(newLevel);
    }
  }

  /** The toasts `addXp` shows: one per level reached, then the caller's message. */
  datatype Toast = LevelUpToast(level: nat) | InfoToast(message: string)

  function LevelUpToasts(levels: seq<nat>): (r: seq<Toast>)
    ensures |r| == |levels|
    ensures forall i :: 0 <= i < |r| ==> r[i] == LevelUpToast(levels[i])
  {
    Map(levels, (l: nat) => LevelUpToast(l))
  }

  /** `GamificationProvider`'s state. */
  class GamificationStore {
    var level: nat
    var xp: int

    /** The level starts at 1 and the XP at 0. */
    constructor()
      ensures level == 1 && xp == 0
    {
      level := 1;
      xp := 0;
    }

    /** The level never falls below 1. */
    ghost predicate Valid()
      reads this
    {
      level >= 1
    }

    /** `xpForNextLevel`. */
    function XpForNextLevel(): nat
      reads this
    {
      XpForLevel(level)
    }

    /** `tier`. */
    function CurrentTier(): Tier
      reads this
    {
      TierForLevel(level)
    }

    /** `addXp(amount, message)`: settles the new XP and shows the toasts. */
    method AddXp(amount: int, message: string) returns (toasts: seq<Toast>)
      requires Valid()
      modifies this
      ensures Valid() && level >= old(level)
      ensures Standing(level, xp) == Settle(old(level), old(xp) + amount)
      ensures toasts == LevelUpToasts(LevelUps(old(level), level)) + [InfoToast(message)]
    {
      var newLevel, newXp, levelUps := AddXpLoop(level, xp, amount);
      level := newLevel;
      xp := newXp;
      toasts := LevelUpToasts(levelUps) + [InfoToast(message)];
    }
  }

  /**
   * After adding a non-negative amount to a settled standing, the XP is again
   * between 0 and the next level's need, and the number of level-up toasts is
   * the number of levels gained.
   */
  lemma AddXpKeepsStanding(level: nat, xp: int, amount: int)
    requires level >= 1 && 0 <= xp && amount >= 0
    ensures 0 <= Settle(level, xp + amount).xp < XpForLevel(Settle(level, xp + amount).level)
    ensures |LevelUps(level, Settle(level, xp + amount).level)| == Settle(level, xp + amount).level - level
  {
  }

  /** Too little XP for a level-up leaves the level and adds the amount. */
  lemma NoLevelUp(level: nat, xp: int, amount: int)
    requires level >= 1 && xp + amount < XpForLevel(level)
    ensures Settle(level, xp + amount) == Standing(level, xp + amount)
  {
  }

  /** From level 1 with no XP, 100 XP reach level 2 with nothing left over. */
  lemma FirstLevelUp()
    ensures Settle(1, 100) == Standing(2, 0)
  {
    CubeIsProduct(1);
    RootIsLargest(10000, 100);
    RootIsBelow(10000, 101);
    assert XpForLevel(1) == 100;
    XpAtLeast100(2);
  }
}
