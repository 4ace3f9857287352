/** The success-chance ladder of an ability stone (src/app/chance.rs):
    six ordered levels from 25% to 75% with saturating one-step moves. */
module Chances {

  datatype Chance = TwentyFive | ThirtyFive | FourtyFive | FiftyFive | SixtyFive | SeventyFive

  /** Position of a level in declaration order, 0 (25%) to 5 (75%). */
  function Level(c: Chance): (n: nat)
    ensures n < 6
  {
    match c
    case TwentyFive => 0
    case ThirtyFive => 1
    case FourtyFive => 2
    case FiftyFive => 3
    case SixtyFive => 4
    case SeventyFive => 5
  }

  /** `Chance::up`: one level higher, staying at 75%. The source overwrites
      `*self`; callers here assign the result back. */
  function Up(c: Chance): (r: Chance)
    ensures Level(r) == if Level(c) == 5 then 5 else Level(c) + 1
  {
    match c
    case TwentyFive => ThirtyFive
    case ThirtyFive => FourtyFive
    case FourtyFive => FiftyFive
    case FiftyFive => SixtyFive
    case SixtyFive => SeventyFive
    case SeventyFive => SeventyFive
  }

  /** `Chance::down`: one level lower, staying at 25%. */
  function Down(c: Chance): (r: Chance)
    ensures Level(r) == if Level(c) == 0 then 0 else Level(c) - 1
  {
    match c
    case TwentyFive => TwentyFive
    case ThirtyFive => TwentyFive
    case FourtyFive => ThirtyFive
    case FiftyFive => FourtyFive
    case SixtyFive => FiftyFive
    case SeventyFive => SixtyFive
  }

  /** `Chance::as_f64`: the success probability of a level. */
  function AsReal(c: Chance): (p: real)
    ensures p == 0.25 + 0.1 * Level(c) as real
    ensures 0.25 <= p <= 0.75
  {
    match c
    case TwentyFive => 0.25
    case ThirtyFive => 0.35
    case FourtyFive => 0.45
    case FiftyFive => 0.55
    case SixtyFive => 0.65
    case SeventyFive => 0.75
  }

  /** `Chance::as_str`: the label shown for a level. */
  function AsStr(c: Chance): (s: string)
    ensures |s| == 3 && s[2] == '%'
    ensures '0' <= s[0] <= '9' && '0' <= s[1] <= '9'
    ensures DigitsValue(s[0], s[1]) as real == 100.0 * AsReal(c)
  {
    match c
    case TwentyFive => "25%"
    case ThirtyFive => "35%"
    case FourtyFive => "45%"
    case FiftyFive => "55%"
    case SixtyFive => "65%"
    case SeventyFive => "75%"
  }

  /** The number written by two decimal digits. */
  function DigitsValue(tens: char, ones: char): int
  {
    10 * (tens as int - '0' as int) + (ones as int - '0' as int)
  }

  lemma LevelInjective(a: Chance, b: Chance)
    ensures Level(a) == Level(b) <==> a == b
  {
  }

  /** Both ends saturate, and nowhere else does a step stay put. */
  lemma Saturation(c: Chance)
    ensures Up(c) == c <==> c == SeventyFive
    ensures Down(c) == c <==> c == TwentyFive
  {
  }

  /** One step up is undone by one step down except at the top, and the
      other way round except at the bottom. */
  lemma UpDownInverse(c: Chance)
    ensures Down(Up(c)) == c <==> c != SeventyFive
    ensures Up(Down(c)) == c <==> c != TwentyFive
  {
  }

  /** The probability is strictly monotone in the level, so `up` raises it
      strictly below the top and `down` lowers it strictly above the bottom. */
  lemma AsRealMonotone(a: Chance, b: Chance)
    ensures Level(a) < Level(b) <==> AsReal(a) < AsReal(b)
    ensures a != SeventyFive ==> AsReal(a) < AsReal(Up(a))
    ensures a != TwentyFive ==> AsReal(Down(a)) < AsReal(a)
  {
  }
}
