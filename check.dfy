/** The check resolver `rollCheck`: one six-sided die plus the checked stat
    against the check's `dc`. The die is a parameter instead of `Math.random`. */
module CheckResolver {
  import opened StatModel

  /** A face of the die `1 + Math.floor(Math.random()*6)`. */
  type Die = d: int | 1 <= d <= 6 witness 1

  datatype Check = Check(stat: Stat, dc: int)

  /** `rollCheck`: passes when the die plus the stat reaches the `dc`. A pass
      needs a `dc` that a six can reach, and a fail one that a one misses. */
  function RollCheck(c: Check, s: Stats, die: Die): (passed: bool)
    ensures passed ==> c.dc <= 6 + Get(s, c.stat)
    ensures !passed ==> c.dc > 1 + Get(s, c.stat)
  {
    die + Get(s, c.stat) >= c.dc
  }

  /** A `dc` of at most one more than the stat passes on every die. */
  lemma AlwaysPasses(c: Check, s: Stats)
    requires c.dc <= 1 + Get(s, c.stat)
    ensures forall die: Die :: RollCheck(c, s, die)
  {
  }

  /** A `dc` above six more than the stat fails on every die. */
  lemma AlwaysFails(c: Check, s: Stats)
    requires c.dc > 6 + Get(s, c.stat)
    ensures forall die: Die :: !RollCheck(c, s, die)
  {
  }

  /** Some die passes exactly when the `dc` is at most six more than the stat,
      and some die fails exactly when it is above one more than the stat. */
  lemma Winnable(c: Check, s: Stats)
    ensures (exists die: Die :: RollCheck(c, s, die)) <==> c.dc <= 6 + Get(s, c.stat)
    ensures (exists die: Die :: !RollCheck(c, s, die)) <==> c.dc > 1 + Get(s, c.stat)
  {
    if c.dc <= 6 + Get(s, c.stat) {
      assert RollCheck(c, s, 6);
    }
    if c.dc > 1 + Get(s, c.stat) {
      assert !RollCheck(c, s, 1);
    }
  }

  /** With the stat at 0, a `dc` of 7 cannot be met and a `dc` of 1 always is. */
  lemma ZeroStat(k: Stat, s: Stats, die: Die)
    requires Get(s, k) == 0
    ensures !RollCheck(Check(k, 7), s, die)
    ensures RollCheck(Check(k, 1), s, die)
  {
  }

  /** A higher stat never turns a pass into a fail. */
  lemma MonotoneInStat(c: Check, s: Stats, t: Stats, die: Die)
    requires Get(s, c.stat) <= Get(t, c.stat)
    requires RollCheck(c, s, die)
    ensures RollCheck(c, t, die)
  {
  }
}
