/** The stat model: four integer attributes and the delta merge `applyStats`,
    which adds a delta and then clamps health from above and the other three
    from below. */
module StatModel {

  datatype Stat = Grit | Charm | Luck | Health

  datatype Stats = Stats(grit: int, charm: int, luck: int, health: int)

  /** A stat delta, as written in a choice or an effect bundle (`{health:-1}`). */
  type Delta = map<Stat, int>

  const MaxHealth: int := 8

  function Get(s: Stats, k: Stat): int {
    match k
    case Grit => s.grit
    case Charm => s.charm
    case Luck => s.luck
    case Health => s.health
  }

  function With(s: Stats, k: Stat, v: int): (r: Stats)
    ensures Get(r, k) == v
    ensures forall j :: j != k ==> Get(r, j) == Get(s, j)
  {
    match k
    case Grit => s.(grit := v)
    case Charm => s.(charm := v)
    case Luck => s.(luck := v)
    case Health => s.(health := v)
  }

  /** The amount a delta adds to stat `k`; a key the delta does not mention adds nothing. */
  function Amount(d: Delta, k: Stat): int {
    if k in d then d[k] else 0
  }

  /** The clamp `applyStats` applies to stat `k` after adding: health is capped at
      8 and has no lower bound; grit, charm and luck are floored at 0. */
  function Clamp(k: Stat, v: int): int {
    match k
    case Health => if v < MaxHealth then v else MaxHealth
    case _ => if v < 0 then 0 else v
  }

  /** The bounds every merge leaves the stats in. */
  predicate InBounds(s: Stats) {
    s.health <= MaxHealth && s.grit >= 0 && s.charm >= 0 && s.luck >= 0
  }

  /** The value of `applyStats(s, d)`. */
  function Merged(s: Stats, d: Delta): (r: Stats)
    ensures InBounds(r)
  {
    Stats(Clamp(Grit, s.grit + Amount(d, Grit)),
          Clamp(Charm, s.charm + Amount(d, Charm)),
          Clamp(Luck, s.luck + Amount(d, Luck)),
          Clamp(Health, s.health + Amount(d, Health)))
  }

  /** `applyStats`: copy the stats, add every key of the delta (the `for...in`
      loop, in whatever order the keys come), then clamp. */
  method ApplyStats(s: Stats, d: Delta) returns (out: Stats)
    ensures out.health <= MaxHealth && out.grit >= 0 && out.charm >= 0 && out.luck >= 0
    ensures forall k :: Get(out, k) == Clamp(k, Get(s, k) + Amount(d, k))
    ensures out == Merged(s, d)
  {
    out := s;
    var todo := d.Keys;
    while todo != {}
      invariant todo <= d.Keys
      invariant forall k :: Get(out, k) == Get(s, k) + (if k in d && k !in todo then d[k] else 0)
      decreases todo
    {
      var k :| k in todo;
      out := With(out, k, Get(out, k) + d[k]);
      todo := todo - {k};
    }
    out := out.(health := Clamp(Health, out.health));
    out := out.(grit := Clamp(Grit, out.grit));
    out := out.(charm := Clamp(Charm, out.charm));
    out := out.(luck := Clamp(Luck, out.luck));
  }

  /** Each stat named by the delta ends up as its old value plus the delta
      entry, clamped; health may be negative afterwards. */
  lemma MergedAt(s: Stats, d: Delta, k: Stat)
    ensures k in d && k == Health ==>
      Get(Merged(s, d), k) == (if s.health + d[k] < MaxHealth then s.health + d[k] else MaxHealth)
    ensures k in d && k != Health ==>
      Get(Merged(s, d), k) == (if Get(s, k) + d[k] < 0 then 0 else Get(s, k) + d[k])
    ensures k !in d ==> Get(Merged(s, d), k) == Clamp(k, Get(s, k))
  {
  }

  /** Health is not clamped from below: a large enough damage drives it
      negative, which is what lets the engine see the depletion. */
  lemma HealthCanGoNegative(s: Stats, d: Delta)
    requires Health in d && s.health + d[Health] < 0
    ensures Merged(s, d).health == s.health + d[Health] < 0
  {
  }

  /** On stats already within the bounds, a key the delta leaves out does not change. */
  lemma MergedUntouched(s: Stats, d: Delta, k: Stat)
    requires InBounds(s) && k !in d
    ensures Get(Merged(s, d), k) == Get(s, k)
  {
  }

  /** Merging an empty delta is a no-op on stats within the bounds, and only
      clamps otherwise. */
  lemma MergedEmpty(s: Stats)
    ensures InBounds(s) <==> Merged(s, map[]) == s
  {
  }

  function Negated(d: Delta): (n: Delta)
    ensures n.Keys == d.Keys
    ensures forall k :: k in d ==> n[k] == -d[k]
  {
    map k | k in d :: -d[k]
  }

  /** Applying a delta and then its negation restores the stats, provided no
      clamp fired on the way. */
  lemma MergedNegatedRestores(s: Stats, d: Delta)
    requires InBounds(s) && InBounds(Stats(s.grit + Amount(d, Grit), s.charm + Amount(d, Charm),
                                           s.luck + Amount(d, Luck), s.health + Amount(d, Health)))
    ensures Merged(Merged(s, d), Negated(d)) == s
  {
  }
}
