/**
 * Dirty objects and the creature gates of src/main.rs: `DirtyObj::new`, the
 * fixed noise table, and the cull and direction-flip decisions that open
 * `lerp_ant`.
 */
module Infestation {
  import opened Geometry
  import opened Wrappers

  /** Rust's `u8`. */
  newtype u8 = x: int | 0 <= x < 0x100

  /** Rust's `u16`. */
  newtype u16 = x: int | 0 <= x < 0x1_0000

  /**
   * An infested object: creatures walk between the `start` and `end`
   * segments; only `dirtiness` changes after construction.
   */
  datatype DirtyObj = DirtyObj(
    dirtiness: u8,
    start: LineSegment,
    end: LineSegment,
    amount: nat,
    distance: Vec2,
    chanceBidir: u8)

  function Midpoint(s: LineSegment): Vec2
  {
    Vec2((s.start.x + s.end.x) / 2.0, (s.start.y + s.end.y) / 2.0)
  }

  /**
   * `DirtyObj::new`: stores its arguments and derives `distance`, the vector
   * that carries the midpoint of `start` onto the midpoint of `end`.
   */
  function NewDirtyObj(dirtiness: u8, start: LineSegment, end: LineSegment, amount: nat, chanceBidir: u8): (o: DirtyObj)
    ensures o.dirtiness == dirtiness && o.start == start && o.end == end
    ensures o.amount == amount && o.chanceBidir == chanceBidir
    ensures Midpoint(start).x + o.distance.x == Midpoint(end).x
    ensures Midpoint(start).y + o.distance.y == Midpoint(end).y
  {
    var distance := Vec2((end.start.x + end.end.x) / 2.0 - (start.start.x + start.end.x) / 2.0,
                         (end.start.y + end.end.y) / 2.0 - (start.start.y + start.end.y) / 2.0);
    DirtyObj(dirtiness, start, end, amount, distance, chanceBidir)
  }

  /** The distance ignores the direction of either segment. */
  lemma DistanceIgnoresDirection(d: u8, start: LineSegment, end: LineSegment, amount: nat, c: u8)
    ensures NewDirtyObj(d, LineSegment(start.end, start.start), end, amount, c).distance
         == NewDirtyObj(d, start, end, amount, c).distance
    ensures NewDirtyObj(d, start, LineSegment(end.end, end.start), amount, c).distance
         == NewDirtyObj(d, start, end, amount, c).distance
  {
  }

  /** Exchanging the two segments reverses the distance. */
  lemma DistanceAntisymmetric(d: u8, start: LineSegment, end: LineSegment, amount: nat, c: u8)
    ensures var there := NewDirtyObj(d, start, end, amount, c).distance;
            var back := NewDirtyObj(d, end, start, amount, c).distance;
            back == Vec2(-there.x, -there.y)
  {
  }

  // ---------------------------------------------------------------------
  // The noise table

  /** `NOISE[i]`: the fixed table of 100 pseudo-random values, all in [0, 1). */
  function NoiseTable(i: nat): (n: real)
    requires i < 100
    ensures 0.0 <= n < 1.0
  {
    match i
    case 0 => 0.0
    case 1 => 0.37567067
    case 2 => 0.9067937
    case 3 => 0.47849727
    case 4 => 0.53902316
    case 5 => 0.68121976
    case 6 => 0.8017116
    case 7 => 0.3828842
    case 8 => 0.09980044
    case 9 => 0.28901517
    case 10 => 0.819964
    case 11 => 0.07882048
    case 12 => 0.9314874
    case 13 => 0.2782374
    case 14 => 0.8892265
    case 15 => 0.7379155
    case 16 => 0.8957271
    case 17 => 0.28707007
    case 18 => 0.38089857
    case 19 => 0.65332454
    case 20 => 0.012101332
    case 21 => 0.6167583
    case 22 => 0.821882
    case 23 => 0.05945961
    case 24 => 0.92279524
    case 25 => 0.03035006
    case 26 => 0.7336123
    case 27 => 0.98893404
    case 28 => 0.99925655
    case 29 => 0.35572338
    case 30 => 0.9292264
    case 31 => 0.88346875
    case 32 => 0.85185605
    case 33 => 0.68569475
    case 34 => 0.14773135
    case 35 => 0.6225942
    case 36 => 0.48433545
    case 37 => 0.1802073
    case 38 => 0.17406808
    case 39 => 0.26091358
    case 40 => 0.25314412
    case 41 => 0.3917573
    case 42 => 0.21147245
    case 43 => 0.88591653
    case 44 => 0.06278534
    case 45 => 0.45477942
    case 46 => 0.21266633
    case 47 => 0.92625904
    case 48 => 0.5458369
    case 49 => 0.9122172
    case 50 => 0.5397183
    case 51 => 0.035206992
    case 52 => 0.428736
    case 53 => 0.40691206
    case 54 => 0.754005
    case 55 => 0.49157023
    case 56 => 0.384951
    case 57 => 0.520259
    case 58 => 0.692683
    case 59 => 0.3089388
    case 60 => 0.65079826
    case 61 => 0.29621452
    case 62 => 0.8601855
    case 63 => 0.5781134
    case 64 => 0.63684237
    case 65 => 0.9962076
    case 66 => 0.3542669
    case 67 => 0.8180771
    case 68 => 0.7678995
    case 69 => 0.82436645
    case 70 => 0.72423524
    case 71 => 0.2671644
    case 72 => 0.56586105
    case 73 => 0.77570736
    case 74 => 0.11471661
    case 75 => 0.6794964
    case 76 => 0.8524261
    case 77 => 0.1201895
    case 78 => 0.21402203
    case 79 => 0.9767727
    case 80 => 0.5880526
    case 81 => 0.4113872
    case 82 => 0.8640513
    case 83 => 0.026697583
    case 84 => 0.12278987
    case 85 => 0.36087683
    case 86 => 0.86676
    case 87 => 0.082543656
    case 88 => 0.76316553
    case 89 => 0.6951772
    case 90 => 0.28111908
    case 91 => 0.70043737
    case 92 => 0.43776283
    case 93 => 0.086626664
    case 94 => 0.05120758
    case 95 => 0.5787454
    case 96 => 0.01473637
    case 97 => 0.8254751
    case 98 => 0.46910095
    case _ => 0.42112306
  }

  /** The value for a seed: the table is indexed modulo its length. */
  function Noise(seed: nat): real
  {
    NoiseTable(seed % 100)
  }

  // ---------------------------------------------------------------------
  // The gates of lerp_ant

  /** A creature whose noise value is n is not drawn at this dirtiness. */
  predicate CullsAt(n: real, dirtiness: u8)
  {
    n * n * (dirtiness as real) < 63.0
  }

  /** The creature with this seed is not drawn: noise squared times dirtiness is below 63. */
  predicate Culled(seed: nat, dirtiness: u8)
  {
    CullsAt(Noise(seed), dirtiness)
  }

  /** The creature with this seed walks from `end` to `start`. */
  predicate Flipped(seed: nat, chanceBidir: u8)
  {
    Noise(seed + 1) * 255.0 < chanceBidir as real
  }

  /**
   * The gates of `lerp_ant`: `None` for a culled creature, otherwise the
   * endpoints it walks between, exchanged when the flip gate fires.
   */
  function LerpGates(o: DirtyObj, start: Vec2, end: Vec2, seed: nat): (r: Option<(Vec2, Vec2)>)
    ensures r.None? <==> Culled(seed, o.dirtiness)
    ensures r.Some? && !Flipped(seed, o.chanceBidir) ==> r.value == (start, end)
    ensures r.Some? && Flipped(seed, o.chanceBidir) ==> r.value == (end, start)
  {
    if Culled(seed, o.dirtiness) then None
    else if Flipped(seed, o.chanceBidir) then Some((end, start))
    else Some((start, end))
  }

  /** The cull decision depends on the seed only modulo 100. */
  lemma CullPeriodic(s1: nat, s2: nat, dirtiness: u8)
    requires s1 % 100 == s2 % 100
    ensures Culled(s1, dirtiness) == Culled(s2, dirtiness)
  {
    assert Noise(s1) == Noise(s2);
  }

  /** Every creature of an object with dirtiness below 63 is culled. */
  lemma CulledWhenClean(seed: nat, dirtiness: u8)
    requires dirtiness < 63
    ensures Culled(seed, dirtiness)
  {
    SmallNoiseCulls(Noise(seed), dirtiness);
  }

  lemma SmallNoiseCulls(n: real, dirtiness: u8)
    requires 0.0 <= n < 1.0 && dirtiness < 63
    ensures CullsAt(n, dirtiness)
  {
    assert n * n <= n * 1.0;
    assert n * n * dirtiness as real <= 1.0 * dirtiness as real;
  }

  /** Seeds that are multiples of 100 read the table's zero and are always culled. */
  lemma CulledAtSeedZero(seed: nat, dirtiness: u8)
    requires seed % 100 == 0
    ensures Culled(seed, dirtiness)
  {
    assert Noise(seed) == NoiseTable(0) == 0.0;
  }

  /** A dirtier object culls no more creatures: the gate is monotone in dirtiness. */
  lemma CullMonotone(seed: nat, d1: u8, d2: u8)
    requires d1 <= d2 && Culled(seed, d2)
    ensures Culled(seed, d1)
  {
    CullsAtMonotone(Noise(seed), d1, d2);
  }

  lemma CullsAtMonotone(n: real, d1: u8, d2: u8)
    requires d1 <= d2 && CullsAt(n, d2)
    ensures CullsAt(n, d1)
  {
    assert n * n * (d1 as real) <= n * n * (d2 as real) by {
      MulMonotone(n * n, d1 as real, d2 as real);
    }
    var lo, hi := n * n * (d1 as real), n * n * (d2 as real);
    assert lo <= hi;
    assert hi < 63.0;
    assert lo < 63.0;
  }

  lemma MulMonotone(k: real, a: real, b: real)
    requires 0.0 <= k && a <= b
    ensures k * a <= k * b
  {
    assert k * b - k * a == k * (b - a);
  }

  /** With `chance_bidir` zero no creature is flipped. */
  lemma NeverFlippedAtZeroChance(seed: nat)
    ensures !Flipped(seed, 0)
  {
  }
}
