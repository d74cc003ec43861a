/**
 * One tick of a playable level: the logic of `manage_level` without its
 * drawing. A tick advances the Medium shift clock, updates every infested
 * object's dirtiness and the money it earns, lets the player buy a
 * repellant, and decides whether the level is won, lost or goes on.
 *
 * `Step` is the value-level specification of a tick; `LevelState.Tick`
 * is the in-place loop the game runs, proved equal to `Step`.
 */
module Level {
  import opened Wrappers
  import opened Geometry
  import opened Infestation

  /** The difficulties the game implements (the unfinished `Hard` is not modelled). */
  datatype Difficulty = Easy | Medium

  datatype Stage = A1 | B1

  datatype Dialog = Lost(stage: Stage) | Won(stage: Stage, next: Stage)

  /** The left mouse button and the cursor as seen by one frame. */
  datatype Pointer = Pointer(pos: Vec2, down: bool, pressed: bool)

  /**
   * The two routines a tick calls but does not define: `f32::exp`, which
   * scales the Medium reward by the repellants owned, and the hit test
   * `LineSegment::lies_between`. The game passes `Geometry.LiesBetween`
   * for the latter (see `Screens`).
   */
  datatype Env = Env(exp: u16 -> real, liesBetween: (LineSegment, LineSegment, Vec2) -> bool)

  /** A level's state as a value (its background scene is not modelled). */
  datatype LevelData = LevelData(
    objects: seq<DirtyObj>,
    difficulty: Difficulty,
    money: real,
    moneyGoal: real,
    repellants: u16,
    repellantName: string,
    repellantPrice: real)

  /**
   * How a tick ends: the level goes on, a dialog replaces it, or the tick
   * panics as a debug build does, because buying a repellant overflows the
   * `u16` counter or because the printed shift countdown underflows.
   */
  datatype Outcome = Continue | Finished(dialog: Dialog) | RepellantOverflow | CountdownUnderflow

  datatype StepResult = StepResult(level: LevelData, duration: Option<nat>, outcome: Outcome)

  const MAX_DIRTINESS: u8 := 200
  /** Below this a Medium object counts as cleaned out, which also loses the level. */
  const MIN_DIRTINESS: u8 := 40
  /** The length of a Medium shift in ticks: five minutes at sixty frames a second. */
  const MEDIUM_DURATION: nat := 5 * 60 * 60
  const MAX_REPELLANTS: u16 := 0xFFFF

  const BUTTON_WIDTH: real := 170.0
  const BUTTON_HEIGHT: real := 30.0
  /** The top and bottom edges of the buy-repellant button. */
  const BUY_TOP: LineSegment :=
    LineSegment(Vec2(960.0 - BUTTON_WIDTH - 10.0, 10.0), Vec2(960.0 - 10.0, 10.0))
  const BUY_BOTTOM: LineSegment :=
    LineSegment(Vec2(960.0 - BUTTON_WIDTH - 10.0, BUTTON_HEIGHT + 10.0),
                Vec2(960.0 - 10.0, BUTTON_HEIGHT + 10.0))

  function Min(a: int, b: int): (m: int)
  {
    if a <= b then a else b
  }

  function Max(a: int, b: int): (m: int)
  {
    if a <= b then b else a
  }

  // ---------------------------------------------------------------------
  // The shift clock
  // ---------------------------------------------------------------------

  /** Medium levels count the ticks of the shift; Easy levels leave the clock alone. */
  function NextDuration(d: Difficulty, duration: Option<nat>): Option<nat>
  {
    match d
    case Easy => duration
    case Medium => if duration.Some? then Some(duration.value + 1) else Some(0)
  }

  predicate TimedOut(duration: Option<nat>)
  {
    duration.Some? && duration.value > MEDIUM_DURATION
  }

  /**
   * The remaining shift time `manage_level` prints, `MEDIUM_DURATION - duration`
   * on `usize`: `None` where that subtraction underflows, a panic in a debug build.
   */
  function ShiftCountdown(duration: nat): (r: Option<nat>)
    ensures r.Some? <==> duration <= MEDIUM_DURATION
    ensures r.Some? ==> duration + r.value == MEDIUM_DURATION
  {
    if duration <= MEDIUM_DURATION then Some(MEDIUM_DURATION - duration) else None
  }

  // ---------------------------------------------------------------------
  // Dirtiness
  // ---------------------------------------------------------------------

  /** The number of ticks between two passive dirtiness changes. */
  function Cadence(d: Difficulty, repellants: u16): (c: nat)
    ensures 7 <= c
    ensures d == Medium ==> c == 7
    ensures d == Easy ==> ((c - 7) as real) <= 0.3 * (repellants as real) < ((c - 7) as real) + 1.0
  {
    match d
    case Easy => 7 + (3 * repellants as int) / 10
    case Medium => 7
  }

  /** Whether this tick changes every object's dirtiness on its own. */
  predicate DirtinessMoves(d: Difficulty, repellants: u16, tick: nat)
  {
    tick % Cadence(d, repellants) == 0
  }

  /** `checked_add(1).unwrap_or(x)` on `u8`. */
  function SatInc(x: u8): u8 { if x < 255 then x + 1 else x }

  /** `checked_sub(1).unwrap_or(x)` on `u8`. */
  function SatDec(x: u8): u8 { if x > 0 then x - 1 else x }

  /** The left button is held with the cursor over the object. */
  predicate Clicked(o: DirtyObj, ptr: Pointer, env: Env)
  {
    ptr.down && env.liesBetween(o.start, o.end, ptr.pos)
  }

  /**
   * An object's dirtiness after one tick: Easy dirt grows and Medium dirt
   * shrinks on the cadence, then a click over the object (`hit`) pushes it
   * the other way, all clamped to the range of a `u8`.
   */
  function NextDirtiness(dirtiness: u8, d: Difficulty, moves: bool, hit: bool): (r: u8)
    ensures var x := dirtiness as int;
      var passive := if !moves then x else if d == Easy then Min(x + 1, 255) else Max(x - 1, 0);
      r as int == if !hit then passive
                  else if d == Easy then Max(passive - 1, 0)
                  else Min(passive + 1, 255)
  {
    var passive := if !moves then dirtiness
      else match d case Easy => SatInc(dirtiness) case Medium => SatDec(dirtiness);
    if !hit then passive
    else match d case Easy => SatDec(passive) case Medium => SatInc(passive)
  }

  function UpdateObject(o: DirtyObj, d: Difficulty, moves: bool, ptr: Pointer, env: Env): DirtyObj
  {
    o.(dirtiness := NextDirtiness(o.dirtiness, d, moves, Clicked(o, ptr, env)))
  }

  function UpdateObjects(objs: seq<DirtyObj>, d: Difficulty, moves: bool, ptr: Pointer, env: Env): seq<DirtyObj>
  {
    seq(|objs|, i requires 0 <= i < |objs| => UpdateObject(objs[i], d, moves, ptr, env))
  }

  // ---------------------------------------------------------------------
  // Money
  // ---------------------------------------------------------------------

  /**
   * What one object earns in a tick: an Easy object pays while the button
   * is up, a Medium object pays `0.5 + env.exp(repellants)` while it is clicked.
   */
  function ObjectEarning(o: DirtyObj, d: Difficulty, ptr: Pointer, repellants: u16, env: Env): real
  {
    match d
    case Easy => if ptr.down then 0.0 else 0.1
    case Medium => if Clicked(o, ptr, env) then 0.5 + env.exp(repellants) else 0.0
  }

  /** What all the objects earn in a tick, added in their order. */
  function Earnings(objs: seq<DirtyObj>, d: Difficulty, ptr: Pointer, repellants: u16, env: Env): real
    decreases |objs|
  {
    if |objs| == 0 then 0.0
    else Earnings(objs[..|objs| - 1], d, ptr, repellants, env)
         + ObjectEarning(objs[|objs| - 1], d, ptr, repellants, env)
  }

  /** The number of objects the cursor holds down. */
  function CountClicked(objs: seq<DirtyObj>, ptr: Pointer, env: Env): (c: nat)
    ensures c <= |objs|
    decreases |objs|
  {
    if |objs| == 0 then 0
    else CountClicked(objs[..|objs| - 1], ptr, env) + if Clicked(objs[|objs| - 1], ptr, env) then 1 else 0
  }

  /** No object is counted exactly when the cursor holds none of them down. */
  lemma {:induction false} NoneClicked(objs: seq<DirtyObj>, ptr: Pointer, env: Env)
    ensures CountClicked(objs, ptr, env) == 0 <==> forall i :: 0 <= i < |objs| ==> !Clicked(objs[i], ptr, env)
    decreases |objs|
  {
    if |objs| > 0 {
      var n := |objs| - 1;
      NoneClicked(objs[..n], ptr, env);
      assert forall i :: 0 <= i < n ==> objs[..n][i] == objs[i];
    }
  }

  /** `k` added up `n` times. */
  function Scale(k: real, n: nat): real
  {
    if n == 0 then 0.0 else Scale(k, n - 1) + k
  }

  lemma {:induction false} ScaleIsProduct(k: real, n: nat)
    ensures Scale(k, n) == k * (n as real)
  {
    if n > 0 {
      ScaleIsProduct(k, n - 1);
      assert k * (n as real) == k * ((n - 1) as real) + k;
    }
  }

  /** An idle Easy tick pays a tenth per object; holding the button pays nothing. */
  lemma {:induction false} EasyEarnings(objs: seq<DirtyObj>, ptr: Pointer, repellants: u16, env: Env)
    ensures Earnings(objs, Easy, ptr, repellants, env) == Scale(if ptr.down then 0.0 else 0.1, |objs|)
    decreases |objs|
  {
    if |objs| > 0 {
      EasyEarnings(objs[..|objs| - 1], ptr, repellants, env);
    }
  }

  /** A Medium tick pays `0.5 + env.exp(repellants)` for every object held down, and nothing else. */
  lemma {:induction false} MediumEarnings(objs: seq<DirtyObj>, ptr: Pointer, repellants: u16, env: Env)
    ensures Earnings(objs, Medium, ptr, repellants, env) == Scale(0.5 + env.exp(repellants), CountClicked(objs, ptr, env))
    decreases |objs|
  {
    if |objs| > 0 {
      MediumEarnings(objs[..|objs| - 1], ptr, repellants, env);
    }
  }

  /** With a non-negative repellant bonus the per-object loop never lowers the money. */
  lemma {:induction false} EarningsNonNegative(objs: seq<DirtyObj>, d: Difficulty, ptr: Pointer, repellants: u16, env: Env)
    requires 0.0 <= env.exp(repellants)
    ensures 0.0 <= Earnings(objs, d, ptr, repellants, env)
    decreases |objs|
  {
    if |objs| > 0 {
      EarningsNonNegative(objs[..|objs| - 1], d, ptr, repellants, env);
    }
  }

  // ---------------------------------------------------------------------
  // Completion and the end of the level
  // ---------------------------------------------------------------------

  /** An object that ends the level: Easy dirt past the maximum, Medium dirt past it or cleaned out. */
  predicate Complete(d: Difficulty, dirtiness: u8)
  {
    match d
    case Easy => dirtiness > MAX_DIRTINESS
    case Medium => dirtiness > MAX_DIRTINESS || dirtiness < MIN_DIRTINESS
  }

  /** The tally `objects_complete_dirty` of a tick. */
  function CountComplete(d: Difficulty, objs: seq<DirtyObj>): (c: nat)
    ensures c <= |objs|
    decreases |objs|
  {
    if |objs| == 0 then 0
    else CountComplete(d, objs[..|objs| - 1]) + if Complete(d, objs[|objs| - 1].dirtiness) then 1 else 0
  }

  /** Every object is counted exactly when every object is complete. */
  lemma {:induction false} AllComplete(d: Difficulty, objs: seq<DirtyObj>)
    ensures CountComplete(d, objs) == |objs| <==> forall i :: 0 <= i < |objs| ==> Complete(d, objs[i].dirtiness)
    decreases |objs|
  {
    if |objs| > 0 {
      var n := |objs| - 1;
      AllComplete(d, objs[..n]);
      assert forall i :: 0 <= i < n ==> objs[..n][i] == objs[i];
    }
  }

  /** The count is positive exactly when some object is complete. */
  lemma {:induction false} SomeComplete(d: Difficulty, objs: seq<DirtyObj>)
    ensures 1 <= CountComplete(d, objs) <==> exists i :: 0 <= i < |objs| && Complete(d, objs[i].dirtiness)
    decreases |objs|
  {
    if |objs| > 0 {
      var n := |objs| - 1;
      SomeComplete(d, objs[..n]);
      assert forall i :: 0 <= i < n ==> objs[..n][i] == objs[i];
    }
  }

  /**
   * The transition a tick asks for, tested in the game's order:
   * money past the goal wins, then an all-complete Easy level is lost,
   * then a Medium level with any complete object or a finished shift is lost.
   */
  function Decide(l: LevelData, duration: Option<nat>): Option<Dialog>
  {
    var complete := CountComplete(l.difficulty, l.objects);
    if l.money > l.moneyGoal then Some(Won(A1, B1))
    else if l.difficulty == Easy && |l.objects| == complete then Some(Lost(B1))
    else if l.difficulty == Medium && (1 <= complete || TimedOut(duration)) then Some(Lost(B1))
    else None
  }

  // ---------------------------------------------------------------------
  // Buying repellants
  // ---------------------------------------------------------------------

  /** The player clicks the buy button with more money than a repellant costs. */
  predicate Buys(ptr: Pointer, money: real, price: real, env: Env)
  {
    ptr.pressed && env.liesBetween(BUY_TOP, BUY_BOTTOM, ptr.pos) && money > price
  }

  /** The level after the buy button is handled; `None` when the count of repellants overflows. */
  function Purchase(l: LevelData, ptr: Pointer, env: Env): Option<LevelData>
  {
    if !Buys(ptr, l.money, l.repellantPrice, env) then Some(l)
    else if l.repellants == MAX_REPELLANTS then None
    else Some(l.(repellants := l.repellants + 1, money := l.money - l.repellantPrice))
  }

  // ---------------------------------------------------------------------
  // A whole tick
  // ---------------------------------------------------------------------

  /** The objects and money after the per-object loop of a tick. */
  function Tend(l: LevelData, moves: bool, ptr: Pointer, env: Env): LevelData
  {
    l.(objects := UpdateObjects(l.objects, l.difficulty, moves, ptr, env),
       money := l.money + Earnings(l.objects, l.difficulty, ptr, l.repellants, env))
  }

  /**
   * The specification of one tick of `manage_level` as written: after the
   * per-object loop, a Medium tick prints the shift countdown, which panics
   * once the clock has passed the end of the shift; otherwise the buy button
   * and the decision follow.
   */
  function Step(l: LevelData, tick: nat, ptr: Pointer, duration: Option<nat>, env: Env): StepResult
  {
    var clock := NextDuration(l.difficulty, duration);
    var tended := Tend(l, DirtinessMoves(l.difficulty, l.repellants, tick), ptr, env);
    if l.difficulty == Medium && clock.Some? && ShiftCountdown(clock.value).None?
    then StepResult(tended, clock, CountdownUnderflow)
    else Settle(tended, clock, ptr, env)
  }

  /** The end of a tick after the loop: the buy button, then the decision. */
  function Settle(tended: LevelData, clock: Option<nat>, ptr: Pointer, env: Env): StepResult
  {
    match Purchase(tended, ptr, env)
    case None => StepResult(tended, clock, RepellantOverflow)
    case Some(after) => StepResult(after, clock, Verdict(Decide(after, clock)))
  }

  /**
   * The tick as evidently intended: the countdown stops at zero
   * (`RemainingShift`) instead of underflowing, so nothing but the buy
   * button can panic.
   */
  function CorrectedStep(l: LevelData, tick: nat, ptr: Pointer, duration: Option<nat>, env: Env): StepResult
  {
    var clock := NextDuration(l.difficulty, duration);
    Settle(Tend(l, DirtinessMoves(l.difficulty, l.repellants, tick), ptr, env), clock, ptr, env)
  }

  function Verdict(next: Option<Dialog>): Outcome
  {
    if next.Some? then Finished(next.value) else Continue
  }

  // ---------------------------------------------------------------------
  // What a tick promises
  // ---------------------------------------------------------------------

  /**
   * How a tick ends, in the order the game tests it, stated over the
   * objects themselves rather than over the tallies of the loop: a Medium
   * tick past the end of the shift panics on the countdown; any other tick
   * that does not overflow the repellant count follows the decision chain.
   */
  lemma StepOutcome(l: LevelData, tick: nat, ptr: Pointer, duration: Option<nat>, env: Env)
    ensures var r := Step(l, tick, ptr, duration, env);
      var objs := r.level.objects;
      var underflow := l.difficulty == Medium && TimedOut(r.duration);
      && (r.outcome == CountdownUnderflow <==> underflow)
      && (r.outcome != RepellantOverflow && !underflow ==>
        r.outcome ==
          if r.level.money > l.moneyGoal then Finished(Won(A1, B1))
          else if l.difficulty == Easy
            && forall i :: 0 <= i < |objs| ==> objs[i].dirtiness > MAX_DIRTINESS
          then Finished(Lost(B1))
          else if l.difficulty == Medium
            && ((exists i :: 0 <= i < |objs| && (objs[i].dirtiness > MAX_DIRTINESS || objs[i].dirtiness < MIN_DIRTINESS))
                || TimedOut(r.duration))
          then Finished(Lost(B1))
          else Continue)
  {
    var r := Step(l, tick, ptr, duration, env);
    AllComplete(l.difficulty, r.level.objects);
    SomeComplete(l.difficulty, r.level.objects);
  }

  /**
   * The buy button: on a tick that reaches it, with the money after the loop
   * above the price, a press on the button buys one repellant for its price,
   * or overflows a full counter; otherwise the count and the money stay as
   * the loop left them.
   */
  lemma StepPurchase(l: LevelData, tick: nat, ptr: Pointer, duration: Option<nat>, env: Env)
    ensures var r := Step(l, tick, ptr, duration, env);
      var earned := l.money + Earnings(l.objects, l.difficulty, ptr, l.repellants, env);
      var buys := ptr.pressed && env.liesBetween(BUY_TOP, BUY_BOTTOM, ptr.pos) && earned > l.repellantPrice;
      var reached := r.outcome != CountdownUnderflow;
      && (r.outcome == RepellantOverflow <==> reached && buys && l.repellants == MAX_REPELLANTS)
      && (if reached && buys && r.outcome != RepellantOverflow
          then r.level.repellants as int == l.repellants as int + 1
               && r.level.money == earned - l.repellantPrice
               && r.level.money > 0.0
          else r.level.repellants == l.repellants && r.level.money == earned)
  {
  }

  /**
   * A tick changes nothing but the objects' dirtiness, the money and the
   * repellant count; every object keeps its place and its geometry, and its
   * new dirtiness is `NextDirtiness` on the tick's shared cadence.
   */
  lemma StepKeepsLevel(l: LevelData, tick: nat, ptr: Pointer, duration: Option<nat>, env: Env)
    ensures var r := Step(l, tick, ptr, duration, env);
      var moves := DirtinessMoves(l.difficulty, l.repellants, tick);
      && r.level.difficulty == l.difficulty
      && r.level.moneyGoal == l.moneyGoal
      && r.level.repellantName == l.repellantName
      && r.level.repellantPrice == l.repellantPrice
      && |r.level.objects| == |l.objects|
      && forall i :: 0 <= i < |l.objects| ==>
           r.level.objects[i] == l.objects[i].(dirtiness := r.level.objects[i].dirtiness)
           && r.level.objects[i].dirtiness
              == NextDirtiness(l.objects[i].dirtiness, l.difficulty, moves, Clicked(l.objects[i], ptr, env))
  {
  }

  /**
   * Only buying a repellant lowers the money: with a non-negative bonus,
   * a tick that leaves the repellant count alone ends with at least the
   * money it started with.
   */
  lemma StepMoneyWithoutBuying(l: LevelData, tick: nat, ptr: Pointer, duration: Option<nat>, env: Env)
    requires 0.0 <= env.exp(l.repellants)
    ensures var r := Step(l, tick, ptr, duration, env);
      r.level.repellants == l.repellants ==> l.money <= r.level.money
  {
    EarningsNonNegative(l.objects, l.difficulty, ptr, l.repellants, env);
  }

  /** Medium levels count the shift in ticks; Easy levels leave the clock alone. */
  lemma ShiftClock(l: LevelData, tick: nat, ptr: Pointer, duration: Option<nat>, env: Env)
    ensures var r := Step(l, tick, ptr, duration, env);
      && (l.difficulty == Easy ==> r.duration == duration)
      && (l.difficulty == Medium ==>
            r.duration == Some(if duration.Some? then duration.value + 1 else 0))
  {
  }

  /**
   * The as-written and the corrected tick share the clock, and differ only
   * on a tick whose countdown underflows, where the as-written tick stops
   * after the loop.
   */
  lemma CorrectedStepAgrees(l: LevelData, tick: nat, ptr: Pointer, duration: Option<nat>, env: Env)
    ensures var r := Step(l, tick, ptr, duration, env);
      var c := CorrectedStep(l, tick, ptr, duration, env);
      && r.duration == c.duration
      && (r.outcome != CountdownUnderflow ==> r == c)
      && (r.outcome == CountdownUnderflow ==>
            r.level == Tend(l, DirtinessMoves(l.difficulty, l.repellants, tick), ptr, env)
            && r.level.objects == c.level.objects)
  {
  }

  /**
   * With the corrected countdown, once the Medium shift has run its course,
   * every tick that neither wins nor overflows the repellant count loses
   * the level.
   */
  lemma TimeoutLoses(l: LevelData, tick: nat, ptr: Pointer, duration: Option<nat>, env: Env)
    requires l.difficulty == Medium && duration.Some? && duration.value >= MEDIUM_DURATION
    ensures var r := CorrectedStep(l, tick, ptr, duration, env);
      r.outcome == RepellantOverflow || r.level.money > l.moneyGoal || r.outcome == Finished(Lost(B1))
  {
  }

  /**
   * As written, `manage_level` prints the countdown before it tests for the
   * end of the shift, so on every tick where the timeout test would fire
   * the countdown has already underflowed and the tick panics instead of
   * reporting the loss; the first such tick follows the one whose clock
   * reads `MEDIUM_DURATION`.
   */
  lemma CountdownUnderflowsAtTimeout(l: LevelData, tick: nat, ptr: Pointer, duration: Option<nat>, env: Env)
    requires l.difficulty == Medium
    ensures var r := Step(l, tick, ptr, duration, env);
      TimedOut(r.duration) ==> ShiftCountdown(r.duration.value).None? && r.outcome == CountdownUnderflow
    ensures duration == Some(MEDIUM_DURATION) ==> Step(l, tick, ptr, duration, env).outcome == CountdownUnderflow
  {
  }

  /**
   * The countdown as evidently intended: the remaining ticks of the shift,
   * stopping at zero instead of underflowing.
   */
  function RemainingShift(duration: nat): (r: nat)
    ensures r <= MEDIUM_DURATION
    ensures duration <= MEDIUM_DURATION ==> duration + r == MEDIUM_DURATION
    ensures MEDIUM_DURATION <= duration ==> r == 0
  {
    if duration <= MEDIUM_DURATION then MEDIUM_DURATION - duration else 0
  }

  /**
   * With the countdown stopping at zero, the tick on which the shift runs
   * out shows zero and, unless it wins or overflows, is lost.
   */
  lemma TimeoutShowsZero(l: LevelData, tick: nat, ptr: Pointer, duration: Option<nat>, env: Env)
    requires l.difficulty == Medium
    ensures var r := CorrectedStep(l, tick, ptr, duration, env);
      TimedOut(r.duration) ==>
        && RemainingShift(r.duration.value) == 0
        && (r.outcome == RepellantOverflow || r.level.money > l.moneyGoal || r.outcome == Finished(Lost(B1)))
  {
  }

  /** More repellants never make Easy dirt come back sooner. */
  lemma CadenceMonotone(r1: u16, r2: u16)
    requires r1 <= r2
    ensures Cadence(Easy, r1) <= Cadence(Easy, r2)
  {
  }

  // ---------------------------------------------------------------------
  // The buy button
  // ---------------------------------------------------------------------

  /** The hit test on the button's two edges accepts exactly the button's rectangle. */
  lemma BuyButtonIsRectangle(p: Vec2)
    ensures LiesBetween(BUY_TOP, BUY_BOTTOM, p) <==> 780.0 <= p.x <= 950.0 && 10.0 <= p.y <= 40.0
  {
    assert BUY_TOP == LineSegment(Vec2(780.0, 10.0), Vec2(950.0, 10.0));
    assert BUY_BOTTOM == LineSegment(Vec2(780.0, 40.0), Vec2(950.0, 40.0));
    ButtonLowerTriangle(p);
    ButtonUpperTriangle(p);
    ButtonRightTriangle(p);
  }

  lemma ButtonLowerTriangle(p: Vec2)
    ensures InTriangle(p, Vec2(780.0, 10.0), Vec2(950.0, 10.0), Vec2(780.0, 40.0))
            <==> 10.0 <= p.y && 780.0 <= p.x && 30.0 * (p.x - 780.0) + 170.0 * (p.y - 40.0) <= 0.0
  {
    assert Sign(p, Vec2(780.0, 10.0), Vec2(950.0, 10.0)) == 170.0 * (p.y - 10.0);
    assert Sign(p, Vec2(950.0, 10.0), Vec2(780.0, 40.0)) == -30.0 * (p.x - 780.0) - 170.0 * (p.y - 40.0);
    assert Sign(p, Vec2(780.0, 40.0), Vec2(780.0, 10.0)) == 30.0 * (p.x - 780.0);
  }

  lemma ButtonUpperTriangle(p: Vec2)
    ensures InTriangle(p, Vec2(780.0, 40.0), Vec2(950.0, 40.0), Vec2(780.0, 10.0))
            <==> p.y <= 40.0 && 780.0 <= p.x && 30.0 * (p.x - 780.0) <= 170.0 * (p.y - 10.0)
  {
    assert Sign(p, Vec2(780.0, 40.0), Vec2(950.0, 40.0)) == 170.0 * (p.y - 40.0);
    assert Sign(p, Vec2(950.0, 40.0), Vec2(780.0, 10.0)) == 30.0 * (p.x - 780.0) - 170.0 * (p.y - 10.0);
    assert Sign(p, Vec2(780.0, 10.0), Vec2(780.0, 40.0)) == -30.0 * (p.x - 780.0);
  }

  lemma ButtonRightTriangle(p: Vec2)
    ensures InTriangle(p, Vec2(780.0, 40.0), Vec2(950.0, 40.0), Vec2(950.0, 10.0))
            <==> p.y <= 40.0 && p.x <= 950.0 && 0.0 <= 30.0 * (p.x - 780.0) + 170.0 * (p.y - 40.0)
  {
    assert Sign(p, Vec2(780.0, 40.0), Vec2(950.0, 40.0)) == 170.0 * (p.y - 40.0);
    assert Sign(p, Vec2(950.0, 40.0), Vec2(950.0, 10.0)) == 30.0 * (p.x - 950.0);
    assert Sign(p, Vec2(950.0, 10.0), Vec2(780.0, 40.0)) == -30.0 * (p.x - 780.0) - 170.0 * (p.y - 40.0);
  }

  /**
   * A level whose fields the game updates in place; the game keeps one per
   * visit to a stage, cloned from that stage's template.
   */
  class LevelState {
    var objects: seq<DirtyObj>
    const difficulty: Difficulty
    var money: real
    const moneyGoal: real
    var repellants: u16
    const repellantName: string
    const repellantPrice: real

    function Data(): LevelData
      reads this
    {
      LevelData(objects, difficulty, money, moneyGoal, repellants, repellantName, repellantPrice)
    }

    /** A fresh clone of a stage's template. */
    constructor FromTemplate(t: LevelData)
      ensures Data() == t
    {
      objects := t.objects;
      difficulty := t.difficulty;
      money := t.money;
      moneyGoal := t.moneyGoal;
      repellants := t.repellants;
      repellantName := t.repellantName;
      repellantPrice := t.repellantPrice;
    }

    /**
     * The body of the per-object loop: the object's new dirtiness and what it
     * earns this tick.
     */
    method TendObject(obj: DirtyObj, moves: bool, ptr: Pointer, env: Env)
      returns (dirtiness: u8, earned: real)
      ensures dirtiness == NextDirtiness(obj.dirtiness, difficulty, moves, Clicked(obj, ptr, env))
      ensures earned == ObjectEarning(obj, difficulty, ptr, repellants, env)
    {
      dirtiness := obj.dirtiness;
      if moves {
        dirtiness := if difficulty == Easy then SatInc(dirtiness) else SatDec(dirtiness);
      }
      earned := 0.0;
      if ptr.down {
        if env.liesBetween(obj.start, obj.end, ptr.pos) {
          dirtiness := if difficulty == Easy then SatDec(dirtiness) else SatInc(dirtiness);
          if difficulty == Medium {
            earned := 0.5 + env.exp(repellants);
          }
        }
      } else if difficulty == Easy {
        earned := 0.1;
      }
    }

    /**
     * The per-object loop of `manage_level`: every object's dirtiness and
     * earnings in order, with the tally of objects and of complete objects.
     */
    method TendAll(moves: bool, ptr: Pointer, env: Env) returns (numObjects: nat, completeDirty: nat)
      modifies this
      ensures Data() == Tend(old(Data()), moves, ptr, env)
      ensures numObjects == |objects| && completeDirty == CountComplete(difficulty, objects)
    {
      completeDirty, numObjects := 0, 0;
      ghost var objs0, money0 := objects, money;
      ghost var tended := UpdateObjects(objs0, difficulty, moves, ptr, env);
      var i := 0;
      while i < |objects|
        invariant i <= |objects| == |objs0|
        invariant forall j :: 0 <= j < i ==> objects[j] == tended[j]
        invariant forall j :: i <= j < |objects| ==> objects[j] == objs0[j]
        invariant money == money0 + Earnings(objs0[..i], difficulty, ptr, repellants, env)
        invariant numObjects == i
        invariant completeDirty == CountComplete(difficulty, tended[..i])
        invariant repellants == old(repellants)
      {
        var obj := objects[i];
        var dirtiness, earned := TendObject(obj, moves, ptr, env);
        money := money + earned;
        objects := objects[i := obj.(dirtiness := dirtiness)];
        numObjects := numObjects + 1;
        if Complete(difficulty, dirtiness) {
          completeDirty := completeDirty + 1;
        }
        assert objs0[..i + 1][..i] == objs0[..i];
        assert tended[..i + 1][..i] == tended[..i];
        i := i + 1;
      }
      assert tended[..i] == tended;
      assert objects == tended;
      assert objs0[..i] == objs0;
    }

    /** The buy-repellant button: returns whether the purchase overflows the count. */
    method BuyRepellant(ptr: Pointer, env: Env) returns (overflow: bool)
      modifies this
      ensures var r := Purchase(old(Data()), ptr, env);
        overflow == r.None? && Data() == if r.None? then old(Data()) else r.value
    {
      overflow := false;
      if ptr.pressed && env.liesBetween(BUY_TOP, BUY_BOTTOM, ptr.pos) && money > repellantPrice {
        if repellants == MAX_REPELLANTS {
          return true;
        }
        repellants := repellants + 1;
        money := money - repellantPrice;
      }
    }

    /**
     * One call of `manage_level`, as a debug build runs it: returns the new
     * shift clock and how the tick ends, updating the level as `Step` says.
     */
    method Tick(tick: nat, ptr: Pointer, duration: Option<nat>, env: Env)
      returns (newDuration: Option<nat>, outcome: Outcome)
      modifies this
      ensures var r := Step(old(Data()), tick, ptr, duration, env);
        Data() == r.level && newDuration == r.duration && outcome == r.outcome
    {
      newDuration := duration;
      if difficulty == Medium {
        newDuration := if duration.Some? then Some(duration.value + 1) else Some(0);
      }
      var moves := match difficulty
        case Easy => tick % (7 + (3 * repellants as int) / 10) == 0
        case Medium => tick % 7 == 0;
      var numObjects, completeDirty := TendAll(moves, ptr, env);

      if difficulty == Medium && newDuration.Some? && ShiftCountdown(newDuration.value).None? {
        return newDuration, CountdownUnderflow;
      }

      var overflow := BuyRepellant(ptr, env);
      if overflow {
        return newDuration, RepellantOverflow;
      }

      outcome := Conclude(newDuration, numObjects, completeDirty);
    }

    /** The change of screen at the end of `manage_level`, from the tallies of the loop. */
    method Conclude(duration: Option<nat>, numObjects: nat, completeDirty: nat) returns (outcome: Outcome)
      requires numObjects == |objects| && completeDirty == CountComplete(difficulty, objects)
      ensures outcome == Verdict(Decide(Data(), duration))
    {
      if money > moneyGoal {
        outcome := Finished(Won(A1, B1));
      } else if difficulty == Easy && numObjects == completeDirty {
        outcome := Finished(Lost(B1));
      } else if difficulty == Medium
        && (completeDirty >= 1 || (duration.Some? && duration.value > MEDIUM_DURATION))
      {
        outcome := Finished(Lost(B1));
      } else {
        outcome := Continue;
      }
    }
  }
}
