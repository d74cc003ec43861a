/**
 * The main loop of the game: the screen on show, the frame counter, the
 * Medium shift clock, the death animation's particle emitter, the stage
 * templates, and what one frame does to them.
 */
module Screens {
  import opened Wrappers
  import opened Geometry
  import opened Infestation
  import opened Level

  /** What the game shows; a stage in play owns its live level. */
  datatype Screen =
    | MainMenu
    | Playing(stage: Stage, level: LevelState)
    | DeathAnim(stage: Stage, progress: u8)
    | InDialog(dialog: Dialog)

  /** The stage a dialog hands over to on a click: the next stage after a win, the same one after a loss. */
  function NextStage(d: Dialog): Stage
  {
    match d
    case Won(_, next) => next
    case Lost(stage) => stage
  }

  // ---------------------------------------------------------------------
  // The stage templates
  // ---------------------------------------------------------------------

  function Seg(x1: real, y1: real, x2: real, y2: real): LineSegment
  {
    LineSegment(Vec2(x1, y1), Vec2(x2, y2))
  }

  /** The office: a coffee cup, a keyboard and a mouse. */
  function TemplateA1(): LevelData
  {
    LevelData(
      [ NewDirtyObj(64, Seg(179.0, 412.0, 223.0, 412.0), Seg(186.0, 360.0, 215.0, 361.0), 200, 0),
        NewDirtyObj(64, Seg(250.0, 404.0, 590.0, 404.0), Seg(278.0, 361.0, 575.0, 361.0), 700, 128),
        NewDirtyObj(64, Seg(624.0, 369.0, 636.0, 391.0), Seg(652.0, 355.0, 664.0, 378.0), 90, 63) ],
      Easy, 0.0, 1000.0, 0, "Repellant", 4.0)
  }

  /** The neighbourhood: three houses. */
  function TemplateB1(): LevelData
  {
    LevelData(
      [ NewDirtyObj(163, Seg(332.0, 126.0, 404.0, 126.0), Seg(332.0, 178.0, 404.0, 178.0), 500, 63),
        NewDirtyObj(162, Seg(563.0, 201.0, 563.0, 257.0), Seg(673.0, 260.0, 673.0, 198.0), 800, 191),
        NewDirtyObj(163, Seg(332.0, 273.0, 404.0, 273.0), Seg(332.0, 325.0, 404.0, 325.0), 500, 225) ],
      Medium, 0.0, 10000.0, 1, "Drones", 100.0)
  }

  function Templates(): map<Stage, LevelData>
  {
    map[A1 := TemplateA1(), B1 := TemplateB1()]
  }

  /** No stage starts with an object that already ends it. */
  lemma TemplatesStartIncomplete(stage: Stage)
    ensures stage in Templates()
    ensures var t := Templates()[stage];
      forall i :: 0 <= i < |t.objects| ==> !Complete(t.difficulty, t.objects[i].dirtiness)
  {
  }

  /**
   * Entering stage A1 is safe: its first tick buys nothing (three objects
   * earn at most 0.3, under the price of 4) and ends nothing (no object can
   * climb from 64 past 200 in one tick, and the goal is 1000).
   */
  lemma {:induction false} A1FirstTickContinues(tick: nat, ptr: Pointer, duration: Option<nat>, env: Env)
    ensures var r := Level.Step(TemplateA1(), tick, ptr, duration, env);
      r.outcome == Continue && r.level.repellants == 0 && r.level.money <= 0.3
  {
    var l := TemplateA1();
    var k := if ptr.down then 0.0 else 0.1;
    EasyEarnings(l.objects, ptr, 0, env);
    ScaleIsProduct(k, 3);
    var tended := Tend(l, DirtinessMoves(Easy, 0, tick), ptr, env);
    assert tended.money <= 0.3;
    assert !Complete(Easy, tended.objects[0].dirtiness);
    AllComplete(Easy, tended.objects);
  }

  // ---------------------------------------------------------------------
  // The death animation
  // ---------------------------------------------------------------------

  /**
   * One frame of the death animation: the next screen and whether the
   * particle emitter is alive. The first frame starts the emitter from
   * progress zero; each later frame adds two until progress passes 253,
   * when the emitter stops and the stage is lost.
   */
  function DeathFrame(stage: Stage, progress: u8, emitting: bool): (Screen, bool)
  {
    if !emitting then (DeathAnim(stage, 0), true)
    else if progress > 253 then (InDialog(Lost(stage)), false)
    else (DeathAnim(stage, progress + 2), true)
  }

  /** `n` frames of the death animation, stopping once it has left for the dialog. */
  function DeathFrames(stage: Stage, progress: u8, emitting: bool, n: nat): (Screen, bool)
    decreases n
  {
    if n == 0 then (DeathAnim(stage, progress), emitting)
    else
      var step := DeathFrame(stage, progress, emitting);
      if step.0.DeathAnim? then DeathFrames(stage, step.0.progress, step.1, n - 1) else step
  }

  /** While it is below the threshold, each running frame raises the progress by two. */
  lemma {:induction false} DeathAnimClimbs(stage: Stage, progress: u8, k: nat, rest: nat)
    requires progress as int + 2 * k <= 254
    ensures DeathFrames(stage, progress, true, k + rest)
            == DeathFrames(stage, (progress as int + 2 * k) as u8, true, rest)
    decreases k
  {
    if k > 0 {
      DeathAnimClimbs(stage, progress + 2, k - 1, rest);
      assert k + rest - 1 == (k - 1) + rest;
    }
  }

  /**
   * Whatever progress it is entered with, the death animation runs for 128
   * frames after the one that starts the emitter and then shows the Lost
   * dialog of its stage with the emitter gone.
   */
  lemma DeathAnimEnds(stage: Stage, progress: u8)
    ensures DeathFrames(stage, progress, false, 128) == (DeathAnim(stage, 254), true)
    ensures DeathFrames(stage, progress, false, 129) == (InDialog(Lost(stage)), false)
  {
    DeathAnimClimbs(stage, 0, 127, 0);
    DeathAnimClimbs(stage, 0, 127, 1);
  }

  // ---------------------------------------------------------------------
  // The game
  // ---------------------------------------------------------------------

  /** The state the main loop keeps between frames. */
  class Game {
    var screen: Screen
    var tick: nat
    /** The Medium shift clock; kept across stage entries, never reset. */
    var duration: Option<nat>
    /** Whether the death animation's particle emitter exists. */
    var emitting: bool
    const levels: map<Stage, LevelData>

    ghost predicate Valid()
      reads this
    {
      && levels == Templates()
      && (forall s: Stage :: s in levels)
      && (emitting ==> screen.DeathAnim? && screen.progress as int % 2 == 0)
    }

    /** The screens the game reaches from launch: stage B1 and its two dialogs. */
    ghost predicate Reachable()
      reads this
    {
      && !emitting
      && ((screen.Playing? && screen.stage == B1)
          || (screen.InDialog? && (screen.dialog == Won(A1, B1) || screen.dialog == Lost(B1))))
    }

    /** The game opens on a fresh clone of stage B1. */
    constructor ()
      ensures Valid() && Reachable()
      ensures tick == 0 && duration == None
      ensures screen.Playing? && screen.stage == B1 && fresh(screen.level)
      ensures screen.level.Data() == levels[B1]
    {
      forall s: Stage ensures s in Templates() {
        TemplatesStartIncomplete(s);
      }
      levels := Templates();
      tick := 0;
      duration := None;
      emitting := false;
      var level := new LevelState.FromTemplate(Templates()[B1]);
      screen := Playing(B1, level);
    }

    /**
     * One pass of the main loop. `exp` stands for `f32::exp`; the hit test is
     * `Geometry.LiesBetween`. Returns whether the frame panicked, as a debug
     * build does when a stage in play buys a repellant past the `u16` maximum
     * or prints its shift countdown after the shift has ended; a panicking
     * frame stops where it panics, before the screen changes or the frame
     * counter advances.
     */
    method Frame(ptr: Pointer, exp: u16 -> real) returns (panicked: bool)
      requires Valid()
      modifies this, if screen.Playing? then {screen.level} else {}
      ensures Valid()
      ensures !panicked ==> tick == old(tick) + 1
      ensures panicked ==> tick == old(tick) && screen == old(screen) && emitting == old(emitting)
      ensures !old(screen).Playing? ==> duration == old(duration) && !panicked
      ensures !old(screen).DeathAnim? ==> emitting == old(emitting)
      ensures old(screen).MainMenu? || old(screen).InDialog? ==>
        var target := if old(screen).MainMenu? then A1 else NextStage(old(screen).dialog);
        if ptr.pressed
        then screen.Playing? && screen.stage == target && fresh(screen.level)
             && screen.level.Data() == levels[target]
        else screen == old(screen)
      ensures old(screen).Playing? ==>
        var r := Level.Step(old(screen.level.Data()), old(tick), ptr, old(duration), Env(exp, LiesBetween));
        && old(screen).level.Data() == r.level
        && duration == r.duration
        && panicked == (r.outcome == RepellantOverflow || r.outcome == CountdownUnderflow)
        && (r.outcome == Continue ==> screen == old(screen))
        && (r.outcome.Finished? ==> screen == InDialog(r.outcome.dialog))
      ensures old(screen).DeathAnim? ==>
        (screen, emitting) == DeathFrame(old(screen).stage, old(screen).progress, old(emitting))
      ensures old(Reachable()) && !panicked ==> Reachable()
    {
      panicked := false;
      if screen.MainMenu? || screen.InDialog? {
        if ptr.pressed {
          var next := if screen.MainMenu? then A1 else NextStage(screen.dialog);
          var level := new LevelState.FromTemplate(levels[next]);
          screen := Playing(next, level);
        }
      } else if screen.Playing? {
        var newDuration, outcome := screen.level.Tick(tick, ptr, duration, Env(exp, LiesBetween));
        duration := newDuration;
        if outcome == RepellantOverflow || outcome == CountdownUnderflow {
          return true;
        } else if outcome.Finished? {
          screen := InDialog(outcome.dialog);
        }
      } else {
        var stage, progress := screen.stage, screen.progress;
        if emitting {
          if progress > 253 {
            emitting := false;
            screen := InDialog(Lost(stage));
          } else {
            screen := DeathAnim(stage, progress + 2);
          }
        } else {
          emitting := true;
          screen := DeathAnim(stage, 0);
        }
      }
      tick := tick + 1;
    }
  }
}
