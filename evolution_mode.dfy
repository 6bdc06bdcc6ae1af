/**
 * Evolution mode: the snake climbs six stages by eating food, and some
 * stages grant a timed effect that changes the game speed or the death
 * rule.
 */
module Evolution {

  datatype Ability = NoAbility | Acceleration | WallPass | BurnObstacles | LightningMove | Invincibility

  datatype Stage = Stage(name: string, speed: int, ability: Ability, foodRequired: int)

  /** The stages in order; `foodRequired` of a stage is the food needed to reach it. */
  const STAGES: seq<Stage> := [
    Stage("幼蛇", 8, NoAbility, 5),
    Stage("成长蛇", 10, Acceleration, 10),
    Stage("敏捷蛇", 12, WallPass, 15),
    Stage("火焰蛇", 14, BurnObstacles, 20),
    Stage("雷霆蛇", 16, LightningMove, 25),
    Stage("神龙", 18, Invincibility, 30)
  ]

  const LAST_STAGE := 5

  datatype EffectKind = SpeedBoost | Lightning | Invincible

  datatype Effect = Effect(name: string, timer: int, kind: EffectKind)

  /** The effects `apply_special_ability` adds for a stage's ability. */
  function AbilityEffects(a: Ability): (es: seq<Effect>)
    ensures |es| <= 1
    ensures forall e :: e in es ==> e.timer > 0
  {
    match a
    case Acceleration => [Effect("加速", 180, SpeedBoost)]
    case LightningMove => [Effect("闪电移动", 120, Lightning)]
    case Invincibility => [Effect("无敌", 300, Invincible)]
    case _ => []
  }

  /**
   * One round of `update_effects` on a list of effects: every timer drops by
   * one and the effects whose timer reaches zero or below are removed.
   * `list.remove` removes the first equal effect; the effects before the
   * one being removed have already been counted down and kept, so they have
   * a positive timer and are never equal to it, and the effect removed is
   * always the one just counted down.
   */
  function Decay(es: seq<Effect>): (r: seq<Effect>)
    ensures |r| <= |es|
    ensures forall e :: e in r ==> e.timer > 0 && e.(timer := e.timer + 1) in es
  {
    if es == [] then []
    else
      var last := es[|es| - 1];
      var counted := last.(timer := last.timer - 1);
      Decay(es[..|es| - 1]) + (if counted.timer > 0 then [counted] else [])
  }

  /** How many effects of the list have a timer above one, and so outlast a round. */
  function CountSurvivors(es: seq<Effect>): nat {
    if es == [] then 0 else CountSurvivors(es[..|es| - 1]) + (if es[|es| - 1].timer > 1 then 1 else 0)
  }

  /**
   * One round keeps every effect whose timer is above one, counted down,
   * and as many effects as there are of those.
   */
  lemma {:induction false} DecaySurvivors(es: seq<Effect>)
    ensures forall i :: 0 <= i < |es| && es[i].timer > 1 ==> es[i].(timer := es[i].timer - 1) in Decay(es)
    ensures |Decay(es)| == CountSurvivors(es)
  {
    if es != [] {
      var front := es[..|es| - 1];
      DecaySurvivors(front);
      assert Decay(es) == Decay(front) + (if es[|es| - 1].timer > 1 then [es[|es| - 1].(timer := es[|es| - 1].timer - 1)] else []);
      forall i | 0 <= i < |es| && es[i].timer > 1
        ensures es[i].(timer := es[i].timer - 1) in Decay(es)
      {
        if i < |es| - 1 {
          assert es[i] == front[i];
        }
      }
    }
  }

  /** Decay works effect by effect, so the surviving effects keep their order. */
  lemma {:induction false} DecayAppend(a: seq<Effect>, b: seq<Effect>)
    ensures Decay(a + b) == Decay(a) + Decay(b)
  {
    if b != [] {
      assert (a + b)[..|a + b| - 1] == a + b[..|b| - 1];
      DecayAppend(a, b[..|b| - 1]);
    } else {
      assert a + b == a;
    }
  }

  /** Whether some effect of the list is of `kind`, the way `any(...)` asks. */
  predicate AnyOfKind(es: seq<Effect>, kind: EffectKind) {
    exists i :: 0 <= i < |es| && es[i].kind == kind
  }

  /** `n` rounds of `update_effects`. */
  function DecayRounds(es: seq<Effect>, n: nat): seq<Effect>
    decreases n
  {
    if n == 0 then es else DecayRounds(Decay(es), n - 1)
  }

  /** A round of decay lowers every surviving timer by one. */
  lemma DecayLowers(es: seq<Effect>, n: int)
    requires forall e :: e in es ==> e.timer <= n
    ensures forall e :: e in Decay(es) ==> 0 < e.timer <= n - 1
  {
    forall e | e in Decay(es) ensures e.timer <= n - 1 {
      assert e.(timer := e.timer + 1) in es;
    }
  }

  /** Every effect runs out: after as many rounds as the longest timer, none is left. */
  lemma {:induction false} EffectsExpire(es: seq<Effect>, n: nat)
    requires forall e :: e in es ==> 0 < e.timer <= n
    ensures DecayRounds(es, n) == []
    decreases n
  {
    if n > 0 {
      DecayLowers(es, n);
      EffectsExpire(Decay(es), n - 1);
    } else if es != [] {
      assert false;
    }
  }

  class EvolutionMode {
    var currentStage: nat
    var foodEaten: int
    var activeEffects: seq<Effect>

    ghost predicate Valid()
      reads this
    {
      currentStage <= LAST_STAGE
    }

    constructor()
      ensures Valid() && currentStage == 0 && foodEaten == 0 && activeEffects == []
    {
      currentStage := 0;
      foodEaten := 0;
      activeEffects := [];
    }

    /** Whether an effect of `kind` is active. */
    predicate HasEffect(kind: EffectKind)
      reads this
    {
      AnyOfKind(activeEffects, kind)
    }

    /** `apply_special_ability()`: adds the current stage's timed effect, if it has one. */
    method ApplySpecialAbility()
      requires Valid()
      modifies this
      ensures Valid() && currentStage == old(currentStage) && foodEaten == old(foodEaten)
      ensures activeEffects == old(activeEffects) + AbilityEffects(STAGES[currentStage].ability)
    {
      activeEffects := activeEffects + AbilityEffects(STAGES[currentStage].ability);
    }

    /**
     * `check_evolution()`: once enough food has been eaten for the next
     * stage, moves up exactly one stage, restarts the food count and applies
     * the new stage's ability; the last stage is final.
     */
    method CheckEvolution() returns (evolved: bool)
      requires Valid()
      modifies this
      ensures Valid()
      ensures evolved <==> old(currentStage) < LAST_STAGE && old(foodEaten) >= STAGES[old(currentStage) + 1].foodRequired
      ensures evolved ==> currentStage == old(currentStage) + 1 && foodEaten == 0 &&
                          activeEffects == old(activeEffects) + AbilityEffects(STAGES[currentStage].ability)
      ensures !evolved ==> unchanged(this)
    {
      if currentStage < |STAGES| - 1 {
        var next := STAGES[currentStage + 1];
        if foodEaten >= next.foodRequired {
          currentStage := currentStage + 1;
          foodEaten := 0;
          ApplySpecialAbility();
          return true;
        }
      }
      return false;
    }

    /** `update_effects()`: one round of counting the timers down. */
    method UpdateEffects()
      modifies this
      ensures activeEffects == Decay(old(activeEffects))
      ensures currentStage == old(currentStage) && foodEaten == old(foodEaten)
    {
      var kept: seq<Effect> := [];
      var i := 0;
      while i < |activeEffects|
        invariant 0 <= i <= |activeEffects|
        invariant kept == Decay(activeEffects[..i])
      {
        assert activeEffects[..i + 1][..i] == activeEffects[..i];
        var counted := activeEffects[i].(timer := activeEffects[i].timer - 1);
        if counted.timer > 0 {
          kept := kept + [counted];
        }
        i := i + 1;
      }
      assert activeEffects[..|activeEffects|] == activeEffects;
      activeEffects := kept;
    }

    /** `get_current_speed()`: the stage's speed, four more while a speed boost is active. */
    method GetCurrentSpeed() returns (speed: int)
      requires Valid()
      ensures speed == STAGES[currentStage].speed + (if HasEffect(SpeedBoost) then 4 else 0)
    {
      var base := STAGES[currentStage].speed;
      var i := 0;
      while i < |activeEffects|
        invariant 0 <= i <= |activeEffects|
        invariant forall j :: 0 <= j < i ==> activeEffects[j].kind != SpeedBoost
      {
        if activeEffects[i].kind == SpeedBoost {
          return base + 4;
        }
        i := i + 1;
      }
      return base;
    }
  }

  /** Each stage is faster than the one before and needs more food to reach. */
  lemma StagesClimb(i: nat, j: nat)
    requires i < j <= LAST_STAGE
    ensures STAGES[i].speed < STAGES[j].speed && STAGES[i].foodRequired < STAGES[j].foodRequired
  {
  }
}
