/**
 * The two combat objects: an `Enemy` that collects status effects and
 * damage, and the attacker `Raynor` whose auto-attack advances the pepper
 * counter and deals damage to an enemy. The attack arithmetic itself lives
 * in module `Pepper`.
 */
module Combat {
  import opened Pepper

  datatype StatusEffect = Slowed

  datatype EnemyType = Hero | Minion

  datatype RaynorTalent = VeteranMarksman | AceInTheHole | UnstableCompound | RaynorsRaider

  /** A status effect applied to an enemy, with the duration it was applied for. */
  datatype Status = Status(statusEffect: StatusEffect, duration: real)

  /** Some entry of `statuses` carries effect `e`, whatever its duration. */
  predicate Present(statuses: seq<Status>, e: StatusEffect) {
    exists i :: 0 <= i < |statuses| && statuses[i].statusEffect == e
  }

  /** How many entries of `statuses` carry effect `e`. */
  function Occurrences(statuses: seq<Status>, e: StatusEffect): (n: nat)
    ensures n <= |statuses|
  {
    if statuses == [] then 0
    else Occurrences(statuses[..|statuses| - 1], e)
         + (if statuses[|statuses| - 1].statusEffect == e then 1 else 0)
  }

  /** An effect is present exactly when at least one entry carries it. */
  lemma PresentIffOccurs(statuses: seq<Status>, e: StatusEffect)
    ensures Present(statuses, e) <==> Occurrences(statuses, e) > 0
  {
  }

  /**
   * Appending an entry never merges it with an earlier one of the same
   * effect: the count of that effect goes up by one, the others stay.
   */
  lemma AppendAddsOccurrence(statuses: seq<Status>, s: Status, e: StatusEffect)
    ensures Occurrences(statuses + [s], e)
         == Occurrences(statuses, e) + (if s.statusEffect == e then 1 else 0)
  {
  }

  /** After an append, an effect is present iff it was before or the new entry carries it. */
  lemma {:induction false} PresentAfterAppend(statuses: seq<Status>, s: Status, e: StatusEffect)
    ensures Present(statuses + [s], e) <==> Present(statuses, e) || s.statusEffect == e
  {
    PresentIffOccurs(statuses, e);
    PresentIffOccurs(statuses + [s], e);
    AppendAddsOccurrence(statuses, s, e);
  }

  class Enemy {
    var statuses: seq<Status>
    const enemyType: EnemyType
    var damage: real

    constructor (enemyType: EnemyType)
      ensures this.enemyType == enemyType
      ensures statuses == [] && damage == 0.0
    {
      this.enemyType := enemyType;
      statuses := [];
      damage := 0.0;
    }

    /** Appends one entry; an existing entry with the same effect is left as it is. */
    method ApplyStatusEffect(statusEffect: StatusEffect, duration: real)
      modifies this`statuses
      ensures statuses == old(statuses) + [Status(statusEffect, duration)]
      ensures Occurrences(statuses, statusEffect) == Occurrences(old(statuses), statusEffect) + 1
      ensures Present(statuses, statusEffect)
    {
      AppendAddsOccurrence(statuses, Status(statusEffect, duration), statusEffect);
      PresentAfterAppend(statuses, Status(statusEffect, duration), statusEffect);
      statuses := statuses + [Status(statusEffect, duration)];
    }

    /** A linear search over the entries that compares effects only. */
    method HasStatus(statusEffect: StatusEffect) returns (found: bool)
      ensures found <==> Present(statuses, statusEffect)
    {
      for i := 0 to |statuses|
        invariant forall j :: 0 <= j < i ==> statuses[j].statusEffect != statusEffect
      {
        if statuses[i].statusEffect == statusEffect {
          return true;
        }
      }
      return false;
    }

    predicate IsHero() {
      enemyType == Hero
    }

    method AddDamage(amount: real)
      modifies this`damage
      ensures damage == old(damage) + amount
    {
      damage := damage + amount;
    }
  }

  class Raynor {
    const level: int
    const talents: seq<RaynorTalent>
    var pepperCounter: int
    var veteranMarksmanCount: int

    /** The two counters as one value, the state `Pepper` reasons about. */
    function State(): Counters
      reads this
    {
      Counters(pepperCounter, veteranMarksmanCount)
    }

    ghost predicate Valid()
      reads this
    {
      Bounded(State())
    }

    constructor (level: int, talents: seq<RaynorTalent>)
      ensures this.level == level && this.talents == talents
      ensures State() == Initial && Valid()
    {
      this.level := level;
      this.talents := talents;
      pepperCounter := 0;
      veteranMarksmanCount := 0;
    }

    predicate HasVeteranMarksman() {
      VeteranMarksman in talents
    }

    predicate HasAceInTheHole() {
      AceInTheHole in talents
    }

    predicate HasRaynorsRaider() {
      RaynorsRaider in talents
    }

    /** Moves the counter on by one modulo 4; a wrap onto a hero with Veteran Marksman adds a stack. */
    method IncrementPepperCounter(target: Enemy)
      requires Valid()
      modifies this
      ensures Valid()
      ensures State() == Advance(old(State()), HasVeteranMarksman() && target.IsHero())
    {
      pepperCounter := (pepperCounter + 1) % 4;
      if pepperCounter == 0 && HasVeteranMarksman() && target.IsHero() {
        veteranMarksmanCount := veteranMarksmanCount + 1;
      }
    }

    /**
     * One auto-attack: advance the counters, then add the base attack plus
     * the bonus read from the advanced counters to the target's damage.
     */
    method Attack(target: Enemy)
      requires Valid()
      modifies this, target`damage
      ensures Valid()
      ensures State() == Advance(old(State()), HasVeteranMarksman() && target.IsHero())
      ensures target.damage == old(target.damage) + AttackDamage(State())
      ensures target.damage > old(target.damage)
      ensures target.statuses == old(target.statuses)
    {
      IncrementPepperCounter(target);
      target.AddDamage(BASE_ATTACK as real + PepperDamage(State()));
    }
  }

  /**
   * The driver's loop for one attacker and one target: `n` attacks in a row.
   * The counters end where `Run` says and the target takes `DamageOver` in total.
   */
  method AttackRepeatedly(raynor: Raynor, target: Enemy, n: nat)
    requires raynor.Valid()
    modifies raynor, target`damage
    ensures raynor.Valid()
    ensures raynor.State()
         == Run(old(raynor.State()), n, raynor.HasVeteranMarksman() && target.IsHero())
    ensures target.damage
         == old(target.damage)
            + DamageOver(old(raynor.State()), n, raynor.HasVeteranMarksman() && target.IsHero())
    ensures target.statuses == old(target.statuses)
  {
    ghost var start := raynor.State();
    ghost var gains := raynor.HasVeteranMarksman() && target.IsHero();
    for i := 0 to n
      invariant raynor.Valid()
      invariant raynor.State() == Run(start, i, gains)
      invariant target.damage == old(target.damage) + DamageOver(start, i, gains)
      invariant target.statuses == old(target.statuses)
    {
      raynor.Attack(target);
    }
  }
}
