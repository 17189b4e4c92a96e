/**
 * The arithmetic of Raynor's auto-attack: the cyclic "pepper" counter, the
 * Veteran Marksman stacks it gates, and the damage one attack hands to its
 * target. Everything here is a pure function of the attacker's two counters;
 * the class `Combat.Raynor` keeps those counters in mutable fields and its
 * methods are specified by the functions below.
 */
module Pepper {

  /** Class-wide constants of the attacker that the attack path reads. */
  const BASE_ATTACK: int := 101
  const VETERAN_MARKSMAN: real := 0.0075
  const GIVE_EM_SOME_PEPPER: real := 1.25

  /** The attacker's mutable combat state: the pepper counter and the Veteran Marksman stack count. */
  datatype Counters = Counters(pepper: int, stacks: int)

  /** The counters of a freshly constructed attacker. */
  const Initial: Counters := Counters(0, 0)

  /** The states an attacker can reach: the counter in [0,3], never a negative stack count. */
  predicate Bounded(c: Counters) {
    0 <= c.pepper < 4 && c.stacks >= 0
  }

  /**
   * One increment of the pepper counter. `gains` says whether a wrap may add a
   * stack, that is, whether the attacker has Veteran Marksman and the target is a hero.
   */
  function Advance(c: Counters, gains: bool): (r: Counters)
    ensures 0 <= r.pepper < 4
    ensures r.pepper == 0 <==> c.pepper % 4 == 3
    ensures r.stacks == c.stacks || r.stacks == c.stacks + 1
    ensures r.stacks == c.stacks + 1 <==> r.pepper == 0 && gains
  {
    var p := (c.pepper + 1) % 4;
    Counters(p, if p == 0 && gains then c.stacks + 1 else c.stacks)
  }

  /** The bonus ("pepper") damage of an attack, read after that attack has advanced the counters. */
  function PepperDamage(c: Counters): (r: real)
    ensures r == 0.0 <==> c.pepper != 0
    ensures c.pepper == 0 && c.stacks >= 0 ==> r >= (BASE_ATTACK as real) * GIVE_EM_SOME_PEPPER
  {
    if c.pepper != 0 then 0.0
    else (BASE_ATTACK as real) * (GIVE_EM_SOME_PEPPER + (c.stacks as real) * VETERAN_MARKSMAN)
  }

  /** Each Veteran Marksman stack adds 101 * 0.0075 to every bonus attack. */
  lemma PepperDamagePerStack(stacks: int)
    ensures PepperDamage(Counters(0, stacks + 1)) == PepperDamage(Counters(0, stacks)) + 0.7575
    ensures PepperDamage(Counters(0, stacks)) == 126.25 + 0.7575 * (stacks as real)
  {
  }

  /** The damage one attack adds to its target, given the counters after the attack's increment. */
  function AttackDamage(c: Counters): (r: real)
    ensures c.stacks >= 0 ==> r >= BASE_ATTACK as real
    ensures c.stacks >= 0 ==> (r == BASE_ATTACK as real <==> c.pepper != 0)
  {
    BASE_ATTACK as real + PepperDamage(c)
  }

  /** The counters after `n` attacks starting from `c`, all against targets with the same `gains`. */
  function Run(c: Counters, n: nat, gains: bool): (r: Counters)
    ensures r.stacks >= c.stacks
    ensures n > 0 ==> 0 <= r.pepper < 4
  {
    if n == 0 then c else Advance(Run(c, n - 1, gains), gains)
  }

  /** Euclidean facts about one more step of a counter modulo 4. */
  lemma StepModFour(m: nat)
    ensures (m % 4 + 1) % 4 == (m + 1) % 4
    ensures (m + 1) / 4 == m / 4 + (if (m + 1) % 4 == 0 then 1 else 0)
  {
  }

  /**
   * From any reachable state, `n` attacks move the counter on by `n` modulo 4,
   * and add one stack per wrap when stacks can be gained.
   */
  lemma {:induction false} RunCounters(c: Counters, n: nat, gains: bool)
    requires Bounded(c)
    ensures Run(c, n, gains)
         == Counters((c.pepper + n) % 4, c.stacks + (if gains then (c.pepper + n) / 4 else 0))
  {
    if n > 0 {
      RunCounters(c, n - 1, gains);
      StepModFour(c.pepper + n - 1);
    }
  }

  /**
   * After `n` attacks from construction the counter is `n mod 4`; the stack
   * count is `n div 4` against a hero with Veteran Marksman and 0 otherwise.
   */
  lemma {:induction false} RunFromInitial(n: nat, gains: bool)
    ensures Run(Initial, n, gains) == Counters(n % 4, if gains then n / 4 else 0)
  {
    RunCounters(Initial, n, gains);
  }

  /** The bonus fires on attacks 4, 8, 12, ... and on no other attack. */
  lemma {:induction false} PepperFiresEveryFourth(n: nat, gains: bool)
    requires n >= 1
    ensures PepperDamage(Run(Initial, n, gains)) != 0.0 <==> n % 4 == 0
  {
    RunFromInitial(n, gains);
  }

  /** The total damage that `n` attacks starting from `c` add to their target. */
  function DamageOver(c: Counters, n: nat, gains: bool): (r: real)
    requires c.stacks >= 0
    ensures r >= (n as real) * (BASE_ATTACK as real)
  {
    if n == 0 then 0.0 else DamageOver(c, n - 1, gains) + AttackDamage(Run(c, n, gains))
  }

  /** Every attack adds damage, so the total is strictly increasing in the number of attacks. */
  lemma {:induction false} DamageStrictlyIncreasing(c: Counters, n: nat, m: nat, gains: bool)
    requires c.stacks >= 0
    requires n < m
    ensures DamageOver(c, n, gains) < DamageOver(c, m, gains)
  {
    if n + 1 < m {
      DamageStrictlyIncreasing(c, n, m - 1, gains);
    }
  }

  /** One full cycle of four attacks, starting at a wrap after `j` cycles. */
  lemma {:induction false} DamageOverOneCycle(j: nat, gains: bool)
    ensures DamageOver(Initial, 4 * j + 4, gains)
         == DamageOver(Initial, 4 * j, gains) + 530.25
            + (if gains then 0.7575 * (j as real + 1.0) else 0.0)
  {
    var n := 4 * j;
    RunFromInitial(n + 1, gains);
    RunFromInitial(n + 2, gains);
    RunFromInitial(n + 3, gains);
    RunFromInitial(n + 4, gains);
    var s := if gains then j + 1 else 0;
    PepperDamagePerStack(s);
    assert AttackDamage(Run(Initial, n + 1, gains)) == 101.0;
    assert AttackDamage(Run(Initial, n + 2, gains)) == 101.0;
    assert AttackDamage(Run(Initial, n + 3, gains)) == 101.0;
    assert AttackDamage(Run(Initial, n + 4, gains)) == 227.25 + 0.7575 * (s as real);
    assert DamageOver(Initial, n + 2, gains) == DamageOver(Initial, n, gains) + 202.0;
    assert DamageOver(Initial, n + 4, gains) == DamageOver(Initial, n + 2, gains) + 328.25 + 0.7575 * (s as real);
  }

  /**
   * Closed form of `k` full cycles of four attacks from construction: each
   * cycle deals 4 * 101 + 101 * 1.25 = 530.25, and the j-th bonus attack
   * carries j stacks (0.7575 each) when stacks are gained.
   */
  lemma {:induction false} DamageOverCycles(k: nat, gains: bool)
    ensures DamageOver(Initial, 4 * k, gains) == CyclesTotal(k as real, gains)
  {
    if k > 0 {
      var j := k - 1;
      assert 4 * k == 4 * j + 4;
      DamageOverCycles(j, gains);
      DamageOverOneCycle(j, gains);
      CyclesTotalStep(j as real, gains);
      assert k as real == j as real + 1.0;
    }
  }

  /**
   * The closed form of `k` cycles: 530.25 per cycle, plus the stack sum
   * 0.7575 * (1 + 2 + ... + k) when stacks are gained.
   */
  function CyclesTotal(k: real, gains: bool): real {
    530.25 * k + (if gains then 0.7575 * k * (k + 1.0) / 2.0 else 0.0)
  }

  /** One more cycle, the (x+1)-th, adds 530.25 and, with stacks, 0.7575 * (x + 1). */
  lemma CyclesTotalStep(x: real, gains: bool)
    ensures CyclesTotal(x + 1.0, gains)
         == CyclesTotal(x, gains) + 530.25 + (if gains then 0.7575 * (x + 1.0) else 0.0)
  {
  }

  /** The two attacks after a full cycle are plain ones. */
  lemma {:induction false} DamageOverTwoMore(k: nat, gains: bool)
    ensures DamageOver(Initial, 4 * k + 2, gains) == DamageOver(Initial, 4 * k, gains) + 202.0
  {
    RunFromInitial(4 * k + 1, gains);
    RunFromInitial(4 * k + 2, gains);
  }

  /**
   * The driver's two attackers after 30 attacks on a hero each: with Veteran
   * Marksman (`gains`) counter 2, 7 stacks and 3934.96 damage; with Ace in the
   * Hole only, so no stacks, counter 2 and 3913.75 damage. `n` is the
   * driver's attack count.
   */
  lemma DriverThirtyAttacks(n: nat, gains: bool)
    requires n == 30
    ensures Run(Initial, n, gains) == Counters(2, if gains then 7 else 0)
    ensures DamageOver(Initial, n, gains) == if gains then 3934.96 else 3913.75
  {
    var k := n / 4;
    RunFromInitial(n, gains);
    DamageOverCycles(k, gains);
    DamageOverTwoMore(k, gains);
  }
}
