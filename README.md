# Raynor auto-attack model

A Dafny model of the combat counter in `main.py` of raynor-analysis: the
attacker Raynor and the `Enemy` it hits.

Every auto-attack moves Raynor's "pepper" counter on by one, modulo 4.
When the counter wraps to 0, the attack is a bonus ("Give 'em some pepper") attack.
On a bonus attack, an attacker with the Veteran Marksman talent gains one
stack, but only when the target is a hero. The target then takes the base
attack (101) plus the pepper damage. Pepper damage is 0 unless the counter is 0.
On a bonus attack it is 101 × (1.25 + stacks × 0.0075), where the stacks
already include any stack gained by this same attack.
The enemy keeps an append-only list of `Status(effect, duration)` entries and a running damage total.

Layout:

- `pepper.dfy`, module `Pepper`: the class-wide constants of the attack path,
  the attacker's two counters as a value (`Counters`), the one-attack step
  `Advance`, the bonus `PepperDamage`, the per-attack damage `AttackDamage`,
  and `Run` / `DamageOver` for n successive attacks, with their lemmas.
- `combat.dfy`, module `Combat`: the enums, the `Status` record, the class
  `Enemy` and the class `Raynor`. Their fields are updated in place, as in the
  source. The methods are specified by the functions of `Pepper`.

Damage is an exact `real`: 1.25 and 0.0075 are exact, and no float rounding is modelled.
No method of `main.py` reassigns the level, the talent list or the enemy type.
They are `const` fields here. The talent list is copied by value at construction; see "## Left out".
A Python list of talents is a `seq<RaynorTalent>`, and `in` is sequence membership.
The `is` comparison of enum members is datatype equality.

`main.py` gives Ace in the Hole, Unstable Compound and level no effect on damage, and it never decays status durations.
The model follows the code, so none of these effects is modelled.

## Model

| member | source | states |
|---|---|---|
| Combat.Enemy.constructor | main.py:26-29 | a new enemy has the given type, no statuses and zero damage |
| Combat.Enemy.ApplyStatusEffect | main.py:35-36 | exactly one entry is appended at the end and earlier entries are untouched; the count of that effect rises by one, so duplicates coexist; the effect is then present |
| Combat.Enemy.HasStatus | main.py:38-42 | the linear search answers true iff some entry carries the effect, whatever its duration |
| Combat.Enemy.AddDamage | main.py:47-48 | the damage total grows by exactly the amount |
| Combat.Occurrences | main.py:35-42 | the number of entries carrying an effect: the count that shows `apply_status_effect` never de-duplicates (see `AppendAddsOccurrence`); it never exceeds the list length |
| Combat.PresentIffOccurs | main.py:38-42 | an effect is present iff at least one entry carries it |
| Combat.AppendAddsOccurrence | main.py:35-36 | appending an entry raises its effect's count by one and leaves other effects' counts alone (no de-duplication) |
| Combat.PresentAfterAppend | main.py:35-42 | after an append, an effect is present iff it was present before or the new entry carries it |
| Combat.Enemy.IsHero | main.py:44-45 | true iff the enemy type is `Hero` (used as the stack gate in `IncrementPepperCounter` and `Attack`) |
| Combat.Raynor.constructor | main.py:62-66 | a new attacker keeps its level and talents and starts with pepper counter 0 and no Veteran Marksman stacks |
| Combat.Raynor.HasVeteranMarksman | main.py:75-76 | true iff `VeteranMarksman` is in the talent list (the other half of the stack gate) |
| Combat.Raynor.HasAceInTheHole | main.py:78-79 | true iff `AceInTheHole` is in the talent list; nothing in the attack path reads it |
| Combat.Raynor.HasRaynorsRaider | main.py:81-82 | true iff `RaynorsRaider` is in the talent list; nothing in the attack path reads it |
| Combat.Raynor.IncrementPepperCounter | main.py:87-91 | the new counters are `Advance` of the old ones, gaining a stack only with Veteran Marksman against a hero; the counter stays in [0,3] |
| Combat.Raynor.Attack | main.py:100-102 | the counters advance as in `Advance`; the target's damage grows by exactly 101 plus the pepper damage of the advanced counters, so it strictly increases; the target's status list is unchanged |
| Combat.AttackRepeatedly | main.py:112-114 | n attacks of one attacker on one target leave the counters at `Run` of the old ones and add exactly `DamageOver` to the target's damage, without touching its statuses |
| Pepper.Advance | main.py:87-91 | the counter lands in [0,3] and lands on 0 exactly when it was 3 (mod 4); the stack count rises by 1 exactly on that wrap when stacks can be gained, and is otherwise unchanged |
| Pepper.PepperDamage | main.py:93-98 | the bonus is 0 exactly when the counter is non-zero; on a wrap it is at least 101 × 1.25 |
| Pepper.PepperDamagePerStack | main.py:96-98 | on a wrap the bonus is 126.25 + 0.7575 per stack, so each stack adds 0.7575 |
| Pepper.AttackDamage | main.py:102 | an attack deals at least 101, and exactly 101 on every attack that is not a wrap |
| Pepper.Run | main.py:87-91 | n attacks never lose stacks and leave the counter in [0,3] |
| Pepper.RunCounters | main.py:87-91 | from any reachable state, n attacks move the counter on by n mod 4 and add one stack per wrap when stacks can be gained |
| Pepper.RunFromInitial | main.py:62-66 | after n attacks from construction the counter is n mod 4 and the stack count is n div 4 against a hero with Veteran Marksman, else 0 |
| Pepper.PepperFiresEveryFourth | main.py:93-95 | the bonus fires on attacks 4, 8, 12, … and on no other attack |
| Pepper.DamageOver | main.py:100-102 | n attacks deal at least 101 × n in total |
| Pepper.DamageStrictlyIncreasing | main.py:47-48 | the target's accumulated damage is strictly increasing in the number of attacks |
| Pepper.DamageOverOneCycle | main.py:93-102 | a cycle of four attacks adds 530.25, plus 0.7575 × (stacks after the wrap) when stacks are gained |
| Pepper.DamageOverCycles | main.py:93-102 | k full cycles from construction deal `CyclesTotal(k)`: 530.25 × k, plus 0.7575 × k(k+1)/2 against a hero with Veteran Marksman |
| Pepper.DamageOverTwoMore | main.py:93-102 | the two attacks after a full cycle are plain ones and add exactly 2 × 101 |
| Pepper.DriverThirtyAttacks | main.py:107-114 | after the driver's 30 attacks on a hero, the Veteran Marksman attacker has counter 2 and 7 stacks and has dealt 3934.96; the Ace-in-the-Hole attacker has counter 2, no stacks, and has dealt 3913.75 |

`get_pepper_damage` (main.py:93-98) is `Pepper.PepperDamage` applied to `Raynor.State()`, the attacker's two counters.

## Left out

- `attack_will_pepper` (main.py:84-85) reads an attribute that `Raynor` never sets, so any call raises an error. Its expression also applies `% 4` to `1` alone. Nothing calls it.
- Constants the attack path never reads (`BASE_SCALE`, `ACE_IN_THE_HOLE`, `ATTACK_SPEED`, `RAIDER_BASE_DAMAGE`, `RAIDER_BASE_SCALE`, main.py:54-60) are not declared.
- `HasAceInTheHole` and `HasRaynorsRaider` are modelled as queries only: nothing in `main.py` gives these talents an effect.
- `level` is stored but never read by any operation, so no property depends on it.
- `__repr__` of both classes and the printing in `main()` (main.py:31-33, 68-73, 115-118) produce console output only. The driver's attack loop is `AttackRepeatedly`, and its outcome is `DriverThirtyAttacks`. The loop in `main()` interleaves two independent attacker/target pairs; the model runs one pair at a time.
- `Raynor.talents` is held by value. `main.py` keeps a reference to the caller's list (main.py:64) and reads it again on every wrap (main.py:76, 89). A caller that changed that list after construction would change which later wraps gain a stack. `main.py` never does this. The n-attack functions `Run` and `DamageOver` and their lemmas assume the gate stays fixed.
- Python's mix of `int` and binary floating point for damage is not modelled; damage is an exact real.
- Ace-in-the-Hole gating, Unstable Compound slows, level scaling and status-duration decay are not implemented in `main.py`, so they are not modelled.
