# Upgrade-level controller, modelled in Dafny

`UUpgradeSystem` tracks the upgrade level of a target actor. The level lives in
a `CurrentLevel` attribute of that actor, which the controller reaches through
a weak reference and the engine's reflection. The controller can:

- read the level (`GetTargetCurrentLevel`);
- write the level (`SetTargetCurrentLevel`);
- step the level up or down by one rank within `None`..`Legend`
  (`IncreaseLevel`, `DecreaseLevel`);
- look up the `FUpgradeData` record configured for the level it reads
  (`GetCurrentUpgradeData`).

No operation throws. Every failure ends in a sentinel: the level `None`, or `false`.

Files:

- `UpgradeLevel.dfy` (module `UpgradeLevel`) models `EUpgradeLevel`. The enum
  is declared over `uint8`, so a value of the type is any byte (`Level`). Six of
  the byte values have names (`Enumerator`), ranked 0..5. `Cast` is
  `static_cast` from a wider integer to the enum: it keeps the value modulo 2^8.
- `UpgradeSystem.dfy` (module `UpgradeSystem`) has three parts:
  - the `FUpgradeData` record;
  - the reflected attribute, as one of `Absent`, `NotEnum`, `NullAddress` or
    `Enum(raw)`;
  - the operations as functions on a value view of the target (`Target`: the
    weak reference's validity plus the attribute).

  The classes `Actor` and `UpgradeSystem` implement the operations on mutable
  state, in the source's own guard-by-guard form. Each method's postcondition
  equates its return value and the target's new state with the matching
  function applied to the state before the call. The three writing methods may
  modify only the field `currentLevel` of the referenced actor (a field-level
  frame). So no operation changes `upgrades`, reassigns `targetActor`, or
  changes the actor's liveness. `GetTargetCurrentLevel` and
  `GetCurrentUpgradeData` are `const` in the source and Dafny functions here,
  so they change nothing.
- `UpgradeProperties.dfy` (module `UpgradeProperties`) holds properties that
  span several calls:
  - repeated steps saturate at the bounds and never wrap;
  - a step up and a step down undo each other;
  - a target on which a guard fails is never changed;
  - two witnesses: a failed read still consults the `None` key, and a record's
    `level` field is not tied to its key;
  - a worked scenario, once on the functions and once on the classes.

Behaviour the model follows from the code:

- The reflection check only requires *some* enum property. Its integer value
  is narrowed to a byte, so the level read can be any of 0..255.
  - From a value above `Legend`, both `IncreaseLevel` and `DecreaseLevel`
    clamp to `Legend`, write it, and return true.
  - From `None` (also the read of a missing or non-enum attribute),
    `DecreaseLevel` returns false at the unchanged-rank check.
  - For a missing or non-enum attribute, `IncreaseLevel` computes rank 1 and
    then fails inside `SetTargetCurrentLevel`, with no write.
- `GetCurrentUpgradeData` does not check the target. After a failed read it
  looks up the `None` key, returning `Upgrades[None]` if configured and the
  default record only otherwise (`Source/Upgrade/UpgradeSystem.cpp:140-149`).
- The read accepts any enum property. It does not check that the enum is
  `EUpgradeLevel` (`Source/Upgrade/UpgradeSystem.cpp:27`).

## Model

| member | source | states |
|---|---|---|
| `UpgradeLevel.Rank` | Source/Upgrade/UpgradeLevel.h:12-20 | every enumerator's value lies in `None`..`Legend`, i.e. 0..5 |
| `UpgradeLevel.FromRank` | Source/Upgrade/UpgradeLevel.h:12-20 | every rank in 0..5 is the value of an enumerator (rank of the result is the input) |
| `UpgradeLevel.RankRoundTrip` | Source/Upgrade/UpgradeLevel.h:14-19 | level to rank and back is the identity on the six enumerators |
| `UpgradeLevel.Enumerators` | Source/Upgrade/UpgradeLevel.h:14-19 | six enumerators in declaration order, the i-th having rank i |
| `UpgradeLevel.ExactlySixLevels` | Source/Upgrade/UpgradeLevel.h:14-19 | every enumerator is among the six, at the index of its rank |
| `UpgradeLevel.RankBounds` | Source/Upgrade/UpgradeLevel.h:14-19 | `None` is the minimum and `Legend` the maximum rank, the clamp bounds |
| `UpgradeLevel.Cast` | Source/Upgrade/UpgradeSystem.cpp:43-44 | narrowing to the `uint8` enum keeps the value modulo 256 and is the identity on 0..255 |
| `UpgradeSystem.Clamp` | Source/Upgrade/UpgradeSystem.cpp:93-95 | the result lies in the bounds, equals the input inside them and the nearer bound outside |
| `UpgradeSystem.ReadLevel` | Source/Upgrade/UpgradeSystem.cpp:10-45 | `None` when the target is invalid, the attribute absent, not an enum or unaddressable; else the stored value modulo 256 (exactly the stored value when it is a byte) |
| `UpgradeSystem.WriteLevel` | Source/Upgrade/UpgradeSystem.cpp:47-80 | succeeds iff every guard passes; on failure the target is unchanged; on success the attribute holds the new level and reading it back gives that level |
| `UpgradeSystem.StepUp` | Source/Upgrade/UpgradeSystem.cpp:82-106 | succeeds iff the target resolves and the level read is not `Legend`; on success the level read plus one (or `Legend` from a value above it) is written; on failure nothing changes |
| `UpgradeSystem.StepDown` | Source/Upgrade/UpgradeSystem.cpp:108-134 | succeeds iff the target resolves and the level read is not `None`; on success the level read minus one (or `Legend` from a value above it) is written; on failure nothing changes |
| `UpgradeSystem.CurrentData` | Source/Upgrade/UpgradeSystem.cpp:137-150 | the record stored under the level read, else the default `{None, 0}`; after a failed read, the record under `None` if configured; always the default or a configured record |
| `UpgradeSystem.UpgradeSystem.constructor` | Source/Upgrade/UpgradeSystem.cpp:5-8 | a new controller has no target and no records |
| `UpgradeSystem.UpgradeSystem.Observe` | Source/Upgrade/UpgradeSystem.h:30 | the view is valid exactly when the weak reference is set and its actor alive, and then carries that actor's attribute |
| `UpgradeSystem.UpgradeSystem.GetTargetCurrentLevel` | Source/Upgrade/UpgradeSystem.cpp:10-45 | the guard chain over the actor's fields agrees with `ReadLevel` on the current state |
| `UpgradeSystem.UpgradeSystem.SetTargetCurrentLevel` | Source/Upgrade/UpgradeSystem.cpp:47-80 | result and new target state are `WriteLevel` of the old state; only the target's `currentLevel` may change |
| `UpgradeSystem.UpgradeSystem.IncreaseLevel` | Source/Upgrade/UpgradeSystem.cpp:82-106 | result and new target state are `StepUp` of the old state; only the target's `currentLevel` may change |
| `UpgradeSystem.UpgradeSystem.DecreaseLevel` | Source/Upgrade/UpgradeSystem.cpp:108-134 | result and new target state are `StepDown` of the old state; only the target's `currentLevel` may change |
| `UpgradeSystem.UpgradeSystem.GetCurrentUpgradeData` | Source/Upgrade/UpgradeSystem.cpp:137-150 | agrees with `CurrentData` of the configured table and the current target |
| `UpgradeProperties.StepsWriteNamedLevels` | Source/Upgrade/UpgradeSystem.cpp:93-95 | every level a successful step writes lies in `None`..`Legend` (also at 120-122) |
| `UpgradeProperties.StepDownUndoesStepUp` | Source/Upgrade/UpgradeSystem.cpp:90-134 | below `Legend`, a step up succeeds and a step down after it restores the level read |
| `UpgradeProperties.StepUpUndoesStepDown` | Source/Upgrade/UpgradeSystem.cpp:90-134 | for a named level above `None`, a step down succeeds and a step up after it restores the level |
| `UpgradeProperties.UnresolvedTargetNeverChanges` | Source/Upgrade/UpgradeSystem.cpp:84-88 | any number of steps leave an invalid target, or one without a writable enum attribute, unchanged (also at 110-114) |
| `UpgradeProperties.IncreaseSaturates` | Source/Upgrade/UpgradeSystem.cpp:90-105 | after n > 0 raises the level is min(level read + n, `Legend`): no wrap-around |
| `UpgradeProperties.DecreaseSaturates` | Source/Upgrade/UpgradeSystem.cpp:117-133 | after n > 0 lowerings the level is max(min(level read, 6) - n, `None`): no wrap-around |
| `UpgradeProperties.ReachesBounds` | Source/Upgrade/UpgradeSystem.cpp:90-133 | five raises reach `Legend` and six lowerings reach `None` from any byte value |
| `UpgradeProperties.FailedReadUsesNoneKey` | Source/Upgrade/UpgradeSystem.cpp:140-149 | for an invalid target the lookup can return a configured record rather than the default |
| `UpgradeProperties.RecordLevelIsNotChecked` | Source/Upgrade/UpgradeSystem.h:34 | the lookup can return a stored record whose `level` field differs from the key it is stored under, which is the level read |
| `UpgradeProperties.AdvancedScenario` | Source/Upgrade/UpgradeSystem.cpp:82-150 | from `Advanced`, one raise gives `Elite` and the `Elite` record; at `Legend` a raise fails and leaves the level |

The table `Upgrades` is a Dafny `map`, so it holds at most one record per
level key by construction (`Source/Upgrade/UpgradeSystem.h:34`).

## Left out

- Unreal reflection (`FindPropertyByName`, `CastField`, `ContainerPtrToValuePtr`,
  `GetSignedIntPropertyValue`, `SetIntPropertyValue`) is foreign engine code. It
  is abstracted as the four-way `Attribute` of the target. The practically
  impossible null value address is kept as `NullAddress`.
- `TWeakObjectPtr` lifetime tracking and garbage collection are abstracted as
  the actor's `alive` flag, which the environment may change between calls.
  Engine objects other than the target's `CurrentLevel` attribute are not
  modelled.
- `UpgradeSystem.WriteLevel`: does not model the width of the foreign enum's
  underlying integer property. The write stores the new level's value exactly.
  This is exact for every value the two steps write (0..5). A direct 8-bit
  signed underlying property would wrap direct writes of 128..255, and that is
  not modelled.
- `UpgradeSystem.ReadLevel`: does not model the `int64` width of the value the
  engine returns. The attribute's integer value is unbounded here. The
  narrowing to `uint8` is modelled, and it gives the same byte for any value an
  `int64` can hold.
- `BonusValue` is a `float` and no arithmetic is done on it. It is carried as a
  `real` payload.
- `UCLASS`/`USTRUCT`/`UPROPERTY`/`UFUNCTION` macros, generated headers,
  Blueprint and editor exposure, and the engine constructor body
  (`Source/Upgrade/UpgradeSystem.cpp:5-8`, which is empty) are engine
  boilerplate. Editing `TargetActor` and `Upgrades` from outside is modelled
  only as direct assignment of the public fields.
