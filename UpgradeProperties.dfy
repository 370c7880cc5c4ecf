/** Properties that relate several calls of the controller's operations. */
module UpgradeProperties {
  import opened UpgradeLevel
  import opened UpgradeSystem

  function Min(a: int, b: int): int { if a <= b then a else b }
  function Max(a: int, b: int): int { if a <= b then b else a }

  /** The target after `n` successive `IncreaseLevel` calls. */
  function IncreaseRepeatedly(t: Target, n: nat): Target
    decreases n
  {
    if n == 0 then t else IncreaseRepeatedly(StepUp(t).target, n - 1)
  }

  /** The target after `n` successive `DecreaseLevel` calls. */
  function DecreaseRepeatedly(t: Target, n: nat): Target
    decreases n
  {
    if n == 0 then t else DecreaseRepeatedly(StepDown(t).target, n - 1)
  }

  /** Every level a successful step writes is one of the six named levels. */
  lemma StepsWriteNamedLevels(t: Target)
    ensures StepUp(t).ok ==>
      StepUp(t).target.attribute.Enum? && 0 <= StepUp(t).target.attribute.raw <= MaxRank as int
    ensures StepDown(t).ok ==>
      StepDown(t).target.attribute.Enum? && 0 <= StepDown(t).target.attribute.raw <= MaxRank as int
  {
  }

  /** Raising, then lowering, restores a level below `Legend`. */
  lemma StepDownUndoesStepUp(t: Target)
    requires Resolves(t) && ReadLevel(t) < MaxRank
    ensures StepUp(t).ok
    ensures StepDown(StepUp(t).target) == Outcome(true, Target(true, Enum(ReadLevel(t) as int)))
  {
  }

  /** Lowering, then raising, restores a named level above `None`. */
  lemma StepUpUndoesStepDown(t: Target)
    requires Resolves(t) && MinRank < ReadLevel(t) <= MaxRank
    ensures StepDown(t).ok
    ensures StepUp(StepDown(t).target) == Outcome(true, Target(true, Enum(ReadLevel(t) as int)))
  {
  }

  /** No sequence of steps changes a target on which a guard fails. */
  lemma {:induction false} UnresolvedTargetNeverChanges(t: Target, n: nat)
    requires !Resolves(t)
    ensures IncreaseRepeatedly(t, n) == t
    ensures DecreaseRepeatedly(t, n) == t
  {
    if n > 0 {
      UnresolvedTargetNeverChanges(t, n - 1);
    }
  }

  /** Raising saturates at `Legend` without wrapping: after `n > 0` calls the
      level is the level read plus `n`, capped at `Legend` (a value above
      `Legend` is capped after the first call). */
  lemma {:induction false} IncreaseSaturates(t: Target, n: nat)
    requires Resolves(t)
    decreases n
    ensures Resolves(IncreaseRepeatedly(t, n))
    ensures ReadLevel(IncreaseRepeatedly(t, n)) as int ==
      if n == 0 then ReadLevel(t) as int else Min(ReadLevel(t) as int + n, MaxRank as int)
  {
    if n > 0 {
      IncreaseSaturates(StepUp(t).target, n - 1);
    }
  }

  /** Lowering saturates at `None` without wrapping: after `n > 0` calls the
      level is the level read minus `n`, floored at `None`; a value above
      `Legend` counts as one above `Legend`, since the first call writes
      `Legend`. */
  lemma {:induction false} DecreaseSaturates(t: Target, n: nat)
    requires Resolves(t)
    decreases n
    ensures Resolves(DecreaseRepeatedly(t, n))
    ensures ReadLevel(DecreaseRepeatedly(t, n)) as int ==
      if n == 0 then ReadLevel(t) as int
      else Max(Min(ReadLevel(t) as int, MaxRank as int + 1) - n, MinRank as int)
  {
    if n > 0 {
      DecreaseSaturates(StepDown(t).target, n - 1);
    }
  }

  /** Five raises reach `Legend` and six lowerings reach `None` from any
      byte value of a resolvable target. */
  lemma ReachesBounds(t: Target)
    requires Resolves(t)
    ensures ReadLevel(IncreaseRepeatedly(t, 5)) == MaxRank == Rank(Legend)
    ensures ReadLevel(DecreaseRepeatedly(t, 6)) == MinRank == Rank(None)
  {
    IncreaseSaturates(t, 5);
    DecreaseSaturates(t, 6);
  }

  /** A failed read still consults the table: the record stored under `None`
      is returned for a destroyed target, not the default record. */
  lemma FailedReadUsesNoneKey()
    ensures exists upgrades: map<Level, UpgradeData>, t: Target ::
      !t.valid && CurrentData(upgrades, t) != DefaultData
  {
    var upgrades := map[Rank(None) := UpgradeData(Rank(Basic), 1.0)];
    var t := Target(false, Absent);
    assert CurrentData(upgrades, t) != DefaultData;
  }

  /** Nothing ties a record's `level` to the key it is stored under: the
      lookup can return a stored record whose `level` differs from its key. */
  lemma RecordLevelIsNotChecked()
    ensures exists upgrades: map<Level, UpgradeData>, t: Target ::
      && Resolves(t)
      && ReadLevel(t) in upgrades
      && CurrentData(upgrades, t).level != ReadLevel(t)
  {
    var upgrades := map[Rank(Elite) := UpgradeData(Rank(Master), 2.0)];
    var t := Target(true, Enum(Rank(Elite) as int));
    assert CurrentData(upgrades, t).level != ReadLevel(t);
  }

  /** A target at `Advanced` with records for `Advanced` and `Elite`: one
      raise reaches `Elite` and yields its record; at `Legend` a raise fails
      and leaves the level. */
  lemma AdvancedScenario()
    ensures var upgrades := map[Rank(Advanced) := UpgradeData(Rank(Advanced), 1.5),
                                Rank(Elite) := UpgradeData(Rank(Elite), 3.0)];
            var up := StepUp(Target(true, Enum(Rank(Advanced) as int)));
            && up.ok
            && ReadLevel(up.target) == Rank(Elite)
            && CurrentData(upgrades, up.target) == UpgradeData(Rank(Elite), 3.0)
    ensures StepUp(Target(true, Enum(Rank(Legend) as int)))
         == Outcome(false, Target(true, Enum(Rank(Legend) as int)))
  {
  }

  /** The same scenario against the classes: the method contracts alone
      determine every result, and a destroyed target stops all writes. */
  method ScenarioOnActor()
  {
    var actor := new Actor(Enum(Rank(Advanced) as int));
    var system := new UpgradeSystem();
    system.targetActor := actor;
    system.upgrades := map[Rank(Advanced) := UpgradeData(Rank(Advanced), 1.5),
                           Rank(Elite) := UpgradeData(Rank(Elite), 3.0)];
    var ok := system.IncreaseLevel();
    assert ok && actor.currentLevel == Enum(Rank(Elite) as int);
    assert system.GetCurrentUpgradeData() == UpgradeData(Rank(Elite), 3.0);
    ok := system.IncreaseLevel();
    ok := system.IncreaseLevel();
    assert ok && actor.currentLevel == Enum(Rank(Legend) as int);
    ok := system.IncreaseLevel();
    assert !ok && actor.currentLevel == Enum(Rank(Legend) as int);
    assert system.GetCurrentUpgradeData() == DefaultData;
    actor.alive := false;
    ok := system.DecreaseLevel();
    assert !ok && actor.currentLevel == Enum(Rank(Legend) as int);
    assert system.GetTargetCurrentLevel() == Rank(None);
  }
}
