/** The upgrade-level controller: reads and writes the `CurrentLevel`
    attribute of a target actor, steps it up or down by one rank within
    `None`..`Legend`, and looks up the record configured for the level read.

    The first half states what each operation does on a value view of the
    target (`Target`); the classes below implement the operations on the
    mutable actor and are proved to agree with those functions. */
module UpgradeSystem {
  import opened UpgradeLevel

  /** `FUpgradeData`: the record configured for a level. The bonus is carried,
      never computed with. */
  datatype UpgradeData = UpgradeData(level: Level, bonusValue: real)

  /** A default-constructed `FUpgradeData`: level `None`, bonus 0. */
  const DefaultData: UpgradeData := UpgradeData(Rank(None), 0.0)

  /** The `CurrentLevel` attribute as the reflection lookup finds it on the
      target's class. */
  datatype Attribute =
    | Absent          // no property of that name
    | NotEnum         // a property of that name that is not an enum property
    | NullAddress     // an enum property whose value address resolves to null
    | Enum(raw: int)  // an enum property of some enum type; `raw` is its integer value

  /** The target as the controller sees it: whether the weak reference is
      still valid, and its `CurrentLevel` attribute. */
  datatype Target = Target(valid: bool, attribute: Attribute)

  /** The result of an operation that may write: its return value and the
      target afterwards. */
  datatype Outcome = Outcome(ok: bool, target: Target)

  /** Every guard of the lookup chain passes: a live target with an
      addressable enum attribute. */
  predicate Resolves(t: Target) {
    t.valid && t.attribute.Enum?
  }

  /** `FMath::Clamp`. */
  function Clamp(x: int, lo: int, hi: int): (r: int)
    ensures lo <= hi ==> lo <= r <= hi
    ensures lo <= x <= hi ==> r == x
    ensures x < lo ==> r == lo
    ensures lo <= hi && hi < x ==> r == hi
  {
    if x < lo then lo else if x < hi then x else hi
  }

  /** Reading the level: `None` as soon as a guard fails, otherwise the
      attribute's integer value narrowed to the `uint8` enum. */
  function ReadLevel(t: Target): (l: Level)
    ensures !Resolves(t) ==> l == Rank(None)
    ensures Resolves(t) ==> (l as int - t.attribute.raw) % 0x100 == 0
    ensures Resolves(t) && 0 <= t.attribute.raw < 0x100 ==> l as int == t.attribute.raw
  {
    if !t.valid then Rank(None)
    else match t.attribute
      case Absent => Rank(None)
      case NotEnum => Rank(None)
      case NullAddress => Rank(None)
      case Enum(raw) => Cast(raw)
  }

  /** Writing the level: fails with the target untouched as soon as a guard
      fails, otherwise stores the new level's value in the attribute. */
  function WriteLevel(t: Target, newLevel: Level): (r: Outcome)
    ensures r.ok <==> Resolves(t)
    ensures !r.ok ==> r.target == t
    ensures r.ok ==> r.target == Target(t.valid, Enum(newLevel as int))
    ensures r.ok ==> ReadLevel(r.target) == newLevel
  {
    if !t.valid then Outcome(false, t)
    else match t.attribute
      case Absent => Outcome(false, t)
      case NotEnum => Outcome(false, t)
      case NullAddress => Outcome(false, t)
      case Enum(_) => Outcome(true, Target(t.valid, Enum(newLevel as int)))
  }

  /** `IncreaseLevel`: clamp the level read plus one into `None`..`Legend`;
      no write when that equals the level read, else write it. It succeeds
      exactly on a resolvable target not at `Legend`; a value above `Legend`
      is pulled back to `Legend`. */
  function StepUp(t: Target): (r: Outcome)
    ensures r.ok <==> Resolves(t) && ReadLevel(t) != MaxRank
    ensures !r.ok ==> r.target == t
    ensures r.ok ==> r.target == Target(true, Enum(
      if ReadLevel(t) < MaxRank then ReadLevel(t) as int + 1 else MaxRank as int))
  {
    if !t.valid then Outcome(false, t)
    else
      var current := ReadLevel(t);
      var next := Clamp(current as int + 1, MinRank as int, MaxRank as int);
      if next == current as int then Outcome(false, t)
      else WriteLevel(t, Cast(next))
  }

  /** `DecreaseLevel`: clamp the level read minus one into `None`..`Legend`;
      no write when that equals the level read, else write it. It succeeds
      exactly on a resolvable target not at `None`; a value above `Legend`
      is pulled back to `Legend`. */
  function StepDown(t: Target): (r: Outcome)
    ensures r.ok <==> Resolves(t) && ReadLevel(t) != MinRank
    ensures !r.ok ==> r.target == t
    ensures r.ok ==> r.target == Target(true, Enum(
      if ReadLevel(t) <= MaxRank then ReadLevel(t) as int - 1 else MaxRank as int))
  {
    if !t.valid then Outcome(false, t)
    else
      var current := ReadLevel(t);
      var prev := Clamp(current as int - 1, MinRank as int, MaxRank as int);
      if prev == current as int then Outcome(false, t)
      else WriteLevel(t, Cast(prev))
  }

  /** `GetCurrentUpgradeData`: the record stored under the level read, or the
      default record. A failed read still looks up the `None` key. */
  function CurrentData(upgrades: map<Level, UpgradeData>, t: Target): (d: UpgradeData)
    ensures ReadLevel(t) in upgrades ==> d == upgrades[ReadLevel(t)]
    ensures ReadLevel(t) !in upgrades ==> d == DefaultData
    ensures !Resolves(t) ==> d == if Rank(None) in upgrades then upgrades[Rank(None)] else DefaultData
    ensures d == DefaultData || d in upgrades.Values
  {
    var current := ReadLevel(t);
    if current in upgrades then upgrades[current] else DefaultData
  }

  /** The target actor: the engine owns it and may destroy it between calls
      (`alive`); the controller only reaches its `CurrentLevel` attribute. */
  class Actor {
    var alive: bool
    var currentLevel: Attribute

    constructor (level: Attribute)
      ensures alive && currentLevel == level
    {
      alive := true;
      currentLevel := level;
    }
  }

  /** `UUpgradeSystem`: a weak reference to the target and the level-to-record
      table. No operation writes either field; the only location any of them
      writes is the target's `currentLevel`. */
  class UpgradeSystem {
    var targetActor: Actor?
    var upgrades: map<Level, UpgradeData>

    constructor ()
      ensures targetActor == null && upgrades == map[]
    {
      targetActor := null;
      upgrades := map[];
    }

    /** `TargetActor.IsValid()`: set and not yet destroyed. */
    predicate TargetIsValid()
      reads this, targetActor
    {
      targetActor != null && targetActor.alive
    }

    /** The objects the weak reference reaches: the target, once set. */
    function Reach(): (s: set<Actor>)
      reads this
    {
      if targetActor == null then {} else {targetActor}
    }

    /** The target as the operations see it at this moment. */
    function Observe(): (t: Target)
      reads this, targetActor
      ensures t.valid == TargetIsValid()
      ensures TargetIsValid() ==> t.attribute == targetActor.currentLevel
    {
      if targetActor == null then Target(false, Absent)
      else Target(targetActor.alive, targetActor.currentLevel)
    }

    /** Reads the target's level; `None` on every failed guard. The body
        repeats `ReadLevel` guard by guard on the actor's own fields, as the
        engine code does. */
    function GetTargetCurrentLevel(): (l: Level)
      reads this, targetActor
      ensures l == ReadLevel(Observe())
    {
      if !TargetIsValid() then Rank(None)
      else match targetActor.currentLevel
        case Absent => Rank(None)
        case NotEnum => Rank(None)
        case NullAddress => Rank(None)
        case Enum(raw) => Cast(raw)
    }

    /** Writes `newLevel` into the target's attribute when every guard passes. */
    method SetTargetCurrentLevel(newLevel: Level) returns (ok: bool)
      modifies Reach()`currentLevel
      ensures Outcome(ok, Observe()) == WriteLevel(old(Observe()), newLevel)
    {
      if !TargetIsValid() {
        return false;
      }
      match targetActor.currentLevel
      case Absent => return false;
      case NotEnum => return false;
      case NullAddress => return false;
      case Enum(_) =>
        targetActor.currentLevel := Enum(newLevel as int);
        return true;
    }

    /** Raises the target's level by one rank, stopping at `Legend`. */
    method IncreaseLevel() returns (ok: bool)
      modifies Reach()`currentLevel
      ensures Outcome(ok, Observe()) == StepUp(old(Observe()))
    {
      if !TargetIsValid() {
        return false;
      }
      var current := GetTargetCurrentLevel();
      var next := Clamp(current as int + 1, MinRank as int, MaxRank as int);
      if next == current as int {
        return false;
      }
      ok := SetTargetCurrentLevel(Cast(next));
    }

    /** Lowers the target's level by one rank, stopping at `None`. */
    method DecreaseLevel() returns (ok: bool)
      modifies Reach()`currentLevel
      ensures Outcome(ok, Observe()) == StepDown(old(Observe()))
    {
      if !TargetIsValid() {
        return false;
      }
      var current := GetTargetCurrentLevel();
      var prev := Clamp(current as int - 1, MinRank as int, MaxRank as int);
      if prev == current as int {
        return false;
      }
      ok := SetTargetCurrentLevel(Cast(prev));
    }

    /** The record configured for the target's current level, or the default.
        The body repeats `CurrentData` on the class's own fields. */
    function GetCurrentUpgradeData(): (d: UpgradeData)
      reads this, targetActor
      ensures d == CurrentData(upgrades, Observe())
    {
      var current := GetTargetCurrentLevel();
      if current in upgrades then upgrades[current] else DefaultData
    }
  }
}
