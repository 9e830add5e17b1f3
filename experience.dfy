/** The experience ledger: a player level and the experience collected towards the
    next level. A grant is added to the experience and then rolled over into as many
    level-ups as it pays for, each level costing `RequiredXP(level)`. */
module Experience {

  /** Experience needed to leave `level`: a linear ramp of 100 per level. */
  function RequiredXP(level: int): (r: int)
    ensures level >= 1 ==> r >= 100
  {
    level * 100
  }

  /** The ledger's two numbers. */
  datatype XPState = XPState(level: int, experience: int)

  /** The state a fresh store starts in. */
  const Start := XPState(1, 0)

  /** Total experience consumed by levelling from `low` up to `high`:
      RequiredXP(low) + ... + RequiredXP(high - 1). */
  ghost function XPBetween(low: int, high: int): int
    decreases high - low
  {
    if high <= low then 0 else RequiredXP(low) + XPBetween(low + 1, high)
  }

  lemma {:induction false} XPBetweenNonNegative(low: int, high: int)
    requires low >= 1
    ensures XPBetween(low, high) >= 0
    ensures low < high ==> XPBetween(low, high) >= RequiredXP(low)
    decreases high - low
  {
    if low < high {
      XPBetweenNonNegative(low + 1, high);
    }
  }

  /** Levelling from `a` to `b` and then from `b` to `c` consumes as much as levelling
      from `a` to `c`. */
  lemma {:induction false} XPBetweenSplit(a: int, b: int, c: int)
    requires a <= b <= c
    ensures XPBetween(a, b) + XPBetween(b, c) == XPBetween(a, c)
    decreases b - a
  {
    if a < b {
      XPBetweenSplit(a + 1, b, c);
    }
  }

  /** The roll-over of the level-up loop, as a function: while the experience pays for
      the current level, pay it and go up one level. The contract is what the loop
      promises: the level never drops, no experience is created or lost, the rest is
      below the next threshold, and a rest already below the threshold is untouched. */
  function Settle(experience: int, level: int): (r: XPState)
    requires level >= 1
    ensures r.level >= level
    ensures experience == r.experience + XPBetween(level, r.level)
    ensures r.experience < RequiredXP(r.level)
    ensures experience >= 0 ==> r.experience >= 0
    ensures experience < RequiredXP(level) ==> r == XPState(level, experience)
    decreases if experience < 0 then 0 else experience
  {
    if experience >= RequiredXP(level) then
      Settle(experience - RequiredXP(level), level + 1)
    else
      XPState(level, experience)
  }

  /** The contract of `Settle` determines its result: any level and non-negative rest
      that conserve the experience and sit below the threshold are the ones it returns. */
  lemma {:induction false} SettleUnique(experience: int, level: int, rest: int, reached: int)
    requires 1 <= level <= reached
    requires experience == rest + XPBetween(level, reached)
    requires 0 <= rest < RequiredXP(reached)
    ensures Settle(experience, level) == XPState(reached, rest)
    decreases reached - level
  {
    if level < reached {
      XPBetweenNonNegative(level + 1, reached);
      SettleUnique(experience - RequiredXP(level), level + 1, rest, reached);
    }
  }

  /** The effect of one `addExperience(amount)` on the ledger's state. */
  function Grant(s: XPState, amount: int): (r: XPState)
    requires s.level >= 1
    ensures r.level >= s.level
    ensures s.experience + amount == r.experience + XPBetween(s.level, r.level)
    ensures r.experience < RequiredXP(r.level)
    ensures s.experience + amount >= 0 ==> r.experience >= 0
  {
    Settle(s.experience + amount, s.level)
  }

  /** A single grant can pass several levels: 250 experience from the start state reach
      level 2 with 150 left (100 pays for level 1; 150 is short of level 2's 200). */
  lemma GrantFromStartExample()
    ensures Grant(Start, 250) == XPState(2, 150)
    ensures Grant(Start, 300) == XPState(3, 0)
  {
    assert Settle(150, 2) == XPState(2, 150);
    assert Settle(0, 3) == XPState(3, 0);
  }

  /** A grant that is not positive never reaches the loop's body: the level stays and
      the experience simply drops, possibly below zero. */
  lemma NegativeGrantKeepsLevel(s: XPState, amount: int)
    requires s.level >= 1 && s.experience < RequiredXP(s.level)
    requires amount <= 0
    ensures Grant(s, amount) == XPState(s.level, s.experience + amount)
    ensures s.experience + amount < 0 ==> Grant(s, amount).experience < 0
  {
  }

  /** The developer menu's "reset" grants -(experience + (level - 1) * 100). Because a
      negative grant keeps the level, the result is the start state exactly when the
      level was already 1; otherwise the experience becomes -(level - 1) * 100. */
  lemma DevResetKeepsLevel(s: XPState)
    requires s.level >= 1 && 0 <= s.experience < RequiredXP(s.level)
    ensures Grant(s, -(s.experience + (s.level - 1) * 100)) == XPState(s.level, -(s.level - 1) * 100)
    ensures Grant(s, -(s.experience + (s.level - 1) * 100)) == Start <==> s.level == 1
  {
    NegativeGrantKeepsLevel(s, -(s.experience + (s.level - 1) * 100));
  }

  /** Applying a sequence of grants in order. */
  function Replay(s: XPState, grants: seq<int>): (r: XPState)
    requires s.level >= 1
    ensures r.level >= s.level
    decreases |grants|
  {
    if grants == [] then s else Replay(Grant(s, grants[0]), grants[1..])
  }

  function Sum(xs: seq<int>): int
  {
    if xs == [] then 0 else xs[0] + Sum(xs[1..])
  }

  /** Over any sequence of non-negative grants from a normalised state, every unit of
      experience granted is either spent on a level or still held, and the state stays
      normalised: from the start state, total granted == XPBetween(1, level) + experience. */
  lemma {:induction false} ReplayConserves(s: XPState, grants: seq<int>)
    requires s.level >= 1 && 0 <= s.experience < RequiredXP(s.level)
    requires forall i :: 0 <= i < |grants| ==> grants[i] >= 0
    ensures var r := Replay(s, grants);
      && 0 <= r.experience < RequiredXP(r.level)
      && XPBetween(1, s.level) + s.experience + Sum(grants) == XPBetween(1, r.level) + r.experience
    decreases |grants|
  {
    if grants != [] {
      var next := Grant(s, grants[0]);
      XPBetweenSplit(1, s.level, next.level);
      ReplayConserves(next, grants[1..]);
    }
  }

  /** Division by a positive denominator, as the progress bar uses it. */
  lemma QuotientBounds(part: real, whole: real)
    requires whole > 0.0
    ensures (part / whole) * whole == part
    ensures part < whole ==> part / whole < 1.0
    ensures 0.0 <= part ==> 0.0 <= part / whole
  {
    var q := part / whole;
    assert q * whole == part;
  }

  class ExperienceStore {
    var level: int
    var experience: int

    /** The level starts at 1 and never drops; every grant ends below the threshold
        of the level it reaches. The experience may be negative after a negative grant. */
    ghost predicate Valid()
      reads this
    {
      level >= 1 && experience < RequiredXP(level)
    }

    /** The normal-play invariant: experience in [0, RequiredXP(level)). */
    ghost predicate Normalized()
      reads this
    {
      Valid() && 0 <= experience
    }

    function State(): XPState
      reads this
    {
      XPState(level, experience)
    }

    constructor ()
      ensures Normalized() && State() == Start
    {
      level, experience := 1, 0;
    }

    /** Add `amount` and roll the overflow into level-ups, one level per iteration. */
    method AddExperience(amount: int)
      requires Valid()
      modifies this
      ensures Valid()
      ensures State() == Grant(old(State()), amount)
      ensures level >= old(level)
      ensures old(experience) + amount == experience + XPBetween(old(level), level)
      ensures old(Normalized()) && amount >= 0 ==> Normalized()
      ensures amount < 0 ==> level == old(level) && experience == old(experience) + amount
    {
      var newExperience := experience + amount;
      var newLevel := level;
      while newExperience >= RequiredXP(newLevel)
        invariant newLevel >= 1
        invariant Settle(newExperience, newLevel) == Settle(old(experience) + amount, old(level))
        decreases newExperience
      {
        newExperience := newExperience - RequiredXP(newLevel);
        newLevel := newLevel + 1;
      }
      experience := newExperience;
      level := newLevel;
    }

    /** Experience needed to leave the current level. */
    function GetNextLevelXP(): (r: int)
      reads this
      requires Valid()
      ensures r >= 100 && experience < r
      ensures r == RequiredXP(level)
    {
      RequiredXP(level)
    }

    /** Fraction of the current level already earned. */
    function GetLevelProgress(): (r: real)
      reads this
      requires Valid()
      ensures r * (RequiredXP(level) as real) == experience as real
      ensures r < 1.0
      ensures Normalized() ==> 0.0 <= r
    {
      var needed := RequiredXP(level) as real;
      QuotientBounds(experience as real, needed);
      (experience as real) / needed
    }
  }
}
