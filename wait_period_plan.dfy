/** `WaitPeriodPlan`: an AI plan that lets its character act normally on
    one turn in every `Turns` and makes it wait in place on all the others. */
module AIPlans {

  import opened Wrappers
  import Geometry

  /** `GameAction.ActionType`; only `Wait` is produced here. */
  datatype ActionKind = Wait | OtherAction(id: nat)

  datatype GameAction = GameAction(kind: ActionKind, dir: Geometry.Dir8)

  /** The configuration every `AIPlan` carries (`AIFlags`, `AttackChoice`),
      opaque to this plan. */
  datatype PlanBase = PlanBase(iq: nat, attackPattern: nat)

  /** C#'s `%` on integers: the remainder has the sign of the dividend. */
  function CsRem(a: int, b: int): (r: int)
    requires b != 0
    ensures a >= 0 ==> 0 <= r < Geometry.Abs(b)
    ensures a < 0 ==> -(Geometry.Abs(b) as int) < r <= 0
    // what is left over is a whole multiple of the divisor
    ensures (a - r) % Geometry.Abs(b) == 0
  {
    var m := Geometry.Abs(b);
    if a >= 0 then
      UniqueRemainder(a - a % m, m, a / m, 0);
      a % m
    else
      UniqueRemainder(a + (-a) % m, m, -((-a) / m), 0);
      -((-a) % m)
  }

  /** The C# remainder is zero exactly when the divisor divides the dividend. */
  lemma CsRemZero(a: int, b: int)
    requires b != 0
    ensures CsRem(a, b) == 0 <==> a % b == 0
  {
    var m := Geometry.Abs(b);
    assert a % b == a % m by {
      ModOfNegatedDivisor(a, b);
    }
    if a < 0 {
      NegatedRemainder(-a, m);
    }
  }

  /** Euclidean remainders do not see the divisor's sign. */
  lemma ModOfNegatedDivisor(a: int, b: int)
    requires b != 0
    ensures a % b == a % Geometry.Abs(b)
  {
    if b < 0 {
      var q := a / b;
      assert a == (-b) * (-q) + a % b;
      UniqueRemainder(a, -b, -q, a % b);
    }
  }

  /** `n` and `-n` are divisible by the same positive `m`. */
  lemma NegatedRemainder(n: int, m: int)
    requires m > 0
    ensures n % m == 0 <==> (-n) % m == 0
  {
    if n % m == 0 {
      UniqueRemainder(-n, m, -(n / m), 0);
    }
    if (-n) % m == 0 {
      UniqueRemainder(n, m, -((-n) / m), 0);
    }
  }

  /** A quotient and remainder in range are the Euclidean ones. */
  lemma UniqueRemainder(a: int, m: int, q: int, r: int)
    requires m > 0 && 0 <= r < m && a == m * q + r
    ensures a % m == r
  {
    var q', r' := a / m, a % m;
    assert m * (q' - q) == r - r';
    if q' - q >= 1 {
      MulAtLeast(m, q' - q);
    }
    if q - q' >= 1 {
      MulAtLeast(m, q - q');
    }
  }

  lemma MulAtLeast(m: int, d: int)
    requires m > 0 && d >= 1
    ensures m * d >= m
  {
    assert m * d == m * (d - 1) + m;
  }

  /** Adding a multiple of the divisor does not change the remainder. */
  lemma {:induction false} ModShift(t: int, b: int, k: int)
    requires b != 0
    ensures (t + k * b) % b == t % b
  {
    var m := Geometry.Abs(b);
    ModOfNegatedDivisor(t, b);
    ModOfNegatedDivisor(t + k * b, b);
    var q := t / m;
    var kk := if b > 0 then k else -k;
    assert k * b == kk * m;
    assert t + k * b == m * (q + kk) + t % m;
    UniqueRemainder(t + k * b, m, q + kk, t % m);
  }

  datatype WaitPeriodPlan = WaitPeriodPlan(base: PlanBase, turns: int) {

    /** `CreateNew`: a copy of the plan, with the same period and the same decisions. */
    function CreateNew(): (r: WaitPeriodPlan)
      ensures r.turns == turns && r.base == base
    {
      WaitPeriodPlan(PlanBase(base.iq, base.attackPattern), turns)
    }

    /** `Think`: none (let the default behaviour act) on the turns that are
        a multiple of the period, an explicit wait in place on every other
        turn. The character, the pre-think flag and the random source are
        not consulted. */
    function Think(mapTurns: int, controlledChar: nat, preThink: bool, rand: nat): (r: Option<GameAction>)
      requires turns != 0
      ensures r.None? <==> CsRem(mapTurns, turns) == 0
      ensures r.Some? ==> r.value == GameAction(Wait, Geometry.Dir8.None)
    {
      if CsRem(mapTurns, turns) == 0 then None else Some(GameAction(Wait, Geometry.Dir8.None))
    }
  }

  /** The plan defers exactly on the turns the period divides. */
  lemma ThinkDefersExactlyOnMultiples(p: WaitPeriodPlan, t: int, c: nat, pre: bool, rand: nat)
    requires p.turns != 0
    ensures p.Think(t, c, pre, rand).None? <==> t % p.turns == 0
  {
    CsRemZero(t, p.turns);
  }

  /** The decision depends only on the turn counter and the period. */
  lemma ThinkIgnoresCharacterAndRandomness(p: WaitPeriodPlan, t: int, c1: nat, c2: nat, pre1: bool, pre2: bool,
                                           rand1: nat, rand2: nat)
    requires p.turns != 0
    ensures p.Think(t, c1, pre1, rand1) == p.Think(t, c2, pre2, rand2)
  {
  }

  /** The decision repeats with the period: turn t and turn t + k * Turns agree. */
  lemma {:induction false} ThinkIsPeriodic(p: WaitPeriodPlan, t: int, k: int, c: nat, pre: bool, rand: nat)
    requires p.turns != 0
    ensures p.Think(t, c, pre, rand) == p.Think(t + k * p.turns, c, pre, rand)
  {
    ThinkDefersExactlyOnMultiples(p, t, c, pre, rand);
    ThinkDefersExactlyOnMultiples(p, t + k * p.turns, c, pre, rand);
    ModShift(t, p.turns, k);
  }

  /** With a period of 3, turns 0 to 6 give none, wait, wait, none, wait, wait, none. */
  lemma PeriodThreeSchedule(base: PlanBase, c: nat, pre: bool, rand: nat)
    ensures var p := WaitPeriodPlan(base, 3);
            var wait := Some(GameAction(Wait, Geometry.Dir8.None));
            [p.Think(0, c, pre, rand), p.Think(1, c, pre, rand), p.Think(2, c, pre, rand),
             p.Think(3, c, pre, rand), p.Think(4, c, pre, rand), p.Think(5, c, pre, rand),
             p.Think(6, c, pre, rand)]
            == [None, wait, wait, None, wait, wait, None]
  {
  }

  /** A copy decides every turn exactly as the original does. */
  lemma CopyThinksAlike(p: WaitPeriodPlan, t: int, c: nat, pre: bool, rand: nat)
    requires p.turns != 0
    ensures p.CreateNew().Think(t, c, pre, rand) == p.Think(t, c, pre, rand)
  {
  }
}
