/**
 * The cross-scenario linking of sections/retirement_scenarios.py, pulled out of the
 * rendering loop: a set of named scenarios, one link flag per (scenario, field), and the
 * rules that fan an edit out to linked scenarios and re-synchronise a scenario that is
 * linked again.
 *
 * A flag that has never been created reads as linked (the source's `.get(key, True)`).
 * The growth rate is not a `Field`: it is never read or written by the linking rules.
 */
module ScenarioLinks {
  import opened Wrappers
  import opened RetirementScenarios

  /** The six fields that take part in linking, in the order they are rendered. */
  datatype Field = CurrentAge | FinalAge | RetirementAge | AnnualContribution | InflationRate | RetirementSpending

  const LinkedFields: seq<Field> :=
    [CurrentAge, FinalAge, RetirementAge, AnnualContribution, InflationRate, RetirementSpending]

  /** Ages are whole numbers, the other fields amounts. */
  datatype FieldValue = Whole(n: int) | Amount(x: real)

  predicate IsAgeField(f: Field)
  {
    f.CurrentAge? || f.FinalAge? || f.RetirementAge?
  }

  /** A value of the right kind for field `f`. */
  predicate Fits(f: Field, v: FieldValue)
  {
    if IsAgeField(f) then v.Whole? else v.Amount?
  }

  /** `scenario[field]`. */
  function Get(s: Scenario, f: Field): (v: FieldValue)
    ensures Fits(f, v)
  {
    match f
    case CurrentAge => Whole(s.currentAge)
    case FinalAge => Whole(s.finalAge)
    case RetirementAge => Whole(s.retirementAge)
    case AnnualContribution => Amount(s.annualContribution)
    case InflationRate => Amount(s.inflationRate)
    case RetirementSpending => Amount(s.retirementSpending)
  }

  /** `scenario[field] = value`: the field now reads `v`, nothing else in the scenario changes. */
  function With(s: Scenario, f: Field, v: FieldValue): (r: Scenario)
    requires Fits(f, v)
    ensures Get(r, f) == v
    ensures r.name == s.name && r.growthRate == s.growthRate && r.startingBalance == s.startingBalance
  {
    match f
    case CurrentAge => s.(currentAge := v.n)
    case FinalAge => s.(finalAge := v.n)
    case RetirementAge => s.(retirementAge := v.n)
    case AnnualContribution => s.(annualContribution := v.x)
    case InflationRate => s.(inflationRate := v.x)
    case RetirementSpending => s.(retirementSpending := v.x)
  }

  /** Setting one field leaves every other field as it was. */
  lemma WithKeepsOtherFields(s: Scenario, f: Field, v: FieldValue)
    requires Fits(f, v)
    ensures forall g :: g != f ==> Get(With(s, f, v), g) == Get(s, g)
  {
  }

  type Key = string

  type Flags = map<(Key, Field), bool>

  /** A flag that is absent reads as linked. */
  predicate IsLinked(flags: Flags, k: Key, f: Field)
  {
    (k, f) !in flags || flags[(k, f)]
  }

  /** Every scenario that is linked for `f` holds the same value of `f`. */
  ghost predicate Agree(scenarios: map<Key, Scenario>, flags: Flags, f: Field)
  {
    forall j, k {:trigger IsLinked(flags, j, f), IsLinked(flags, k, f)} ::
      j in scenarios && k in scenarios && IsLinked(flags, j, f) && IsLinked(flags, k, f) ==>
      Get(scenarios[j], f) == Get(scenarios[k], f)
  }

  /** The scenarios after `k`'s field `f` is edited to `v`: `k` takes `v`, and when `k` is
      linked so does every other scenario that is linked. */
  function FanOut(scenarios: map<Key, Scenario>, flags: Flags, k: Key, f: Field, v: FieldValue): map<Key, Scenario>
    requires k in scenarios && (k, f) in flags && Fits(f, v)
  {
    map j | j in scenarios ::
      if j == k || (flags[(k, f)] && IsLinked(flags, j, f)) then With(scenarios[j], f, v) else scenarios[j]
  }

  /** What an edit does: `k` and, when `k` is linked, every linked scenario now hold `v`;
      a scenario that is unlinked (or an edit from an unlinked `k`) leaves the others as they
      were; no other field, no growth rate and no name changes anywhere. */
  lemma FanOutEffect(scenarios: map<Key, Scenario>, flags: Flags, k: Key, f: Field, v: FieldValue)
    requires k in scenarios && (k, f) in flags && Fits(f, v)
    ensures var r := FanOut(scenarios, flags, k, f, v);
      && r.Keys == scenarios.Keys
      && Get(r[k], f) == v
      && (flags[(k, f)] ==> forall j :: j in r && IsLinked(flags, j, f) ==> Get(r[j], f) == v)
      && (forall j :: j in r && j != k && (!flags[(k, f)] || !IsLinked(flags, j, f)) ==> r[j] == scenarios[j])
      && (forall j, g :: j in r && g != f ==> Get(r[j], g) == Get(scenarios[j], g))
      && (forall j :: j in r ==> r[j].growthRate == scenarios[j].growthRate && r[j].name == scenarios[j].name)
  {
    var r := FanOut(scenarios, flags, k, f, v);
    forall j | j in r ensures forall g :: g != f ==> Get(r[j], g) == Get(scenarios[j], g) {
      WithKeepsOtherFields(scenarios[j], f, v);
    }
  }

  /** The scenarios after `k` is linked again for `f`: every scenario takes `k`'s value,
      whatever its own flag says. */
  function SyncAll(scenarios: map<Key, Scenario>, k: Key, f: Field): map<Key, Scenario>
    requires k in scenarios
  {
    map j | j in scenarios ::
      if j == k then scenarios[j] else With(scenarios[j], f, Get(scenarios[k], f))
  }

  /** What re-linking does: every scenario holds `k`'s value of `f`, `k` itself is unchanged,
      and no other field, growth rate or name changes. */
  lemma SyncAllEffect(scenarios: map<Key, Scenario>, k: Key, f: Field)
    requires k in scenarios
    ensures var r := SyncAll(scenarios, k, f);
      && r.Keys == scenarios.Keys
      && r[k] == scenarios[k]
      && (forall j :: j in r ==> Get(r[j], f) == Get(scenarios[k], f))
      && (forall j, g :: j in r && g != f ==> Get(r[j], g) == Get(scenarios[j], g))
      && (forall j :: j in r ==> r[j].growthRate == scenarios[j].growthRate && r[j].name == scenarios[j].name)
  {
    var r := SyncAll(scenarios, k, f);
    forall j | j in r ensures forall g :: g != f ==> Get(r[j], g) == Get(scenarios[j], g) {
      WithKeepsOtherFields(scenarios[j], f, Get(scenarios[k], f));
    }
  }

  /** Editing a field keeps the linked scenarios of every field in agreement. */
  lemma FanOutKeepsAgreement(scenarios: map<Key, Scenario>, flags: Flags, k: Key, f: Field, v: FieldValue, g: Field)
    requires k in scenarios && (k, f) in flags && Fits(f, v)
    requires Agree(scenarios, flags, g)
    ensures Agree(FanOut(scenarios, flags, k, f, v), flags, g)
  {
    var r := FanOut(scenarios, flags, k, f, v);
    FanOutEffect(scenarios, flags, k, f, v);
    forall i, j | i in r && j in r && IsLinked(flags, i, g) && IsLinked(flags, j, g)
      ensures Get(r[i], g) == Get(r[j], g)
    {
      if g == f && !flags[(k, f)] {
        assert i != k && j != k;
        assert r[i] == scenarios[i] && r[j] == scenarios[j];
      }
    }
  }

  /** The class invariant survives an edit. */
  lemma FanOutKeepsEveryAgreement(scenarios: map<Key, Scenario>, flags: Flags, k: Key, f: Field, v: FieldValue)
    requires k in scenarios && (k, f) in flags && Fits(f, v)
    requires forall g :: Agree(scenarios, flags, g)
    ensures forall g :: Agree(FanOut(scenarios, flags, k, f, v), flags, g)
  {
    forall g ensures Agree(FanOut(scenarios, flags, k, f, v), flags, g) {
      FanOutKeepsAgreement(scenarios, flags, k, f, v, g);
    }
  }

  /** Linking `k` again for `f` leaves every scenario with one value of `f`, and keeps the
      other fields in agreement. */
  lemma SyncAllKeepsAgreement(scenarios: map<Key, Scenario>, flags: Flags, k: Key, f: Field, g: Field)
    requires k in scenarios
    requires g != f ==> Agree(scenarios, flags, g)
    ensures Agree(SyncAll(scenarios, k, f), flags, g)
  {
    var r := SyncAll(scenarios, k, f);
    SyncAllEffect(scenarios, k, f);
    forall i, j | i in r && j in r && IsLinked(flags, i, g) && IsLinked(flags, j, g)
      ensures Get(r[i], g) == Get(r[j], g)
    {
      if g != f {
        assert Get(scenarios[i], g) == Get(scenarios[j], g);
      }
    }
  }

  /** Setting one flag never disturbs agreement on another field, and clearing a flag never
      disturbs agreement on its own field. */
  lemma FlagChangeKeepsAgreement(scenarios: map<Key, Scenario>, flags: Flags, k: Key, f: Field, linked: bool, g: Field)
    requires Agree(scenarios, flags, g)
    requires g == f ==> !linked || IsLinked(flags, k, f)
    ensures Agree(scenarios, flags[(k, f) := linked], g)
  {
    var flags' := flags[(k, f) := linked];
    forall i, j | i in scenarios && j in scenarios && IsLinked(flags', i, g) && IsLinked(flags', j, g)
      ensures Get(scenarios[i], g) == Get(scenarios[j], g)
    {
      assert IsLinked(flags, i, g) && IsLinked(flags, j, g);
    }
  }

  /** Linking `k` again for `f`, with its synchronisation, keeps every field in agreement. */
  lemma RelinkKeepsEveryAgreement(scenarios: map<Key, Scenario>, flags: Flags, k: Key, f: Field, relinked: Flags)
    requires k in scenarios && relinked == flags[(k, f) := true]
    requires forall g :: Agree(scenarios, flags, g)
    ensures forall g :: Agree(SyncAll(scenarios, k, f), relinked, g)
  {
    forall g ensures Agree(SyncAll(scenarios, k, f), relinked, g) {
      if g != f {
        FlagChangeKeepsAgreement(scenarios, flags, k, f, true, g);
      }
      SyncAllKeepsAgreement(scenarios, relinked, k, f, g);
    }
  }

  /** Unlinking `k` for `f` keeps every field in agreement. */
  lemma UnlinkKeepsEveryAgreement(scenarios: map<Key, Scenario>, flags: Flags, k: Key, f: Field, unlinked: Flags)
    requires unlinked == flags[(k, f) := false]
    requires forall g :: Agree(scenarios, flags, g)
    ensures forall g :: Agree(scenarios, unlinked, g)
  {
    forall g ensures Agree(scenarios, unlinked, g) {
      FlagChangeKeepsAgreement(scenarios, flags, k, f, false, g);
    }
  }

  /** `p` is the projection of `s` at its own retirement spending: its ages, every balance
      and the final balance. It repeats the postconditions of `ProjectScenario` for that
      spending, bundled so that the loop invariant of `ProjectAll` stays cheap. */
  ghost predicate Drawn(p: Projection, s: Scenario)
  {
    && |p.years| == (if s.finalAge >= s.currentAge then s.finalAge - s.currentAge + 1 else 0)
    && (forall i :: 0 <= i < |p.years| ==> p.years[i] == s.currentAge + i)
    && |p.balances| == Steps(s) + 1
    && (forall t :: 0 <= t < |p.balances| ==> p.balances[t] == BalanceAt(s, s.retirementSpending, t))
    && p.finalBalance == FinalBalance(s, s.retirementSpending)
  }

  /** The scenario set and its link flags (the `retirement_scenarios` session entry). */
  class ScenarioSet {
    var order: seq<Key>                 // every scenario key, in the dictionary's iteration order
    var scenarios: map<Key, Scenario>
    var flags: Flags

    ghost predicate Valid()
      reads this
    {
      && scenarios.Keys == (set k | k in order)
      && (forall f :: Agree(scenarios, flags, f))
    }

    /** The three initial scenarios, built from the client's age (default 40) and
        retirement accounts (default 0), with no flag created yet. */
    constructor (age: Option<int>, retirementAccounts: Option<real>)
      ensures Valid()
      ensures order == ["conservative", "moderate", "aggressive"] && flags == map[]
      ensures forall k :: k in scenarios ==>
        && scenarios[k].currentAge == age.GetOr(40)
        && scenarios[k].startingBalance == retirementAccounts.GetOr(0.0)
        && scenarios[k].finalAge == 95 && scenarios[k].retirementAge == 65
        && scenarios[k].annualContribution == 0.0 && scenarios[k].inflationRate == 3.0
        && scenarios[k].retirementSpending == 50000.0
      ensures scenarios["conservative"].growthRate == 6.0
      ensures scenarios["moderate"].growthRate == 7.0
      ensures scenarios["aggressive"].growthRate == 8.0
    {
      var a := age.GetOr(40);
      var b := retirementAccounts.GetOr(0.0);
      var shared := Scenario("", a, 95, 65, 0.0, 0.0, 3.0, 50000.0, b);
      var initial := map[
        "conservative" := shared.(name := "Conservative", growthRate := 6.0),
        "moderate" := shared.(name := "Moderate", growthRate := 7.0),
        "aggressive" := shared.(name := "Aggressive", growthRate := 8.0)];
      forall f ensures Agree(initial, map[], f) {
        assert forall j :: j in initial ==> Get(initial[j], f) == Get(shared, f);
      }
      order := ["conservative", "moderate", "aggressive"];
      scenarios := initial;
      flags := map[];
    }

    /** Creates the flag for (k, f) as linked the first time the field is shown. */
    method EnsureFlag(k: Key, f: Field)
      requires Valid()
      modifies this
      ensures Valid()
      ensures flags == if (k, f) in old(flags) then old(flags) else old(flags)[(k, f) := true]
      ensures scenarios == old(scenarios) && order == old(order)
    {
      if (k, f) !in flags {
        var created := flags[(k, f) := true];
        forall g ensures Agree(scenarios, created, g) {
          FlagChangeKeepsAgreement(scenarios, flags, k, f, true, g);
        }
        flags := created;
      }
    }

    /** Sets the link flag of (k, f) to the checkbox's state; when the flag goes from off to
        on, every other scenario takes k's current value of f. */
    method ToggleLink(k: Key, f: Field, newState: bool)
      requires Valid() && k in scenarios && (k, f) in flags
      modifies this
      ensures Valid()
      ensures flags == old(flags)[(k, f) := newState] && order == old(order)
      ensures scenarios == if newState && !old(flags[(k, f)]) then SyncAll(old(scenarios), k, f) else old(scenarios)
    {
      var isLinked := flags[(k, f)];
      if newState != isLinked {
        var toggled := flags[(k, f) := newState];
        if newState {
          RelinkKeepsEveryAgreement(scenarios, flags, k, f, toggled);
          flags := toggled;
          CopyToOthers(k, f);
        } else {
          UnlinkKeepsEveryAgreement(scenarios, flags, k, f, toggled);
          flags := toggled;
        }
      }
    }

    /** Copies k's current value of f into every other scenario, whatever their flags. */
    method CopyToOthers(k: Key, f: Field)
      requires scenarios.Keys == (set j | j in order) && k in scenarios
      modifies this`scenarios
      ensures scenarios == SyncAll(old(scenarios), k, f)
    {
      var value := Get(scenarios[k], f);
      var synced := scenarios;
      for i := 0 to |order|
        invariant synced.Keys == scenarios.Keys
        invariant forall j :: j in synced ==>
          synced[j] == if j != k && j in order[..i] then With(scenarios[j], f, value) else scenarios[j]
      {
        var other := order[i];
        assert order[..i + 1] == order[..i] + [other];
        if other != k {
          synced := synced[other := With(synced[other], f, value)];
        }
      }
      assert order[..|order|] == order;
      ghost var r := SyncAll(scenarios, k, f);
      assert synced.Keys == r.Keys;
      assert forall j :: j in r ==> synced[j] == r[j];
      scenarios := synced;
    }

    /** Stores the edited value of k's field f; when k is linked for f the value is copied
        to every other scenario that is linked (or has no flag yet). */
    method UpdateField(k: Key, f: Field, v: FieldValue)
      requires Valid() && k in scenarios && (k, f) in flags && Fits(f, v)
      modifies this
      ensures Valid()
      ensures flags == old(flags) && order == old(order)
      ensures scenarios == FanOut(old(scenarios), old(flags), k, f, v)
    {
      var updated := scenarios[k := With(scenarios[k], f, v)];
      if flags[(k, f)] {
        for i := 0 to |order|
          invariant updated.Keys == scenarios.Keys
          invariant forall j :: j in updated ==>
            updated[j] == if j == k || (j in order[..i] && IsLinked(flags, j, f)) then With(scenarios[j], f, v) else scenarios[j]
        {
          var other := order[i];
          assert order[..i + 1] == order[..i] + [other];
          if other != k && IsLinked(flags, other, f) {
            updated := updated[other := With(updated[other], f, v)];
          }
        }
        assert order[..|order|] == order;
      }
      ghost var r := FanOut(scenarios, flags, k, f, v);
      assert updated.Keys == r.Keys;
      assert forall j :: j in r ==> updated[j] == r[j];
      assert updated == r;
      FanOutKeepsEveryAgreement(scenarios, flags, k, f, v);
      scenarios := updated;
    }

    /** Sets k's growth rate, which the number input keeps within [0, 15]; no other
        scenario is touched, since the growth rate is never linked. */
    method SetGrowthRate(k: Key, rate: real)
      requires Valid() && k in scenarios && 0.0 <= rate <= 15.0
      modifies this
      ensures Valid()
      ensures flags == old(flags) && order == old(order)
      ensures scenarios == old(scenarios)[k := old(scenarios)[k].(growthRate := rate)]
    {
      ghost var before := scenarios;
      scenarios := scenarios[k := scenarios[k].(growthRate := rate)];
      forall g ensures Agree(scenarios, flags, g) {
        assert Agree(before, flags, g);
        forall i, j | i in scenarios && j in scenarios && IsLinked(flags, i, g) && IsLinked(flags, j, g)
          ensures Get(scenarios[i], g) == Get(scenarios[j], g)
        {
          assert Get(scenarios[i], g) == Get(before[i], g);
          assert Get(scenarios[j], g) == Get(before[j], g);
        }
      }
    }

    /** One linked field as the form renders it: create its flag, apply the checkbox, then
        store the number the user entered and fan it out. */
    method EditField(k: Key, f: Field, checkbox: bool, v: FieldValue)
      requires Valid() && k in scenarios && Fits(f, v)
      modifies this
      ensures Valid()
      ensures flags == old(flags)[(k, f) := checkbox] && order == old(order)
      ensures scenarios.Keys == old(scenarios).Keys
      ensures Get(scenarios[k], f) == v
      ensures checkbox ==> forall j :: j in scenarios && IsLinked(flags, j, f) ==> Get(scenarios[j], f) == v
      ensures scenarios == FanOut(
        if checkbox && !IsLinked(old(flags), k, f) then SyncAll(old(scenarios), k, f) else old(scenarios),
        flags, k, f, v)
    {
      EnsureFlag(k, f);
      ToggleLink(k, f, checkbox);
      UpdateField(k, f, v);
    }

    /** The "Calculate Maximum Spending" button: solves k's maximum spending and stores it
        in k alone. Nothing is fanned out, so linked scenarios may now disagree and the class
        invariant is not promised. */
    method StoreMaxSpending(k: Key) returns (maxSpend: real)
      requires k in scenarios
      modifies this
      ensures flags == old(flags) && order == old(order)
      ensures scenarios == old(scenarios)[k := old(scenarios)[k].(retirementSpending := maxSpend)]
      ensures 0.0 <= maxSpend
      ensures old(scenarios)[k].startingBalance >= 0.0 ==> maxSpend <= old(scenarios)[k].startingBalance
      ensures maxSpend == 0.0 || FinalBalance(old(scenarios)[k], maxSpend) > 0.0
    {
      maxSpend := CalculateMaxSpending(scenarios[k]);
      scenarios := scenarios[k := scenarios[k].(retirementSpending := maxSpend)];
    }

    /** The projection drawn for every scenario, at its own retirement spending. */
    method ProjectAll() returns (r: map<Key, Projection>)
      requires Valid()
      ensures r.Keys == scenarios.Keys
      ensures forall k :: k in r ==>
        r[k].finalBalance == FinalBalance(scenarios[k], scenarios[k].retirementSpending)
      ensures forall k :: k in r ==> |r[k].balances| == Steps(scenarios[k]) + 1
      ensures forall k :: k in r ==>
        |r[k].years| == (if scenarios[k].finalAge >= scenarios[k].currentAge then scenarios[k].finalAge - scenarios[k].currentAge + 1 else 0)
        && forall i :: 0 <= i < |r[k].years| ==> r[k].years[i] == scenarios[k].currentAge + i
      ensures forall k, t :: k in r && 0 <= t < |r[k].balances| ==>
        r[k].balances[t] == BalanceAt(scenarios[k], scenarios[k].retirementSpending, t)
    {
      r := map[];
      var i := 0;
      while i < |order|
        invariant 0 <= i <= |order|
        invariant r.Keys == set j | j in order[..i]
        invariant forall k :: k in r ==> k in scenarios
        invariant forall k :: k in r ==> Drawn(r[k], scenarios[k])
      {
        var k := order[i];
        var projection := ProjectScenario(scenarios[k], scenarios[k].retirementSpending);
        assert Drawn(projection, scenarios[k]);
        r := r[k := projection];
        i := i + 1;
      }
      assert order[..i] == order;
    }
  }
}
