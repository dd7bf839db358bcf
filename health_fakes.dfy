/** The counterfeiter-generated fake of health.AggregationPolicy
    (pkg/health/healthfakes/fake_aggregation_policy.go).

    The fake records the argument of every Apply call and answers with, in
    order of precedence: the stub, when one is set; the return configured for
    this call's index; the default return. It also keeps a log of invocations
    keyed by method name. */
module HealthFakes {
  import opened Wrappers

  /** A health report (health.Health); the fake never looks inside one. */
  datatype Health = Health(status: string, details: map<string, string>)

  /** A *health.Health: None is the nil pointer. */
  type HealthRef = Option<Health>

  /** The argument of Apply: the health of each named indicator. */
  type Healths = map<string, HealthRef>

  /** A stub standing in for Apply. */
  type ApplyFn = Healths -> HealthRef

  /** The invocation log: for each method name, the argument lists of its calls. */
  type InvocationLog = map<string, seq<seq<Healths>>>

  const ApplyName: string := "Apply"

  /** The return configured for call `index`, if the (possibly nil) override
      table has one. */
  function OverrideAt(overrides: Option<map<int, HealthRef>>, index: int): (r: Option<HealthRef>)
    ensures r.Some? <==> overrides.Some? && index in overrides.value
    ensures r.Some? ==> r.value == overrides.value[index]
  {
    if overrides.Some? && index in overrides.value then Some(overrides.value[index]) else None
  }

  /** What Apply returns on the call with 0-based `index` (the number of calls
      made before it). */
  function ApplyOutcome(stub: Option<ApplyFn>, overrides: Option<map<int, HealthRef>>, fallback: HealthRef,
                        index: nat, healths: Healths): HealthRef
  {
    if stub.Some? then stub.value(healths)
    else match OverrideAt(overrides, index)
      case Some(r) => r
      case None => fallback
  }

  /** The stub, when set, decides the result whatever the overrides and the default. */
  lemma StubTakesPrecedence(stub: ApplyFn, overrides: Option<map<int, HealthRef>>, fallback: HealthRef,
                            index: nat, healths: Healths)
    ensures ApplyOutcome(Some(stub), overrides, fallback, index, healths) == stub(healths)
  {
  }

  /** Without a stub, an override for this call's index wins over the default,
      and the default is used exactly when there is none. */
  lemma OverrideBeforeDefault(overrides: Option<map<int, HealthRef>>, fallback: HealthRef, index: nat, healths: Healths)
    ensures overrides.Some? && index in overrides.value ==>
      ApplyOutcome(None, overrides, fallback, index, healths) == overrides.value[index]
    ensures !(overrides.Some? && index in overrides.value) ==>
      ApplyOutcome(None, overrides, fallback, index, healths) == fallback
  {
  }

  /** The log after recordInvocation(key, args): the map and the key's slot are
      created when missing, args is appended to the slot, other keys are kept. */
  function Recorded(log: Option<InvocationLog>, key: string, args: seq<Healths>): (r: InvocationLog)
    ensures key in r
    ensures log.Some? && key in log.value ==> r[key] == log.value[key] + [args]
    ensures !(log.Some? && key in log.value) ==> r[key] == [args]
    ensures forall k :: k != key ==> (k in r <==> log.Some? && k in log.value)
    ensures forall k :: k != key && k in r ==> r[k] == log.value[k]
  {
    var m := if log.Some? then log.value else map[];
    var slot := if key in m then m[key] else [];
    m[key := slot + [args]]
  }

  /** The invocation log entry of a sequence of Apply calls: one single-argument
      list per call. */
  function ApplyRecords(calls: seq<Healths>): (records: seq<seq<Healths>>)
  {
    seq(|calls|, i requires 0 <= i < |calls| => [calls[i]])
  }

  class FakeAggregationPolicy {
    var applyStub: Option<ApplyFn>
    var applyArgsForCall: seq<Healths>
    var applyReturns: HealthRef
    var applyReturnsOnCall: Option<map<int, HealthRef>>
    var invocations: Option<InvocationLog>

    /** The invocation log mirrors the argument log: only Apply records, and it
        records exactly its arguments, once per call. */
    ghost predicate Valid()
      reads this
    {
      invocations == if applyArgsForCall == [] then None else Some(map[ApplyName := ApplyRecords(applyArgsForCall)])
    }

    /** new(FakeAggregationPolicy): every field at its zero value. */
    constructor ()
      ensures Valid()
      ensures applyStub == None && applyArgsForCall == [] && applyReturns == None
      ensures applyReturnsOnCall == None && invocations == None
    {
      applyStub := None;
      applyArgsForCall := [];
      applyReturns := None;
      applyReturnsOnCall := None;
      invocations := None;
    }

    /** Apply records the call, then answers from the stub, the override for
        this call's index (looked up before the call is appended), or the default. */
    method Apply(healths: Healths) returns (r: HealthRef)
      modifies this
      ensures applyArgsForCall == old(applyArgsForCall) + [healths]
      ensures invocations == Some(Recorded(old(invocations), ApplyName, [healths]))
      ensures applyStub == old(applyStub) && applyReturns == old(applyReturns)
      ensures applyReturnsOnCall == old(applyReturnsOnCall)
      ensures r == ApplyOutcome(applyStub, applyReturnsOnCall, applyReturns, |old(applyArgsForCall)|, healths)
      ensures old(Valid()) ==> Valid()
    {
      var specific := OverrideAt(applyReturnsOnCall, |applyArgsForCall|);
      applyArgsForCall := applyArgsForCall + [healths];
      RecordInvocation(ApplyName, [healths]);
      assert ApplyRecords(applyArgsForCall) == ApplyRecords(old(applyArgsForCall)) + [[healths]];
      if old(Valid()) {
        var expected := map[ApplyName := ApplyRecords(applyArgsForCall)];
        assert invocations.value.Keys == expected.Keys;
        assert invocations.value == expected;
      }
      if applyStub.Some? {
        return applyStub.value(healths);
      }
      if specific.Some? {
        return specific.value;
      }
      return applyReturns;
    }

    /** The number of Apply calls so far. */
    method ApplyCallCount() returns (n: nat)
      ensures n == |applyArgsForCall|
    {
      n := |applyArgsForCall|;
    }

    /** The argument of the i-th (0-based) Apply call; an index out of range
        panics, modelled as None. */
    method ApplyArgsForCall(i: int) returns (r: Option<Healths>)
      ensures r.Some? <==> 0 <= i < |applyArgsForCall|
      ensures r.Some? ==> r.value == applyArgsForCall[i]
    {
      if 0 <= i < |applyArgsForCall| {
        r := Some(applyArgsForCall[i]);
      } else {
        r := None;
      }
    }

    /** Sets the default return and clears the stub. */
    method ApplyReturns(result: HealthRef)
      modifies this`applyStub, this`applyReturns
      ensures applyStub == None && applyReturns == result
      ensures Valid() == old(Valid())
    {
      applyStub := None;
      applyReturns := result;
    }

    /** Sets the return of the i-th call and clears the stub; the table is created
        when nil and only entry i changes. */
    method ApplyReturnsOnCall(i: int, result: HealthRef)
      modifies this`applyStub, this`applyReturnsOnCall
      ensures applyStub == None
      ensures applyReturnsOnCall.Some?
      ensures OverrideAt(applyReturnsOnCall, i) == Some(result)
      ensures forall j :: j != i ==> OverrideAt(applyReturnsOnCall, j) == OverrideAt(old(applyReturnsOnCall), j)
      ensures Valid() == old(Valid())
    {
      applyStub := None;
      if applyReturnsOnCall.None? {
        applyReturnsOnCall := Some(map[]);
      }
      applyReturnsOnCall := Some(applyReturnsOnCall.value[i := result]);
    }

    /** A fresh outer map with the keys and values of the invocation log (empty
        when no call was ever recorded). */
    method Invocations() returns (copied: InvocationLog)
      ensures invocations.None? ==> copied == map[]
      ensures invocations.Some? ==> copied.Keys == invocations.value.Keys
      ensures invocations.Some? ==> forall k :: k in copied ==> copied[k] == invocations.value[k]
      ensures Valid() ==> copied == if applyArgsForCall == [] then map[] else map[ApplyName := ApplyRecords(applyArgsForCall)]
    {
      copied := map[];
      if invocations.Some? {
        var log := invocations.value;
        var remaining := log.Keys;
        while remaining != {}
          invariant remaining <= log.Keys
          invariant copied.Keys == log.Keys - remaining
          invariant forall k :: k in copied ==> copied[k] == log[k]
          decreases remaining
        {
          var k :| k in remaining;
          copied := copied[k := log[k]];
          remaining := remaining - {k};
        }
      }
    }

    /** recordInvocation(key, args). */
    method RecordInvocation(key: string, args: seq<Healths>)
      modifies this`invocations
      ensures invocations == Some(Recorded(old(invocations), key, args))
    {
      var log := if invocations.None? then map[] else invocations.value;
      if key !in log {
        log := log[key := []];
      }
      log := log[key := log[key] + [args]];
      invocations := Some(log);
      assert log == Recorded(old(invocations), key, args);
    }
  }

  /** A fresh fake whose second call is overridden answers the first call with the
      default and the second with the override: the override index counts the
      calls made before the current one. */
  method OverrideTargetsCallIndex(first: Healths, second: Healths, fallback: HealthRef, special: HealthRef)
    returns (r0: HealthRef, r1: HealthRef, calls: nat, arg0: Option<Healths>)
    ensures r0 == fallback && r1 == special
    ensures calls == 2 && arg0 == Some(first)
  {
    var fake := new FakeAggregationPolicy();
    fake.ApplyReturns(fallback);
    fake.ApplyReturnsOnCall(1, special);
    r0 := fake.Apply(first);
    r1 := fake.Apply(second);
    calls := fake.ApplyCallCount();
    arg0 := fake.ApplyArgsForCall(0);
  }

  /** A stub set after the returns were configured answers every call; configuring
      a return again clears it. */
  method StubOverridesConfiguredReturns(healths: Healths, stub: ApplyFn, fallback: HealthRef, special: HealthRef)
    returns (stubbed: HealthRef, restored: HealthRef, log: InvocationLog)
    ensures stubbed == stub(healths)
    ensures restored == special
    ensures log == map[ApplyName := [[healths], [healths]]]
  {
    var fake := new FakeAggregationPolicy();
    fake.ApplyReturns(fallback);
    fake.ApplyReturnsOnCall(0, special);
    fake.ApplyReturnsOnCall(1, special);
    fake.applyStub := Some(stub);
    stubbed := fake.Apply(healths);
    fake.ApplyReturns(fallback);
    fake.ApplyReturnsOnCall(1, special);
    restored := fake.Apply(healths);
    assert fake.Valid();
    assert ApplyRecords([healths, healths]) == [[healths], [healths]];
    log := fake.Invocations();
    assert fake.applyArgsForCall == [healths, healths];
    assert log.Keys == {ApplyName} && log[ApplyName] == [[healths], [healths]];
  }
}
