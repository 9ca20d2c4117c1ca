/** `initializeMsalInstance`: a process-wide, create-on-first-call memo of the identity
    client's `initialize()` promise. The guard is one module-level variable, not one per
    instance, and once set it is never cleared, so a failed setup is never retried.
    Calls are taken one after another (the check and the assignment do not suspend). */
module InitializeMsalInstance {
  import opened Wrappers
  import opened Js

  /** An identity-client instance, by identity. */
  datatype Instance = Instance(id: nat)

  /** The module-level promise, and the instances whose `initialize()` has been invoked. */
  datatype GateState = GateState(setup: Option<Settled<()>>, initialized: seq<Instance>)

  /** How the shared setup settles, seen by a call made with `instance`:
      `msalInstanceSetupPromise.then(() => msalInstance)`. */
  function Settle(setup: Settled<()>, instance: Instance): (r: Settled<Instance>)
    ensures setup.Fulfilled? <==> r == Fulfilled(instance)
    ensures setup.Rejected? ==> r == Rejected(setup.reason)
  {
    match setup
    case Fulfilled(_) => Fulfilled(instance)
    case Rejected(reason) => Rejected(reason)
  }

  /** One call, given how `initialize()` of each instance would settle. */
  function Call(st: GateState, instance: Instance, initialize: Instance -> Settled<()>): (r: (GateState, Settled<Instance>))
    ensures st.setup.Some? ==> r.0 == st
    ensures st.setup.None? ==> r.0 == GateState(Some(initialize(instance)), st.initialized + [instance])
    ensures r.0.setup.Some? && r.1 == Settle(r.0.setup.value, instance)
  {
    var st' := if st.setup.None? then GateState(Some(initialize(instance)), st.initialized + [instance]) else st;
    (st', Settle(st'.setup.value, instance))
  }

  /** A sequence of calls, one after another: the final state and each call's outcome. */
  function Calls(st: GateState, instances: seq<Instance>, initialize: Instance -> Settled<()>): (r: (GateState, seq<Settled<Instance>>))
    ensures |r.1| == |instances|
    decreases |instances|
  {
    if instances == [] then (st, [])
    else
      var (st', first) := Call(st, instances[0], initialize);
      var (final, rest) := Calls(st', instances[1..], initialize);
      (final, [first] + rest)
  }

  /** Once the setup exists, no call replaces it or invokes `initialize()` again, and
      every call yields its own instance exactly when that one setup succeeded. */
  lemma {:induction false} CallsAfterSetup(st: GateState, instances: seq<Instance>, initialize: Instance -> Settled<()>)
    requires st.setup.Some?
    ensures Calls(st, instances, initialize).0 == st
    ensures forall i :: 0 <= i < |instances| ==>
      Calls(st, instances, initialize).1[i] == Settle(st.setup.value, instances[i])
    decreases |instances|
  {
    if instances != [] {
      CallsAfterSetup(st, instances[1..], initialize);
      var rest := Calls(st, instances[1..], initialize).1;
      assert Calls(st, instances, initialize).1 == [Settle(st.setup.value, instances[0])] + rest;
    }
  }

  /** Over any sequence of calls from the initial state, `initialize()` runs at most once,
      for the instance of the first call only; every call observes that one outcome. */
  lemma {:induction false} InitializeAtMostOnce(instances: seq<Instance>, initialize: Instance -> Settled<()>)
    ensures var final, results := Calls(GateState(None, []), instances, initialize).0,
                                  Calls(GateState(None, []), instances, initialize).1;
      && |final.initialized| <= 1
      && (instances == [] ==> final == GateState(None, []))
      && (instances != [] ==>
            && final == GateState(Some(initialize(instances[0])), [instances[0]])
            && forall i :: 0 <= i < |instances| ==> results[i] == Settle(initialize(instances[0]), instances[i]))
  {
    if instances != [] {
      var st' := GateState(Some(initialize(instances[0])), [instances[0]]);
      assert [] + [instances[0]] == [instances[0]];
      assert Call(GateState(None, []), instances[0], initialize).0 == st';
      CallsAfterSetup(st', instances[1..], initialize);
      var rest := Calls(st', instances[1..], initialize).1;
      assert Calls(GateState(None, []), instances, initialize).1 == [Settle(initialize(instances[0]), instances[0])] + rest;
    }
  }

  /** The guard is global: a later call initializes nothing, so an instance other than
      the first one is never initialized, and a failed first setup fails that call too. */
  lemma OtherInstanceNeverInitialized(instances: seq<Instance>, initialize: Instance -> Settled<()>, i: nat)
    requires 0 < i < |instances|
    ensures instances[i] in Calls(GateState(None, []), instances, initialize).0.initialized <==>
      instances[i] == instances[0]
    ensures initialize(instances[0]).Rejected? ==> Calls(GateState(None, []), instances, initialize).1[i].Rejected?
  {
    InitializeAtMostOnce(instances, initialize);
  }

  /** The module holding `msalInstanceSetupPromise`. */
  class Gate {
    var setupPromise: Option<Settled<()>>
    var initialized: seq<Instance>

    constructor ()
      ensures setupPromise == None && initialized == []
    {
      setupPromise, initialized := None, [];
    }

    function State(): GateState
      reads this
    {
      GateState(setupPromise, initialized)
    }

    /** `initializeMsalInstance(msalInstance)`, where `initialize` says how each
        instance's `initialize()` would settle. */
    method InitializeMsalInstance(msalInstance: Instance, initialize: Instance -> Settled<()>) returns (r: Settled<Instance>)
      modifies this
      ensures (State(), r) == Call(old(State()), msalInstance, initialize)
      ensures old(setupPromise).Some? ==> setupPromise == old(setupPromise) && initialized == old(initialized)
      ensures old(setupPromise).None? ==>
        setupPromise == Some(initialize(msalInstance)) && initialized == old(initialized) + [msalInstance]
      ensures r == Settle(setupPromise.value, msalInstance)
    {
      if setupPromise.None? {
        setupPromise := Some(initialize(msalInstance));
        initialized := initialized + [msalInstance];
      }
      r := Settle(setupPromise.value, msalInstance);
    }
  }
}
