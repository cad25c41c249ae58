/** The transition registry: per aggregate type, which business method fires
    which named process transition. Both levels are mutable dictionaries
    filled by a fluent builder at start-up and read at dispatch time. */
module Configuration {
  import opened Wrappers
  import opened Runtime

  /** One aggregate type's method-name to transition-name bindings. */
  class AggregateStateMachine {
    const aggregateType: AggregateType
    var methodsToStateTransition: map<string, string>

    /** A machine for `aggregateType` with no bindings yet. */
    constructor (aggregateType: AggregateType)
      ensures this.aggregateType == aggregateType
      ensures methodsToStateTransition == map[]
    {
      this.aggregateType := aggregateType;
      methodsToStateTransition := map[];
    }

    /** The transition bound to the method's name, or `None` (Java `null`)
        when the name is unbound; an unbound name is not an error. */
    function GetTransitionFor(m: JavaMethod): (r: Option<string>)
      reads this
      ensures r.Some? <==> m.name in methodsToStateTransition
      ensures r.Some? ==> r.value == methodsToStateTransition[m.name]
    {
      if m.name in methodsToStateTransition
      then Some(methodsToStateTransition[m.name])
      else None
    }

    /** Lookup is by name only: overloads, and the Object-method flag, do not matter. */
    lemma LookupIgnoresAllButName(m1: JavaMethod, m2: JavaMethod)
      requires m1.name == m2.name
      ensures GetTransitionFor(m1) == GetTransitionFor(m2)
    {
    }

    /** Starts a binding for the given method; nothing is recorded until `BoundTo`. */
    method WithMethod(m: JavaMethod) returns (builder: TransitionBuilder)
      ensures builder.machine == this && builder.methodName == m.name
    {
      builder := new TransitionBuilder(this, m.name);
    }

    /** Starts a binding for a method given by name; equivalent to `WithMethod`
        on any method of that name. */
    method WithMethodNamed(methodName: string) returns (builder: TransitionBuilder)
      ensures builder.machine == this && builder.methodName == methodName
    {
      builder := new TransitionBuilder(this, methodName);
    }
  }

  /** The pending half of a `withMethod(..).boundTo(..)` chain. */
  class TransitionBuilder {
    const machine: AggregateStateMachine
    const methodName: string

    constructor (machine: AggregateStateMachine, methodName: string)
      ensures this.machine == machine && this.methodName == methodName
    {
      this.machine := machine;
      this.methodName := methodName;
    }

    /** Records (or overwrites) the binding in the enclosing machine and
        returns that machine, so that chained bindings land in one map. */
    method BoundTo(transition: string) returns (r: AggregateStateMachine)
      modifies machine
      ensures r == machine
      ensures machine.methodsToStateTransition == old(machine.methodsToStateTransition)[methodName := transition]
      ensures machine.GetTransitionFor(JavaMethod(methodName, false)) == Some(transition)
      ensures forall m: JavaMethod :: m.name != methodName ==>
                machine.GetTransitionFor(m) == old(machine.GetTransitionFor(m))
    {
      machine.methodsToStateTransition := machine.methodsToStateTransition[methodName := transition];
      r := machine;
    }
  }

  /** The registry: aggregate type to its machine. */
  class StateMachineConfiguration {
    var machines: map<AggregateType, AggregateStateMachine>

    /** Every machine is stored under the type it was created for. */
    ghost predicate Valid()
      reads this
    {
      forall t :: t in machines ==> machines[t].aggregateType == t
    }

    constructor ()
      ensures Valid() && machines == map[]
    {
      machines := map[];
    }

    /** Get-or-create. An existing machine is returned as is, and nothing
        else changes; otherwise a fresh, empty machine for `aggregateType`
        is stored and returned, and the other entries stay as they were. */
    method ForAggregate(aggregateType: AggregateType) returns (m: AggregateStateMachine)
      requires Valid()
      modifies this
      ensures Valid()
      ensures HasConfigurationFor(aggregateType) && m == machines[aggregateType]
      ensures m.aggregateType == aggregateType
      ensures aggregateType in old(machines) ==>
                m == old(machines[aggregateType]) && machines == old(machines)
      ensures aggregateType !in old(machines) ==>
                fresh(m) && m.methodsToStateTransition == map[] &&
                machines == old(machines)[aggregateType := m]
    {
      if aggregateType in machines {
        m := machines[aggregateType];
      } else {
        m := new AggregateStateMachine(aggregateType);
        machines := machines[aggregateType := m];
      }
    }

    /** Membership test; as a function it cannot add an entry. A type is
        registered exactly when some stored machine was created for it. */
    predicate HasConfigurationFor(aggregateType: AggregateType): (r: bool)
      requires Valid()
      reads this
      ensures r <==> exists m :: m in machines.Values && m.aggregateType == aggregateType
    {
      aggregateType in machines
    }

    /** Strict lookup: fails with `NotConfigured` for an unregistered type,
        otherwise yields exactly the machine stored for it. */
    function GetStateMachineFor(aggregateType: AggregateType): (r: Result<AggregateStateMachine, StateMachineError>)
      requires Valid()
      reads this
      ensures r.Failure? <==> !HasConfigurationFor(aggregateType)
      ensures r.Failure? ==> r.error == NotConfigured(aggregateType)
      ensures r.Success? ==> r.value == machines[aggregateType] && r.value.aggregateType == aggregateType
    {
      if !HasConfigurationFor(aggregateType) then Failure(NotConfigured(aggregateType))
      else Success(machines[aggregateType])
    }

    /** Distinct types own distinct machines, so binding a method on one
        type's machine never changes another type's bindings. */
    lemma MachinesAreDistinct(t1: AggregateType, t2: AggregateType)
      requires Valid() && t1 in machines && t2 in machines && t1 != t2
      ensures machines[t1] != machines[t2]
    {
    }
  }
}
