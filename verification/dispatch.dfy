/** The dispatch rules: which repository results get wrapped, which calls on
    a wrapped aggregate fire a process transition, and the requests sent to
    the process engine (start a process, correlate a message). */
module Dispatch {
  import opened Wrappers
  import opened Runtime
  import opened Configuration

  /** One externally visible call, in the order it happened: a request to the
      process engine's runtime service, or the intercepted target method's
      own body running (`invocation.proceed()`). */
  datatype Call =
    | Start(processKey: string, businessKey: string)
    | Correlate(messageName: string, businessKey: string)
    | Proceed(target: Aggregate, methodName: string)

  /** The engine requests of a log, in order, without the target calls.
      The lemmas below pin it down: every request is kept, a log of requests
      only is kept whole and in order, a log of target calls only contributes
      nothing, and a mixed log is the concatenation of its parts. */
  function EngineRequests(log: seq<Call>): (r: seq<Call>)
    ensures |r| <= |log|
    ensures forall c :: c in r ==> c in log && !c.Proceed?
  {
    if log == [] then []
    else if log[0].Proceed? then EngineRequests(log[1..])
    else [log[0]] + EngineRequests(log[1..])
  }

  /** Filtering the engine requests out of a log distributes over appending. */
  lemma {:induction false} EngineRequestsAppend(a: seq<Call>, b: seq<Call>)
    ensures EngineRequests(a + b) == EngineRequests(a) + EngineRequests(b)
  {
    if a == [] {
      assert a + b == b;
    } else {
      assert (a + b)[0] == a[0] && (a + b)[1..] == a[1..] + b;
      EngineRequestsAppend(a[1..], b);
    }
  }

  /** No engine request is dropped. */
  lemma {:induction false} EngineRequestsKeepsRequests(log: seq<Call>, c: Call)
    requires c in log && !c.Proceed?
    ensures c in EngineRequests(log)
  {
    if log[0] != c {
      EngineRequestsKeepsRequests(log[1..], c);
    }
  }

  /** A log made only of engine requests is its own engine part. */
  lemma {:induction false} EngineRequestsOfRequestsOnly(log: seq<Call>)
    requires forall c :: c in log ==> !c.Proceed?
    ensures EngineRequests(log) == log
  {
    if log != [] {
      EngineRequestsOfRequestsOnly(log[1..]);
    }
  }

  /** A log made only of target calls has no engine part. */
  lemma {:induction false} EngineRequestsOfTargetCallsOnly(log: seq<Call>)
    requires forall c :: c in log ==> c.Proceed?
    ensures EngineRequests(log) == []
  {
    if log != [] {
      EngineRequestsOfTargetCallsOnly(log[1..]);
    }
  }

  /** What an intercepted business method does when its body runs. */
  datatype TargetOutcome<R> = Returns(value: R) | Throws(exception: string)

  /** An intercepted call: the target object, the method called, and what its
      body would do when the interceptor lets it proceed. */
  datatype MethodInvocation<R> = MethodInvocation(target: Aggregate, calledMethod: JavaMethod, body: TargetOutcome<R>)

  /** The outside world of the dispatcher: the process engine's runtime
      service and the aggregates' own method bodies, observed as one log.
      The engine's verdict on a request may depend on every earlier call. */
  class World {
    var log: seq<Call>
    const accepts: (seq<Call>, Call) -> bool

    constructor (accepts: (seq<Call>, Call) -> bool)
      ensures log == [] && this.accepts == accepts
    {
      log := [];
      this.accepts := accepts;
    }

    /** Sends one request to the engine; it is logged whether or not the
        engine accepts it. */
    method Request(c: Call) returns (accepted: bool)
      requires !c.Proceed?
      modifies this
      ensures log == old(log) + [c]
      ensures accepted == accepts(old(log), c)
    {
      accepted := accepts(log, c);
      log := log + [c];
    }

    /** Runs the target method's body and hands back what it did. */
    method Proceed<R>(invocation: MethodInvocation<R>) returns (r: TargetOutcome<R>)
      modifies this
      ensures log == old(log) + [Call.Proceed(invocation.target, invocation.calledMethod.name)]
      ensures r == invocation.body
    {
      log := log + [Call.Proceed(invocation.target, invocation.calledMethod.name)];
      r := invocation.body;
    }
  }

  /** The process definition key for an aggregate type: its simple class
      name, lower-cased. Package and enclosing classes do not take part. */
  function ProcessKey(aggregateType: AggregateType): (key: string)
    ensures |key| == |aggregateType.SimpleName()|
    ensures forall i :: 0 <= i < |key| ==> !IsUpper(key[i])
    ensures ToLowerCase(key) == key
  {
    LowerCaseIdempotent(aggregateType.SimpleName());
    ToLowerCase(aggregateType.SimpleName())
  }

  /** The key of a class is its own simple name lower-cased, whatever its
      package or enclosing classes: types that differ only there, or only in
      the case of their simple name, share one process definition key. */
  lemma ProcessKeyIgnoresQualifier(t: AggregateType, qualifier: string, simpleName: string)
    requires t.name == qualifier + simpleName
    requires qualifier == [] || IsSeparator(qualifier[|qualifier| - 1])
    requires forall i :: 0 <= i < |simpleName| ==> !IsSeparator(simpleName[i])
    ensures ProcessKey(t) == ToLowerCase(simpleName)
  {
    LastSegmentOf(qualifier, simpleName);
  }

  /** The Camunda client: builds process-start and message-correlation
      requests keyed by the aggregate's identifier. */
  class CamundaStateMachine {
    const world: World
    const entities: Aggregate -> Option<string>

    constructor (world: World, entities: Aggregate -> Option<string>)
      ensures this.world == world && this.entities == entities
    {
      this.world := world;
      this.entities := entities;
    }

    /** The aggregate's required identifier, rendered as a string; an
        aggregate without one fails with `MissingIdentifier`. */
    function GetIdentifier(aggregate: Aggregate): (r: Result<string, StateMachineError>)
      ensures r.Success? <==> entities(aggregate).Some?
      ensures r.Success? ==> r.value == entities(aggregate).value
      ensures r.Failure? ==> r.error == MissingIdentifier(aggregate.runtimeType)
    {
      match entities(aggregate)
      case Some(id) => Success(id)
      case None => Failure(MissingIdentifier(aggregate.runtimeType))
    }

    /** Starts a process instance of the aggregate type's definition with the
        aggregate's identifier as business key. Without an identifier the
        engine is not called at all. */
    method StartProcess(aggregate: Aggregate) returns (r: Outcome<StateMachineError>)
      modifies world
      ensures entities(aggregate).None? ==>
                world.log == old(world.log) && r == Fail(MissingIdentifier(aggregate.runtimeType))
      ensures entities(aggregate).Some? ==>
                var request := Start(ProcessKey(aggregate.runtimeType), entities(aggregate).value);
                && world.log == old(world.log) + [request]
                && (r.Pass? <==> world.accepts(old(world.log), request))
                && (r.Fail? ==> r.error == ProcessStartFailure(request.processKey, request.businessKey))
    {
      var processId := ProcessKey(aggregate.runtimeType);
      var identifier := GetIdentifier(aggregate);
      if identifier.Failure? {
        return Fail(identifier.error);
      }
      var accepted := world.Request(Start(processId, identifier.value));
      r := if accepted then Pass else Fail(ProcessStartFailure(processId, identifier.value));
    }

    /** Correlates the message named `transition` with the process instance
        whose business key is the aggregate's identifier. The identifier is
        resolved first; without one the engine is not called at all. */
    method ExecuteStateTransition(aggregate: Aggregate, transition: string) returns (r: Outcome<StateMachineError>)
      modifies world
      ensures entities(aggregate).None? ==>
                world.log == old(world.log) && r == Fail(MissingIdentifier(aggregate.runtimeType))
      ensures entities(aggregate).Some? ==>
                var request := Correlate(transition, entities(aggregate).value);
                && world.log == old(world.log) + [request]
                && (r.Pass? <==> world.accepts(old(world.log), request))
                && (r.Fail? ==> r.error == TransitionDeliveryFailure(transition, request.businessKey))
    {
      var identifier := GetIdentifier(aggregate);
      if identifier.Failure? {
        return Fail(identifier.error);
      }
      var accepted := world.Request(Correlate(transition, identifier.value));
      r := if accepted then Pass else Fail(TransitionDeliveryFailure(transition, identifier.value));
    }
  }

  /** The advice attached to a wrapped aggregate: fires the bound transition,
      if any, before letting the call through. */
  class StateTransitioningMethodInterceptor {
    const stateMachine: CamundaStateMachine
    const metadata: AggregateStateMachine

    constructor (stateMachine: CamundaStateMachine, metadata: AggregateStateMachine)
      ensures this.stateMachine == stateMachine && this.metadata == metadata
    {
      this.stateMachine := stateMachine;
      this.metadata := metadata;
    }

    /** The transition a call of `m` fires: none for an `Object` method
        (matched by signature, overrides included), even when its name is
        bound; otherwise the bound one. */
    function TransitionFor(m: JavaMethod): (r: Option<string>)
      reads metadata
      ensures m.isObjectMethod ==> r == None
      ensures !m.isObjectMethod ==> r == metadata.GetTransitionFor(m)
    {
      if m.isObjectMethod then None else metadata.GetTransitionFor(m)
    }

    /** Handles one call on the wrapped aggregate. A fired transition is
        correlated before the target body runs; a failed dispatch propagates
        as its own error and the body does not run; otherwise the body runs
        and its outcome is returned unchanged. */
    method Invoke<R>(invocation: MethodInvocation<R>) returns (r: Result<TargetOutcome<R>, StateMachineError>)
      modifies stateMachine.world
      ensures r.Success? ==> r.value == invocation.body
      ensures TransitionFor(invocation.calledMethod).None? ==>
                && stateMachine.world.log == old(stateMachine.world.log) + [Call.Proceed(invocation.target, invocation.calledMethod.name)]
                && r == Success(invocation.body)
      ensures TransitionFor(invocation.calledMethod).Some? && stateMachine.entities(invocation.target).None? ==>
                && stateMachine.world.log == old(stateMachine.world.log)
                && r == Failure(MissingIdentifier(invocation.target.runtimeType))
      ensures TransitionFor(invocation.calledMethod).Some? && stateMachine.entities(invocation.target).Some? ==>
                var request := Correlate(TransitionFor(invocation.calledMethod).value, stateMachine.entities(invocation.target).value);
                if stateMachine.world.accepts(old(stateMachine.world.log), request) then
                  && stateMachine.world.log == old(stateMachine.world.log) + [request, Call.Proceed(invocation.target, invocation.calledMethod.name)]
                  && r == Success(invocation.body)
                else
                  && stateMachine.world.log == old(stateMachine.world.log) + [request]
                  && r == Failure(TransitionDeliveryFailure(request.messageName, request.businessKey))
      ensures EngineRequests(stateMachine.world.log) == EngineRequests(old(stateMachine.world.log)) +
                (if TransitionFor(invocation.calledMethod).Some? && stateMachine.entities(invocation.target).Some?
                 then [Correlate(TransitionFor(invocation.calledMethod).value, stateMachine.entities(invocation.target).value)]
                 else [])
    {
      var target := invocation.target;
      var world := stateMachine.world;
      ghost var before := world.log;
      ghost var proceeded := Call.Proceed(target, invocation.calledMethod.name);
      var transition := TransitionFor(invocation.calledMethod);
      if transition.Some? {
        var dispatched := stateMachine.ExecuteStateTransition(target, transition.value);
        if dispatched.Fail? {
          if stateMachine.entities(target).Some? {
            ghost var request := Correlate(transition.value, stateMachine.entities(target).value);
            EngineRequestsAppend(before, [request]);
          }
          return Failure(dispatched.error);
        }
        ghost var request := Correlate(transition.value, stateMachine.entities(target).value);
        var outcome := world.Proceed(invocation);
        assert world.log == before + [request, proceeded];
        EngineRequestsAppend(before, [request, proceeded]);
        return Success(outcome);
      }
      var outcome := world.Proceed(invocation);
      EngineRequestsAppend(before, [proceeded]);
      r := Success(outcome);
    }
  }

  /** What `postProcess` hands back: the source itself, or a proxy whose
      calls go through an interceptor to `target`. */
  datatype PostProcessed =
    | Unwrapped(source: Aggregate?)
    | Proxied(target: Aggregate, interceptor: StateTransitioningMethodInterceptor)

  /** The event raised when a new order has been persisted. */
  datatype OrderCreated = OrderCreated(order: Aggregate)

  /** The repository result post-processor. */
  class StateMachineResultPostProcessor {
    const stateMachine: CamundaStateMachine
    const configuration: StateMachineConfiguration

    constructor (stateMachine: CamundaStateMachine, configuration: StateMachineConfiguration)
      ensures this.stateMachine == stateMachine && this.configuration == configuration
    {
      this.stateMachine := stateMachine;
      this.configuration := configuration;
    }

    /** Passes `null` and instances of unregistered runtime types through
        untouched; wraps every other instance with an interceptor holding
        exactly its type's machine. No engine call is made either way. */
    method PostProcess(source: Aggregate?) returns (r: PostProcessed)
      requires configuration.Valid()
      ensures source == null ==> r == Unwrapped(null)
      ensures source != null && !configuration.HasConfigurationFor(source.runtimeType) ==> r == Unwrapped(source)
      ensures source != null && configuration.HasConfigurationFor(source.runtimeType) ==>
                && r.Proxied?
                && r.target == source
                && r.interceptor.metadata == configuration.machines[source.runtimeType]
                && r.interceptor.metadata.aggregateType == source.runtimeType
                && r.interceptor.stateMachine == stateMachine
    {
      if source == null {
        return Unwrapped(source);
      }
      var aggregateType := source.runtimeType;
      if !configuration.HasConfigurationFor(aggregateType) {
        return Unwrapped(source);
      }
      var metadata := configuration.GetStateMachineFor(aggregateType).value;
      var interceptor := new StateTransitioningMethodInterceptor(stateMachine, metadata);
      r := Proxied(source, interceptor);
    }

    /** A created order starts exactly one process, for that order. */
    method On(event: OrderCreated) returns (r: Outcome<StateMachineError>)
      modifies stateMachine.world
      ensures stateMachine.entities(event.order).None? ==>
                stateMachine.world.log == old(stateMachine.world.log) &&
                r == Fail(MissingIdentifier(event.order.runtimeType))
      ensures stateMachine.entities(event.order).Some? ==>
                var request := Start(ProcessKey(event.order.runtimeType), stateMachine.entities(event.order).value);
                && stateMachine.world.log == old(stateMachine.world.log) + [request]
                && (r.Pass? <==> stateMachine.world.accepts(old(stateMachine.world.log), request))
                && (r.Fail? ==> r.error == ProcessStartFailure(request.processKey, request.businessKey))
    {
      r := stateMachine.StartProcess(event.order);
    }
  }
}
