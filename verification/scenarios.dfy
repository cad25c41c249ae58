/** Whole-flow clients of the layer: an order type is configured, an order is
    created and loaded, and business methods are called on the wrapped
    instance. Each method states the engine traffic the flow produces. */
module Scenarios {
  import opened Wrappers
  import opened Runtime
  import opened Configuration
  import opened Dispatch

  /** `Order` binds `markPaid` to "order-paid". Creating order "7" starts one
      "order" process; calling `markPaid` through the wrapper correlates
      "order-paid" with business key "7" before the body runs, while a bound
      name called as an `Object` method only runs its body. */
  method OrderPaidFlow() returns (order: Aggregate, log: seq<Call>, paid: Result<TargetOutcome<bool>, StateMachineError>)
    ensures log == [Start("order", "7"), Correlate("order-paid", "7"),
                    Call.Proceed(order, "markPaid"), Call.Proceed(order, "toString")]
    ensures paid == Success(Returns(true))
  {
    var orderType := AggregateType("org.springsource.restbucks.order" + ".Order");
    var configuration, machine := ConfigureOrder(orderType);

    order := new Aggregate(orderType);
    var world := new World((history, request) => true);
    var stateMachine := new CamundaStateMachine(world, a => if a == order then Some("7") else None);
    var processor := new StateMachineResultPostProcessor(stateMachine, configuration);

    assert stateMachine.entities(order) == Some("7");
    OrderProcessKey(orderType, "org.springsource.restbucks.order");
    var started := processor.On(OrderCreated(order));
    assert world.log == [Start("order", "7")];

    paid := CallPaidOrder(processor, machine, order);
    log := world.log;
  }

  /** The second half of `OrderPaidFlow`: the loaded order is wrapped, then
      `markPaid` and `toString` are called on the wrapper. */
  method CallPaidOrder(processor: StateMachineResultPostProcessor, machine: AggregateStateMachine, order: Aggregate)
    returns (paid: Result<TargetOutcome<bool>, StateMachineError>)
    requires processor.configuration.Valid()
    requires order.runtimeType in processor.configuration.machines
    requires processor.configuration.machines[order.runtimeType] == machine
    requires machine.methodsToStateTransition == map["markPaid" := "order-paid", "toString" := "order-printed"]
    requires processor.stateMachine.entities(order) == Some("7")
    requires forall history, request :: processor.stateMachine.world.accepts(history, request)
    modifies processor.stateMachine.world
    ensures processor.stateMachine.world.log == old(processor.stateMachine.world.log) +
              [Correlate("order-paid", "7"), Call.Proceed(order, "markPaid"), Call.Proceed(order, "toString")]
    ensures paid == Success(Returns(true))
  {
    var world := processor.stateMachine.world;
    var wrapped := processor.PostProcess(order);
    var interceptor := wrapped.interceptor;
    assert interceptor.TransitionFor(JavaMethod("markPaid", false)) == Some("order-paid");
    assert interceptor.TransitionFor(JavaMethod("toString", true)) == None;
    paid := interceptor.Invoke(MethodInvocation(order, JavaMethod("markPaid", false), Returns(true)));
    assert world.log == old(world.log) + [Correlate("order-paid", "7"), Call.Proceed(order, "markPaid")];
    var printed := interceptor.Invoke(MethodInvocation(order, JavaMethod("toString", true), Returns(false)));
  }

  /** The start-up configuration used by both flows: one machine, for
      `Order`, built by a chain of two bindings. */
  method ConfigureOrder(orderType: AggregateType) returns (configuration: StateMachineConfiguration, machine: AggregateStateMachine)
    ensures fresh(configuration) && fresh(machine)
    ensures configuration.Valid() && configuration.machines == map[orderType := machine]
    ensures machine.methodsToStateTransition == map["markPaid" := "order-paid", "toString" := "order-printed"]
  {
    configuration := new StateMachineConfiguration();
    machine := configuration.ForAggregate(orderType);
    var builder := machine.WithMethodNamed("markPaid");
    machine := builder.BoundTo("order-paid");
    builder := machine.WithMethodNamed("toString");
    machine := builder.BoundTo("order-printed");
  }

  /** The process definition key deployed for orders, in any package. */
  lemma OrderProcessKey(orderType: AggregateType, package: string)
    requires orderType.name == package + ".Order"
    ensures ProcessKey(orderType) == "order"
  {
    ProcessKeyIgnoresQualifier(orderType, package + ".", "Order");
  }

  /** Two member classes named `Inner`, nested in `p.A` and in `p.B`, are
      two registry keys with two machines, yet both start the process
      "inner": the process key forgets package and enclosing class. */
  method NestedTypesShareProcessKey() returns (configuration: StateMachineConfiguration, a: AggregateType, b: AggregateType)
    ensures configuration.Valid() && a in configuration.machines && b in configuration.machines
    ensures a != b && configuration.machines[a] != configuration.machines[b]
    ensures ProcessKey(a) == ProcessKey(b) == "inner"
  {
    a, b := AggregateType("p.A$" + "Inner"), AggregateType("p.B$" + "Inner");
    assert a.name[2] != b.name[2];
    configuration := new StateMachineConfiguration();
    var forA := configuration.ForAggregate(a);
    var forB := configuration.ForAggregate(b);
    ProcessKeyIgnoresQualifier(a, "p.A$", "Inner");
    ProcessKeyIgnoresQualifier(b, "p.B$", "Inner");
    assert ToLowerCase("Inner") == "inner";
  }

  /** A bound method called on an order that has no identifier fails with
      `MissingIdentifier`, sends nothing to the engine, and does not run;
      an instance of an unconfigured type is handed back unwrapped. */
  method MissingIdentifierFlow() returns (log: seq<Call>, paid: Result<TargetOutcome<bool>, StateMachineError>, other: PostProcessed)
    ensures log == []
    ensures paid.Failure? && paid.error.MissingIdentifier?
    ensures other.Unwrapped? && other.source != null && other.source.runtimeType.name == "org.springsource.restbucks.customer.Customer"
  {
    var orderType := AggregateType("org.springsource.restbucks.order" + ".Order");
    var configuration, machine := ConfigureOrder(orderType);

    var order := new Aggregate(orderType);
    var customerType := AggregateType("org.springsource.restbucks.customer.Customer");
    assert customerType.name[27] != orderType.name[27];
    var customer := new Aggregate(customerType);
    var world := new World((history, request) => true);
    var stateMachine := new CamundaStateMachine(world, a => None);
    var processor := new StateMachineResultPostProcessor(stateMachine, configuration);

    var wrapped := processor.PostProcess(order);
    var interceptor := wrapped.interceptor;
    assert interceptor.metadata == machine && interceptor.stateMachine == stateMachine;
    assert interceptor.TransitionFor(JavaMethod("markPaid", false)) == Some("order-paid");
    paid := interceptor.Invoke(MethodInvocation(order, JavaMethod("markPaid", false), Returns(true)));
    assert world.log == [];
    other := processor.PostProcess(customer);
    log := world.log;
  }
}
