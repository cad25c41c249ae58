# Restbucks state-machine binding, modelled in Dafny

The Restbucks order service ties an aggregate's business methods to a
Camunda business process. Two classes of its `statemachine` package do
this.

- **`StateMachineConfiguration`** is the transition registry. It maps each
  aggregate type to an `AggregateStateMachine`. Each machine maps method
  names to transition names, and a fluent `withMethod(..).boundTo(..)`
  builder fills that map.
- **`StateMachineResultPostProcessor`** holds the dispatch rules.
  - It wraps repository results of registered types in a proxy.
  - The proxy's interceptor correlates the bound transition with the
    aggregate's process before the business method runs.
  - Its nested `CamundaStateMachine` builds the engine requests. A new
    order starts a process whose definition key is the lower-cased simple
    class name; the business key is the order's identifier.

The model has five modules, one file each.

- `Wrappers` (`wrappers.dfy`): `Option`, `Result` and `Outcome`. They stand
  for Java's `null` and thrown exceptions.
- `Runtime` (`runtime.dfy`): what the Java platform supplies.
  - A class token (`AggregateType`), given by its binary name
    (`Class.getName()`, such as `p.A$Inner`), which tells classes apart.
    Its simple name (`Inner`, what follows the last `.` or `$`) is derived
    from the binary name and gives the process key.
  - A reflective method (`JavaMethod`: its name, and whether it is an
    `Object` method by signature, such as `equals`, `hashCode` or
    `toString`, overrides included).
  - An aggregate object (class `Aggregate`, with a fixed runtime type).
  - `String.toLowerCase` on ASCII.
  - The exceptions the layer raises.
- `Configuration` (`configuration.dfy`): the registry. `StateMachineConfiguration`
  and `AggregateStateMachine` are classes whose `map` fields the methods
  update in place. `TransitionBuilder` is the builder.
- `Dispatch` (`dispatch.dfy`): the post-processor, the interceptor and the
  Camunda client.
  - The process engine and the intercepted method bodies form one ordered
    log of calls, kept in the `World` object. `Start` and `Correlate` are
    engine requests; `Proceed` means the target method's body ran. "Before
    the body runs" is therefore a fact about positions in the log.
  - The engine's answer is a function of the request and of every earlier
    call. A rejected request is still in the log, since it was sent.
  - The identifier lookup is a function from aggregate to `Option<string>`.
- `Scenarios` (`scenarios.dfy`): whole flows built only from the contracts
  above. An order is configured, created, loaded, and has methods called
  on its wrapper.

## Model

| member | source | states |
|---|---|---|
| `Configuration.StateMachineConfiguration.constructor` | src/main/java/org/springsource/restbucks/statemachine/StateMachineConfiguration.java:31 | The registry starts empty and satisfies its invariant: each machine is stored under the type it was created for. |
| `Configuration.StateMachineConfiguration.ForAggregate` | src/main/java/org/springsource/restbucks/statemachine/StateMachineConfiguration.java:33-35 | Get-or-create. For a registered type it returns the stored machine and changes nothing, so no second machine is allocated. Otherwise it stores a fresh machine for that type with no bindings and returns it; the other entries stay as they were. Afterwards the type is registered. |
| `Configuration.StateMachineConfiguration.HasConfigurationFor` | src/main/java/org/springsource/restbucks/statemachine/StateMachineConfiguration.java:37-39 | A read-only membership test. It holds exactly when some stored machine was created for the type. |
| `Configuration.StateMachineConfiguration.GetStateMachineFor` | src/main/java/org/springsource/restbucks/statemachine/StateMachineConfiguration.java:41-48 | It fails with `NotConfigured(type)` exactly when the type is unregistered. Otherwise it returns exactly the stored machine, which was created for that type. |
| `Configuration.StateMachineConfiguration.MachinesAreDistinct` | src/main/java/org/springsource/restbucks/statemachine/StateMachineConfiguration.java:31-35 | Distinct registered types own distinct machine objects. So binding on one type's machine cannot change another type's bindings. |
| `Configuration.AggregateStateMachine.constructor` | src/main/java/org/springsource/restbucks/statemachine/StateMachineConfiguration.java:50-54 | A new machine records the type it was created for and has an empty binding map. |
| `Configuration.AggregateStateMachine.GetTransitionFor` | src/main/java/org/springsource/restbucks/statemachine/StateMachineConfiguration.java:56-58 | It returns a transition exactly when the method's name is bound, and then the bound transition. An unbound name yields `None` (Java `null`), not an error. |
| `Configuration.AggregateStateMachine.LookupIgnoresAllButName` | src/main/java/org/springsource/restbucks/statemachine/StateMachineConfiguration.java:56-58 | Two methods with the same name get the same answer, whatever else differs. |
| `Configuration.AggregateStateMachine.WithMethod` | src/main/java/org/springsource/restbucks/statemachine/StateMachineConfiguration.java:60-62 | It returns a builder for this machine and the method's name. |
| `Configuration.AggregateStateMachine.WithMethodNamed` | src/main/java/org/springsource/restbucks/statemachine/StateMachineConfiguration.java:64-66 | It returns a builder for this machine and the given name. The builder is field-equal to the one `WithMethod` gives for a method of that name (same machine, same name). |
| `Configuration.TransitionBuilder.constructor` | src/main/java/org/springsource/restbucks/statemachine/StateMachineConfiguration.java:68-71 | A builder holds its enclosing machine and the method name. In Java this constructor is private and only `withMethod` calls it; Dafny has no private constructors, so here it is public. |
| `Configuration.TransitionBuilder.BoundTo` | src/main/java/org/springsource/restbucks/statemachine/StateMachineConfiguration.java:73-77 | The machine's map becomes the old map with `methodName` set to the transition, so the last write wins. Lookups of that name now give the transition, and every other name keeps its old answer. It returns the enclosing machine itself, so chained bindings land in one map. |
| `Runtime.LastSegment` | src/main/java/org/springsource/restbucks/statemachine/StateMachineResultPostProcessor.java:110 | `getSimpleName()` (`AggregateType.SimpleName`, which applies this to the binary name). The simple name read off a binary name: a suffix of it that holds no `.` or `$` and is either the whole name or preceded by one of them. These three facts fix the result uniquely. |
| `Runtime.LastSegmentOf` | src/main/java/org/springsource/restbucks/statemachine/StateMachineResultPostProcessor.java:110 | A qualifier that ends in `.` or `$`, followed by a segment without either, has that segment as its simple name, whatever the qualifier is. |
| `Runtime.LowerChar` | src/main/java/org/springsource/restbucks/statemachine/StateMachineResultPostProcessor.java:110 | The per-character step of lower-casing. An ASCII capital becomes its small letter (code + 32); every other character is kept. The result is never an ASCII capital. |
| `Runtime.ToLowerCase` | src/main/java/org/springsource/restbucks/statemachine/StateMachineResultPostProcessor.java:110 | The length is kept, and each character is replaced by its lower-case form (ASCII letters only). |
| `Runtime.LowerCaseIdempotent` | src/main/java/org/springsource/restbucks/statemachine/StateMachineResultPostProcessor.java:110 | Lower-casing an already lower-cased string changes nothing. |
| `Dispatch.ProcessKey` | src/main/java/org/springsource/restbucks/statemachine/StateMachineResultPostProcessor.java:110 | The definition key has the simple name's length and holds no upper-case letter. It is a fixed point of lower-casing, so a key is stable under lower-casing. |
| `Dispatch.ProcessKeyIgnoresQualifier` | src/main/java/org/springsource/restbucks/statemachine/StateMachineResultPostProcessor.java:110 | A class whose binary name is a qualifier ending in `.` or `$`, followed by a separator-free simple name, has that simple name lower-cased as its key, whatever the qualifier. So types that differ only in package or enclosing class, or only in the case of the simple name, share a key. |
| `Dispatch.EngineRequests` | src/main/java/org/springsource/restbucks/statemachine/StateMachineResultPostProcessor.java:85-99 | The engine part of a log holds only engine requests, each of them taken from the log. |
| `Dispatch.EngineRequestsAppend` | src/main/java/org/springsource/restbucks/statemachine/StateMachineResultPostProcessor.java:85-99 | The engine part of a concatenated log is the concatenation of the engine parts. |
| `Dispatch.EngineRequestsKeepsRequests` | src/main/java/org/springsource/restbucks/statemachine/StateMachineResultPostProcessor.java:85-99 | Every engine request in a log is in its engine part. |
| `Dispatch.EngineRequestsOfRequestsOnly` | src/main/java/org/springsource/restbucks/statemachine/StateMachineResultPostProcessor.java:85-99 | A log of engine requests only is its own engine part, whole and in order. |
| `Dispatch.EngineRequestsOfTargetCallsOnly` | src/main/java/org/springsource/restbucks/statemachine/StateMachineResultPostProcessor.java:85-99 | A log of target-method runs only has an empty engine part. |
| `Dispatch.World.Request` | src/main/java/org/springsource/restbucks/statemachine/StateMachineResultPostProcessor.java:119-122 | An engine request is appended to the log exactly once. The engine's verdict depends on the calls before it. |
| `Dispatch.World.Proceed` | src/main/java/org/springsource/restbucks/statemachine/StateMachineResultPostProcessor.java:98 | The target body's run is logged, and its outcome is returned unchanged. |
| `Dispatch.CamundaStateMachine.constructor` | src/main/java/org/springsource/restbucks/statemachine/StateMachineResultPostProcessor.java:102-106 | The client holds the given engine and identifier lookup. |
| `Dispatch.CamundaStateMachine.GetIdentifier` | src/main/java/org/springsource/restbucks/statemachine/StateMachineResultPostProcessor.java:125-132 | It succeeds exactly when the lookup yields an identifier, and then returns that identifier. Otherwise it fails with `MissingIdentifier` for the aggregate's type. |
| `Dispatch.CamundaStateMachine.StartProcess` | src/main/java/org/springsource/restbucks/statemachine/StateMachineResultPostProcessor.java:108-113 | With an identifier, it appends exactly one `Start(processKey(type), id)`; it passes exactly when the engine accepts, and otherwise fails with `ProcessStartFailure`. Without an identifier, the log is unchanged and it fails with `MissingIdentifier`. |
| `Dispatch.CamundaStateMachine.ExecuteStateTransition` | src/main/java/org/springsource/restbucks/statemachine/StateMachineResultPostProcessor.java:115-123 | The identifier is resolved first. Without one, the log is unchanged and it fails with `MissingIdentifier`. Otherwise it appends exactly one `Correlate(transition, id)` and passes exactly when the engine accepts; a refusal is `TransitionDeliveryFailure`. |
| `Dispatch.StateTransitioningMethodInterceptor.constructor` | src/main/java/org/springsource/restbucks/statemachine/StateMachineResultPostProcessor.java:74-78 | The interceptor holds the given Camunda client and machine. `PostProcess` allocates it, as line 64 does. |
| `Dispatch.StateTransitioningMethodInterceptor.TransitionFor` | src/main/java/org/springsource/restbucks/statemachine/StateMachineResultPostProcessor.java:89-91 | An `Object` method by signature (`equals`, `hashCode`, `toString`, ..., overrides included) fires nothing, even when its name is bound. Any other method fires the transition its machine binds to its name, if there is one. |
| `Dispatch.StateTransitioningMethodInterceptor.Invoke` | src/main/java/org/springsource/restbucks/statemachine/StateMachineResultPostProcessor.java:85-99 | With no transition to fire, the body runs and its outcome is returned unchanged. With a transition, `Correlate(transition, id)` is logged before the body's `Proceed`. If there is no identifier, nothing is logged and the call fails with `MissingIdentifier`. If the engine refuses, the body does not run and the call fails with a separate `TransitionDeliveryFailure`. The engine part of the log grows by exactly that one correlation, or by nothing. |
| `Dispatch.StateMachineResultPostProcessor.PostProcess` | src/main/java/org/springsource/restbucks/statemachine/StateMachineResultPostProcessor.java:48-67 | `null` is returned as `null`. An instance of an unregistered runtime type is returned as itself. A registered instance comes back proxied, over that same instance, with an interceptor holding exactly its type's machine and the post-processor's Camunda client. No engine call is made. |
| `Dispatch.StateMachineResultPostProcessor.On` | src/main/java/org/springsource/restbucks/statemachine/StateMachineResultPostProcessor.java:69-72 | An `OrderCreated` event appends exactly one `Start` for the event's order, with the order's key and identifier. It passes exactly when the engine accepts; otherwise it fails with `ProcessStartFailure` for that key and identifier. Without an identifier it appends nothing and fails with `MissingIdentifier`. |
| `Dispatch.StateMachineResultPostProcessor.constructor` | src/main/java/org/springsource/restbucks/statemachine/StateMachineResultPostProcessor.java:37-41 | The post-processor holds the given Camunda client and configuration. |
| `Scenarios.ConfigureOrder` | src/main/java/org/springsource/restbucks/statemachine/StateMachineConfiguration.java:33-77 | A chain of two bindings on the one `Order` machine leaves the registry with exactly that machine, holding both bindings. |
| `Scenarios.OrderProcessKey` | src/main/java/org/springsource/restbucks/statemachine/StateMachineResultPostProcessor.java:110 | The key of a class `<package>.Order` is `order`, for every package. |
| `Scenarios.NestedTypesShareProcessKey` | src/main/java/org/springsource/restbucks/statemachine/StateMachineConfiguration.java:33-35 | `ForAggregate` on `p.A$Inner` and then on `p.B$Inner` registers two different keys, each with its own machine object. Both keys have the process key `inner` (StateMachineResultPostProcessor.java:110), so both types would start the same process definition. |
| `Scenarios.OrderPaidFlow` | src/main/java/org/springsource/restbucks/statemachine/StateMachineResultPostProcessor.java:48-99 | Take order `7` with `markPaid` bound to `order-paid`. Creating it logs `Start("order", "7")`. Calling `markPaid` through the wrapper logs `Correlate("order-paid", "7")` and then the run of that same order's body, and returns the body's result. A bound name called as an `Object` method logs only its body. |
| `Scenarios.CallPaidOrder` | src/main/java/org/springsource/restbucks/statemachine/StateMachineResultPostProcessor.java:48-99 | Take a registered order with identifier `7`, where `markPaid` is bound and `toString` is bound but is an `Object` method. Wrapping it and calling both appends exactly `Correlate("order-paid", "7")` and then the two bodies, and `markPaid`'s result comes back. |
| `Scenarios.MissingIdentifierFlow` | src/main/java/org/springsource/restbucks/statemachine/StateMachineResultPostProcessor.java:48-132 | A bound call on an order without an identifier fails with `MissingIdentifier` and logs nothing. An instance of an unconfigured type comes back unwrapped. |

## Left out

- Spring AOP's `ProxyFactory` and CGLIB subclassing. The proxy is the value `Proxied(target, interceptor)`. A call on it is `interceptor.Invoke` with that target.
- Wrapping an instance twice is not modelled. In the code, a proxy's CGLIB class is not registered, so `postProcess` would hand a proxy back as is; that depends on the class-generation library.
- Camunda's `RuntimeService` internals: process definitions, running instances, waiting message subscriptions. The engine is the log plus a caller-supplied verdict function. Its exceptions become `ProcessStartFailure` and `TransitionDeliveryFailure`.
- `PersistentEntities` and `IdentifierAccessor`. Both the "not a persistent entity" exception and the "identifier is null" exception become `MissingIdentifier`. The lookup is fixed per instance, so an identifier assigned later (on first save) is not modelled. `String.valueOf` is folded into a lookup that already returns a string.
- Java reflection (`ReflectionUtils.isObjectMethod`, `Method.getName`). A method is the record `JavaMethod(name, isObjectMethod)`. The signature matching that `isObjectMethod` does is not modelled; the flag is an input.
- Class loaders. `AggregateType` equality is equality of binary name, so two same-named classes from different class loaders are merged: they share one machine and one binding map, where Java keeps two.
- `null` arguments. In Java, `boundTo(null)` stores `null`, so `getTransitionFor` returns `null` and the name is in effect unbound; `withMethod((String) null)` binds the `null` key. Transitions and method names here are strings that cannot be `null`, so neither case is modelled, and `BoundTo` always leaves its name bound.
- What a business method does to its aggregate. Its body is an abstract outcome (a returned value or a thrown exception).
- The Spring event bus (`@EventListener`) and concurrent access to the `HashMap`s. The model is single-threaded.
- `Runtime.LowerChar`, `Runtime.ToLowerCase`: lower-case ASCII letters only. It does not model the locale-dependent and Unicode cases of `String.toLowerCase`.
- `Runtime.LastSegment` follows `getSimpleName` for top-level and member classes only. An anonymous class (`p.A$1`, simple name empty) gets `1`, and a local class (`p.A$1Local`, simple name `Local`) gets `1Local`. A `$` written inside a class name is also read as a nesting boundary.
- The text of the `IllegalArgumentException` message (`Class.getName`). `NotConfigured` carries the type instead.
