# MassTransit: compensation step selection and bus configuration registry

This project is a Dafny model of two pieces of MassTransit, a .NET service bus.

- **Compensation host** (`courier.dfy`, module `Courier`). A compensating routing slip
  arrives. The host rejects a slip with no compensate logs. It selects the most recently
  pushed compensate log, so compensation runs last-in-first-out. It then looks up the single
  activity log with the same execution id, and fails with a `RoutingSlipException` if there
  is none. The terminal actions (`Compensated`, `Compensated(values)`,
  `Compensated(variables)`, `Failed`, `Failed(exception)`) build result values that carry
  the selected entry and the slip. The source code is pure here: all fields are read-only.
  So the host is a datatype, its constructor is the function `Create` returning a
  `Result`, and the properties are lemmas over sequences.
- **Bus builder** (`builders.dfy`, module `Builders`). This is a configuration registry
  that can be written until it is frozen. It holds:
  - deserializer factories keyed by media type, compared ignoring case, where the first
    registration wins;
  - a serializer factory that can be replaced until the lazy serializer is created;
  - receive endpoints, where a duplicate key is an error;
  - consume pipe construction, which applies specifications in a fixed order.

  It is a `class`. Its maps and its serializer factory are fields that the methods
  reassign. Each `Lazy<T>` is a `Lazy` field with three states: not created, created, or
  faulted. Faulted means the factory threw, and the lazy caches and rethrows that
  exception; only the created state counts as `IsValueCreated`.
  An object invariant `Valid()` states that each lazily created value agrees with the
  configuration it was built from, because that configuration is frozen afterwards.

Shared files: `wrappers.dfy` holds `Option`, which stands for a nullable reference, plus
`Result` and `Outcome`, which stand for a thrown exception. `exceptions.dfy` holds the
exception kinds and their messages.

Modelling conventions:
- A Guid is modelled by its canonical text. So the integrity error's message is the
  source's prefix followed by the execution id.
- `OrdinalIgnoreCase` is modelled by `Fold`, which upper-cases ASCII letters. The
  dictionary is keyed by the folded media type and keeps the spelling registered first.
- Factories, serializers, endpoints and consume pipe specifications are opaque values.
- The three default media types are `application/vnd.masstransit+json`, `+bson` and
  `+xml`. They are the content types of the JSON, BSON and XML serializer classes, which
  are not part of this model.

Two details of the code that the model keeps:
- The integrity check has two failure modes. With no matching activity log, the host
  throws `RoutingSlipException`. Because the code uses `SingleOrDefault`, two or more
  matches make .NET throw `InvalidOperationException`. `Create` models both.
- The `ArgumentException` message for an empty slip speaks of "activity log", although the
  check is on the compensate logs. The model keeps the message as written.

## Model

| member | source | states |
|---|---|---|
| `Courier.Matching` | src/MassTransit/Courier/Hosts/HostCompensation.cs:53 | the result holds exactly the activity logs whose execution id equals the one searched for |
| `Courier.SingleOrDefault` | src/MassTransit/Courier/Hosts/HostCompensation.cs:53 | the search yields the default exactly when no activity log matches, and the one log exactly when it alone matches; two or more matches are an error |
| `Courier.Create` | src/MassTransit/Courier/Hosts/HostCompensation.cs:39-61 | no compensate logs gives an argument error; otherwise the last compensate log is selected; no matching activity log gives a routing slip error naming the execution id; two or more give an invalid-operation error; construction succeeds exactly when one activity log matches, and the host then holds that log, the selected entry, the unchanged slip and the decoded log data |
| `Courier.CreatedAccessors` | src/MassTransit/Courier/Hosts/HostCompensation.cs:124-157 | after construction, the tracking number is the slip's own; the activity tracking number is the selected entry's execution id; the activity name is the name logged for that execution, and every log with that id has that name |
| `Courier.CompensationOrderIsReversed` | src/MassTransit/Courier/Hosts/HostCompensation.cs:51 | when each hop drops the entry it compensated, the hops select the compensate logs in exactly the reverse of the order they were pushed |
| `Courier.WellFormedSlipCompensates` | src/MassTransit/Courier/Hosts/HostCompensation.cs:53-58 | on a slip where every compensate log matches exactly one activity log, construction always succeeds, and the slip forwarded after this hop keeps that property |
| `Courier.CompensatedCarriesEntry` | src/MassTransit/Courier/Hosts/HostCompensation.cs:159-179 | all three compensated results carry this host, its selected entry and its slip; a null values object or variables dictionary is rejected with an argument-null error naming the parameter; otherwise the given variables are carried |
| `Courier.FailedCarriesException` | src/MassTransit/Courier/Hosts/HostCompensation.cs:181-191 | both failed results carry this host, its selected entry and its slip; without an argument the exception is a routing slip exception saying the compensation failed; with one it is that exception unchanged |
| `Builders.FoldDecidesEquality` | src/MassTransit/Configuration/Builders/BusBuilder.cs:45 | two media types share a dictionary key exactly when they are equal ignoring case, position by position |
| `Builders.Register` | src/MassTransit/Configuration/Builders/BusBuilder.cs:98-101 | a media type already present, ignoring case, leaves the dictionary unchanged; otherwise a lookup of it then finds the new factory; lookups of other media types are unaffected; exactly the folded key is added |
| `Builders.FirstRegistrationWins` | src/MassTransit/Configuration/Builders/BusBuilder.cs:98-101 | after a registration, a later one under any spelling equal to it ignoring case changes nothing, and lookups still find the first factory |
| `Builders.DefaultRegistrations` | src/MassTransit/Configuration/Builders/BusBuilder.cs:59-64 | the initial dictionary finds the JSON, BSON and XML factories under their media types in any case; registering any of those again changes nothing; no other media type is registered |
| `Builders.Force` | src/MassTransit/Configuration/Builders/BusBuilder.cs:49-50 | the first read of a lazy value returns the factory's outcome; afterwards the lazy holds the value or the exception, and every read returns the cached value or rethrows the cached exception; it counts as created exactly when the factory succeeded |
| `Builders.ForceCachesOutcome` | src/MassTransit/Configuration/Builders/BusBuilder.cs:49-50 | a lazy value's factory runs at most once: a second read returns the first read's outcome, whatever the factory would now produce |
| `Builders.BusBuilder.constructor` | src/MassTransit/Configuration/Builders/BusBuilder.cs:42-65 | a fresh builder has the default dictionary, no receive endpoints, and the JSON serializer factory, which produces a JSON serializer; neither lazy value has been read |
| `Builders.BusBuilder.AddMessageDeserializer` | src/MassTransit/Configuration/Builders/BusBuilder.cs:88-102 | a null content type or factory gives an argument-null error naming it; once the deserializer has been created the call gives a configuration error, while a faulted deserializer still lets it through; in every error case the dictionary is unchanged; otherwise the factory is registered unless the media type is present ignoring case |
| `Builders.BusBuilder.SetMessageSerializer` | src/MassTransit/Configuration/Builders/BusBuilder.cs:104-113 | a null factory gives an argument-null error; once the serializer has been created the call gives a configuration error and the factory is kept; otherwise the factory is replaced, even after a faulted read |
| `Builders.BusBuilder.GetMessageSerializer` | src/MassTransit/Configuration/Builders/BusBuilder.cs:127-130 | the first access invokes the current factory; every later access returns that same serializer, or rethrows the same exception; a serializer returned is always the current factory's product |
| `Builders.BusBuilder.GetMessageDeserializer` | src/MassTransit/Configuration/Builders/BusBuilder.cs:132-138 | the first access builds the deserializer from all registered factories, or fails with the construction's exception; every later access returns that same deserializer, or rethrows the same exception; a deserializer returned is always built from the current dictionary |
| `Builders.BusBuilder.AddReceiveEndpoint` | src/MassTransit/Configuration/Builders/BusBuilder.cs:140-149 | a null key gives an argument-null error; a key already present gives a configuration error naming it, and the map is unchanged; otherwise exactly that key is added with that endpoint, and all other entries are unchanged |
| `Builders.BusBuilder.CreateConsumePipe` | src/MassTransit/Configuration/Builders/BusBuilder.cs:115-125 | the pipe is built from the bus's own specification, followed by each given specification in array order, each exactly once |

## Left out

- Stopwatch and clock values (`StartTimestamp`, `ElapsedTime`): wall-clock readings with nothing to state about them.
- The `Publish` overloads, `GetSendEndpoint`, and the `Host` and `ConsumeContext` accessors of the compensation host: they forward to the transport's consume context, which is I/O, or return a constructor argument.
- Sanitizing the routing slip message: `Create` receives the already-sanitized slip.
- Deserializing the compensate log data, and reading an object's properties into a dictionary: these are the function parameters `readLog` and `asDictionary`. A failure inside them is not modelled.
- `Courier.FailedCarriesException`: the exception is never null in the model; the source passes a null exception through unchanged.
- A null element inside the activity log list is not modelled.
- `Build()`, `PreBuild`, `ConnectBusObserver`, the observer notifications, the hosts array, and the lazily created input address, consume pipe and send/publish providers: these are asynchronous observer calls, or abstract members whose implementations are not part of this model.
- Invoking each deserializer factory with the send and publish endpoint providers: the created deserializer is identified by the registrations it was built from. Whether that invocation throws is the parameter `construction` of `GetMessageDeserializer`; which factory or provider throws, and the order in which the dictionary enumerates the factories, are not modelled.
- What a consume pipe specification does to the pipe builder: the builder records the specifications applied to it, in order. A null specifications array, a null element in it, and a null bus specification are not modelled; in the source each raises a `NullReferenceException` when applied.
- `Fold`: only ASCII letters are case-folded. Ordinal case-insensitive comparison of non-ASCII characters is not modelled.
- `Builders.BusBuilder.AddReceiveEndpoint`: the endpoint value is never null in the model; the source accepts a null endpoint without a check.
- Thread safety of `Lazy<T>` and of the dictionaries: the model is sequential.
