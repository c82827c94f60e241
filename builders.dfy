/** The bus builder's configuration registry: deserializer factories keyed by media type,
    the serializer factory, receive endpoints, and consume pipe construction. Each
    lazily-created value is a `Lazy` field: not created, created, or faulted. */
module Builders {
  import opened Wrappers
  import opened Exceptions

  // ---------------------------------------------------------------------------
  // Ordinal case-insensitive comparison of media types

  /** Upper-cases an ASCII letter and leaves every other character alone. */
  function FoldChar(c: char): char
  {
    if 'a' <= c <= 'z' then (c as int - 32) as char else c
  }

  /** The key under which an ordinal case-insensitive dictionary files a string. */
  function Fold(s: string): string
  {
    seq(|s|, i requires 0 <= i < |s| => FoldChar(s[i]))
  }

  /** Ordinal case-insensitive equality, position by position. */
  predicate EqualsIgnoreCase(s: string, t: string)
  {
    |s| == |t| && forall i :: 0 <= i < |s| ==> FoldChar(s[i]) == FoldChar(t[i])
  }

  /** Two strings share a dictionary key exactly when they are equal ignoring case. */
  lemma FoldDecidesEquality(s: string, t: string)
    ensures Fold(s) == Fold(t) <==> EqualsIgnoreCase(s, t)
  {
    if EqualsIgnoreCase(s, t) {
      assert forall i :: 0 <= i < |s| ==> Fold(s)[i] == Fold(t)[i];
    }
    if Fold(s) == Fold(t) {
      assert |s| == |Fold(s)| && |t| == |Fold(t)|;
      assert forall i :: 0 <= i < |s| ==> FoldChar(s[i]) == Fold(s)[i] == Fold(t)[i] == FoldChar(t[i]);
    }
  }

  // ---------------------------------------------------------------------------
  // Opaque configuration values

  datatype ContentType = ContentType(mediaType: string)

  /** A deserializer factory, identified by what it builds. */
  datatype DeserializerFactory =
    | JsonDeserializerFactory
    | BsonDeserializerFactory
    | XmlDeserializerFactory
    | CustomDeserializerFactory(id: nat)

  /** A serializer factory; an embedder's factory may throw when invoked. */
  datatype SerializerFactory =
    | JsonSerializerFactory
    | CustomSerializerFactory(id: nat)
    | ThrowingSerializerFactory(exception: Exception)

  datatype MessageSerializer = JsonMessageSerializer | CustomMessageSerializer(id: nat)

  /** Invoking a serializer factory. */
  function Produce(factory: SerializerFactory): Result<MessageSerializer, Exception>
  {
    match factory
    case JsonSerializerFactory => Success(JsonMessageSerializer)
    case CustomSerializerFactory(id) => Success(CustomMessageSerializer(id))
    case ThrowingSerializerFactory(e) => Failure(e)
  }

  // ---------------------------------------------------------------------------
  // Lazy values

  /** A `Lazy<T>` built with a factory delegate: not yet forced, holding the value, or
      holding the exception the factory threw (which is cached and rethrown). Only
      `Created` counts as `IsValueCreated`. */
  datatype Lazy<T> = NotCreated | Created(value: T) | Faulted(exception: Exception)

  /** Reading `Value`: the first read runs the factory, whose outcome is `create`; every
      read after that returns the cached value or rethrows the cached exception. */
  function Force<T>(lazy: Lazy<T>, create: Result<T, Exception>): (r: (Lazy<T>, Result<T, Exception>))
    ensures lazy.NotCreated? ==> r.1 == create
    ensures lazy.Created? ==> r == (lazy, Success(lazy.value))
    ensures lazy.Faulted? ==> r == (lazy, Failure(lazy.exception))
    ensures !r.0.NotCreated? && (r.0.Created? <==> r.1.Success?)
    ensures r.0.Created? ==> r.1 == Success(r.0.value)
    ensures r.0.Faulted? ==> r.1 == Failure(r.0.exception)
  {
    match lazy
    case NotCreated =>
      (if create.Success? then Created(create.value) else Faulted(create.error), create)
    case Created(v) => (lazy, Success(v))
    case Faulted(e) => (lazy, Failure(e))
  }

  /** The factory runs at most once: after the first read, every later read gives the same
      outcome whatever the factory would now produce, and leaves the lazy as it was. */
  lemma ForceCachesOutcome<T>(lazy: Lazy<T>, first: Result<T, Exception>, later: Result<T, Exception>)
    ensures Force(Force(lazy, first).0, later) == Force(lazy, first)
  {
  }

  datatype ReceiveEndpoint = ReceiveEndpoint(id: nat)

  datatype ConsumePipeSpecification = ConsumePipeSpecification(id: nat)

  /** A built consume pipe, identified by the specifications applied to its builder, in order. */
  datatype ConsumePipe = ConsumePipe(specifications: seq<ConsumePipeSpecification>)

  const JsonContentType := "application/vnd.masstransit+json"
  const BsonContentType := "application/vnd.masstransit+bson"
  const XmlContentType := "application/vnd.masstransit+xml"

  const DeserializerCreatedMessage :=
    "The deserializer has already been created, no additional deserializers can be added."
  const SerializerCreatedMessage :=
    "The serializer has already been created, the serializer cannot be changed at this time."
  const DuplicateEndpointMessage := "A receive endpoint with the same key was already added: "

  // ---------------------------------------------------------------------------
  // The deserializer factory dictionary

  /** A dictionary entry: the media type as first registered, and its factory. */
  datatype Registration = Registration(mediaType: string, factory: DeserializerFactory)

  /** The dictionary, keyed by the folded media type. */
  type Registry = map<string, Registration>

  ghost predicate KeyedByFold(m: Registry)
  {
    forall k :: k in m ==> k == Fold(m[k].mediaType)
  }

  /** The factory a case-insensitive lookup of `mediaType` finds. */
  function Lookup(m: Registry, mediaType: string): Option<DeserializerFactory>
  {
    if Fold(mediaType) in m then Some(m[Fold(mediaType)].factory) else None
  }

  /** Adding a factory unless the media type, ignoring case, is already present. */
  function Register(m: Registry, mediaType: string, factory: DeserializerFactory): (r: Registry)
    ensures Lookup(m, mediaType).Some? ==> r == m
    ensures Lookup(m, mediaType).None? ==> Lookup(r, mediaType) == Some(factory)
    ensures forall t :: Fold(t) != Fold(mediaType) ==> Lookup(r, t) == Lookup(m, t)
    ensures r.Keys == m.Keys + {Fold(mediaType)}
    ensures KeyedByFold(m) ==> KeyedByFold(r)
  {
    if Fold(mediaType) in m then m
    else m[Fold(mediaType) := Registration(mediaType, factory)]
  }

  /** The first registration of a media type wins: a later one under any spelling that is
      equal ignoring case does not change what a lookup finds. */
  lemma FirstRegistrationWins(m: Registry, first: string, f1: DeserializerFactory,
                              later: string, f2: DeserializerFactory)
    requires EqualsIgnoreCase(first, later)
    ensures Register(Register(m, first, f1), later, f2) == Register(m, first, f1)
    ensures Lookup(Register(Register(m, first, f1), later, f2), later) ==
            if Lookup(m, first).Some? then Lookup(m, first) else Some(f1)
  {
    FoldDecidesEquality(first, later);
  }

  /** The dictionary a fresh bus builder starts with. */
  function DefaultRegistry(): Registry
  {
    Register(Register(Register(map[], JsonContentType, JsonDeserializerFactory),
      BsonContentType, BsonDeserializerFactory), XmlContentType, XmlDeserializerFactory)
  }

  lemma DefaultMediaTypesDiffer()
    ensures Fold(JsonContentType) != Fold(BsonContentType)
    ensures Fold(JsonContentType) != Fold(XmlContentType)
    ensures Fold(BsonContentType) != Fold(XmlContentType)
  {
    assert Fold(JsonContentType)[28] == 'J';
    assert Fold(BsonContentType)[28] == 'B';
    assert Fold(XmlContentType)[28] == 'X';
  }

  /** A fresh builder already knows JSON, BSON and XML, under any case; registering any of
      them again changes nothing, and nothing else is registered. */
  lemma DefaultRegistrations(t: string, f: DeserializerFactory)
    ensures KeyedByFold(DefaultRegistry())
    ensures EqualsIgnoreCase(t, JsonContentType) ==> Lookup(DefaultRegistry(), t) == Some(JsonDeserializerFactory)
    ensures EqualsIgnoreCase(t, BsonContentType) ==> Lookup(DefaultRegistry(), t) == Some(BsonDeserializerFactory)
    ensures EqualsIgnoreCase(t, XmlContentType) ==> Lookup(DefaultRegistry(), t) == Some(XmlDeserializerFactory)
    ensures (EqualsIgnoreCase(t, JsonContentType) || EqualsIgnoreCase(t, BsonContentType) ||
             EqualsIgnoreCase(t, XmlContentType)) ==> Register(DefaultRegistry(), t, f) == DefaultRegistry()
    ensures (!EqualsIgnoreCase(t, JsonContentType) && !EqualsIgnoreCase(t, BsonContentType) &&
             !EqualsIgnoreCase(t, XmlContentType)) ==> Lookup(DefaultRegistry(), t) == None
  {
    DefaultMediaTypesDiffer();
    FoldDecidesEquality(t, JsonContentType);
    FoldDecidesEquality(t, BsonContentType);
    FoldDecidesEquality(t, XmlContentType);
  }

  lemma MixedCaseJson()
    ensures EqualsIgnoreCase("Application/Vnd.MassTransit+JSON", JsonContentType)
  {
  }

  /** The deserializer built lazily from every registered factory. */
  datatype MessageDeserializer = SupportedMessageDeserializers(registrations: Registry)

  /** Building the deserializer from the registry, where `construction` is whether
      invoking the factories succeeded. */
  function BuildDeserializer(m: Registry, construction: Outcome<Exception>): Result<MessageDeserializer, Exception>
  {
    if construction.Fail? then Failure(construction.error) else Success(SupportedMessageDeserializers(m))
  }

  // ---------------------------------------------------------------------------
  // The builder

  /** Records the specifications applied to it; building yields a pipe made of them. */
  class ConsumePipeBuilder {
    var applied: seq<ConsumePipeSpecification>

    constructor ()
      ensures applied == []
    {
      applied := [];
    }

    method Apply(specification: ConsumePipeSpecification)
      modifies this
      ensures applied == old(applied) + [specification]
    {
      applied := applied + [specification];
    }

    method Build() returns (pipe: ConsumePipe)
      ensures pipe.specifications == applied
    {
      pipe := ConsumePipe(applied);
    }
  }

  class BusBuilder {
    const consumePipeSpecification: ConsumePipeSpecification
    var deserializerFactories: Registry
    var receiveEndpoints: map<string, ReceiveEndpoint>
    var serializerFactory: SerializerFactory
    var serializer: Lazy<MessageSerializer>
    var deserializer: Lazy<MessageDeserializer>

    /** Once created, each lazy value agrees with the configuration it was built from,
        because that configuration is frozen from then on. A faulted lazy freezes
        nothing. */
    ghost predicate Valid()
      reads this
    {
      && KeyedByFold(deserializerFactories)
      && (deserializer.Created? ==> deserializer.value == SupportedMessageDeserializers(deserializerFactories))
      && (serializer.Created? ==> Produce(serializerFactory) == Success(serializer.value))
    }

    constructor (consumePipeSpecification: ConsumePipeSpecification)
      ensures Valid()
      ensures this.consumePipeSpecification == consumePipeSpecification
      ensures deserializerFactories == DefaultRegistry()
      ensures receiveEndpoints == map[]
      ensures serializerFactory == JsonSerializerFactory && Produce(serializerFactory) == Success(JsonMessageSerializer)
      ensures serializer == NotCreated && deserializer == NotCreated
    {
      this.consumePipeSpecification := consumePipeSpecification;
      deserializerFactories := map[];
      receiveEndpoints := map[];
      serializerFactory := JsonSerializerFactory;
      serializer := NotCreated;
      deserializer := NotCreated;
      new;
      var added := AddMessageDeserializer(Some(ContentType(JsonContentType)), Some(JsonDeserializerFactory));
      added := AddMessageDeserializer(Some(ContentType(BsonContentType)), Some(BsonDeserializerFactory));
      added := AddMessageDeserializer(Some(ContentType(XmlContentType)), Some(XmlDeserializerFactory));
    }

    method AddMessageDeserializer(contentType: Option<ContentType>, factory: Option<DeserializerFactory>)
      returns (r: Outcome<Exception>)
      requires Valid()
      modifies this`deserializerFactories
      ensures Valid()
      ensures contentType.None? ==> r == Fail(ArgumentNullException("contentType"))
      ensures contentType.Some? && factory.None? ==> r == Fail(ArgumentNullException("deserializerFactory"))
      ensures contentType.Some? && factory.Some? && deserializer.Created? ==>
        r == Fail(ConfigurationException(DeserializerCreatedMessage))
      ensures r.Pass? <==> contentType.Some? && factory.Some? && !deserializer.Created?
      ensures deserializerFactories ==
        if r.Pass? then Register(old(deserializerFactories), contentType.value.mediaType, factory.value)
        else old(deserializerFactories)
    {
      if contentType.None? {
        return Fail(ArgumentNullException("contentType"));
      }
      if factory.None? {
        return Fail(ArgumentNullException("deserializerFactory"));
      }
      if deserializer.Created? {
        return Fail(ConfigurationException(DeserializerCreatedMessage));
      }
      if Fold(contentType.value.mediaType) in deserializerFactories {
        return Pass;
      }
      deserializerFactories := deserializerFactories[Fold(contentType.value.mediaType) :=
        Registration(contentType.value.mediaType, factory.value)];
      r := Pass;
    }

    method SetMessageSerializer(factory: Option<SerializerFactory>) returns (r: Outcome<Exception>)
      requires Valid()
      modifies this`serializerFactory
      ensures Valid()
      ensures factory.None? ==> r == Fail(ArgumentNullException("serializerFactory"))
      ensures factory.Some? && serializer.Created? ==> r == Fail(ConfigurationException(SerializerCreatedMessage))
      ensures r.Pass? <==> factory.Some? && !serializer.Created?
      ensures serializerFactory == if r.Pass? then factory.value else old(serializerFactory)
    {
      if factory.None? {
        return Fail(ArgumentNullException("serializerFactory"));
      }
      if serializer.Created? {
        return Fail(ConfigurationException(SerializerCreatedMessage));
      }
      serializerFactory := factory.value;
      r := Pass;
    }

    /** The `MessageSerializer` property: the first read invokes the current factory; every
        later read returns the same serializer, or rethrows the same exception. */
    method GetMessageSerializer() returns (r: Result<MessageSerializer, Exception>)
      requires Valid()
      modifies this`serializer
      ensures Valid()
      ensures (serializer, r) == Force(old(serializer), Produce(serializerFactory))
      ensures old(serializer).NotCreated? ==> r == Produce(serializerFactory)
      ensures old(serializer).Created? ==> r == Success(old(serializer).value)
      ensures old(serializer).Faulted? ==> r == Failure(old(serializer).exception)
      ensures r.Success? ==> r == Produce(serializerFactory)
    {
      var forced := Force(serializer, Produce(serializerFactory));
      serializer := forced.0;
      r := forced.1;
    }

    /** The `MessageDeserializer` property: the first read builds the deserializer from
        every registered factory, and from then on the dictionary accepts no more
        factories. `construction` is the outcome of invoking those factories with the send
        and publish endpoint providers, which are not part of this model; only the first
        read uses it. */
    method GetMessageDeserializer(construction: Outcome<Exception>) returns (r: Result<MessageDeserializer, Exception>)
      requires Valid()
      modifies this`deserializer
      ensures Valid()
      ensures (deserializer, r) == Force(old(deserializer), BuildDeserializer(deserializerFactories, construction))
      ensures old(deserializer).NotCreated? ==> r == BuildDeserializer(deserializerFactories, construction)
      ensures old(deserializer).Created? ==> r == Success(old(deserializer).value)
      ensures old(deserializer).Faulted? ==> r == Failure(old(deserializer).exception)
      ensures r.Success? ==> r.value == SupportedMessageDeserializers(deserializerFactories)
    {
      var forced := Force(deserializer, BuildDeserializer(deserializerFactories, construction));
      deserializer := forced.0;
      r := forced.1;
    }

    method AddReceiveEndpoint(endpointKey: Option<string>, receiveEndpoint: ReceiveEndpoint)
      returns (r: Outcome<Exception>)
      requires Valid()
      modifies this`receiveEndpoints
      ensures Valid()
      ensures endpointKey.None? ==> r == Fail(ArgumentNullException("endpointKey"))
      ensures endpointKey.Some? && endpointKey.value in old(receiveEndpoints) ==>
        r == Fail(ConfigurationException(DuplicateEndpointMessage + endpointKey.value))
      ensures r.Pass? <==> endpointKey.Some? && endpointKey.value !in old(receiveEndpoints)
      ensures r.Fail? ==> receiveEndpoints == old(receiveEndpoints)
      ensures r.Pass? ==>
        && receiveEndpoints.Keys == old(receiveEndpoints).Keys + {endpointKey.value}
        && receiveEndpoints[endpointKey.value] == receiveEndpoint
        && forall k :: k in old(receiveEndpoints) ==> receiveEndpoints[k] == old(receiveEndpoints)[k]
    {
      if endpointKey.None? {
        return Fail(ArgumentNullException("endpointKey"));
      }
      if endpointKey.value in receiveEndpoints {
        return Fail(ConfigurationException(DuplicateEndpointMessage + endpointKey.value));
      }
      receiveEndpoints := receiveEndpoints[endpointKey.value := receiveEndpoint];
      r := Pass;
    }

    /** Applies the bus's own specification, then each given one in order, then builds. */
    method CreateConsumePipe(specifications: array<ConsumePipeSpecification>) returns (pipe: ConsumePipe)
      ensures pipe.specifications == [consumePipeSpecification] + specifications[..]
    {
      var builder := new ConsumePipeBuilder();
      builder.Apply(consumePipeSpecification);
      for i := 0 to specifications.Length
        invariant builder.applied == [consumePipeSpecification] + specifications[..i]
      {
        builder.Apply(specifications[i]);
      }
      pipe := builder.Build();
    }
  }

  /** Registering deserializers as a client sees it: the defaults win under any case,
      and the dictionary freezes once the deserializer exists. */
  method DeserializerScenario()
  {
    var bus := new BusBuilder(ConsumePipeSpecification(0));
    MixedCaseJson();
    DefaultRegistrations("Application/Vnd.MassTransit+JSON", CustomDeserializerFactory(1));
    var r := bus.AddMessageDeserializer(Some(ContentType("Application/Vnd.MassTransit+JSON")),
                                        Some(CustomDeserializerFactory(1)));
    assert r.Pass? && bus.deserializerFactories == DefaultRegistry();
    r := bus.AddMessageDeserializer(None, Some(CustomDeserializerFactory(1)));
    assert r == Fail(ArgumentNullException("contentType"));
    var d := bus.GetMessageDeserializer(Pass);
    assert d == Success(SupportedMessageDeserializers(DefaultRegistry()));
    r := bus.AddMessageDeserializer(Some(ContentType("text/plain")), Some(CustomDeserializerFactory(2)));
    assert r == Fail(ConfigurationException(DeserializerCreatedMessage));
  }

  /** A deserializer whose construction threw stays faulted: the dictionary still accepts
      factories, but they are never used. */
  method FaultedDeserializerScenario(e: Exception)
  {
    var bus := new BusBuilder(ConsumePipeSpecification(0));
    var d := bus.GetMessageDeserializer(Fail(e));
    assert d == Failure(e);
    var r := bus.AddMessageDeserializer(Some(ContentType("text/plain")), Some(CustomDeserializerFactory(2)));
    assert r.Pass?;
    d := bus.GetMessageDeserializer(Pass);
    assert d == Failure(e);
  }

  /** Replacing the serializer factory as a client sees it. */
  method SerializerScenario()
  {
    var bus := new BusBuilder(ConsumePipeSpecification(0));
    var r := bus.SetMessageSerializer(Some(CustomSerializerFactory(3)));
    assert r.Pass?;
    var s := bus.GetMessageSerializer();
    assert s == Success(CustomMessageSerializer(3));
    r := bus.SetMessageSerializer(Some(JsonSerializerFactory));
    assert r.Fail? && bus.serializerFactory == CustomSerializerFactory(3);
  }

  /** A factory that throws leaves the serializer faulted: replacing the factory is still
      accepted, but every later read rethrows the first exception. */
  method FaultedSerializerScenario(e: Exception)
  {
    var bus := new BusBuilder(ConsumePipeSpecification(0));
    var r := bus.SetMessageSerializer(Some(ThrowingSerializerFactory(e)));
    var s := bus.GetMessageSerializer();
    assert s == Failure(e);
    r := bus.SetMessageSerializer(Some(JsonSerializerFactory));
    assert r.Pass?;
    s := bus.GetMessageSerializer();
    assert s == Failure(e);
  }

  /** Adding receive endpoints as a client sees it. */
  method ReceiveEndpointScenario(endpoint: ReceiveEndpoint, other: ReceiveEndpoint)
  {
    var bus := new BusBuilder(ConsumePipeSpecification(0));
    var r := bus.AddReceiveEndpoint(Some("orders"), endpoint);
    assert r.Pass?;
    r := bus.AddReceiveEndpoint(Some("orders"), other);
    assert r.Fail? && bus.receiveEndpoints == map["orders" := endpoint];
  }
}
