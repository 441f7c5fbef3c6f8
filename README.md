# MassTransit pipe configuration, modelled in Dafny

This project models the transport-independent pipe-configuration layer of
MassTransit's message pipeline. It covers three pieces:

- **Probe-tree helpers.** The diagnostic probe tree describes an assembled pipe.
  `CreateConsumerFactoryScope`, `CreateFilterScope` and `CreateMessageScope` each attach
  one named child scope to a probe node, write its fixed properties and return the child.
  A probe node is a class (`ProbeContext`) with a label, a property map and an ordered
  list of child nodes. `CreateScope` and `Add` are methods that change them.
- **Dead-letter pipe specification.** `DeadLetterPipeSpecification` holds the rescue pipe,
  which may be null. `Apply` appends one `DeadLetterFilter` holding that pipe to a pipe
  builder. `Validate` reports a `"RescuePipe"` failure exactly when the pipe is missing.
  The builder is a class holding an ordered sequence of filters, and `AddFilter` appends.
  A validation result is a record of disposition, key and message.
- **Payload accessor.** `GetPayload<T>` turns the context's try-style lookup into either
  the stored payload or a `PayloadNotFoundException`. The exception's message is
  `"The payload was not found: "` followed by the short name of T. The payload store is
  a map from type tag to value, and `TryGetPayload` is map lookup. The result is a
  `Result`.

`TypeMetadataCache<T>.ShortName` is the framework's reflection-based type naming and is
not part of this model. Members that need it take a naming function
`shortName: TypeTag -> string` as a parameter, so every property holds whatever that
naming does.

Modules: `Wrappers` (Option, Result), `TypeMetadata` (type tags),
`ProbeContextExtensions`, `PipeConfigurators` (filters, builder, validation results,
the dead-letter specification) and `PipeExtensions` (payload store, `GetPayload`).

## Model

| member | source | states |
|---|---|---|
| ProbeContextExtensions.ProbeContext.CreateScope | src/MassTransit/ProbeContextExtensions.cs:22 | the returned scope is fresh, labelled with the given key and empty; it is appended after the parent's existing children; the parent's properties are unchanged |
| ProbeContextExtensions.ProbeContext.Add | src/MassTransit/ProbeContextExtensions.cs:23-24 | the scope's property map gains (or overwrites) exactly that key with that value; its children are unchanged |
| ProbeContextExtensions.CreateConsumerFactoryScope | src/MassTransit/ProbeContextExtensions.cs:20-27 | the parent gains exactly one new child at the end, named "consumerFactory"; that child, not the parent, is returned; its properties are exactly "source" = source and "consumerType" = short name of the consumer type; the parent's properties and its earlier children are untouched |
| ProbeContextExtensions.CreateFilterScope | src/MassTransit/ProbeContextExtensions.cs:29-36 | the parent gains exactly one new child at the end, named "filters", returned to the caller; its only property is "filterType" = filterType; the parent's properties and earlier children are untouched |
| ProbeContextExtensions.CreateMessageScope | src/MassTransit/ProbeContextExtensions.cs:38-43 | the parent gains exactly one new child at the end, named after the message type, with no properties and no children, returned to the caller; nothing else changes |
| PipeConfigurators.DeadLetterPipeSpecification.constructor | src/MassTransit/Configuration/PipeConfigurators/DeadLetterPipeSpecification.cs:27-30 | the rescue pipe is stored unchanged, null included |
| PipeConfigurators.PipeBuilder.AddFilter | src/MassTransit/Configuration/PipeConfigurators/DeadLetterPipeSpecification.cs:34 | the filter is appended after all earlier filters, which keep their order |
| PipeConfigurators.DeadLetterPipeSpecification.Apply | src/MassTransit/Configuration/PipeConfigurators/DeadLetterPipeSpecification.cs:32-35 | exactly one DeadLetterFilter holding the stored rescue pipe is appended to the builder, after the earlier filters in their original order; there is no precondition on the pipe, so a null pipe is appended too |
| PipeConfigurators.DeadLetterPipeSpecification.Validate | src/MassTransit/Configuration/PipeConfigurators/DeadLetterPipeSpecification.cs:37-41 | the results are empty if and only if the rescue pipe is present; when it is missing they are exactly one failure keyed "RescuePipe" with message "must not be null"; it is a function of the immutable specification, so it changes nothing and repeated calls agree |
| PipeConfigurators.ValidateFailsIffRescuePipeMissing | src/MassTransit/Configuration/PipeConfigurators/DeadLetterPipeSpecification.cs:39-40 | validation contains a failure, which stops the build, if and only if the rescue pipe is null |
| PipeExtensions.GetPayload | src/MassTransit/PipeExtensions.cs:26-34 | succeeds if and only if TryGetPayload finds a payload of the type; then it returns that same stored value; otherwise it fails with a PayloadNotFoundException whose message is the not-found prefix followed by the type's short name; being a function of the context, it leaves the payload map as it was |
| PipeExtensions.PipeContext.TryGetPayload | src/MassTransit/PipeExtensions.cs:30 | the lookup GetPayload calls: it finds a payload exactly when the store holds one for the type, and then gives the stored value |
| PipeExtensions.PayloadTypeName | src/MassTransit/PipeExtensions.cs:31 | a proof device, not a model of the line: the inverse of the message built there; any message from which a type name is read back is exactly the not-found message for that name |
| PipeExtensions.NotFoundMessageRoundTrip | src/MassTransit/PipeExtensions.cs:31 | reading the type name back from the not-found message for a name gives that name |
| PipeExtensions.NotFoundMessageMentionsType | src/MassTransit/PipeExtensions.cs:31 | the not-found message contains the missing type's name |
| PipeExtensions.GetPayloadFailureNamesType | src/MassTransit/PipeExtensions.cs:30-31 | when the type has no payload in the context, GetPayload fails, and its message contains the type's short name, which can be read back from it |
| PipeExtensions.GetPayloadOnEmptyContext | src/MassTransit/PipeExtensions.cs:26-34 | on a context with no payloads, GetPayload fails for every type, naming that type |

## Left out

- MassTransit.Host/HostServiceInstaller.cs: Windows service installation is not part of this model. It covers service enumeration, registry access, transacted installers and attribute scanning by reflection, which are all operating-system I/O.
- `TypeMetadataCache<T>.ShortName`: reflection-based naming is not part of this model. It is a parameter of every member that uses it.
- `DeadLetterFilter`'s `Send` and `Probe`, and the pipes it forwards to, are not part of this model. A pipe is modelled only by its object identity. A filter is a value naming its kind and, for a dead-letter filter, its rescue pipe; the distinct filter object each `Apply` allocates is not modelled, so two dead-letter filters over the same pipe are equal.
- The concrete pipe builder, the build protocol (validate every specification, then apply every one, then freeze the pipe) and pipe execution are not part of this model. The builder is only an ordered filter list with append.
- The `ProbeContext` implementation behind `CreateScope` and `Add` is not part of this model. They are modelled as "append a fresh child" and "set one property". Property values are strings, which is all the helpers write.
- `PipeContext`'s own payload store is not part of this model. Lookup through parent contexts, `GetOrAddPayload`, and the locking on payload insertion are left out. A context is one flat map, and `TryGetPayload` is lookup in it.
- GetPayload: the `where T : class` constraint and a payload stored as null are not modelled. Every stored value is returned as it is.
- Null references other than the rescue pipe are not representable: a null probe context, pipe context or builder (a NullReferenceException in the source) and a null source, filter type or message type string have no counterpart, because those parameters have non-null types here.
- Asynchronous sending, cancellation and logging are concurrency and I/O concerns, not sequential logic.
