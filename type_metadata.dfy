/**
 * Type identity. The framework names a type through a reflection-based cache
 * (`TypeMetadataCache<T>.ShortName`) whose code is not part of this model; every
 * member that needs a short name takes the naming function as a parameter
 * `shortName: TypeTag -> string`, so each property holds whatever that naming is.
 */
module TypeMetadata {

  /** The identity of a .NET type, as used to key payloads and to name types. */
  datatype TypeTag = TypeTag(id: nat)
}
