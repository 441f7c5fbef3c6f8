/**
 * `ProbeContextExtensions`: helpers that attach one named child scope to a node
 * of the diagnostic probe tree, fill in a fixed set of properties and return the
 * child.
 */
module ProbeContextExtensions {
  import opened TypeMetadata

  /**
   * One scope of the probe tree: a label, a map from property name to rendered
   * value, and the child scopes in the order they were created.
   */
  class ProbeContext {
    const name: string
    var properties: map<string, string>
    var children: seq<ProbeContext>

    /** A scope that nobody has written to yet. */
    ghost predicate Empty()
      reads this
    {
      properties == map[] && children == []
    }

    constructor (name: string)
      ensures this.name == name && Empty()
    {
      this.name := name;
      properties := map[];
      children := [];
    }

    /** Attach a fresh, empty child scope labelled `key` after the existing children. */
    method CreateScope(key: string) returns (scope: ProbeContext)
      modifies this
      ensures fresh(scope) && scope.name == key && scope.Empty()
      ensures children == old(children) + [scope]
      ensures properties == old(properties)
    {
      scope := new ProbeContext(key);
      children := children + [scope];
    }

    /** Record property `key` with `value` on this scope; the children stay as they were. */
    method Add(key: string, value: string)
      modifies this
      ensures properties == old(properties)[key := value]
      ensures children == old(children)
    {
      properties := properties[key := value];
    }
  }

  /**
   * A "consumerFactory" scope under `context` holding the consumer factory's
   * `source` and the short name of the consumer type.
   */
  method CreateConsumerFactoryScope(context: ProbeContext, source: string, consumerType: TypeTag,
                                    shortName: TypeTag -> string)
    returns (scope: ProbeContext)
    modifies context
    ensures fresh(scope) && scope != context
    ensures context.children == old(context.children) + [scope]
    ensures context.properties == old(context.properties)
    ensures scope.name == "consumerFactory" && scope.children == []
    ensures scope.properties == map["source" := source, "consumerType" := shortName(consumerType)]
    ensures forall c :: c in old(context.children) && c != context ==> unchanged(c)
  {
    scope := context.CreateScope("consumerFactory");
    scope.Add("source", source);
    scope.Add("consumerType", shortName(consumerType));
  }

  /** A "filters" scope under `context` whose only property is "filterType". */
  method CreateFilterScope(context: ProbeContext, filterType: string) returns (scope: ProbeContext)
    modifies context
    ensures fresh(scope) && scope != context
    ensures context.children == old(context.children) + [scope]
    ensures context.properties == old(context.properties)
    ensures scope.name == "filters" && scope.children == []
    ensures scope.properties == map["filterType" := filterType]
    ensures forall c :: c in old(context.children) && c != context ==> unchanged(c)
  {
    scope := context.CreateScope("filters");
    scope.Add("filterType", filterType);
  }

  /** A scope under `context` labelled with the message type, with no properties. */
  method CreateMessageScope(context: ProbeContext, messageType: string) returns (scope: ProbeContext)
    modifies context
    ensures fresh(scope) && scope != context
    ensures context.children == old(context.children) + [scope]
    ensures context.properties == old(context.properties)
    ensures scope.name == messageType && scope.Empty()
    ensures forall c :: c in old(context.children) && c != context ==> unchanged(c)
  {
    scope := context.CreateScope(messageType);
  }
}
