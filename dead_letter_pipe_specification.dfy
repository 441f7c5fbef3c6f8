/**
 * `DeadLetterPipeSpecification`: the pipe specification that, once applied, puts a
 * `DeadLetterFilter` wrapping a rescue pipe into the pipe being built, and whose
 * validation insists that the rescue pipe is present.
 */
module PipeConfigurators {

  /** A built pipe. Only its identity matters here; its filters and Send are not modelled. */
  class Pipe {
  }

  /** A filter in a pipe under construction. */
  datatype Filter =
    | DeadLetterFilter(rescuePipe: Pipe?)
      /** Any filter some other specification added; `id` tells such filters apart. */
    | OtherFilter(id: nat)

  datatype ValidationResultDisposition = Success | Warning | Failure

  /** A configuration problem found before any message flows: what is wrong, and where. */
  datatype ValidationResult = ValidationResult(disposition: ValidationResultDisposition, key: string, message: string)

  /** The one result validation reports when the rescue pipe is missing. */
  const RescuePipeMissing: ValidationResult := ValidationResult(Failure, "RescuePipe", "must not be null")

  /** True when some result in `results` is a failure, which stops the pipe from being built. */
  predicate HasFailure(results: seq<ValidationResult>)
  {
    exists i :: 0 <= i < |results| && results[i].disposition == Failure
  }

  /** The builder's in-progress, ordered list of filters. */
  class PipeBuilder {
    var filters: seq<Filter>

    constructor ()
      ensures filters == []
    {
      filters := [];
    }

    /** Append `filter` after every filter added so far: no reordering, no deduplication. */
    method AddFilter(filter: Filter)
      modifies this
      ensures filters == old(filters) + [filter]
    {
      filters := filters + [filter];
    }
  }

  class DeadLetterPipeSpecification {
    const deadLetterPipe: Pipe?

    constructor (deadLetterPipe: Pipe?)
      ensures this.deadLetterPipe == deadLetterPipe
    {
      this.deadLetterPipe := deadLetterPipe;
    }

    /**
     * Append one DeadLetterFilter holding the stored rescue pipe to the builder,
     * keeping the earlier filters in order. The pipe is not checked here: a
     * missing one is the business of Validate.
     */
    method Apply(builder: PipeBuilder)
      modifies builder
      ensures builder.filters == old(builder.filters) + [DeadLetterFilter(deadLetterPipe)]
    {
      builder.AddFilter(DeadLetterFilter(deadLetterPipe));
    }

    /** No result when the rescue pipe is present; exactly the "RescuePipe" failure when it is missing. */
    function Validate(): (results: seq<ValidationResult>)
      ensures results == [] <==> deadLetterPipe != null
      ensures deadLetterPipe == null ==> results == [RescuePipeMissing]
    {
      if deadLetterPipe == null then [RescuePipeMissing] else []
    }
  }

  /**
   * A dead-letter specification stops the build exactly when the filter it would
   * add has no rescue pipe to forward to.
   */
  lemma ValidateFailsIffRescuePipeMissing(spec: DeadLetterPipeSpecification)
    ensures HasFailure(spec.Validate()) <==> spec.deadLetterPipe == null
  {
    if spec.deadLetterPipe == null {
      assert spec.Validate()[0].disposition == Failure;
    }
  }
}
