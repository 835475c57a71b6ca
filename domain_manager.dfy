/**
 * The domain registry and dispatcher (pdpbiogen/core/domain_manager.py):
 * a payload goes to the mapper registered under its domain name.
 */
module DomainManagement {
  import opened Wrappers
  import opened PyValue
  import opened DomainMappers

  /** The mapper classes; each instance is stateless. */
  datatype MapperKind = NeuralMapper | GenomicMapper | MetabolicMapper

  /** `MAPPERS`. */
  const Mappers: map<string, MapperKind> :=
    map["neural" := NeuralMapper, "genomic" := GenomicMapper, "metabolic" := MetabolicMapper]

  /** `mapper.map(payload)`. */
  function MapWith(kind: MapperKind, payload: Value): Result<Value, Exception> {
    match kind
    case NeuralMapper => NeuralMap(payload)
    case GenomicMapper => GenomicMap(payload)
    case MetabolicMapper => MetabolicMap(payload)
  }

  function UnknownDomain(domain: Value): Exception {
    ValueError("Unknown domain: " + Show(domain))
  }

  /** The dispatcher: one mapper instance per registered domain, fixed at construction. */
  class DomainManager {
    const mappers: map<string, MapperKind>

    /** `__init__`: instantiate every registered mapper. */
    constructor()
      ensures mappers == Mappers
    {
      mappers := Mappers;
    }

    /** `map`: an unregistered domain raises ValueError; otherwise its mapper's result. */
    function Map(domain: Value, payload: Value): Result<Value, Exception> {
      if !(domain.Str? && domain.s in mappers) then Failure(UnknownDomain(domain))
      else MapWith(mappers[domain.s], payload)
    }
  }

  /**
   * With the registry of `MAPPERS`, exactly `neural`, `genomic` and
   * `metabolic` reach a mapper (each its own); any other domain raises
   * "Unknown domain: <d>".
   */
  lemma MapDispatch(dm: DomainManager, domain: Value, payload: Value)
    requires dm.mappers == Mappers
    ensures domain == Str("neural") ==> dm.Map(domain, payload) == NeuralMap(payload)
    ensures domain == Str("genomic") ==> dm.Map(domain, payload) == GenomicMap(payload)
    ensures domain == Str("metabolic") ==> dm.Map(domain, payload) == MetabolicMap(payload)
    ensures domain !in {Str("neural"), Str("genomic"), Str("metabolic")} <==>
            dm.Map(domain, payload) == Failure(ValueError("Unknown domain: " + Show(domain)))
  {
    if domain in {Str("neural"), Str("genomic"), Str("metabolic")} {
      MapperErrorsNotUnknownDomain(dm.mappers[domain.s], payload);
    }
  }

  /** No mapper raises ValueError: the "Unknown domain" error can only come from dispatch. */
  lemma MapperErrorsNotUnknownDomain(kind: MapperKind, payload: Value)
    ensures MapWith(kind, payload).Failure? ==> !MapWith(kind, payload).error.ValueError?
  {
    match kind
    case NeuralMapper =>
    case GenomicMapper =>
    case MetabolicMapper =>
      var measures := PayloadGet(payload, "measures", Dict([]));
      if measures.Success? && Truthy(measures.value) && measures.value.Dict? {
        var vals := DictValues(measures.value.entries);
        if SumValues(vals, Int(0)).Failure? {
          SumValuesFailsWithTypeError(vals, Int(0));
        }
      }
  }
}
