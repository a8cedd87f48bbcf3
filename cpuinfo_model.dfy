/**
 * `CpuinfoModel` (src/subscription_manager/cpuinfo.py): what one parse of
 * /proc/cpuinfo produced — a dict per processor, the fields they share, the
 * lines that belong to no processor — and the `count`, `model_name` and
 * `model` accessors over it.
 */
module CpuinfoModels {
  import opened Wrappers
  import opened Pairs

  /** The `*Fields` classes: which `common` key holds the model name and which the model. */
  datatype CpuFields = CpuFields(modelName: string, model: string)

  const DefaultFields := CpuFields("model_name", "model")
  const X86Fields := CpuFields("model_name", "model")
  const Aarch64Fields := CpuFields("model_name", "cpu_part")
  const Ppc64Fields := CpuFields("machine", "model")

  /**
   * Why a parse failed: a non-empty line without ':' gives a one-part entry.
   * Unpacking it as `key, value` raises `ValueError` (NotEnoughValues);
   * reading its `[1]` in `fact_sluggify_item` raises `IndexError`
   * (IndexOutOfRange).
   */
  datatype ParseError = NotEnoughValues | IndexOutOfRange

  /** Python truthiness of an optional string: `None` and `""` are false. */
  predicate Truthy(s: Option<string>) {
    s.Some? && s.value != []
  }

  /**
   * The `model_name` and `model` properties: a truthy override wins; otherwise
   * the field's value in `common`, and `None` when `common` is empty or lacks it.
   */
  function LookupField(override: Option<string>, common: Dict, field: string): (r: Option<string>)
    ensures Truthy(override) ==> r == override
    ensures !Truthy(override) ==> (r.Some? <==> field in common)
    ensures !Truthy(override) && r.Some? ==> r.value == common[field]
    ensures common == map[] && !Truthy(override) ==> r == None
  {
    if Truthy(override) then override
    else if common == map[] then None
    else if field in common then Some(common[field])
    else None
  }

  class CpuinfoModel {
    /** `fields_class`, fixed by the architecture's subclass. */
    const fields: CpuFields
    /** The text the model was parsed from, once a parse has succeeded. */
    var cpuinfoData: Option<string>
    var processors: seq<Dict>
    /** Prologue or footnote pairs that belong to no processor. */
    var other: seq<Pair>
    var common: Dict
    /** `_model_name` and `_model`; nothing in the module ever sets them. */
    var modelNameOverride: Option<string>
    var modelOverride: Option<string>

    constructor (fields: CpuFields, cpuinfoData: Option<string>)
      ensures this.fields == fields && this.cpuinfoData == cpuinfoData
      ensures processors == [] && other == [] && common == map[]
      ensures modelNameOverride == None && modelOverride == None
    {
      this.fields := fields;
      this.cpuinfoData := cpuinfoData;
      processors := [];
      other := [];
      common := map[];
      modelNameOverride := None;
      modelOverride := None;
    }

    /** `count`: the number of processors. */
    function Count(): (n: nat)
      reads this
      ensures n == |processors|
    {
      |processors|
    }

    /** `model_name`. */
    function ModelName(): (r: Option<string>)
      reads this
      ensures Truthy(modelNameOverride) ==> r == modelNameOverride
      ensures !Truthy(modelNameOverride) ==> (r.Some? <==> fields.modelName in common)
      ensures !Truthy(modelNameOverride) && r.Some? ==> r.value == common[fields.modelName]
    {
      LookupField(modelNameOverride, common, fields.modelName)
    }

    /** `model`. */
    function Model(): (r: Option<string>)
      reads this
      ensures Truthy(modelOverride) ==> r == modelOverride
      ensures !Truthy(modelOverride) ==> (r.Some? <==> fields.model in common)
      ensures !Truthy(modelOverride) && r.Some? ==> r.value == common[fields.model]
    {
      LookupField(modelOverride, common, fields.model)
    }
  }
}
