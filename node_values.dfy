/**
 * The form answers of a node, `node.content.values`, as the e-mail templates
 * and the link verifier read them.
 */
module NodeValues {
  import opened Wrappers
  import opened Json

  /** `content.values`, read from a content object (never throws). */
  function ValuesOf(content: Value): Value
    requires IsObject(content)
  {
    Field(content, "values")
  }

  /** `${values[key]}`, for a values object that is present. */
  function Answer(values: Value, key: string): string
    requires !IsNullish(values)
  {
    ToStr(Get(values, key).value)
  }

  /** `values["device-type"] === "website"` */
  predicate IsWebsite(values: Value)
    requires !IsNullish(values)
  {
    Get(values, "device-type").value == Str("website")
  }
}
