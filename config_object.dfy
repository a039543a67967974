/** Run-time values: field values, exceptions, and an instance of a config class. */
module ConfigObject {
  import opened Annotation

  /** A Java reference: `null`, or an object of some class whose `toString()` is `text`. */
  datatype Value = Null | Object(className: string, text: string)

  /** The current value of each field of an instance, by field name. */
  type FieldValues = map<string, Value>

  /**
   * An exception. `Thrown` is one raised by code outside this model (reflection, the
   * validator, the property loader, ...). `ConfigBuilderException` is the wrapper the field
   * setter throws when assigning a field fails: it carries the arguments from which its
   * message is rendered (field name, declared type name, value text) and its cause.
   */
  datatype Exception =
    | Thrown(className: string, message: string)
    | ConfigBuilderException(fieldName: string, typeName: string, valueText: string, cause: Exception)

  /** The text a value contributes to an error message: "null" for null, else its `toString()`. */
  function ValueText(v: Value): string {
    match v
    case Null => "null"
    case Object(_, text) => text
  }

  /** An instance of a config class, whose fields are assigned in place. */
  class ConfigInstance {
    const configClass: ConfigClass
    var values: FieldValues

    constructor (configClass: ConfigClass, values: FieldValues)
      ensures this.configClass == configClass && this.values == values
    {
      this.configClass := configClass;
      this.values := values;
    }
  }
}
