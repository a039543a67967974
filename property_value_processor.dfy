/** Extracts the value of a `@PropertyValue` field from the loaded properties. */
module PropertyValueProcessor {
  import opened Wrappers
  import opened Annotation
  import opened Configuration

  /**
   * `getValue`: the properties table's value for the annotation's key; a key the table does
   * not hold gives `None` (Java's `null`), not an error. Being a function of the snapshot,
   * it changes nothing.
   */
  function GetValue(annotation: Directive, configuration: ConfigState): (r: Option<string>)
    requires annotation.PropertyValue?
    ensures r.Some? <==> annotation.value in configuration.properties
    ensures r.Some? ==> r.value == configuration.properties[annotation.value]
  {
    if annotation.value in configuration.properties then Some(configuration.properties[annotation.value]) else None
  }

  /** The result does not depend on the command line or the annotation order. */
  lemma GetValueDependsOnlyOnKeyAndProperties(annotation: Directive, c1: ConfigState, c2: ConfigState)
    requires annotation.PropertyValue?
    requires c1.properties == c2.properties
    ensures GetValue(annotation, c1) == GetValue(annotation, c2)
  {
  }
}
