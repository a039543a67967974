/**
 * The static shape of a config class as the builder sees it through reflection:
 * its declared fields with their value-extractor annotations, and the class-level
 * annotations that steer loading.
 */
module Annotation {
  import opened Wrappers

  /** The value-extractor annotation types, as they may be listed in a `@LoadingOrder`. */
  datatype ExtractorKind =
    | CommandLineValueKind
    | PropertyValueKind
    | SystemPropertyValueKind
    | EnvironmentVariableKind
    | DefaultValueKind

  /** The extractor kinds whose annotation parameters are not part of this model. */
  type UnmodelledKind = k: ExtractorKind | k.CommandLineValueKind? || k.DefaultValueKind? witness CommandLineValueKind

  /**
   * One value-extractor annotation on a field. `@PropertyValue`, `@EnvironmentVariable` and
   * `@SystemPropertyValue` each carry one string `value`; `@CommandLineValue` and
   * `@DefaultValue` appear only by their kind.
   */
  datatype Directive =
    | PropertyValue(value: string)
    | EnvironmentVariable(value: string)
    | SystemPropertyValue(value: string)
    | OtherValueExtractor(kind: UnmodelledKind)

  /** A declared field: its name, the name of its declared type, and its value-extractor annotations. */
  datatype Field = Field(name: string, typeName: string, directives: seq<Directive>)
  {
    /** Whether the field carries an annotation that is itself annotated with `@ValueExtractorAnnotation`. */
    predicate HasValueExtractor() {
      directives != []
    }
  }

  /** Java declares each field name at most once per class. */
  predicate UniqueNames(fields: seq<Field>) {
    forall i, j :: 0 <= i < j < |fields| ==> fields[i].name != fields[j].name
  }

  /**
   * A config class: its declared fields in the order reflection lists them (declaration order on common JVMs), and the values of its
   * `@LoadingOrder` and `@ErrorMessageFile` annotations when present.
   */
  datatype ConfigClass = ConfigClass(
    name: string,
    fields: seq<Field>,
    loadingOrder: Option<seq<ExtractorKind>>,
    errorMessageFile: Option<string>)

  /** `@PropertySuffixes(extraSuffixes = {...}, hostNames = ...)`. */
  datatype PropertySuffixes = PropertySuffixes(extraSuffixes: seq<string>, hostNames: bool)

  /** `@PropertiesFiles({...})`: the base names of the properties files. */
  datatype PropertiesFiles = PropertiesFiles(value: seq<string>)
}
