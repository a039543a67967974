/**
 * The per-build state the builder updates in place: the builder configuration (properties,
 * command line, annotation order) and the error-message setup.
 */
module Configuration {
  import opened Wrappers
  import opened Annotation
  import opened PropertyLoading

  /** The parsed command line: option name to option value. */
  datatype CommandLine = CommandLine(options: map<string, string>)

  /** A snapshot of a `BuilderConfiguration`. */
  datatype ConfigState = ConfigState(
    properties: Properties,
    commandLine: CommandLine,
    annotationOrder: seq<ExtractorKind>)

  class BuilderConfiguration {
    var properties: Properties
    var commandLine: CommandLine
    var annotationOrder: seq<ExtractorKind>

    function State(): ConfigState
      reads this
    {
      ConfigState(properties, commandLine, annotationOrder)
    }

    constructor (initial: ConfigState)
      ensures State() == initial
    {
      properties := initial.properties;
      commandLine := initial.commandLine;
      annotationOrder := initial.annotationOrder;
    }

    method SetProperties(p: Properties)
      modifies this
      ensures State() == old(State()).(properties := p)
    {
      properties := p;
    }

    method SetCommandLine(c: CommandLine)
      modifies this
      ensures State() == old(State()).(commandLine := c)
    {
      commandLine := c;
    }

    method SetAnnotationOrder(order: seq<ExtractorKind>)
      modifies this
      ensures State() == old(State()).(annotationOrder := order)
    {
      annotationOrder := order;
    }
  }

  /** What an error-message setup was last initialised with: the override file (or null) and the loader. */
  datatype ErrorMessageInit = ErrorMessageInit(errorMessageFile: Option<string>, loader: LoaderSettings)

  /**
   * The error-message setup. Loading and rendering the message templates is not part of this
   * model; it records the arguments of its latest initialisation.
   */
  class ErrorMessageSetup {
    var initialization: Option<ErrorMessageInit>

    constructor ()
      ensures initialization == None
    {
      initialization := None;
    }

    method Initialize(errorMessageFile: Option<string>, loader: PropertyLoader)
      modifies this
      ensures initialization == Some(ErrorMessageInit(errorMessageFile, loader.Settings()))
    {
      initialization := Some(ErrorMessageInit(errorMessageFile, loader.Settings()));
    }
  }
}
