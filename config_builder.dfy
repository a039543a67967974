/**
 * The config builder: it loads the properties and prepares the error messages, then either
 * constructs an instance and sets its fields (`build`) or fills the fields of a given
 * instance (`merge`), and validates the result.
 *
 * The collaborators whose code is not part of this model are function values injected at
 * construction: reading the properties files, parsing the command line, the construction
 * helper, the field value extractor, reflection's `Field.set` failure, the merge-mode field
 * setter and the validator. Each may fail, by returning an exception.
 */
module ConfigBuilder {
  import opened Wrappers
  import opened Annotation
  import opened ConfigObject
  import opened PropertyLoading
  import opened Configuration
  import FieldSetter
  import PropertyValueProcessor

  datatype Collaborators = Collaborators(
    load: LoaderSettings -> Result<Properties, Exception>,
    parseCommandLine: (ConfigClass, seq<string>) -> Result<CommandLine, Exception>,
    construct: (ConfigClass, seq<Value>) -> Result<FieldValues, Exception>,
    extractValue: (Field, ConfigState) -> Result<Value, Exception>,
    setFailure: (Field, Value) -> Option<Exception>,
    setEmptyFields: (ConfigClass, FieldValues, ConfigState) -> (FieldValues, Option<Exception>),
    validate: (ConfigClass, FieldValues) -> Option<Exception>)

  /** The steps of a build or a merge, each recorded when it begins. */
  datatype Step = SetupConfiguration | InitializeErrorMessages | Construct | SetFields | SetEmptyFields | Validate

  const BuildSteps: seq<Step> := [SetupConfiguration, InitializeErrorMessages, Construct, SetFields, Validate]
  const MergeSteps: seq<Step> := [SetupConfiguration, InitializeErrorMessages, SetEmptyFields, Validate]

  /** The configuration left by setting up, and the exception loading the properties threw, if any. */
  datatype SetupResult = SetupResult(config: ConfigState, error: Option<Exception>)

  /**
   * `setupBuilderConfiguration`, given the loader's answer `loaded`: the class's
   * `@LoadingOrder`, when present, becomes the annotation order (before the load, so also when
   * the load fails); the loaded table replaces the properties.
   */
  function Setup(cls: ConfigClass, config: ConfigState, loaded: Result<Properties, Exception>): (r: SetupResult)
    ensures r.config.commandLine == config.commandLine
    ensures cls.loadingOrder.Some? ==> r.config.annotationOrder == cls.loadingOrder.value
    ensures cls.loadingOrder.None? ==> r.config.annotationOrder == config.annotationOrder
    ensures loaded.Success? ==> r.error.None? && r.config.properties == loaded.value
    ensures loaded.Failure? ==> r.error == Some(loaded.error) && r.config.properties == config.properties
  {
    var ordered := if cls.loadingOrder.Some? then config.(annotationOrder := cls.loadingOrder.value) else config;
    match loaded
    case Success(p) => SetupResult(ordered.(properties := p), None)
    case Failure(e) => SetupResult(ordered, Some(e))
  }

  /** Setting up twice with the same class and load leaves what setting up once leaves. */
  lemma SetupIdempotent(cls: ConfigClass, config: ConfigState, loaded: Result<Properties, Exception>)
    ensures Setup(cls, Setup(cls, config, loaded).config, loaded).config == Setup(cls, config, loaded).config
  {
  }

  /** A successful load replaces the previous properties table: nothing of it survives. */
  lemma SetupReplacesProperties(cls: ConfigClass, config: ConfigState, previous: Properties, loaded: Result<Properties, Exception>)
    requires loaded.Success?
    ensures Setup(cls, config.(properties := previous), loaded) == Setup(cls, config, loaded)
  {
  }

  /** After a successful setup, a `@PropertyValue` lookup answers from the freshly loaded table. */
  lemma PropertyLookupAfterSetup(cls: ConfigClass, config: ConfigState, loaded: Result<Properties, Exception>, key: string)
    requires loaded.Success?
    ensures PropertyValueProcessor.GetValue(PropertyValue(key), Setup(cls, config, loaded).config)
         == if key in loaded.value then Some(loaded.value[key]) else None
  {
  }

  /**
   * One run of `build` or `merge`: the steps begun, the configuration and error-message setup
   * left behind, the instance's field values at the end, and the exception thrown, if any.
   */
  datatype Run = Run(
    steps: seq<Step>, config: ConfigState, messages: Option<ErrorMessageInit>,
    values: FieldValues, error: Option<Exception>)

  /**
   * `build(args)` on the configuration `config`, error-message setup `messages` and loader
   * settings `settings`.
   */
  function BuildRun(
    cls: ConfigClass, args: seq<Value>, config: ConfigState, messages: Option<ErrorMessageInit>,
    settings: LoaderSettings, c: Collaborators): (r: Run)
    // the steps begun are a prefix of the fixed order
    ensures 1 <= |r.steps| <= |BuildSteps| && r.steps == BuildSteps[..|r.steps|]
    // the build succeeds exactly when every step ran and validation found nothing
    ensures r.error.None? <==> r.steps == BuildSteps && c.validate(cls, r.values).None?
    ensures r.steps == BuildSteps ==> r.error == c.validate(cls, r.values)
    // only a failed load stops the build before the error messages are set up
    ensures |r.steps| == 1 <==> c.load(settings).Failure?
    ensures |r.steps| == 1 ==> r.error == Some(c.load(settings).error) && r.messages == messages
    ensures |r.steps| > 1 ==> r.messages == Some(ErrorMessageInit(cls.errorMessageFile, settings))
    ensures r.config == Setup(cls, config, c.load(settings)).config
    // a failed construction is thrown as it is
    ensures |r.steps| == 3 ==> c.construct(cls, args).Failure? && r.error == Some(c.construct(cls, args).error)
    // what is validated and returned is the constructed instance with its fields set
    ensures |r.steps| >= 4 ==> c.construct(cls, args).Success?
    ensures |r.steps| >= 4 ==>
              (var fieldsSet := FieldSetter.SetFieldsFrom(cls.fields, c.construct(cls, args).value, r.config, c.extractValue, c.setFailure);
               r.values == fieldsSet.values && (|r.steps| == 4 <==> fieldsSet.error.Some?) && (|r.steps| == 4 ==> r.error == fieldsSet.error))
  {
    var setup := Setup(cls, config, c.load(settings));
    if setup.error.Some? then Run([SetupConfiguration], setup.config, messages, map[], setup.error)
    else
      var messages' := Some(ErrorMessageInit(cls.errorMessageFile, settings));
      match c.construct(cls, args)
      case Failure(e) => Run(BuildSteps[..3], setup.config, messages', map[], Some(e))
      case Success(initial) =>
        var fieldsSet := FieldSetter.SetFieldsFrom(cls.fields, initial, setup.config, c.extractValue, c.setFailure);
        if fieldsSet.error.Some? then Run(BuildSteps[..4], setup.config, messages', fieldsSet.values, fieldsSet.error)
        else Run(BuildSteps, setup.config, messages', fieldsSet.values, c.validate(cls, fieldsSet.values))
  }

  /**
   * `merge(instance)` on an instance of class `instanceClass` holding `values`, for a builder of
   * class `cls`. The merge-mode field setter and the validator see the instance's class.
   */
  function MergeRun(
    cls: ConfigClass, instanceClass: ConfigClass, values: FieldValues, config: ConfigState,
    messages: Option<ErrorMessageInit>, settings: LoaderSettings, c: Collaborators): (r: Run)
    ensures 1 <= |r.steps| <= |MergeSteps| && r.steps == MergeSteps[..|r.steps|]
    // nothing is constructed
    ensures Construct !in r.steps
    ensures r.error.None? <==> r.steps == MergeSteps && c.validate(instanceClass, r.values).None?
    ensures r.steps == MergeSteps ==> r.error == c.validate(instanceClass, r.values)
    ensures |r.steps| == 1 <==> c.load(settings).Failure?
    ensures |r.steps| == 1 ==> r.error == Some(c.load(settings).error) && r.messages == messages && r.values == values
    ensures |r.steps| > 1 ==> r.messages == Some(ErrorMessageInit(cls.errorMessageFile, settings))
    ensures r.config == Setup(cls, config, c.load(settings)).config
    // the given instance's fields are what the merge-mode field setter leaves
    ensures |r.steps| > 1 ==> r.values == c.setEmptyFields(instanceClass, values, r.config).0
    ensures |r.steps| > 1 ==> (|r.steps| == 3 <==> c.setEmptyFields(instanceClass, values, r.config).1.Some?)
    ensures |r.steps| == 3 ==> r.error == c.setEmptyFields(instanceClass, values, r.config).1
  {
    var setup := Setup(cls, config, c.load(settings));
    if setup.error.Some? then Run([SetupConfiguration], setup.config, messages, values, setup.error)
    else
      var messages' := Some(ErrorMessageInit(cls.errorMessageFile, settings));
      var merged := c.setEmptyFields(instanceClass, values, setup.config);
      if merged.1.Some? then Run(MergeSteps[..3], setup.config, messages', merged.0, merged.1)
      else Run(MergeSteps, setup.config, messages', merged.0, c.validate(instanceClass, merged.0))
  }

  class ConfigBuilder {
    const configClass: ConfigClass
    const builderConfiguration: BuilderConfiguration
    const propertyLoader: PropertyLoader
    const errorMessageSetup: ErrorMessageSetup
    const collaborators: Collaborators
    /** The steps begun so far, oldest first. */
    ghost var history: seq<Step>

    /** The builder for `configClass`, given the property loader already configured for that class. */
    constructor (
      configClass: ConfigClass, builderConfiguration: BuilderConfiguration, propertyLoader: PropertyLoader,
      errorMessageSetup: ErrorMessageSetup, collaborators: Collaborators)
      ensures this.configClass == configClass && this.builderConfiguration == builderConfiguration
      ensures this.propertyLoader == propertyLoader && this.errorMessageSetup == errorMessageSetup
      ensures this.collaborators == collaborators && history == []
    {
      this.configClass := configClass;
      this.builderConfiguration := builderConfiguration;
      this.propertyLoader := propertyLoader;
      this.errorMessageSetup := errorMessageSetup;
      this.collaborators := collaborators;
      history := [];
    }

    /**
     * `withCommandLineArgs`: the command line becomes the parse of `args`, and the builder itself
     * is returned; a parse failure is thrown and leaves the configuration as it was.
     */
    method WithCommandLineArgs(args: seq<string>) returns (r: Result<ConfigBuilder, Exception>)
      modifies builderConfiguration
      ensures var parsed := collaborators.parseCommandLine(configClass, args);
              match parsed
              case Success(cl) => r == Success(this) && builderConfiguration.State() == old(builderConfiguration.State()).(commandLine := cl)
              case Failure(e) => r == Failure(e) && builderConfiguration.State() == old(builderConfiguration.State())
    {
      var parsed := collaborators.parseCommandLine(configClass, args);
      if parsed.Failure? {
        return Failure(parsed.error);
      }
      builderConfiguration.SetCommandLine(parsed.value);
      return Success(this);
    }

    /** `overridePropertiesFiles`: replaces the loader's base names and returns the builder itself. */
    method OverridePropertiesFiles(baseNames: seq<string>) returns (r: ConfigBuilder)
      modifies propertyLoader
      ensures r == this
      ensures propertyLoader.Settings() == old(propertyLoader.Settings()).(baseNames := baseNames)
    {
      propertyLoader.WithBaseNames(baseNames);
      return this;
    }

    /** `setupBuilderConfiguration`: applies `@LoadingOrder` if present, then loads the properties. */
    method SetupBuilderConfiguration() returns (error: Option<Exception>)
      modifies this, builderConfiguration
      ensures history == old(history) + [SetupConfiguration]
      ensures var s := Setup(configClass, old(builderConfiguration.State()), collaborators.load(propertyLoader.Settings()));
              builderConfiguration.State() == s.config && error == s.error
    {
      history := history + [SetupConfiguration];
      if configClass.loadingOrder.Some? {
        builderConfiguration.SetAnnotationOrder(configClass.loadingOrder.value);
      }
      var loaded := collaborators.load(propertyLoader.Settings());
      if loaded.Failure? {
        return Some(loaded.error);
      }
      builderConfiguration.SetProperties(loaded.value);
      return None;
    }

    /** `initializeErrorMessageSetup`: hands the `@ErrorMessageFile` value, or null, and the loader on. */
    method InitializeErrorMessageSetup()
      modifies this, errorMessageSetup
      ensures history == old(history) + [InitializeErrorMessages]
      ensures errorMessageSetup.initialization == Some(ErrorMessageInit(configClass.errorMessageFile, propertyLoader.Settings()))
    {
      history := history + [InitializeErrorMessages];
      errorMessageSetup.Initialize(configClass.errorMessageFile, propertyLoader);
    }

    /**
     * `build`: sets up the configuration, initialises the error messages, constructs an instance
     * from `args`, sets its fields and validates it; returns the new instance, or the first
     * exception thrown.
     */
    method Build(args: seq<Value>) returns (r: Result<ConfigInstance, Exception>)
      modifies this, builderConfiguration, errorMessageSetup
      ensures var run := BuildRun(configClass, args, old(builderConfiguration.State()), old(errorMessageSetup.initialization),
                                  propertyLoader.Settings(), collaborators);
              && history == old(history) + run.steps
              && builderConfiguration.State() == run.config
              && errorMessageSetup.initialization == run.messages
              && (r.Success? <==> run.error.None?)
              && (r.Failure? ==> r.error == run.error.value)
              && (r.Success? ==> fresh(r.value) && r.value.configClass == configClass && r.value.values == run.values)
    {
      var setupError := SetupBuilderConfiguration();
      if setupError.Some? {
        return Failure(setupError.value);
      }
      InitializeErrorMessageSetup();
      history := history + [Construct];
      var constructed := collaborators.construct(configClass, args);
      if constructed.Failure? {
        return Failure(constructed.error);
      }
      var instance := new ConfigInstance(configClass, constructed.value);
      history := history + [SetFields];
      var setError, _ := FieldSetter.SetFields(instance, builderConfiguration, collaborators.extractValue, collaborators.setFailure);
      if setError.Some? {
        return Failure(setError.value);
      }
      history := history + [Validate];
      var violation := collaborators.validate(configClass, instance.values);
      if violation.Some? {
        return Failure(violation.value);
      }
      return Success(instance);
    }

    /**
     * `merge`: sets up the configuration, initialises the error messages, fills the given
     * instance's fields in merge mode and validates it; returns that very instance, or the first
     * exception thrown.
     */
    method Merge(instance: ConfigInstance) returns (r: Result<ConfigInstance, Exception>)
      modifies this, builderConfiguration, errorMessageSetup, instance
      ensures var run := MergeRun(configClass, instance.configClass, old(instance.values), old(builderConfiguration.State()),
                                  old(errorMessageSetup.initialization), propertyLoader.Settings(), collaborators);
              && history == old(history) + run.steps
              && builderConfiguration.State() == run.config
              && errorMessageSetup.initialization == run.messages
              && instance.values == run.values
              && (r.Success? <==> run.error.None?)
              && (r.Failure? ==> r.error == run.error.value)
              && (r.Success? ==> r.value == instance)
    {
      var setupError := SetupBuilderConfiguration();
      if setupError.Some? {
        return Failure(setupError.value);
      }
      InitializeErrorMessageSetup();
      history := history + [SetEmptyFields];
      var setError := FieldSetter.SetEmptyFields(instance, builderConfiguration, collaborators.setEmptyFields);
      if setError.Some? {
        return Failure(setError.value);
      }
      history := history + [Validate];
      var violation := collaborators.validate(instance.configClass, instance.values);
      if violation.Some? {
        return Failure(violation.value);
      }
      return Success(instance);
    }
  }
}
