# config-builder: build orchestration and field assignment

This project models the core of config-builder, a Java library that creates configuration
objects. A config class declares fields that carry value-extractor annotations
(`@PropertyValue`, `@EnvironmentVariable`, `@SystemPropertyValue`, ...). `ConfigBuilder.build`
does five steps in order:

1. load the properties table;
2. prepare the error messages;
3. construct an instance;
4. assign every annotated field the value extracted for it;
5. validate the instance.

`merge` does the same for an instance the caller already has, without constructing one. Two
class-level processors configure the property loader before any load: `@PropertySuffixes` sets
the suffix list and `@PropertiesFiles` sets the base names. One value processor,
`PropertyValueProcessor`, looks a `@PropertyValue` key up in the loaded table.

Modules, one per source component:

- `Annotation`: the static shape of a config class. This covers its declared fields (name,
  declared type name, value-extractor annotations), `@LoadingOrder`, `@ErrorMessageFile`, and
  the two loader annotations.
- `ConfigObject`: run-time values (`null` or an object with its `toString()` text), exceptions,
  and `ConfigInstance`, a class whose field values are assigned in place.
- `PropertyLoading`: the state of the external property loader that the core changes (base
  names, suffixes, locations, extension), as a class.
- `Configuration`: `BuilderConfiguration` (properties, command line, annotation order) and
  `ErrorMessageSetup`, both classes updated in place.
- `PropertySuffixProcessor`, `PropertiesFilesProcessor`, `PropertyValueProcessor`: the three
  annotation processors.
- `FieldSetter`: the `setFields` loop as a method. It is proved against the recursive
  specification `SetFieldsFrom`, and the lemmas about `SetFieldsFrom` state the loop's
  guarantees.
- `ConfigBuilder`: the builder class. Its `Build` and `Merge` methods are tied to the
  specification functions `BuildRun` and `MergeRun`. A ghost `history` records each step as it
  begins, so the step order is part of the proved contract.

Several collaborators are outside this model. They are function values injected when the
builder is constructed:

- reading the properties files;
- parsing the command line;
- the construction helper;
- the field value extractor;
- the exception reflection's `Field.set` raises;
- the merge-mode field setter;
- the validator.

Any of them may fail by returning an exception; the model treats that as Java's `throw`. The
operating system's host-name lookup is a parameter of the suffix processor.

The model follows these facts of the code:

- The builder configuration is an object handed to the builder (in Java, a context singleton)
  and updated in place; every build changes the same object.
- `setFields` walks every declared field and skips those without a value-extractor
  annotation.
- Without `@ErrorMessageFile`, the error-message setup receives null (`None`).
- A failed extraction is thrown unwrapped. Only a failed assignment is wrapped in a
  `ConfigBuilderException`.

## Model

| member | source | states |
|---|---|---|
| `PropertySuffixProcessor.RebuiltSuffixes` | src/main/java/com/tngtech/configbuilder/annotation/propertyloaderconfiguration/PropertySuffixProcessor.java:11-18 | the suffix list begins with the extra suffixes in annotation order; after them come exactly the local host names when `hostNames` is set, and nothing otherwise; no extras and no host names give the empty list |
| `PropertySuffixProcessor.ConfigurePropertyLoader` | src/main/java/com/tngtech/configbuilder/annotation/propertyloaderconfiguration/PropertySuffixProcessor.java:10-19 | clearing and then appending one suffix at a time leaves the rebuilt list as the loader's suffixes; base names, locations and extension are unchanged |
| `PropertySuffixProcessor.ConfiguredIdempotent` | src/main/java/com/tngtech/configbuilder/annotation/propertyloaderconfiguration/PropertySuffixProcessor.java:11-18 | applying the processor twice with one annotation gives the settings of one application |
| `PropertySuffixProcessor.ConfiguredDiscardsPreviousSuffixes` | src/main/java/com/tngtech/configbuilder/annotation/propertyloaderconfiguration/PropertySuffixProcessor.java:11 | the suffixes held before make no difference to the result |
| `PropertySuffixProcessor.ConfigureTwice` | src/main/java/com/tngtech/configbuilder/annotation/propertyloaderconfiguration/PropertySuffixProcessor.java:10-19 | a caller that runs the processor twice ends with the same loader state as after one run |
| `PropertiesFilesProcessor.Configured` | src/main/java/com/tngtech/configbuilder/annotation/propertyloaderconfiguration/PropertiesFilesProcessor.java:12 | the base names become the annotation's list, in its order; suffixes, locations and extension are untouched |
| `PropertiesFilesProcessor.ConfiguredReplacesBaseNames` | src/main/java/com/tngtech/configbuilder/annotation/propertyloaderconfiguration/PropertiesFilesProcessor.java:12 | the base names held before are replaced, not appended to |
| `PropertiesFilesProcessor.ConfigurePropertyLoader` | src/main/java/com/tngtech/configbuilder/annotation/propertyloaderconfiguration/PropertiesFilesProcessor.java:11-13 | the loader's new settings are those of `Configured` applied to its old settings |
| `PropertyValueProcessor.GetValue` | src/main/java/com/tngtech/configbuilder/annotation/valueextractor/PropertyValueProcessor.java:12-14 | the result is present exactly when the key is in the properties table, and is then the table's value for it; an absent key gives `None` (null), not an error |
| `PropertyValueProcessor.GetValueDependsOnlyOnKeyAndProperties` | src/main/java/com/tngtech/configbuilder/annotation/valueextractor/PropertyValueProcessor.java:12-14 | two configurations with the same properties table give the same result, whatever their command line and annotation order |
| `FieldSetter.SetFieldsSplit` | src/main/java/com/tngtech/configbuilder/util/FieldSetter.java:31-38 | the loop over the fields is the loop over the first k fields and then, only if they threw nothing, the loop over the rest from the values they left; a failure among the first k is the whole outcome |
| `FieldSetter.FailFast` | src/main/java/com/tngtech/configbuilder/util/FieldSetter.java:36-47 | when field k is the first to fail, the loop throws that failure: the extractor's exception unwrapped, or a failed assignment wrapped in a ConfigBuilderException carrying the field name, the declared type name and "null" or the value's `toString()`; it keeps the values set before k and extracts nothing after k |
| `FieldSetter.UnassignedNamesKept` | src/main/java/com/tngtech/configbuilder/util/FieldSetter.java:29-39 | a field that no annotated field names, such as a skipped unannotated field, keeps its prior value (or stays absent), on success and on failure |
| `FieldSetter.AnnotatedFieldsAssigned` | src/main/java/com/tngtech/configbuilder/util/FieldSetter.java:36-44 | when nothing is thrown, every annotated field holds exactly the value extracted for it, overwriting what it held, null included |
| `FieldSetter.ExtractionOrder` | src/main/java/com/tngtech/configbuilder/util/FieldSetter.java:31-37 | extraction is invoked once per annotated field, in the order reflection lists the fields (declaration order on common JVMs), with the one configuration given; the fields extracted are a prefix of the annotated fields, all of them on success, and at least one on failure |
| `FieldSetter.SetField` | src/main/java/com/tngtech/configbuilder/util/FieldSetter.java:41-49 | a successful assignment overwrites the field's value; a failed one changes nothing and yields a ConfigBuilderException built from the field name, the type name, the value text and the cause |
| `FieldSetter.SetFields` | src/main/java/com/tngtech/configbuilder/util/FieldSetter.java:29-39 | the instance's new values, the exception thrown and the fields extracted are those of `SetFieldsFrom` over the instance class's declared fields, with the configuration's current state |
| `FieldSetter.SetEmptyFields` | src/main/java/com/tngtech/configbuilder/ConfigBuilder.java:129 | the merge-mode setter, an abstract step: the instance's values and the exception are those the injected step returns |
| `ConfigBuilder.Setup` | src/main/java/com/tngtech/configbuilder/ConfigBuilder.java:134-139 | `@LoadingOrder`, when present, becomes the annotation order, even when the load then fails; otherwise the order is unchanged; a successful load's table becomes the properties; a failed load is thrown with the properties unchanged; the command line is untouched |
| `ConfigBuilder.SetupIdempotent` | src/main/java/com/tngtech/configbuilder/ConfigBuilder.java:134-139 | setting up twice with the same class and load leaves the configuration of one setup |
| `ConfigBuilder.SetupReplacesProperties` | src/main/java/com/tngtech/configbuilder/ConfigBuilder.java:138 | after a successful load, nothing of the previous properties table survives |
| `ConfigBuilder.PropertyLookupAfterSetup` | src/main/java/com/tngtech/configbuilder/ConfigBuilder.java:138 | after setup, a `@PropertyValue` lookup answers from the freshly loaded table |
| `ConfigBuilder.BuildRun` | src/main/java/com/tngtech/configbuilder/ConfigBuilder.java:117-124 | the steps begun are a prefix of setup, error messages, construct, set fields, validate; the build succeeds exactly when all five ran and validation found nothing; a failed load stops it after setup; the error-message setup receives the `@ErrorMessageFile` value or null; a construction failure is thrown as is; what is validated and returned is the constructed instance after `SetFieldsFrom` |
| `ConfigBuilder.MergeRun` | src/main/java/com/tngtech/configbuilder/ConfigBuilder.java:126-132 | the steps begun are a prefix of setup, error messages, set empty fields, validate, and never include construction; the merge succeeds exactly when all four ran and validation of the given instance's values found nothing; a failure of the merge-mode step is thrown as is and stops the merge before validation |
| `ConfigBuilder.ConfigBuilder.constructor` | src/main/java/com/tngtech/configbuilder/ConfigBuilder.java:59-70 | the builder holds its class, configuration, already-configured loader, error-message setup and collaborators, with nothing begun yet |
| `ConfigBuilder.ConfigBuilder.WithCommandLineArgs` | src/main/java/com/tngtech/configbuilder/ConfigBuilder.java:93-96 | the command line becomes the parse of the arguments, nothing else in the configuration changes, and the builder itself is returned; a parse failure is thrown and changes nothing |
| `ConfigBuilder.ConfigBuilder.OverridePropertiesFiles` | src/main/java/com/tngtech/configbuilder/ConfigBuilder.java:98-101 | the loader's base names are replaced, its other settings are kept, and the builder itself is returned |
| `ConfigBuilder.ConfigBuilder.SetupBuilderConfiguration` | src/main/java/com/tngtech/configbuilder/ConfigBuilder.java:134-139 | the configuration becomes `Setup` of its old state and of the loader's answer for its current settings |
| `ConfigBuilder.ConfigBuilder.InitializeErrorMessageSetup` | src/main/java/com/tngtech/configbuilder/ConfigBuilder.java:141-144 | the error-message setup is initialised with the `@ErrorMessageFile` value, or null when the class has none, and with the loader |
| `ConfigBuilder.ConfigBuilder.Build` | src/main/java/com/tngtech/configbuilder/ConfigBuilder.java:117-124 | history, configuration, error-message setup and result are those of `BuildRun`; on success the result is a freshly allocated instance of the builder's class |
| `ConfigBuilder.ConfigBuilder.Merge` | src/main/java/com/tngtech/configbuilder/ConfigBuilder.java:126-132 | history, configuration, error-message setup and the instance's values are those of `MergeRun`; on success the result is the very instance passed in |

## Left out

- `printCommandLineHelp` (console output through Apache Commons CLI) and the `commandLineOptions` field, which only that method uses.
- The public constructor's bean lookups and `ConfigBuilderFactory`. Both are dependency-injection wiring; the model takes the collaborators as constructor arguments.
- The property loader configurator that applies the class-level loader annotations in the private constructor. Its code is not part of this model, so the builder receives an already-configured loader.
- Reading properties files, the host-name lookup, command-line parsing, construction by reflection, the field value extractor, merge-mode field setting (`setEmptyFields`) and JSR 303 validation. The code of each is not part of this model, so each is an injected function or a parameter and its inner semantics are not modelled.
- Error-message setup: loading and rendering the message templates is not part of this model; it records only the arguments of its latest initialisation, and its own failures are not modelled. A `ConfigBuilderException` therefore carries the arguments of its message rather than the rendered text.
- Reflection and logging: `setAccessible`, `getDeclaredFields`, the annotation-presence checks and the log4j messages. A class's fields are an explicit list of descriptors.
- `PropertyValueProcessor.GetValue`: requires a `@PropertyValue` annotation. The Java cast would throw `ClassCastException` on any other kind, and the processor registry never passes one.
- The Java `Properties` defaults chain. The properties table is a plain map.
- The demo application's `Config` class and its locale transformer, which is a call into the Java library.
- Concurrency: a builder configuration shared between builders that run at the same time.
