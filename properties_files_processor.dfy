/** Applies a `@PropertiesFiles` annotation to a property loader. */
module PropertiesFilesProcessor {
  import opened Annotation
  import opened PropertyLoading

  /** The loader settings after the processor ran: the base names are the annotation's list. */
  function Configured(settings: LoaderSettings, annotation: PropertiesFiles): (r: LoaderSettings)
    ensures r.baseNames == annotation.value
    ensures r.suffixes == settings.suffixes && r.locations == settings.locations && r.extension == settings.extension
  {
    settings.(baseNames := annotation.value)
  }

  /** The base names held before are replaced, not appended to. */
  lemma ConfiguredReplacesBaseNames(settings: LoaderSettings, previous: seq<string>, annotation: PropertiesFiles)
    ensures Configured(settings.(baseNames := previous), annotation) == Configured(settings, annotation)
  {
  }

  /** `configurePropertyLoader`: hands the annotation's base names, in order, to the loader. */
  method ConfigurePropertyLoader(annotation: PropertiesFiles, loader: PropertyLoader)
    modifies loader
    ensures loader.Settings() == Configured(old(loader.Settings()), annotation)
  {
    loader.WithBaseNames(annotation.value);
  }
}
