/** Applies a `@PropertySuffixes` annotation to a property loader. */
module PropertySuffixProcessor {
  import opened Annotation
  import opened PropertyLoading

  /**
   * The suffix list the processor leaves behind: the extra suffixes in annotation order,
   * followed by the local host names exactly when `hostNames` is set. The list held before
   * plays no part.
   */
  function RebuiltSuffixes(annotation: PropertySuffixes, localHostNames: seq<string>): (r: seq<string>)
    ensures |r| >= |annotation.extraSuffixes| && r[..|annotation.extraSuffixes|] == annotation.extraSuffixes
    ensures annotation.hostNames ==> r[|annotation.extraSuffixes|..] == localHostNames
    ensures !annotation.hostNames ==> r == annotation.extraSuffixes
    ensures annotation.extraSuffixes == [] && !annotation.hostNames ==> r == []
  {
    annotation.extraSuffixes + (if annotation.hostNames then localHostNames else [])
  }

  /** The loader settings after the processor ran: only the suffixes differ. */
  function Configured(settings: LoaderSettings, annotation: PropertySuffixes, localHostNames: seq<string>): LoaderSettings {
    settings.(suffixes := RebuiltSuffixes(annotation, localHostNames))
  }

  /** Running the processor twice with one annotation leaves what running it once leaves. */
  lemma ConfiguredIdempotent(settings: LoaderSettings, annotation: PropertySuffixes, localHostNames: seq<string>)
    ensures Configured(Configured(settings, annotation, localHostNames), annotation, localHostNames)
         == Configured(settings, annotation, localHostNames)
  {
  }

  /** Whatever suffixes a loader held before, the processor leaves the same settings behind. */
  lemma ConfiguredDiscardsPreviousSuffixes(settings: LoaderSettings, previous: seq<string>, annotation: PropertySuffixes, localHostNames: seq<string>)
    ensures Configured(settings.(suffixes := previous), annotation, localHostNames)
         == Configured(settings, annotation, localHostNames)
  {
  }

  /**
   * `configurePropertyLoader`: clears the suffix list, appends each extra suffix in turn, then
   * appends the local host names if `hostNames` is set.
   */
  method ConfigurePropertyLoader(annotation: PropertySuffixes, loader: PropertyLoader, localHostNames: seq<string>)
    modifies loader
    ensures loader.Settings() == Configured(old(loader.Settings()), annotation, localHostNames)
  {
    loader.ClearSuffixes();
    var suffixes := annotation.extraSuffixes;
    for i := 0 to |suffixes|
      invariant loader.Settings() == old(loader.Settings()).(suffixes := suffixes[..i])
    {
      loader.AddSuffix(suffixes[i]);
      assert suffixes[..i + 1] == suffixes[..i] + [suffixes[i]];
    }
    if annotation.hostNames {
      loader.AddLocalHostNames(localHostNames);
    }
    assert suffixes[..|suffixes|] == suffixes;
  }

  /** A caller that applies the same annotation twice ends with the settings of a single application. */
  method ConfigureTwice(annotation: PropertySuffixes, loader: PropertyLoader, localHostNames: seq<string>)
    modifies loader
    ensures loader.Settings() == Configured(old(loader.Settings()), annotation, localHostNames)
  {
    ConfigurePropertyLoader(annotation, loader, localHostNames);
    ConfigurePropertyLoader(annotation, loader, localHostNames);
    ConfiguredIdempotent(old(loader.Settings()), annotation, localHostNames);
  }
}
