/**
 * The part of the external property loader that the builder configures: its base names,
 * its suffix list, its search locations and its file extension. Reading the files is
 * outside this model; a load is a function of these settings.
 */
module PropertyLoading {

  /** A flat key-to-value properties table. */
  type Properties = map<string, string>

  /** A snapshot of a loader's settings. */
  datatype LoaderSettings = LoaderSettings(
    baseNames: seq<string>,
    suffixes: seq<string>,
    locations: seq<string>,
    extension: string)

  class PropertyLoader {
    var baseNames: seq<string>
    var suffixes: seq<string>
    var locations: seq<string>
    var extension: string

    function Settings(): LoaderSettings
      reads this
    {
      LoaderSettings(baseNames, suffixes, locations, extension)
    }

    constructor (settings: LoaderSettings)
      ensures Settings() == settings
    {
      baseNames := settings.baseNames;
      suffixes := settings.suffixes;
      locations := settings.locations;
      extension := settings.extension;
    }

    /** `withBaseNames`: replaces the base names. */
    method WithBaseNames(names: seq<string>)
      modifies this
      ensures Settings() == old(Settings()).(baseNames := names)
    {
      baseNames := names;
    }

    /** `getSuffixes().clear()`. */
    method ClearSuffixes()
      modifies this
      ensures Settings() == old(Settings()).(suffixes := [])
    {
      suffixes := [];
    }

    /** `getSuffixes().addString(suffix)`: appends one suffix. */
    method AddSuffix(suffix: string)
      modifies this
      ensures Settings() == old(Settings()).(suffixes := old(suffixes) + [suffix])
    {
      suffixes := suffixes + [suffix];
    }

    /**
     * `getSuffixes().addLocalHostNames()`: appends the names of the local host. The host-name
     * lookup is the operating system's; the names it finds are the parameter.
     */
    method AddLocalHostNames(localHostNames: seq<string>)
      modifies this
      ensures Settings() == old(Settings()).(suffixes := old(suffixes) + localHostNames)
    {
      suffixes := suffixes + localHostNames;
    }
  }
}
