/** The key under which a provider caches its tracers: an instrumentation
    scope name, never null, and a version that may be null. */
module TracerKeys {
  import opened Wrappers

  /** A value object compared structurally over both fields. A null version
      (`None`) is a value of its own, distinct from every string version. */
  datatype Key = Key(name: string, version: Option<string>)

  /** A null name becomes the empty string; any other name is kept. */
  function NormalizeName(name: Option<string>): string {
    name.GetOr("")
  }

  /** The key constructor: normalises the name, keeps the version as given. */
  function MakeKey(name: Option<string>, version: Option<string>): (k: Key)
    ensures k.version == version
    ensures name.Some? ==> k.name == name.value
    ensures name.None? ==> k.name == ""
  {
    Key(NormalizeName(name), version)
  }

  /** A null name and the empty name build the same key. */
  lemma NullNameIsEmptyName(version: Option<string>)
    ensures MakeKey(None, version) == MakeKey(Some(""), version)
  {
  }

  /** Two constructed keys are equal exactly when their normalised names
      are equal and their versions are equal. */
  lemma KeyEquality(name1: Option<string>, version1: Option<string>,
                    name2: Option<string>, version2: Option<string>)
    ensures MakeKey(name1, version1) == MakeKey(name2, version2)
        <==> NormalizeName(name1) == NormalizeName(name2) && version1 == version2
  {
  }

  /** The version discriminates keys: a null version differs from every
      string version, the empty one included, and different strings differ. */
  lemma VersionsDiscriminate(name: Option<string>, v: string, w: string)
    requires v != w
    ensures MakeKey(name, None) != MakeKey(name, Some(v))
    ensures MakeKey(name, None) != MakeKey(name, Some(""))
    ensures MakeKey(name, Some(v)) != MakeKey(name, Some(w))
  {
  }
}
