/** The filter's configuration: `key_names`, `keep_input` and `settings`. */
module Config {
  import opened Wrappers

  /**
   * One entry of `settings`: its `transliterators` string (comma-separated
   * rule identifiers), its `suffix` and its `case`; each may be absent.
   */
  datatype Setting = Setting(transliterators: Option<string>, suffix: Option<string>, caseMode: Option<string>)

  datatype Task = Task(keyNames: seq<string>, keepInput: bool, settings: seq<Setting>)

  /** Guava's `MoreObjects.firstNonNull(first, second)` on strings. */
  function MoreObjectsFirstNonNull(first: Option<string>, second: string): string {
    match first
    case Some(s) => s
    case None => second
  }

  /** The suffix of a setting, "" when it has none. */
  function SuffixOrEmpty(setting: Setting): string {
    MoreObjectsFirstNonNull(setting.suffix, "")
  }

  /** The name of the column derived from `key` by `setting`. */
  function DerivedName(key: string, setting: Setting): (r: string)
    ensures |r| >= |key| && r[..|key|] == key
    ensures setting.suffix.None? ==> r == key
  {
    key + SuffixOrEmpty(setting)
  }
}
