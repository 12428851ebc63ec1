/**
 * The set-up both page outputs run once per stream: resolve the key columns
 * in the input schema and split every setting's `transliterators` string
 * into its chain of rule identifiers.
 */
module Setup {
  import opened Wrappers
  import opened Embulk
  import opened Config
  import opened JavaStrings

  datatype SetupError =
    | ColumnNotFound(name: string)        // `lookupColumn` throws for an unknown key name
    | MissingTransliterators(index: nat)  // `setting.get("transliterators").split` on null

  /** `keyNameColumns`: each key name resolved in the input schema, in configured order. */
  ghost predicate KeysResolved(input: Schema, keyNames: seq<string>, columns: seq<Column>) {
    |columns| == |keyNames| &&
    forall k :: 0 <= k < |keyNames| ==> LookupColumn(input, keyNames[k]) == Some(columns[k])
  }

  /** `transliterators`: chain i is setting i's identifiers, split on commas. */
  ghost predicate ChainsBuilt(settings: seq<Setting>, chains: seq<seq<string>>) {
    |chains| == |settings| &&
    forall i :: 0 <= i < |settings| ==>
      settings[i].transliterators.Some? && chains[i] == Split(settings[i].transliterators.value)
  }

  /** `k` is the first key name the input schema lacks. */
  ghost predicate FirstMissingKey(input: Schema, keyNames: seq<string>, k: int) {
    0 <= k < |keyNames| && LookupColumn(input, keyNames[k]).None? &&
    forall k' :: 0 <= k' < k ==> LookupColumn(input, keyNames[k']).Some?
  }

  /** `i` is the first setting without a `transliterators` entry. */
  ghost predicate FirstWithoutTransliterators(settings: seq<Setting>, i: int) {
    0 <= i < |settings| && settings[i].transliterators.None? &&
    forall i' :: 0 <= i' < i ==> settings[i'].transliterators.Some?
  }

  /** The key loop: stops at the first name the input schema does not have. */
  method ResolveKeys(input: Schema, keyNames: seq<string>) returns (r: Result<seq<Column>, SetupError>)
    ensures r.Success? <==> forall k :: 0 <= k < |keyNames| ==> LookupColumn(input, keyNames[k]).Some?
    ensures r.Success? ==> KeysResolved(input, keyNames, r.value)
    ensures r.Failure? ==> exists k :: FirstMissingKey(input, keyNames, k) && r.error == ColumnNotFound(keyNames[k])
  {
    var columns: seq<Column> := [];
    for k := 0 to |keyNames|
      invariant KeysResolved(input, keyNames[..k], columns)
    {
      var column := LookupColumn(input, keyNames[k]);
      if column.None? {
        assert FirstMissingKey(input, keyNames, k);
        return Failure(ColumnNotFound(keyNames[k]));
      }
      assert keyNames[..k + 1][..k] == keyNames[..k];
      columns := columns + [column.value];
    }
    assert keyNames[..|keyNames|] == keyNames;
    r := Success(columns);
  }

  /**
   * The identifiers of one chain, in split order (`Transliterator.getInstance`
   * on each is the library's concern: a chain holds the identifiers). With
   * the instance abstracted to its identifier this loop is a copy; it is
   * kept as the model of the inner loop and carries no proof of its own.
   */
  method Tokenizers(parts: seq<string>) returns (tokenizers: seq<string>)
    ensures tokenizers == parts
  {
    tokenizers := [];
    for t := 0 to |parts|
      invariant tokenizers == parts[..t]
    {
      tokenizers := tokenizers + [parts[t]];
    }
    assert parts[..|parts|] == parts;
  }

  /** The settings loop: one chain per setting, in setting order. */
  method BuildChains(settings: seq<Setting>) returns (r: Result<seq<seq<string>>, SetupError>)
    ensures r.Success? <==> forall i :: 0 <= i < |settings| ==> settings[i].transliterators.Some?
    ensures r.Success? ==> ChainsBuilt(settings, r.value)
    ensures r.Failure? ==> r.error.MissingTransliterators? && FirstWithoutTransliterators(settings, r.error.index)
  {
    var chains: seq<seq<string>> := [];
    for i := 0 to |settings|
      invariant ChainsBuilt(settings[..i], chains)
    {
      var ids := settings[i].transliterators;
      if ids.None? {
        assert FirstWithoutTransliterators(settings, i);
        return Failure(MissingTransliterators(i));
      }
      var tokenizers := Tokenizers(Split(ids.value));
      assert settings[..i + 1][..i] == settings[..i];
      chains := chains + [tokenizers];
    }
    assert settings[..|settings|] == settings;
    r := Success(chains);
  }
}
