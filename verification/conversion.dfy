/**
 * The conversion pipeline: a chain of ICU transliterators applied left to
 * right, then an optional case fold (`convert` in both page outputs).
 */
module Conversion {
  import opened Wrappers

  /**
   * The foreign libraries, kept abstract: ICU's
   * `Transliterator.getInstance(id).transliterate(text)` (whose Java result
   * may be null, hence `Option`), and `String.toUpperCase` / `toLowerCase`.
   */
  datatype Engine = Engine(
    transliterate: (string, string) -> Option<string>,
    toUpper: string -> string,
    toLower: string -> string)

  /** A Java computation on nullable strings: it returns, or it dereferences null. */
  datatype Eval<+T> = Done(value: T) | NullPointer

  /**
   * The chain as the loop runs it: the last identifier is applied to what the
   * ones before it produced. Transliterating a null string throws.
   */
  function RunChain(engine: Engine, chain: seq<string>, source: Option<string>): Eval<Option<string>>
    decreases |chain|
  {
    if |chain| == 0 then Done(source)
    else match RunChain(engine, chain[..|chain| - 1], source)
      case NullPointer => NullPointer
      case Done(None) => NullPointer
      case Done(Some(t)) => Done(engine.transliterate(chain[|chain| - 1], t))
  }

  /** The same chain read from the front: t_n(...t_2(t_1(source))). */
  function ApplyFrom(engine: Engine, chain: seq<string>, source: Option<string>): Eval<Option<string>>
    decreases |chain|
  {
    if |chain| == 0 then Done(source)
    else match source
      case None => NullPointer
      case Some(t) => ApplyFrom(engine, chain[1..], engine.transliterate(chain[0], t))
  }

  /** Running `first` and then feeding its result to `second`. */
  function Then(engine: Engine, first: Eval<Option<string>>, second: seq<string>): Eval<Option<string>> {
    match first
    case NullPointer => NullPointer
    case Done(v) => ApplyFrom(engine, second, v)
  }

  /** The case fold: "upper" and "lower" fold the whole string (throwing on null); anything else, or no value, leaves it. */
  function CaseFold(engine: Engine, caseMode: Option<string>, v: Option<string>): Eval<Option<string>> {
    if caseMode == Some("upper") then
      (if v.None? then NullPointer else Done(Some(engine.toUpper(v.value))))
    else if caseMode == Some("lower") then
      (if v.None? then NullPointer else Done(Some(engine.toLower(v.value))))
    else Done(v)
  }

  /** What `convert` returns for a source string, a case mode and a chain. */
  function Converted(engine: Engine, source: Option<string>, caseMode: Option<string>, chain: seq<string>): Eval<Option<string>> {
    match ApplyFrom(engine, chain, source)
    case NullPointer => NullPointer
    case Done(v) => CaseFold(engine, caseMode, v)
  }

  /** Appending one more identifier applies it last. */
  lemma {:induction false} ApplyFromSnoc(engine: Engine, chain: seq<string>, id: string, source: Option<string>)
    ensures ApplyFrom(engine, chain + [id], source) ==
      match ApplyFrom(engine, chain, source)
      case NullPointer => NullPointer
      case Done(None) => NullPointer
      case Done(Some(t)) => Done(engine.transliterate(id, t))
    decreases |chain|
  {
    if |chain| == 0 {
      assert chain + [id] == [id];
      assert [id][1..] == [];
    } else if source.Some? {
      assert (chain + [id])[1..] == chain[1..] + [id];
      ApplyFromSnoc(engine, chain[1..], id, engine.transliterate(chain[0], source.value));
    }
  }

  /** The loop's left-to-right fold and the front-first reading agree on every chain. */
  lemma {:induction false} RunChainIsApplyFrom(engine: Engine, chain: seq<string>, source: Option<string>)
    ensures RunChain(engine, chain, source) == ApplyFrom(engine, chain, source)
    decreases |chain|
  {
    if |chain| > 0 {
      var init := chain[..|chain| - 1];
      RunChainIsApplyFrom(engine, init, source);
      ApplyFromSnoc(engine, init, chain[|chain| - 1], source);
      assert init + [chain[|chain| - 1]] == chain;
    }
  }

  /** Splitting a chain anywhere: the second part runs on what the first part produced. */
  lemma {:induction false} ChainComposes(engine: Engine, first: seq<string>, second: seq<string>, source: Option<string>)
    ensures ApplyFrom(engine, first + second, source) == Then(engine, ApplyFrom(engine, first, source), second)
    decreases |first|
  {
    if |first| > 0 && source.Some? {
      assert (first + second)[1..] == first[1..] + second;
      ChainComposes(engine, first[1..], second, engine.transliterate(first[0], source.value));
    } else if |first| == 0 {
      assert first + second == second;
    }
  }

  /** For the chain [a, b] the result is b(a(s)), never a(b(s)). */
  lemma TwoStepOrder(engine: Engine, a: string, b: string, s: string)
    requires engine.transliterate(a, s).Some?
    ensures RunChain(engine, [a, b], Some(s)) == Done(engine.transliterate(b, engine.transliterate(a, s).value))
  {
    RunChainIsApplyFrom(engine, [a, b], Some(s));
    var t := engine.transliterate(a, s);
    assert [a, b][1..] == [b];
    assert ApplyFrom(engine, [a, b], Some(s)) == ApplyFrom(engine, [b], t);
    assert [b][1..] == [];
    assert ApplyFrom(engine, [b], t) == ApplyFrom(engine, [], engine.transliterate(b, t.value));
  }

  /**
   * The fold is applied once, after the whole chain: converting with a chain
   * split in two equals running the first part with no fold and then
   * converting its result with the second part.
   */
  lemma FoldAfterWholeChain(engine: Engine, first: seq<string>, second: seq<string>, caseMode: Option<string>, source: Option<string>)
    ensures Converted(engine, source, caseMode, first + second) ==
      match ApplyFrom(engine, first, source)
      case NullPointer => NullPointer
      case Done(v) => Converted(engine, v, caseMode, second)
  {
    ChainComposes(engine, first, second, source);
  }

  /** The three case modes: "upper", "lower", and every other value (or none) leaving a non-null string alone. */
  lemma CaseModes(engine: Engine, caseMode: Option<string>, s: string)
    ensures caseMode == Some("upper") ==> CaseFold(engine, caseMode, Some(s)) == Done(Some(engine.toUpper(s)))
    ensures caseMode == Some("lower") ==> CaseFold(engine, caseMode, Some(s)) == Done(Some(engine.toLower(s)))
    ensures caseMode != Some("upper") && caseMode != Some("lower") ==> CaseFold(engine, caseMode, Some(s)) == Done(Some(s))
  {
  }

  /**
   * Null handling of `convert`: the result is null exactly when the last
   * transliterator returned null and no fold was asked for; it throws when a
   * null reaches a later transliterator or a fold. An empty chain (what
   * `split` gives for ",") never turns a string into null.
   */
  lemma {:induction false} ConvertedNull(engine: Engine, s: string, caseMode: Option<string>, chain: seq<string>)
    ensures Converted(engine, Some(s), caseMode, chain) == Done(None) <==>
      RunChain(engine, chain, Some(s)) == Done(None) && caseMode != Some("upper") && caseMode != Some("lower")
  {
    RunChainIsApplyFrom(engine, chain, Some(s));
  }

  /** `convert`: the chain in list order, then the case fold. */
  method Convert(engine: Engine, source: Option<string>, caseMode: Option<string>, chain: seq<string>)
    returns (r: Eval<Option<string>>)
    ensures r == Converted(engine, source, caseMode, chain)
  {
    var str := source;
    var i := 0;
    while i < |chain|
      invariant 0 <= i <= |chain|
      invariant RunChain(engine, chain[..i], source) == Done(str)
    {
      if str.None? {
        assert chain[..i + 1][..i] == chain[..i];
        RunChainIsApplyFrom(engine, chain, source);
        ChainComposes(engine, chain[..i], chain[i..], source);
        RunChainIsApplyFrom(engine, chain[..i], source);
        assert chain[..i] + chain[i..] == chain;
        return NullPointer;
      }
      assert chain[..i + 1][..i] == chain[..i];
      str := engine.transliterate(chain[i], str.value);
      i := i + 1;
    }
    assert chain[..i] == chain;
    RunChainIsApplyFrom(engine, chain, source);
    if caseMode == Some("upper") {
      if str.None? {
        return NullPointer;
      }
      str := Some(engine.toUpper(str.value));
    } else if caseMode == Some("lower") {
      if str.None? {
        return NullPointer;
      }
      str := Some(engine.toLower(str.value));
    }
    r := Done(str);
  }
}
