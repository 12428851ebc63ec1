/**
 * Java's `String.split(",")`, which turns a setting's `transliterators`
 * string into its chain of rule identifiers.
 */
module JavaStrings {
  import opened Seqs

  ghost predicate CommaFree(s: string) {
    forall i :: 0 <= i < |s| ==> s[i] != ','
  }

  /** Every field between commas, empty ones included: "a,,b," has four fields. */
  function Fields(s: string): (r: seq<string>)
    ensures |r| >= 1
    ensures forall i :: 0 <= i < |r| ==> CommaFree(r[i])
    decreases |s|
  {
    if |s| == 0 then [""]
    else
      var rest := Fields(s[1..]);
      if s[0] == ',' then [""] + rest
      else [[s[0]] + rest[0]] + rest[1..]
  }

  /** The fields put back together with a comma between each two. */
  function Join(parts: seq<string>): string
    requires |parts| >= 1
  {
    if |parts| == 1 then parts[0] else parts[0] + "," + Join(parts[1..])
  }

  /** The fields with the trailing empty ones removed (Java's limit 0). */
  function DropTrailingEmpty(parts: seq<string>): (r: seq<string>)
    ensures |r| <= |parts| && r == parts[..|r|]
    ensures |r| > 0 ==> r[|r| - 1] != ""
    ensures forall i :: |r| <= i < |parts| ==> parts[i] == ""
  {
    if |parts| == 0 then []
    else if parts[|parts| - 1] == "" then DropTrailingEmpty(parts[..|parts| - 1])
    else parts
  }

  /**
   * `s.split(",")`: a string with no comma gives itself alone ("" gives [""]);
   * otherwise the fields, in order, without trailing empty fields (",".split(",") is empty).
   */
  function Split(s: string): seq<string> {
    if CommaFreeCheck(s) then [s] else DropTrailingEmpty(Fields(s))
  }

  function CommaFreeCheck(s: string): (r: bool)
    ensures r <==> CommaFree(s)
  {
    forall i :: 0 <= i < |s| ==> s[i] != ','
  }

  /** Splitting keeps the fields in their order, drops only empty ones at the end, and never yields a comma. */
  lemma SplitIsFieldPrefix(s: string)
    ensures |Split(s)| <= |Fields(s)| && Split(s) == Fields(s)[..|Split(s)|]
    ensures forall i :: |Split(s)| <= i < |Fields(s)| ==> Fields(s)[i] == ""
    ensures forall i :: 0 <= i < |Split(s)| ==> CommaFree(Split(s)[i])
  {
    if CommaFree(s) {
      CommaFreeFields(s);
    }
  }

  /** A comma-free string is its own single field. */
  lemma {:induction false} CommaFreeFields(s: string)
    requires CommaFree(s)
    ensures Fields(s) == [s]
    decreases |s|
  {
    if |s| > 0 {
      CommaFreeFields(s[1..]);
      assert [s[0]] + s[1..] == s;
    }
  }

  /** What follows the first part in the joined string: nothing, or a comma and the rest joined. */
  function JoinTail(tail: seq<string>): string {
    if |tail| == 0 then "" else "," + Join(tail)
  }

  lemma JoinFirst(head: string, tail: seq<string>)
    ensures Join([head] + tail) == head + JoinTail(tail)
  {
    if |tail| > 0 {
      assert ([head] + tail)[1..] == tail;
    }
  }

  /** Prepending a character to the first part prepends it to the joined string. */
  lemma JoinConsHead(c: char, parts: seq<string>)
    requires |parts| >= 1
    ensures Join([[c] + parts[0]] + parts[1..]) == [c] + Join(parts)
  {
    var head, tail := parts[0], parts[1..];
    JoinFirst([c] + head, tail);
    JoinFirst(head, tail);
    assert [head] + tail == parts;
    ConcatAssoc([c], head, JoinTail(tail));
  }

  /** Joining the fields of a string gives the string back. */
  lemma {:induction false} JoinFields(s: string)
    ensures Join(Fields(s)) == s
    decreases |s|
  {
    if |s| > 0 {
      var rest := Fields(s[1..]);
      JoinFields(s[1..]);
      if s[0] == ',' {
        assert ([""] + rest)[1..] == rest;
      } else {
        JoinConsHead(s[0], rest);
      }
      assert [s[0]] + s[1..] == s;
    }
  }

  /** A comma-free prefix is glued onto the first field of what follows it. */
  lemma {:induction false} FieldsOfPrefix(p: string, t: string)
    requires CommaFree(p)
    ensures Fields(p + t) == [p + Fields(t)[0]] + Fields(t)[1..]
    decreases |p|
  {
    if |p| > 0 {
      assert (p + t)[1..] == p[1..] + t;
      FieldsOfPrefix(p[1..], t);
      var rest := Fields(p[1..] + t);
      assert rest[0] == p[1..] + Fields(t)[0] && rest[1..] == Fields(t)[1..];
      assert [p[0]] + (p[1..] + Fields(t)[0]) == p + Fields(t)[0];
    } else {
      assert p + t == t && p + Fields(t)[0] == Fields(t)[0];
      assert [Fields(t)[0]] + Fields(t)[1..] == Fields(t);
    }
  }

  /** Comma-free parts joined with commas split back into exactly those fields. */
  lemma {:induction false} FieldsJoin(parts: seq<string>)
    requires |parts| >= 1
    requires forall i :: 0 <= i < |parts| ==> CommaFree(parts[i])
    ensures Fields(Join(parts)) == parts
    decreases |parts|
  {
    if |parts| == 1 {
      CommaFreeFields(parts[0]);
    } else {
      var rest := Join(parts[1..]);
      FieldsJoin(parts[1..]);
      FieldsOfPrefix(parts[0], "," + rest);
      assert parts[0] + "," + rest == parts[0] + ("," + rest);
      assert ("," + rest)[1..] == rest;
      assert Fields("," + rest) == [""] + parts[1..];
      assert parts[0] + "" == parts[0];
      assert ([""] + parts[1..])[1..] == parts[1..];
      assert [parts[0]] + parts[1..] == parts;
    }
  }

  /**
   * Round trip: a chain of comma-free identifiers written with commas splits
   * back into the same chain, in the same order, unless it ends in an empty
   * identifier (which Java's split drops).
   */
  lemma SplitJoin(parts: seq<string>)
    requires |parts| >= 1
    requires forall i :: 0 <= i < |parts| ==> CommaFree(parts[i])
    requires |parts| == 1 || parts[|parts| - 1] != ""
    ensures Split(Join(parts)) == parts
  {
    FieldsJoin(parts);
    if |parts| == 1 {
      CommaFreeFields(parts[0]);
    } else {
      assert Join(parts) == parts[0] + "," + Join(parts[1..]);
      assert Join(parts)[|parts[0]|] == ',';
    }
  }
}
