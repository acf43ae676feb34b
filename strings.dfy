/** Go's strings.Split for a one-character separator, as the router uses it. */
module Strings {

  /** The inverse of Split: the parts with `sep` between consecutive ones. */
  function Join(parts: seq<string>, sep: char): (r: string)
    requires |parts| >= 1
    decreases |parts|
  {
    if |parts| == 1 then parts[0] else parts[0] + [sep] + Join(parts[1..], sep)
  }

  /** strings.Split(s, string(sep)): the maximal sep-free pieces of `s`.
      It never returns an empty slice (an empty `s` gives [""]). */
  function Split(s: string, sep: char): (parts: seq<string>)
    ensures |parts| >= 1
    ensures Join(parts, sep) == s
    ensures forall i :: 0 <= i < |parts| ==> sep !in parts[i]
    decreases |s|
  {
    if |s| == 0 then [""]
    else
      var rest := Split(s[1..], sep);
      if s[0] == sep then
        assert ([""] + rest)[1..] == rest;
        [""] + rest
      else
        var parts := [[s[0]] + rest[0]] + rest[1..];
        assert |parts| > 1 ==> parts[1..] == rest[1..];
        assert forall i :: 1 <= i < |parts| ==> parts[i] == rest[i];
        parts
  }

  /** The first piece of Split is the text before the first `sep`
      (all of `s` when there is none). */
  lemma SplitHead(s: string, sep: char)
    ensures Split(s, sep)[0] <= s
    ensures sep !in Split(s, sep)[0]
    ensures |Split(s, sep)[0]| < |s| ==> s[|Split(s, sep)[0]|] == sep
  {
  }

  /** A sep-free prefix followed by `sep` is exactly what the first piece keeps. */
  lemma {:induction false} SplitHeadBeforeSep(name: string, rest: string, sep: char)
    requires sep !in name
    ensures Split(name + [sep] + rest, sep)[0] == name
  {
    var s := name + [sep] + rest;
    var head := Split(s, sep)[0];
    SplitHead(s, sep);
    assert |head| >= |name|;
    assert s[|name|] == sep;
    assert |head| <= |name|;
  }

  /** A string without `sep` splits into itself alone. */
  lemma SplitNoSep(s: string, sep: char)
    requires sep !in s
    ensures Split(s, sep) == [s]
  {
  }
}
