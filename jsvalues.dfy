/**
 * The pieces of JavaScript value semantics that the request handlers rely on:
 * a possibly-undefined string, its truthiness, the `x || ''` default, the
 * `filter(Boolean)` of an array of strings and `Array.prototype.join`.
 * `SplitCrlf` is the reader of text joined with CRLF, the inverse of `Join`.
 */
module JsValues {

  /** A value that may be `undefined` (None) in the source. */
  datatype Option<T> = None | Some(value: T)

  /** A string value or `undefined` is truthy when it is present and non-empty. */
  predicate Truthy(v: Option<string>) {
    v.Some? && v.value != ""
  }

  /** `v || ''`: the value itself when truthy, else the empty string. */
  function OrEmpty(v: Option<string>): string {
    if Truthy(v) then v.value else ""
  }

  /** Defaulting with `|| ''` keeps any submitted string and turns an absent one into ''. */
  lemma OrEmptyKeepsSubmitted(v: Option<string>)
    ensures v.Some? ==> OrEmpty(v) == v.value
    ensures v.None? ==> OrEmpty(v) == ""
    ensures OrEmpty(v) == "" <==> !Truthy(v)
  {
  }

  /** `xs.filter(Boolean)` on an array of strings: drops every empty string, keeps order. */
  function FilterNonEmpty(xs: seq<string>): (r: seq<string>)
    ensures |r| <= |xs|
    ensures forall i :: 0 <= i < |r| ==> r[i] != ""
    ensures forall x :: x in r <==> x in xs && x != ""
    decreases |xs|
  {
    if xs == [] then []
    else if xs[0] == "" then FilterNonEmpty(xs[1..])
    else [xs[0]] + FilterNonEmpty(xs[1..])
  }

  /** Filtering distributes over concatenation, so it preserves the relative order of what it keeps. */
  lemma {:induction false} FilterNonEmptyAppend(a: seq<string>, b: seq<string>)
    ensures FilterNonEmpty(a + b) == FilterNonEmpty(a) + FilterNonEmpty(b)
    decreases |a|
  {
    if a == [] {
      assert a + b == b;
    } else {
      assert (a + b)[0] == a[0];
      assert (a + b)[1..] == a[1..] + b;
      FilterNonEmptyAppend(a[1..], b);
    }
  }

  /** A list without empty strings passes the filter unchanged. */
  lemma {:induction false} FilterNonEmptyKeepsAll(xs: seq<string>)
    requires forall i :: 0 <= i < |xs| ==> xs[i] != ""
    ensures FilterNonEmpty(xs) == xs
    decreases |xs|
  {
    if xs != [] {
      FilterNonEmptyKeepsAll(xs[1..]);
      assert [xs[0]] + xs[1..] == xs;
    }
  }

  /** `lines.join(sep)`: no separator before the first or after the last element. */
  function Join(lines: seq<string>, sep: string): string
    decreases |lines|
  {
    if |lines| == 0 then ""
    else if |lines| == 1 then lines[0]
    else lines[0] + sep + Join(lines[1..], sep)
  }

  predicate StartsWith(s: string, prefix: string) {
    |prefix| <= |s| && s[..|prefix|] == prefix
  }

  predicate EndsWith(s: string, suffix: string) {
    |suffix| <= |s| && s[|s| - |suffix|..] == suffix
  }

  /** A list of two or more elements joins as its first element, a separator, then the rest joined. */
  lemma JoinCons(lines: seq<string>, sep: string)
    requires |lines| >= 2
    ensures Join(lines, sep) == lines[0] + (sep + Join(lines[1..], sep))
  {
  }

  /** Joining a non-empty list with one more element appends the separator and that element. */
  lemma {:induction false} JoinSnoc(lines: seq<string>, last: string, sep: string)
    requires |lines| > 0
    ensures Join(lines + [last], sep) == Join(lines, sep) + sep + last
    decreases |lines|
  {
    var all := lines + [last];
    assert all[0] == lines[0];
    if |lines| == 1 {
      assert all[1..] == [last];
    } else {
      assert all[1..] == lines[1..] + [last];
      JoinSnoc(lines[1..], last, sep);
      JoinCons(all, sep);
      JoinCons(lines, sep);
    }
  }

  /** With two or more lines the joined text starts with the first line and a separator. */
  lemma JoinStartsWith(lines: seq<string>, sep: string)
    requires |lines| >= 2
    ensures StartsWith(Join(lines, sep), lines[0] + sep)
  {
    JoinCons(lines, sep);
    var rest := Join(lines[1..], sep);
    assert Join(lines, sep) == (lines[0] + sep) + rest;
  }

  /** With two or more lines the joined text ends with a separator and the last line. */
  lemma JoinEndsWith(lines: seq<string>, sep: string)
    requires |lines| >= 2
    ensures EndsWith(Join(lines, sep), sep + lines[|lines| - 1])
  {
    var n := |lines|;
    var init := lines[..n - 1];
    assert lines == init + [lines[n - 1]];
    JoinSnoc(init, lines[n - 1], sep);
    assert Join(lines, sep) == Join(init, sep) + (sep + lines[n - 1]);
  }

  const Crlf: string := "\r\n"

  /** `s.split('\r\n')`: the pieces of `s` between CRLF pairs; there is always at least one. */
  function SplitCrlf(s: string): (r: seq<string>)
    ensures |r| >= 1
    decreases |s|
  {
    if |s| == 0 then [""]
    else if |s| >= 2 && s[0] == '\r' && s[1] == '\n' then [""] + SplitCrlf(s[2..])
    else
      var rest := SplitCrlf(s[1..]);
      [[s[0]] + rest[0]] + rest[1..]
  }

  /** A CRLF at the front closes an empty first piece. */
  lemma SplitCrlfAtCrlf(t: string)
    ensures SplitCrlf(Crlf + t) == [""] + SplitCrlf(t)
  {
    assert (Crlf + t)[2..] == t;
  }

  /** Text without a carriage return glues onto the first piece of what follows it. */
  lemma {:induction false} SplitCrlfFreePrefix(x: string, t: string)
    requires '\r' !in x
    ensures SplitCrlf(x + t) == [x + SplitCrlf(t)[0]] + SplitCrlf(t)[1..]
    decreases |x|
  {
    var r := SplitCrlf(t);
    if |x| == 0 {
      assert x + t == t;
      assert x + r[0] == r[0];
    } else {
      assert x[0] in x;
      assert (x + t)[0] == x[0];
      assert (x + t)[1..] == x[1..] + t;
      assert forall c :: c in x[1..] ==> c in x;
      SplitCrlfFreePrefix(x[1..], t);
      assert [x[0]] + (x[1..] + r[0]) == x + r[0];
    }
  }

  /** Splitting lines joined with CRLF gives the lines back, when none holds a carriage return. */
  lemma {:induction false} SplitJoinCrlf(lines: seq<string>)
    requires |lines| > 0
    requires forall i :: 0 <= i < |lines| ==> '\r' !in lines[i]
    ensures SplitCrlf(Join(lines, Crlf)) == lines
    decreases |lines|
  {
    if |lines| == 1 {
      SplitCrlfFreePrefix(lines[0], "");
      assert lines[0] + "" == lines[0];
    } else {
      var tail := Join(lines[1..], Crlf);
      SplitJoinCrlf(lines[1..]);
      SplitCrlfAtCrlf(tail);
      JoinCons(lines, Crlf);
      SplitCrlfFreePrefix(lines[0], Crlf + tail);
      assert lines[0] + "" == lines[0];
      assert [lines[0]] + lines[1..] == lines;
    }
  }
}
