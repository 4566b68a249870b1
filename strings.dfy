/** The string operations the handlers rely on: lower-casing, joining, file names and ASCII bytes. */
module Strings {
  import opened Numbers

  newtype byte = b: int | 0 <= b < 256

  /** `Encoding.ASCII.GetBytes`: characters below 128 become their code, every other one '?'. */
  function AsciiBytes(s: string): (r: seq<byte>)
    ensures |r| == |s|
    ensures forall i :: 0 <= i < |s| ==> (s[i] as int < 128 ==> r[i] as int == s[i] as int)
    ensures forall i :: 0 <= i < |s| ==> (s[i] as int >= 128 ==> r[i] == '?' as int as byte)
  {
    seq(|s|, i requires 0 <= i < |s| => if s[i] as int < 128 then s[i] as int as byte else '?' as int as byte)
  }

  /** Lower-casing of one character; only the ASCII letters A to Z change. */
  function LowerChar(c: char): char {
    if 'A' <= c <= 'Z' then (c as int + 32) as char else c
  }

  /** `String.ToLower()`, restricted to ASCII case mapping. */
  function Lower(s: string): string {
    seq(|s|, i requires 0 <= i < |s| => LowerChar(s[i]))
  }

  lemma LowerConcat(a: string, b: string)
    ensures Lower(a + b) == Lower(a) + Lower(b)
  {
  }

  /** Lower-casing leaves a string without ASCII capitals as it is. */
  lemma LowerFixes(s: string)
    requires forall i :: 0 <= i < |s| ==> !('A' <= s[i] <= 'Z')
    ensures Lower(s) == s
  {
  }

  /** Decimal text is unchanged by lower-casing. */
  lemma LowerIntToString(n: int)
    ensures Lower(IntToString(n)) == IntToString(n)
  {
    IntToStringChars(n);
    LowerFixes(IntToString(n));
  }

  /** The entries in order with one separator between each two neighbours, none before or after. */
  function Join(xs: seq<string>, sep: string): string
    decreases |xs|
  {
    if |xs| == 0 then ""
    else if |xs| == 1 then xs[0]
    else Join(xs[..|xs| - 1], sep) + sep + xs[|xs| - 1]
  }

  /** Appending one entry adds a separator exactly when there was an entry before it. */
  lemma JoinAppend(xs: seq<string>, x: string, sep: string)
    ensures Join(xs + [x], sep) == if |xs| == 0 then x else Join(xs, sep) + sep + x
  {
    assert (xs + [x])[..|xs|] == xs;
  }

  /**
   * The text a loop has built after appending the first `l` entries, each followed by a
   * separator unless it is the last one.
   */
  function JoinedPrefix(xs: seq<string>, l: nat, sep: string): string
    requires l <= |xs|
  {
    Join(xs[..l], sep) + (if 0 < l < |xs| then sep else "")
  }

  /** Appending entry `l`, and a separator unless it is the last, extends the joined prefix by one. */
  lemma JoinedPrefixStep(head: string, xs: seq<string>, l: nat, sep: string)
    requires l < |xs|
    ensures head + JoinedPrefix(xs, l, sep) + (xs[l] + (if l < |xs| - 1 then sep else ""))
            == head + JoinedPrefix(xs, l + 1, sep)
  {
    JoinedPrefixAppend(xs, l, sep);
  }

  lemma JoinedPrefixAppend(xs: seq<string>, l: nat, sep: string)
    requires l < |xs|
    ensures JoinedPrefix(xs, l, sep) + (xs[l] + (if l < |xs| - 1 then sep else "")) == JoinedPrefix(xs, l + 1, sep)
  {
    assert xs[..l + 1] == xs[..l] + [xs[l]];
    JoinAppend(xs[..l], xs[l], sep);
    if l == 0 {
      assert JoinedPrefix(xs, l, sep) == "";
    } else {
      var j := Join(xs[..l], sep);
      var tail := if l < |xs| - 1 then sep else "";
      assert JoinedPrefix(xs, l, sep) == j + sep;
      assert JoinedPrefix(xs, l + 1, sep) == j + sep + xs[l] + tail;
    }
  }

  /** Once every entry is appended, the built text is the joined list. */
  lemma JoinedPrefixComplete(xs: seq<string>, sep: string)
    ensures JoinedPrefix(xs, |xs|, sep) == Join(xs, sep)
  {
    assert xs[..|xs|] == xs;
  }

  /** The number of occurrences of `c` in `s`. */
  function Count(c: char, s: string): nat
    decreases |s|
  {
    if |s| == 0 then 0 else Count(c, s[..|s| - 1]) + (if s[|s| - 1] == c then 1 else 0)
  }

  lemma {:induction false} CountConcat(c: char, a: string, b: string)
    ensures Count(c, a + b) == Count(c, a) + Count(c, b)
    decreases |b|
  {
    if |b| == 0 {
      assert a + b == a;
    } else {
      assert (a + b)[..|a + b| - 1] == a + b[..|b| - 1];
      CountConcat(c, a, b[..|b| - 1]);
    }
  }

  /**
   * When every entry holds `k` copies of `c` and the separator none, the joined text holds
   * `k` copies per entry: exactly one `k`-marked entry per element, whatever the separators.
   */
  lemma {:induction false} JoinCount(c: char, xs: seq<string>, sep: string, k: nat)
    requires forall i :: 0 <= i < |xs| ==> Count(c, xs[i]) == k
    requires Count(c, sep) == 0
    ensures Count(c, Join(xs, sep)) == k * |xs|
    decreases |xs|
  {
    if |xs| > 1 {
      var init := xs[..|xs| - 1];
      JoinCount(c, init, sep, k);
      CountConcat(c, Join(init, sep), sep);
      CountConcat(c, Join(init, sep) + sep, xs[|xs| - 1]);
      MultiplyStep(k, |init|);
    }
  }

  lemma MultiplyStep(k: nat, n: nat)
    ensures k * (n + 1) == k * n + k
  {
  }

  /** A string made only of digits and '-' holds none of `c` when `c` is neither. */
  lemma {:induction false} CountIntToString(c: char, n: int)
    requires c != '-' && !IsDigit(c)
    ensures Count(c, IntToString(n)) == 0
  {
    IntToStringChars(n);
    NoCount(c, IntToString(n));
  }

  lemma {:induction false} NoCount(c: char, s: string)
    requires forall i :: 0 <= i < |s| ==> s[i] != c
    ensures Count(c, s) == 0
    decreases |s|
  {
    if |s| > 0 {
      NoCount(c, s[..|s| - 1]);
    }
  }

  /** The separators `Path.GetFileName` recognises on Windows: directory, alternate and volume. */
  predicate IsSeparator(c: char) {
    c == '\\' || c == '/' || c == ':'
  }

  /** `Path.GetFileName`: the part of the path after its last separator. */
  function FileName(path: string): string
    decreases |path|
  {
    if |path| == 0 || IsSeparator(path[|path| - 1]) then ""
    else FileName(path[..|path| - 1]) + [path[|path| - 1]]
  }

  /** The file name is a suffix of the path. */
  lemma {:induction false} FileNameIsSuffix(path: string)
    ensures |FileName(path)| <= |path| && FileName(path) == path[|path| - |FileName(path)|..]
    decreases |path|
  {
    if |path| > 0 && !IsSeparator(path[|path| - 1]) {
      var init := path[..|path| - 1];
      FileNameIsSuffix(init);
      var n := FileName(init);
      assert init[|init| - |n|..] + [path[|path| - 1]] == path[|path| - |n| - 1..];
    }
  }

  /** The file name holds no separator. */
  lemma {:induction false} FileNameHasNoSeparator(path: string)
    ensures forall i :: 0 <= i < |FileName(path)| ==> !IsSeparator(FileName(path)[i])
    decreases |path|
  {
    if |path| > 0 && !IsSeparator(path[|path| - 1]) {
      FileNameHasNoSeparator(path[..|path| - 1]);
    }
  }

  /** What precedes the file name, if anything, is a separator. */
  lemma {:induction false} FileNameAfterSeparator(path: string)
    ensures |FileName(path)| < |path| ==> IsSeparator(path[|path| - |FileName(path)| - 1])
    decreases |path|
  {
    if |path| > 0 && !IsSeparator(path[|path| - 1]) {
      var init := path[..|path| - 1];
      FileNameAfterSeparator(init);
      var n := FileName(init);
      assert |FileName(path)| == |n| + 1;
      if |n| < |init| {
        assert path[|path| - |n| - 2] == init[|init| - |n| - 1];
      }
    }
  }

  /**
   * The file name is the longest separator-free suffix of the path: what precedes it, if
   * anything, is a separator.
   */
  lemma FileNameSuffix(path: string)
    ensures |FileName(path)| <= |path|
    ensures FileName(path) == path[|path| - |FileName(path)|..]
    ensures forall i :: 0 <= i < |FileName(path)| ==> !IsSeparator(FileName(path)[i])
    ensures |FileName(path)| < |path| ==> IsSeparator(path[|path| - |FileName(path)| - 1])
  {
    FileNameIsSuffix(path);
    FileNameHasNoSeparator(path);
    FileNameAfterSeparator(path);
  }

  /** The name appended to a directory with a backslash is the file name of the combined path. */
  lemma {:induction false} FileNameOfChild(dir: string, name: string)
    requires forall i :: 0 <= i < |name| ==> !IsSeparator(name[i])
    ensures FileName(dir + "\\" + name) == name
    decreases |name|
  {
    if |name| > 0 {
      var p := dir + "\\" + name;
      assert p[..|p| - 1] == dir + "\\" + name[..|name| - 1];
      FileNameOfChild(dir, name[..|name| - 1]);
    } else {
      assert (dir + "\\" + name)[|dir|] == '\\';
    }
  }
}
