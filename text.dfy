/**
 * The few Python string operations the backend uses: `str.lower()`,
 * `str.upper()`, `str.split(sep)`, slicing `s[:n]` and `str(n)` on a
 * status code. Case mapping is ASCII only.
 */
module Text {

  predicate IsUpperAscii(c: char) { 'A' <= c <= 'Z' }

  predicate IsLowerAscii(c: char) { 'a' <= c <= 'z' }

  function LowerChar(c: char): char
  {
    if IsUpperAscii(c) then (c as int + 32) as char else c
  }

  function UpperChar(c: char): char
  {
    if IsLowerAscii(c) then (c as int - 32) as char else c
  }

  /** `s.lower()`: every character mapped on its own. */
  function Lower(s: string): (r: string)
    ensures |r| == |s|
    ensures forall i :: 0 <= i < |s| ==> r[i] == LowerChar(s[i])
    ensures forall i :: 0 <= i < |s| ==> !IsUpperAscii(r[i])
  {
    if s == [] then [] else [LowerChar(s[0])] + Lower(s[1..])
  }

  /** `s.upper()`: every character mapped on its own. */
  function Upper(s: string): (r: string)
    ensures |r| == |s|
    ensures forall i :: 0 <= i < |s| ==> r[i] == UpperChar(s[i])
    ensures forall i :: 0 <= i < |s| ==> !IsLowerAscii(r[i])
  {
    if s == [] then [] else [UpperChar(s[0])] + Upper(s[1..])
  }

  /** Lowering forgets whether a letter was upper-cased first. */
  lemma LowerOfUpper(s: string)
    ensures Lower(Upper(s)) == Lower(s)
  {
    assert forall i :: 0 <= i < |s| ==> Lower(Upper(s))[i] == Lower(s)[i];
  }

  /** A string without upper-case letters is its own lower-case form. */
  lemma LowerOfLower(s: string)
    requires forall i :: 0 <= i < |s| ==> !IsUpperAscii(s[i])
    ensures Lower(s) == s
  {
  }

  /** Lowering commutes with taking a suffix. */
  lemma LowerSuffix(s: string, k: nat)
    requires k <= |s|
    ensures Lower(s)[k..] == Lower(s[k..])
  {
  }

  /** Python's slice `s[:n]`, which stops at the end of a short string. */
  function Take(s: string, n: nat): string
  {
    if |s| < n then s else s[..n]
  }

  /** Python's `s.split(sep)` for a one-character separator `sep`. */
  function Split(s: string, sep: char): (parts: seq<string>)
    ensures |parts| >= 1
    ensures forall i :: 0 <= i < |parts| ==> sep !in parts[i]
    decreases |s|
  {
    if s == [] then [""]
    else
      var rest := Split(s[1..], sep);
      if s[0] == sep then [""] + rest
      else [[s[0]] + rest[0]] + rest[1..]
  }

  /** `sep.join(parts)`, the inverse of `Split`. */
  function Join(parts: seq<string>, sep: char): string
  {
    if |parts| == 0 then ""
    else if |parts| == 1 then parts[0]
    else parts[0] + [sep] + Join(parts[1..], sep)
  }

  /** Splitting and joining on the same separator gives the string back. */
  lemma {:induction false} SplitJoin(s: string, sep: char)
    ensures Join(Split(s, sep), sep) == s
    decreases |s|
  {
    if s != [] {
      var rest := Split(s[1..], sep);
      SplitJoin(s[1..], sep);
      if s[0] == sep {
        assert Split(s, sep) == [""] + rest;
        assert Join(Split(s, sep), sep) == "" + [sep] + Join(rest, sep);
      } else {
        var parts := [[s[0]] + rest[0]] + rest[1..];
        assert Split(s, sep) == parts;
        if |rest| == 1 {
          assert Join(parts, sep) == [s[0]] + rest[0];
        } else {
          assert parts[1..] == rest[1..];
          assert Join(parts, sep) == [s[0]] + rest[0] + [sep] + Join(rest[1..], sep);
          assert Join(rest, sep) == rest[0] + [sep] + Join(rest[1..], sep);
        }
      }
    }
  }

  /** A leading piece without a separator splits off as a piece of its own. */
  lemma {:induction false} SplitAfterPiece(a: string, sep: char, b: string)
    requires sep !in a
    ensures Split(a + [sep] + b, sep) == [a] + Split(b, sep)
    decreases |a|
  {
    if a == [] {
      assert a + [sep] + b == [sep] + b;
      assert ([sep] + b)[1..] == b;
    } else {
      var s := a + [sep] + b;
      assert s[0] == a[0];
      assert s[1..] == a[1..] + [sep] + b;
      SplitAfterPiece(a[1..], sep, b);
      assert [a[0]] + a[1..] == a;
    }
  }

  /** Splitting a string that has no separator gives that one string. */
  lemma SplitNoSeparator(s: string, sep: char)
    requires sep !in s
    ensures Split(s, sep) == [s]
  {
    SplitJoin(s, sep);
  }

  /** Joining on the last separator. */
  lemma {:induction false} JoinLast(parts: seq<string>, sep: char)
    requires |parts| >= 2
    ensures Join(parts, sep) == Join(parts[..|parts| - 1], sep) + [sep] + parts[|parts| - 1]
    decreases |parts|
  {
    if |parts| > 2 {
      JoinLast(parts[1..], sep);
      assert parts[1..][..|parts| - 2] == parts[1..|parts| - 1];
      assert parts[..|parts| - 1][1..] == parts[1..|parts| - 1];
    }
  }

  /**
   * The text after the last `sep` in `s`, or all of `s` when `sep` does
   * not occur: a suffix of `s` without `sep` that is either all of `s` or
   * preceded by `sep`.
   */
  ghost predicate IsLastPiece(s: string, sep: char, p: string)
  {
    && |p| <= |s|
    && s[|s| - |p|..] == p
    && sep !in p
    && (|p| < |s| ==> s[|s| - |p| - 1] == sep)
  }

  /** At most one string is the last piece of `s`. */
  lemma LastPieceUnique(s: string, sep: char, p: string, q: string)
    requires IsLastPiece(s, sep, p) && IsLastPiece(s, sep, q)
    ensures p == q
  {
  }

  /** `s.split(sep)[-1]` is the text after the last `sep`. */
  lemma LastOfSplit(s: string, sep: char)
    ensures IsLastPiece(s, sep, Split(s, sep)[|Split(s, sep)| - 1])
  {
    var parts := Split(s, sep);
    var last := parts[|parts| - 1];
    SplitJoin(s, sep);
    if |parts| >= 2 {
      JoinLast(parts, sep);
      var front := Join(parts[..|parts| - 1], sep);
      assert s == front + [sep] + last;
      assert s[|s| - |last|..] == last;
      assert s[|s| - |last| - 1] == sep;
    }
  }

  /** `s.split(sep)[0]` is the text before the first `sep`. */
  lemma FirstOfSplit(s: string, sep: char)
    ensures |Split(s, sep)[0]| <= |s|
    ensures s[..|Split(s, sep)[0]|] == Split(s, sep)[0]
    ensures sep !in Split(s, sep)[0]
    ensures |Split(s, sep)[0]| < |s| ==> s[|Split(s, sep)[0]|] == sep
  {
    var parts := Split(s, sep);
    SplitJoin(s, sep);
    if |parts| >= 2 {
      assert s == parts[0] + [sep] + Join(parts[1..], sep);
    }
  }

  /**
   * A file's extension: its last `.`-separated piece, lower-cased, as
   * routes/files.py, utils/s3_upload.py and s3_utils.py all compute it.
   */
  function Extension(filename: string): (ext: string)
    ensures '.' !in ext
    ensures forall i :: 0 <= i < |ext| ==> !IsUpperAscii(ext[i])
  {
    var parts := Split(filename, '.');
    Lower(parts[|parts| - 1])
  }

  /** The extension is the last piece of the lower-cased name. */
  lemma ExtensionOfLowered(filename: string)
    ensures IsLastPiece(Lower(filename), '.', Extension(filename))
  {
    var parts := Split(filename, '.');
    var last := parts[|parts| - 1];
    LastOfSplit(filename, '.');
    var k := |filename| - |last|;
    LowerSuffix(filename, k);
    assert '.' !in Lower(last) by {
      forall i | 0 <= i < |last| ensures Lower(last)[i] != '.' {
        assert last[i] != '.';
      }
    }
  }

  /** The extension does not depend on how the file name is capitalised. */
  lemma ExtensionIgnoresCase(f: string, g: string)
    requires Lower(f) == Lower(g)
    ensures Extension(f) == Extension(g)
  {
    ExtensionOfLowered(f);
    ExtensionOfLowered(g);
    LastPieceUnique(Lower(f), '.', Extension(f), Extension(g));
  }

  /** The extension of `stem.ext` is `ext` lower-cased, whatever the stem holds. */
  lemma ExtensionOfDotted(stem: string, ext: string)
    requires '.' !in ext
    ensures Extension(stem + "." + ext) == Lower(ext)
  {
    var f := stem + "." + ext;
    var parts := Split(f, '.');
    LastOfSplit(f, '.');
    assert f[|f| - |ext|..] == ext;
    assert f[|f| - |ext| - 1] == '.';
    LastPieceUnique(f, '.', parts[|parts| - 1], ext);
  }

  /** A name without `.` is its own extension, lower-cased. */
  lemma ExtensionWithoutDot(filename: string)
    requires '.' !in filename
    ensures Extension(filename) == Lower(filename)
  {
    SplitNoSeparator(filename, '.');
  }

  function DigitChar(d: nat): char
    requires d < 10
  {
    ('0' as int + d) as char
  }

  /** `str(n)` for a natural number. */
  function Decimal(n: nat): (r: string)
    ensures |r| >= 1
  {
    if n < 10 then [DigitChar(n)] else Decimal(n / 10) + [DigitChar(n % 10)]
  }
}
