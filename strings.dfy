/**
 * The Python string operations the application uses on file names, labels
 * and notes: ordering, `sorted(set(...))`, lower-casing, single-character
 * `replace`, substring `in`, `endswith` and `split`/`join`.
 */
module Strings {
  import opened Sorting

  /** Python's `a <= b` on `str`: code-point lexicographic order, a prefix first. */
  predicate Le(a: string, b: string)
    decreases |a|
  {
    a == [] || (b != [] && (a[0] < b[0] || (a[0] == b[0] && Le(a[1..], b[1..]))))
  }

  const StrLe: (string, string) -> bool := (a, b) => Le(a, b)

  lemma {:induction false} LeTotal(a: string, b: string)
    ensures Le(a, b) || Le(b, a)
    decreases |a|
  {
    if a != [] && b != [] && a[0] == b[0] {
      LeTotal(a[1..], b[1..]);
    }
  }

  lemma {:induction false} LeTrans(a: string, b: string, c: string)
    requires Le(a, b) && Le(b, c)
    ensures Le(a, c)
    decreases |a|
  {
    if a != [] && b != [] && c != [] && a[0] == b[0] && b[0] == c[0] {
      LeTrans(a[1..], b[1..], c[1..]);
    }
  }

  lemma {:induction false} LeAntisymmetric(a: string, b: string)
    requires Le(a, b) && Le(b, a)
    ensures a == b
    decreases |a|
  {
    if a != [] {
      LeAntisymmetric(a[1..], b[1..]);
      assert a == [a[0]] + a[1..];
      assert b == [b[0]] + b[1..];
    }
  }

  lemma StrLeIsTotalPreorder()
    ensures IsTotalPreorder(StrLe)
  {
    forall a, b
      ensures StrLe(a, b) || StrLe(b, a)
    {
      LeTotal(a, b);
    }
    forall a, b, c | StrLe(a, b) && StrLe(b, c)
      ensures StrLe(a, c)
    {
      LeTrans(a, b, c);
    }
  }

  /** Python's `sorted(names)` on a list of strings. */
  function SortStrings(s: seq<string>): (r: seq<string>)
    ensures forall i, j :: 0 <= i < j < |r| ==> Le(r[i], r[j])
    ensures multiset(r) == multiset(s)
  {
    StrLeIsTotalPreorder();
    SortBy(s, StrLe)
  }

  /** `[f for f in names if f.endswith('.dcm')]`. */
  function DcmNames(names: seq<string>): (r: seq<string>)
    ensures forall f :: f in r <==> f in names && EndsWith(f, ".dcm")
    ensures |r| <= |names|
  {
    if names == [] then []
    else if EndsWith(names[0], ".dcm") then [names[0]] + DcmNames(names[1..])
    else DcmNames(names[1..])
  }

  /** The first name of a sorted non-empty list is a least one. */
  lemma SortStringsHead(s: seq<string>)
    requires s != []
    ensures SortStrings(s) != [] && SortStrings(s)[0] in s
    ensures forall y :: y in s ==> Le(SortStrings(s)[0], y)
  {
    StrLeIsTotalPreorder();
    SortedHeadIsLeast(s, StrLe);
  }

  /** Python's `sorted(set(names))`: strictly increasing, same members as `s`. */
  function SortedSet(s: seq<string>): (r: seq<string>)
    ensures forall i, j :: 0 <= i < j < |r| ==> Le(r[i], r[j]) && r[i] != r[j]
    ensures forall x :: x in r <==> x in s
  {
    var d := Dedup(s);
    var r := SortStrings(d);
    DistinctPermutation(d, r);
    assert forall x :: x in r <==> x in multiset(d);
    r
  }

  /** ASCII lower-casing of one character. */
  function LowerChar(c: char): (r: char)
    ensures !('A' <= r <= 'Z')
    ensures 'a' <= c <= 'z' ==> r == c
    ensures !('A' <= c <= 'Z') ==> r == c
  {
    if 'A' <= c <= 'Z' then (c as int + 32) as char else c
  }

  /** `s.lower()`, restricted to ASCII letters. */
  function Lower(s: string): (r: string)
    ensures |r| == |s|
    ensures forall i :: 0 <= i < |r| ==> !('A' <= r[i] <= 'Z')
  {
    seq(|s|, i requires 0 <= i < |s| => LowerChar(s[i]))
  }

  lemma LowerIdempotent(s: string)
    ensures Lower(Lower(s)) == Lower(s)
  {
  }

  /** `s.replace(a, b)` for single characters `a` and `b`. */
  function ReplaceChar(s: string, a: char, b: char): (r: string)
    ensures |r| == |s|
    ensures a != b ==> a !in r
    ensures forall i :: 0 <= i < |s| && s[i] != a ==> r[i] == s[i]
    ensures forall i :: 0 <= i < |s| && s[i] == a ==> r[i] == b
  {
    seq(|s|, i requires 0 <= i < |s| => if s[i] == a then b else s[i])
  }

  /** Python's `needle in hay` on strings. */
  function Contains(hay: string, needle: string): bool
    decreases |hay|
  {
    if |needle| > |hay| then false
    else if hay[..|needle|] == needle then true
    else Contains(hay[1..], needle)
  }

  ghost predicate OccursAt(hay: string, needle: string, i: int)
  {
    0 <= i && i + |needle| <= |hay| && hay[i..i + |needle|] == needle
  }

  /** `Contains` holds exactly when the needle occurs at some offset. */
  lemma {:induction false} ContainsIffOccurs(hay: string, needle: string)
    ensures Contains(hay, needle) <==> exists i :: OccursAt(hay, needle, i)
    decreases |hay|
  {
    if |needle| > |hay| {
    } else if hay[..|needle|] == needle {
      assert OccursAt(hay, needle, 0);
    } else {
      ContainsIffOccurs(hay[1..], needle);
      if Contains(hay[1..], needle) {
        var i :| OccursAt(hay[1..], needle, i);
        assert hay[1..][i..i + |needle|] == hay[i + 1..i + 1 + |needle|];
        assert OccursAt(hay, needle, i + 1);
      }
      if i :| OccursAt(hay, needle, i) {
        assert i != 0;
        assert hay[1..][i - 1..i - 1 + |needle|] == hay[i..i + |needle|];
        assert OccursAt(hay[1..], needle, i - 1);
      }
    }
  }

  /** `s.endswith(suffix)`. */
  predicate EndsWith(s: string, suffix: string)
  {
    |suffix| <= |s| && s[|s| - |suffix|..] == suffix
  }

  /** Appends `suffix` unless `s` already ends with it: the `.yml` rule of the configuration dialogs. */
  function WithSuffix(s: string, suffix: string): (r: string)
    ensures EndsWith(r, suffix)
    ensures |s| <= |r| && r[..|s|] == s
    ensures |r| == |s| || |r| == |s| + |suffix|
    ensures EndsWith(s, suffix) ==> r == s
  {
    if EndsWith(s, suffix) then s else s + suffix
  }

  /** `s.split(sep)` for a one-character separator. */
  function Split(s: string, sep: char): (r: seq<string>)
    ensures |r| == multiset(s)[sep] + 1
    ensures forall k :: 0 <= k < |r| ==> sep !in r[k]
    decreases |s|
  {
    if s == [] then [[]]
    else
      assert s == [s[0]] + s[1..];
      var rest := Split(s[1..], sep);
      if s[0] == sep then [[]] + rest
      else [[s[0]] + rest[0]] + rest[1..]
  }

  /** `sep.join(pieces)`. */
  function Join(pieces: seq<string>, sep: char): string
  {
    if pieces == [] then []
    else if |pieces| == 1 then pieces[0]
    else pieces[0] + [sep] + Join(pieces[1..], sep)
  }

  /** Joining the pieces of a split gives back the text. */
  lemma {:induction false} JoinSplit(s: string, sep: char)
    ensures Join(Split(s, sep), sep) == s
    decreases |s|
  {
    if s != [] {
      JoinSplit(s[1..], sep);
      var rest := Split(s[1..], sep);
      assert |rest| > 0;
      if s[0] == sep {
        var r := [[]] + rest;
        assert Split(s, sep) == r;
        assert r[1..] == rest;
        assert Join(r, sep) == [sep] + Join(rest, sep);
      } else {
        assert Split(s, sep) == [[s[0]] + rest[0]] + rest[1..];
        JoinPrepend(rest, s[0], sep);
      }
      assert s == [s[0]] + s[1..];
    }
  }

  /** Prefixing the first piece by a character prefixes the joined text by it. */
  lemma JoinPrepend(pieces: seq<string>, c: char, sep: char)
    requires |pieces| > 0
    ensures Join([[c] + pieces[0]] + pieces[1..], sep) == [c] + Join(pieces, sep)
  {
    var r := [[c] + pieces[0]] + pieces[1..];
    assert r[0] == [c] + pieces[0] && r[1..] == pieces[1..];
  }

  /** `names.index(x)`: the position of the first occurrence. */
  function IndexOf(names: seq<string>, x: string): (r: int)
    requires x in names
    ensures 0 <= r < |names| && names[r] == x
    ensures forall k :: 0 <= k < r ==> names[k] != x
  {
    if names[0] == x then 0 else 1 + IndexOf(names[1..], x)
  }

  /** In a list without repeats, `index` inverts indexing. */
  lemma IndexOfDistinct(names: seq<string>, k: int)
    requires Distinct(names) && 0 <= k < |names|
    ensures names[k] in names && IndexOf(names, names[k]) == k
  {
  }

  /** The file-name suffixes the application opens as images. */
  const ImageExtensions: seq<string> := [".png", ".jpg", ".jpeg", ".gif", ".bmp", ".tiff", ".tif", ".dcm", ".dicom"]

  /** `name.endswith(('.png', '.jpg', ...))`. */
  predicate IsImageName(name: string)
  {
    exists e :: e in ImageExtensions && EndsWith(name, e)
  }

  /** `[f for f in names if IsImageName(f)]`. */
  function ImageNames(names: seq<string>): (r: seq<string>)
    ensures forall f :: f in r <==> f in names && IsImageName(f)
    ensures |r| <= |names|
  {
    if names == [] then []
    else if IsImageName(names[0]) then [names[0]] + ImageNames(names[1..])
    else ImageNames(names[1..])
  }
}
