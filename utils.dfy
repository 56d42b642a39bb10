/**
 * The pure helpers of `speedy_qc/utils.py`: tri-state conversion of a
 * stored checkbox value, grey-scale inversion, the column renaming of the
 * CSV export and the binning of a float column into categories.
 */
module Utils {
  import opened Wrappers
  import opened Strings
  import opened Session

  /** The three states of a tri-state checkbox, with Qt's numeric values 0, 1 and 2. */
  datatype CheckState = Unchecked | PartiallyChecked | Checked
  {
    function Number(): (n: int)
      ensures 0 <= n <= 2
    {
      match this
      case Unchecked => 0
      case PartiallyChecked => 1
      case Checked => 2
    }
  }

  predicate IsDigit(c: char)
  {
    '0' <= c <= '9'
  }

  predicate AllDigits(s: string)
  {
    forall i :: 0 <= i < |s| ==> IsDigit(s[i])
  }

  /** The value of a run of decimal digits. */
  function DigitsValue(s: string): (n: nat)
    requires AllDigits(s)
    decreases |s|
  {
    if s == [] then 0
    else
      assert forall i :: 0 <= i < |s| - 1 ==> s[..|s| - 1][i] == s[i];
      assert IsDigit(s[|s| - 1]);
      DigitsValue(s[..|s| - 1]) * 10 + (s[|s| - 1] as int - '0' as int)
  }

  /** The ASCII characters Python's `int` skips around a number: tab to carriage return, the four separators and space. */
  predicate IsSpace(c: char)
  {
    9 <= c as int <= 13 || 28 <= c as int <= 32
  }

  /** The number of white-space characters `s` starts with. */
  function SpacesBefore(s: string): (n: nat)
    ensures n <= |s|
    ensures forall i :: 0 <= i < n ==> IsSpace(s[i])
    ensures n < |s| ==> !IsSpace(s[n])
  {
    if |s| > 0 && IsSpace(s[0]) then 1 + SpacesBefore(s[1..]) else 0
  }

  /** The number of white-space characters `s` ends with. */
  function SpacesAfter(s: string): (n: nat)
    ensures n <= |s|
    ensures forall i :: |s| - n <= i < |s| ==> IsSpace(s[i])
    ensures n < |s| ==> !IsSpace(s[|s| - 1 - n])
  {
    if |s| > 0 && IsSpace(s[|s| - 1]) then 1 + SpacesAfter(s[..|s| - 1]) else 0
  }

  /** `s.strip()` over ASCII white space. */
  function Strip(s: string): string
  {
    var t := s[SpacesBefore(s)..];
    t[..|t| - SpacesAfter(t)]
  }

  /** Decimal digits, with single underscores allowed between two digits, as in `1_000`. */
  predicate Grouped(s: string)
  {
    && |s| > 0 && IsDigit(s[0]) && IsDigit(s[|s| - 1])
    && (forall i :: 0 <= i < |s| ==> IsDigit(s[i]) || s[i] == '_')
    && (forall i :: 0 < i < |s| && s[i] == '_' ==> s[i - 1] != '_')
  }

  /** In a grouped number every underscore sits between two digits. */
  lemma GroupedBetweenDigits(s: string)
    requires Grouped(s)
    ensures forall i :: 0 <= i < |s| && s[i] == '_' ==> 0 < i < |s| - 1 && IsDigit(s[i - 1]) && IsDigit(s[i + 1])
  {
    forall i | 0 <= i < |s| && s[i] == '_'
      ensures 0 < i < |s| - 1 && IsDigit(s[i - 1]) && IsDigit(s[i + 1])
    {
      if 0 < i < |s| - 1 {
        assert s[i + 1] != '_';
      }
    }
  }

  /** `s` without its underscores. */
  function Unscore(s: string): (r: string)
    ensures forall c :: c in r <==> c in s && c != '_'
    ensures (forall i :: 0 <= i < |s| ==> s[i] != '_') ==> r == s
  {
    if s == [] then [] else (if s[0] == '_' then [] else [s[0]]) + Unscore(s[1..])
  }

  /**
   * `int(s)` on a string: white space around the number is skipped, then
   * an optional sign and decimal digits, possibly grouped by underscores.
   */
  function ParseInt(s: string): (r: Option<int>)
    ensures r.Some? ==> exists i :: 0 <= i < |s| && IsDigit(s[i])
    ensures r.Some? && (forall i :: 0 <= i < |s| ==> s[i] != '-') ==> r.value >= 0
  {
    NumberWithin(s);
    ParseNumber(Strip(s))
  }

  /** The number read after stripping lies inside `s`: its digits and its sign are characters of `s`. */
  lemma NumberWithin(s: string)
    ensures ParseNumber(Strip(s)).Some? ==> exists i :: 0 <= i < |s| && IsDigit(s[i])
    ensures ParseNumber(Strip(s)).Some? && (forall i :: 0 <= i < |s| ==> s[i] != '-') ==> ParseNumber(Strip(s)).value >= 0
  {
    var a := SpacesBefore(s);
    var t := Strip(s);
    assert forall i :: 0 <= i < |t| ==> t[i] == s[a + i];
    if ParseNumber(t).Some? {
      var i :| 0 <= i < |t| && IsDigit(t[i]);
      assert s[a + i] == t[i];
    }
  }

  /** An optional sign and a grouped number, with nothing around them. */
  function ParseNumber(t: string): (r: Option<int>)
    ensures r.Some? ==> exists i :: 0 <= i < |t| && IsDigit(t[i])
    ensures r.Some? && (|t| == 0 || t[0] != '-') ==> r.value >= 0
  {
    var neg := |t| > 0 && t[0] == '-';
    var body := if |t| > 0 && (t[0] == '-' || t[0] == '+') then t[1..] else t;
    if Grouped(body) then
      GroupedDigits(body);
      assert body[0] in t;
      var v: int := DigitsValue(Unscore(body));
      Some(if neg then -v else v)
    else None
  }

  /** Without its underscores a grouped number is a run of digits, and it starts with a digit. */
  lemma GroupedDigits(s: string)
    requires Grouped(s)
    ensures AllDigits(Unscore(s))
  {
    var u := Unscore(s);
    forall i | 0 <= i < |u|
      ensures IsDigit(u[i])
    {
      assert u[i] in u;
      assert u[i] in s;
      var j :| 0 <= j < |s| && s[j] == u[i];
    }
  }

  /** White space around a number does not change what `int` reads. */
  lemma ParseIntPadded(pre: string, s: string, post: string)
    requires forall i :: 0 <= i < |pre| ==> IsSpace(pre[i])
    requires forall i :: 0 <= i < |post| ==> IsSpace(post[i])
    requires |s| > 0 && !IsSpace(s[0]) && !IsSpace(s[|s| - 1])
    ensures ParseInt(pre + s + post) == ParseInt(s)
  {
    StripPadded(pre, s, post);
    Unpadded(s);
    assert Strip(pre + s + post) == Strip(s);
  }

  /** Stripping white space around a string without space at its ends gives back the string. */
  lemma StripPadded(pre: string, s: string, post: string)
    requires forall i :: 0 <= i < |pre| ==> IsSpace(pre[i])
    requires forall i :: 0 <= i < |post| ==> IsSpace(post[i])
    requires |s| > 0 && !IsSpace(s[0]) && !IsSpace(s[|s| - 1])
    ensures Strip(pre + s + post) == s
  {
    var x := pre + s + post;
    SpacesBeforeIs(x, |pre|);
    var t := x[|pre|..];
    assert t == s + post;
    SpacesAfterIs(t, |post|);
    assert t[..|s|] == s;
  }

  /** A count of leading spaces followed by a non-space is the count `SpacesBefore` finds. */
  lemma SpacesBeforeIs(s: string, n: nat)
    requires n <= |s| && (forall i :: 0 <= i < n ==> IsSpace(s[i])) && (n < |s| ==> !IsSpace(s[n]))
    ensures SpacesBefore(s) == n
  {
    var m := SpacesBefore(s);
  }

  /** A count of trailing spaces preceded by a non-space is the count `SpacesAfter` finds. */
  lemma SpacesAfterIs(s: string, n: nat)
    requires n <= |s| && (forall i :: |s| - n <= i < |s| ==> IsSpace(s[i])) && (n < |s| ==> !IsSpace(s[|s| - 1 - n]))
    ensures SpacesAfter(s) == n
  {
    var m := SpacesAfter(s);
  }

  /** `int` skips spaces and newlines around the number. */
  lemma ParseIntSpaced()
    ensures ParseInt(" 2") == Some(2)
    ensures ParseInt("2\n") == Some(2)
  {
    ParseShow(2);
    assert ShowInt(2) == "2";
    ParseIntPadded(" ", "2", "");
    assert " " + "2" + "" == " 2";
    ParseIntPadded("", "2", "\n");
    assert "" + "2" + "\n" == "2\n";
  }

  /** `int` reads single underscores between digits. */
  lemma ParseIntGrouped()
    ensures ParseInt("1_0") == Some(10)
  {
    var s := "1_0";
    Unpadded(s);
    assert Grouped(s);
    ParseUnsigned(s);
    TenDigits(s);
  }

  /** Without its underscore `1_0` is `10`, whose value is ten. */
  lemma TenDigits(s: string)
    requires s == "1_0"
    ensures Unscore(s) == "10" && AllDigits("10") && DigitsValue("10") == 10
  {
    assert Unscore(s) == "1" + Unscore(s[1..]);
    assert Unscore(s[1..]) == Unscore(s[2..]);
    assert Unscore(s[2..]) == "0" + Unscore([]);
    assert "10"[..1] == "1";
    assert "1"[..0] == [];
  }

  /** A grouped number without sign reads as the value of its digits. */
  lemma ParseUnsigned(t: string)
    requires Grouped(t)
    ensures AllDigits(Unscore(t)) && ParseNumber(t) == Some(DigitsValue(Unscore(t)))
  {
    GroupedDigits(t);
  }

  /** A doubled, leading or trailing underscore, a lone space or a space after the sign is not a number. */
  lemma ParseIntRejects()
    ensures ParseInt("1__0") == None
    ensures ParseInt("_1") == None
    ensures ParseInt("1_") == None
    ensures ParseInt(" ") == None
    ensures ParseInt("- 1") == None
  {
    Unpadded("1__0");
    assert !Grouped("1__0") by { assert "1__0"[2] == '_' && "1__0"[1] == '_'; }
    Unpadded("_1");
    assert !Grouped("_1") by { assert "_1"[0] == '_'; }
    Unpadded("1_");
    assert !Grouped("1_") by { assert "1_"[1] == '_'; }
    assert SpacesBefore(" ") == 1;
    assert Strip(" ") == [];
    Unpadded("- 1");
    assert "- 1"[1..] == " 1";
    assert !Grouped(" 1") by { assert " 1"[0] == ' '; }
  }

  /** A string without space at its ends is its own strip. */
  lemma Unpadded(s: string)
    requires |s| > 0 && !IsSpace(s[0]) && !IsSpace(s[|s| - 1])
    ensures Strip(s) == s
  {
    StripPadded([], s, []);
    assert [] + s + [] == s;
  }

  /** `str(n)` for a natural number. */
  function ShowNat(n: nat): (s: string)
    ensures |s| > 0 && AllDigits(s)
    ensures DigitsValue(s) == n
  {
    var d := [('0' as int + n % 10) as char];
    if n < 10 then
      assert DigitsValue(d) == DigitsValue(d[..0]) * 10 + n % 10;
      d
    else
      var s := ShowNat(n / 10) + d;
      assert s[..|s| - 1] == ShowNat(n / 10);
      s
  }

  /** `str(n)` for an integer. */
  function ShowInt(n: int): string
  {
    if n < 0 then "-" + ShowNat(-n) else ShowNat(n)
  }

  /** `int(str(n)) == n`. */
  lemma ParseShow(n: int)
    ensures ParseInt(ShowInt(n)) == Some(n)
  {
    var s := ShowInt(n);
    var d := ShowNat(if n < 0 then -n else n);
    assert !IsSpace(s[0]) && !IsSpace(s[|s| - 1]);
    Unpadded(s);
    if n < 0 {
      assert s[1..] == d;
    }
    assert Unscore(d) == d;
  }

  /** Python's `int(value)` on a stored value: `bool` counts as `int`, `None` raises `TypeError`. */
  function PyInt(v: Value): (r: Result<int>)
    ensures r.Err? ==> (v.Null? && r.error == TypeError) || (v.Str? && r.error == ValueError)
    ensures AsInt(v).Some? ==> r == Ok(AsInt(v).value)
  {
    match v
    case Null => Err(TypeError)
    case Bool(b) => Ok(if b then 1 else 0)
    case Int(i) => Ok(i)
    case Str(s) => if ParseInt(s).Some? then Ok(ParseInt(s).value) else Err(ValueError)
  }

  /**
   * `convert_to_checkstate`: 0, 1 and 2 become the three states; any other
   * integer reaches `raise(...)` on a tuple, which raises `TypeError`.
   */
  function ConvertToCheckstate(v: Value): (r: Result<CheckState>)
    ensures r.Ok? <==> PyInt(v).Ok? && 0 <= PyInt(v).value <= 2
    ensures r.Ok? ==> r.value.Number() == PyInt(v).value
    ensures PyInt(v).Err? ==> r == Err(PyInt(v).error)
    ensures PyInt(v).Ok? && !(0 <= PyInt(v).value <= 2) ==> r == Err(TypeError)
  {
    match PyInt(v)
    case Err(e) => Err(e)
    case Ok(n) =>
      if n == 0 then Ok(Unchecked)
      else if n == 1 then Ok(PartiallyChecked)
      else if n == 2 then Ok(Checked)
      else Err(TypeError)
  }

  /** A state stored as its number converts back to the same state; `True` is the partial state and `"FAIL"` raises. */
  lemma CheckStateRoundTrip(s: CheckState)
    ensures ConvertToCheckstate(Int(s.Number())) == Ok(s)
    ensures ConvertToCheckstate(Str(ShowInt(s.Number()))) == Ok(s)
    ensures ConvertToCheckstate(Bool(true)) == Ok(PartiallyChecked)
    ensures ConvertToCheckstate(Bool(false)) == Ok(Unchecked)
    ensures ConvertToCheckstate(Fail) == Err(ValueError)
  {
    ParseShow(s.Number());
    var f := "FAIL";
    assert forall i :: 0 <= i < |f| ==> !IsDigit(f[i]);
    assert ParseInt(f) == None;
    assert Fail == Str(f);
    assert PyInt(Fail) == Err(ValueError);
  }

  /** The least element of a non-empty array. */
  function Min(a: seq<int>): (m: int)
    requires |a| > 0
    ensures m in a && forall i :: 0 <= i < |a| ==> m <= a[i]
  {
    if |a| == 1 then a[0]
    else
      var m := Min(a[1..]);
      assert forall i :: 1 <= i < |a| ==> a[i] == a[1..][i - 1];
      if a[0] <= m then a[0] else m
  }

  /** The greatest element of a non-empty array. */
  function Max(a: seq<int>): (m: int)
    requires |a| > 0
    ensures m in a && forall i :: 0 <= i < |a| ==> a[i] <= m
  {
    if |a| == 1 then a[0]
    else
      var m := Max(a[1..]);
      assert forall i :: 1 <= i < |a| ==> a[i] == a[1..][i - 1];
      if a[0] >= m then a[0] else m
  }

  /** A value of the array that bounds it from below is its minimum. */
  lemma MinIsUnique(a: seq<int>, m: int)
    requires m in a && forall i :: 0 <= i < |a| ==> m <= a[i]
    ensures Min(a) == m
  {
  }

  /** A value of the array that bounds it from above is its maximum. */
  lemma MaxIsUnique(a: seq<int>, m: int)
    requires m in a && forall i :: 0 <= i < |a| ==> a[i] <= m
    ensures Max(a) == m
  {
  }

  /** `invert_grayscale`: every pixel `x` becomes `max + min - x`; `np.max` of an empty array raises `ValueError`. */
  function InvertGrayscale(image: seq<int>): (r: Result<seq<int>>)
    ensures r.Err? <==> |image| == 0
    ensures r.Ok? ==> |r.value| == |image|
    ensures r.Ok? ==> forall i :: 0 <= i < |image| ==> r.value[i] + image[i] == Max(image) + Min(image)
  {
    if |image| == 0 then Err(ValueError)
    else
      var hi, lo := Max(image), Min(image);
      Ok(seq(|image|, i requires 0 <= i < |image| => hi + lo - image[i]))
  }

  /** Inversion keeps the darkest and the brightest value. */
  lemma InvertGrayscaleBounds(image: seq<int>)
    requires |image| > 0
    ensures Min(InvertGrayscale(image).value) == Min(image)
    ensures Max(InvertGrayscale(image).value) == Max(image)
  {
    var inv := InvertGrayscale(image).value;
    var hi, lo := Max(image), Min(image);
    var iLo :| 0 <= iLo < |image| && image[iLo] == lo;
    var iHi :| 0 <= iHi < |image| && image[iHi] == hi;
    assert inv[iLo] == hi && inv[iHi] == lo;
    MinIsUnique(inv, lo);
    MaxIsUnique(inv, hi);
  }

  /** Inverting twice gives back the image. */
  lemma InvertGrayscaleInvolution(image: seq<int>)
    requires |image| > 0
    ensures InvertGrayscale(InvertGrayscale(image).value) == Ok(image)
  {
    var inv := InvertGrayscale(image).value;
    InvertGrayscaleBounds(image);
    var back := InvertGrayscale(inv).value;
    assert |back| == |image|;
    assert forall i :: 0 <= i < |image| ==> back[i] == image[i];
    assert back == image;
  }

  /** The column renaming of `expand_dict_column`: lower case, spaces as underscores. */
  function RenameColumn(col: string): (r: string)
    ensures |r| == |col|
    ensures forall i :: 0 <= i < |r| ==> !('A' <= r[i] <= 'Z') && r[i] != ' '
    ensures forall i :: 0 <= i < |col| && col[i] != ' ' ==> r[i] == LowerChar(col[i])
    ensures forall i :: 0 <= i < |col| && col[i] == ' ' ==> r[i] == '_'
  {
    ReplaceChar(Lower(col), ' ', '_')
  }

  lemma RenameColumnIdempotent(col: string)
    ensures RenameColumn(RenameColumn(col)) == RenameColumn(col)
  {
    var once := RenameColumn(col);
    assert forall i :: 0 <= i < |once| ==> RenameColumn(once)[i] == once[i];
  }

  /** The category labels of `make_column_categorical` and their left-closed bins `[0,1) … [4,∞)`. */
  const BinLabels: seq<string> := ["1", "2", "3", "4", "Blank"]

  /** `pd.cut(x, bins=[0, 1, 2, 3, 4, inf], right=False)`: no label below 0. */
  function Bin(x: real): (r: Option<string>)
    ensures r.None? <==> x < 0.0
    ensures r.Some? ==> r.value in BinLabels
  {
    if x < 0.0 then None
    else if x < 1.0 then Some("1")
    else if x < 2.0 then Some("2")
    else if x < 3.0 then Some("3")
    else if x < 4.0 then Some("4")
    else Some("Blank")
  }

  /** Each label is given to exactly the values of its bin. */
  lemma BinMatchesEdges(x: real, k: int)
    requires 0 <= k < |BinLabels|
    ensures Bin(x) == Some(BinLabels[k]) <==> k as real <= x && (k == 4 || x < k as real + 1.0)
  {
  }

  /** Binning is monotone: a larger value never gets an earlier label. */
  lemma BinMonotone(x: real, y: real, i: int, j: int)
    requires 0.0 <= x <= y
    requires 0 <= i < |BinLabels| && 0 <= j < |BinLabels|
    requires Bin(x) == Some(BinLabels[i]) && Bin(y) == Some(BinLabels[j])
    ensures i <= j
  {
    BinMatchesEdges(x, i);
    BinMatchesEdges(y, j);
  }
}
