/** File-name conventions shared by the page side and the background side:
    an image of an item is stored as `<folder>/<itemId>_<n>.jpg`, where `<n>`
    is a positive index printed in decimal the way a template literal prints
    a non-negative integer. */
module Naming {
  import opened Wrappers

  predicate IsDigit(c: char) { '0' <= c <= '9' }

  predicate AllDigits(s: string) { forall k :: 0 <= k < |s| ==> IsDigit(s[k]) }

  /** A digit string as printed for a number: non-empty and without a leading
      zero unless it is "0" itself. */
  predicate Canonical(s: string) { |s| > 0 && AllDigits(s) && (s[0] == '0' ==> |s| == 1) }

  function DigitChar(d: nat): (c: char)
    requires d < 10
    ensures IsDigit(c) && c as int - '0' as int == d
  {
    ('0' as int + d) as char
  }

  /** Decimal rendering of `n` (`${n}` in a template literal). */
  function Decimal(n: nat): (s: string)
    ensures Canonical(s)
    ensures s[0] == '0' <==> n == 0
  {
    if n < 10 then [DigitChar(n)] else Decimal(n / 10) + [DigitChar(n % 10)]
  }

  /** Value of a digit string, most significant digit first. */
  function ParseDecimal(s: string): nat
    requires AllDigits(s)
  {
    if s == [] then 0
    else ParseDecimal(s[..|s| - 1]) * 10 + (s[|s| - 1] as int - '0' as int)
  }

  lemma {:induction false} DecimalRoundTrip(n: nat)
    ensures ParseDecimal(Decimal(n)) == n
  {
    if n >= 10 {
      DecimalRoundTrip(n / 10);
      var s := Decimal(n);
      assert s[..|s| - 1] == Decimal(n / 10);
    }
  }

  lemma {:induction false} ParseDecimalPositive(s: string)
    requires Canonical(s) && s[0] != '0'
    ensures ParseDecimal(s) > 0
  {
    if |s| > 1 {
      ParseDecimalPositive(s[..|s| - 1]);
    }
  }

  /** Reading a canonical digit string and printing the value gives the string back. */
  lemma {:induction false} ParseDecimalRoundTrip(s: string)
    requires Canonical(s)
    ensures Decimal(ParseDecimal(s)) == s
  {
    if |s| > 1 {
      var init := s[..|s| - 1];
      var d := s[|s| - 1] as int - '0' as int;
      ParseDecimalRoundTrip(init);
      ParseDecimalPositive(init);
      var v := ParseDecimal(init);
      assert ParseDecimal(s) == v * 10 + d;
      assert (v * 10 + d) / 10 == v && (v * 10 + d) % 10 == d;
      assert s == init + [s[|s| - 1]];
    }
  }

  /** Two numbers print the same only when they are equal. */
  lemma DecimalInjective(m: nat, n: nat)
    ensures Decimal(m) == Decimal(n) <==> m == n
  {
    DecimalRoundTrip(m);
    DecimalRoundTrip(n);
  }

  /** Splits `s` at the LAST occurrence of `sep`. */
  function SplitLast(s: string, sep: char): (r: Option<(string, string)>)
    ensures r.None? <==> sep !in s
    ensures r.Some? ==> s == r.value.0 + [sep] + r.value.1 && sep !in r.value.1
  {
    if s == [] then None
    else if s[|s| - 1] == sep then
      assert s == s[..|s| - 1] + [sep] + [];
      Some((s[..|s| - 1], []))
    else
      match SplitLast(s[..|s| - 1], sep)
      case None =>
        assert s == s[..|s| - 1] + [s[|s| - 1]];
        None
      case Some((a, b)) =>
        assert s == s[..|s| - 1] + [s[|s| - 1]];
        Some((a, b + [s[|s| - 1]]))
  }

  lemma {:induction false} SplitLastJoin(a: string, sep: char, b: string)
    requires sep !in b
    ensures SplitLast(a + [sep] + b, sep) == Some((a, b))
  {
    var s := a + [sep] + b;
    if b == [] {
      assert s[..|s| - 1] == a;
    } else {
      var b' := b[..|b| - 1];
      SplitLastJoin(a, sep, b');
      assert s[..|s| - 1] == a + [sep] + b';
      assert b' + [b[|b| - 1]] == b;
    }
  }

  /** Where an image lives: folder, item id and 1-based image index. */
  datatype ImagePath = ImagePath(folder: string, itemId: string, index: nat)

  const Extension := ".jpg"

  /** `<itemId>_<index>.jpg` */
  function ImageFileName(itemId: string, index: nat): string
  {
    itemId + "_" + Decimal(index) + Extension
  }

  /** `<folder>/<itemId>_<index>.jpg` */
  function FormatImagePath(p: ImagePath): string
  {
    p.folder + "/" + ImageFileName(p.itemId, p.index)
  }

  /** Within one folder and for one item id, whatever characters either
      holds, two paths agree exactly when their indices do: equal paths have
      equal lengths, so the index digits sit at the same place in both. */
  lemma IndexDeterminesPath(folder: string, itemId: string, m: nat, n: nat)
    ensures FormatImagePath(ImagePath(folder, itemId, m)) == FormatImagePath(ImagePath(folder, itemId, n)) <==> m == n
  {
    var pre := folder + "/" + itemId + "_";
    var a, b := Decimal(m), Decimal(n);
    assert FormatImagePath(ImagePath(folder, itemId, m)) == pre + a + Extension;
    assert FormatImagePath(ImagePath(folder, itemId, n)) == pre + b + Extension;
    if pre + a + Extension == pre + b + Extension {
      assert |a| == |b|;
      assert (pre + a + Extension)[|pre|..|pre| + |a|] == a;
      assert (pre + b + Extension)[|pre|..|pre| + |b|] == b;
      DecimalInjective(m, n);
    }
  }

  /** Reads a file name `<itemId>_<n>.jpg` back into the item id, what
      precedes the last `_`, and the index, the canonical decimal before `.jpg`. */
  function ParseFileName(file: string): Option<(string, nat)>
  {
    if |file| < |Extension| || file[|file| - |Extension|..] != Extension then None
    else
      match SplitLast(file[..|file| - |Extension|], '_')
      case None => None
      case Some((itemId, digits)) =>
        if Canonical(digits) then Some((itemId, ParseDecimal(digits))) else None
  }

  /** Whatever ParseFileName accepts is the file name of the parts it returns,
      and the item id is a prefix of it. */
  lemma ParseFileNameSound(file: string)
    ensures var r := ParseFileName(file);
      r.Some? ==> ImageFileName(r.value.0, r.value.1) == file && r.value.0 <= file
  {
    if |file| >= |Extension| && file[|file| - |Extension|..] == Extension {
      var stem := file[..|file| - |Extension|];
      assert file == stem + Extension;
      match SplitLast(stem, '_')
      case None =>
      case Some((itemId, digits)) =>
        if Canonical(digits) {
          ParseDecimalRoundTrip(digits);
          assert stem == itemId + "_" + digits;
        }
    }
  }

  /** Reads a path back into folder, item id and index: the folder is what
      precedes the last `/` and the rest is read by ParseFileName. */
  function ParseImagePath(path: string): Option<ImagePath>
  {
    match SplitLast(path, '/')
    case None => None
    case Some((folder, file)) =>
      match ParseFileName(file)
      case None => None
      case Some((itemId, index)) => Some(ImagePath(folder, itemId, index))
  }

  /** Whatever ParseImagePath accepts is a path of this convention, made
      from the parts it returns, with an item id free of `/`. */
  lemma ParseImagePathSound(path: string)
    ensures var r := ParseImagePath(path);
      r.Some? ==> FormatImagePath(r.value) == path && '/' !in r.value.itemId
  {
    match SplitLast(path, '/')
    case None =>
    case Some((folder, file)) =>
      ParseFileNameSound(file);
      match ParseFileName(file)
      case None =>
      case Some((itemId, index)) =>
        forall k | 0 <= k < |itemId| ensures itemId[k] != '/' {
          assert itemId[k] == file[k] && file[k] in file;
        }
  }

  /** Every path this convention produces reads back as the parts it was made from,
      as long as the item id holds no `/`. */
  lemma FormatParseRoundTrip(p: ImagePath)
    requires '/' !in p.itemId
    ensures ParseImagePath(FormatImagePath(p)) == Some(p)
  {
    var digits := Decimal(p.index);
    var file := ImageFileName(p.itemId, p.index);
    var stem := p.itemId + "_" + digits;
    assert file == stem + Extension;
    assert '/' !in file by {
      forall k | 0 <= k < |file| ensures file[k] != '/' {
        if k < |p.itemId| { assert file[k] == p.itemId[k]; }
        else if k == |p.itemId| { assert file[k] == '_'; }
        else if k < |stem| { assert file[k] == digits[k - |p.itemId| - 1]; }
        else { assert file[k] == Extension[k - |stem|]; }
      }
    }
    SplitLastJoin(p.folder, '/', file);
    assert file[..|file| - |Extension|] == stem;
    assert file[|file| - |Extension|..] == Extension;
    assert '_' !in digits by {
      forall k | 0 <= k < |digits| ensures digits[k] != '_' { assert IsDigit(digits[k]); }
    }
    SplitLastJoin(p.itemId, '_', digits);
    DecimalRoundTrip(p.index);
  }

  /** Distinct images never share a path. */
  lemma FormatImagePathInjective(p: ImagePath, q: ImagePath)
    requires '/' !in p.itemId && '/' !in q.itemId
    ensures FormatImagePath(p) == FormatImagePath(q) <==> p == q
  {
    FormatParseRoundTrip(p);
    FormatParseRoundTrip(q);
  }
}
