/** The .NET string and path primitives the application relies on:
  * white-space tests, Trim, ToLower, Split, Join, Contains, the Unix
  * flavour of System.IO.Path, and Int64 parsing and printing. */
module Text {
  import opened Wrappers

  // ---------------------------------------------------------------------
  // White space, null and blank
  // ---------------------------------------------------------------------

  /** char.IsWhiteSpace: the Unicode space, line and paragraph separators
    * and the control characters U+0009..U+000D, U+0085. */
  predicate IsWhiteSpace(c: char)
  {
    c == ' ' || ('\t' <= c <= '\r') || c == '\U{85}' || c == '\U{A0}' || c == '\U{1680}'
    || ('\U{2000}' <= c <= '\U{200A}') || c == '\U{2028}' || c == '\U{2029}'
    || c == '\U{202F}' || c == '\U{205F}' || c == '\U{3000}'
  }

  predicate IsBlank(s: string)
  {
    forall i :: 0 <= i < |s| ==> IsWhiteSpace(s[i])
  }

  /** string.IsNullOrWhiteSpace; None stands for a C# null. */
  predicate IsNullOrWhiteSpace(s: Option<string>)
  {
    s.None? || IsBlank(s.value)
  }

  /** string.IsNullOrEmpty */
  predicate IsNullOrEmpty(s: Option<string>)
  {
    s.None? || s.value == ""
  }

  // ---------------------------------------------------------------------
  // Trim
  // ---------------------------------------------------------------------

  /** The suffix of s left after dropping the leading white space. */
  function TrimStart(s: string): (r: string)
    ensures |r| <= |s| && r == s[|s| - |r|..]
    ensures r == "" || !IsWhiteSpace(r[0])
    ensures forall i :: 0 <= i < |s| - |r| ==> IsWhiteSpace(s[i])
  {
    if |s| > 0 && IsWhiteSpace(s[0]) then TrimStart(s[1..]) else s
  }

  /** The prefix of s left after dropping the trailing white space. */
  function TrimEnd(s: string): (r: string)
    ensures |r| <= |s| && r == s[..|r|]
    ensures r == "" || !IsWhiteSpace(r[|r| - 1])
    ensures forall i :: |r| <= i < |s| ==> IsWhiteSpace(s[i])
  {
    if |s| > 0 && IsWhiteSpace(s[|s| - 1]) then TrimEnd(s[..|s| - 1]) else s
  }

  /** string.Trim() */
  function Trim(s: string): string
  {
    TrimEnd(TrimStart(s))
  }

  /** A text that neither starts nor ends with white space is its own trim. */
  lemma TrimUnpadded(s: string)
    requires s == "" || (!IsWhiteSpace(s[0]) && !IsWhiteSpace(s[|s| - 1]))
    ensures Trim(s) == s
  {
  }

  /** string.TrimStart(c): drops every leading occurrence of c. */
  function TrimStartChar(s: string, c: char): (r: string)
    ensures |r| <= |s| && r == s[|s| - |r|..]
    ensures r == "" || r[0] != c
    ensures forall i :: 0 <= i < |s| - |r| ==> s[i] == c
  {
    if |s| > 0 && s[0] == c then TrimStartChar(s[1..], c) else s
  }

  /** string.TrimEnd(c) */
  function TrimEndChar(s: string, c: char): (r: string)
    ensures |r| <= |s| && r == s[..|r|]
    ensures r == "" || r[|r| - 1] != c
    ensures forall i :: |r| <= i < |s| ==> s[i] == c
  {
    if |s| > 0 && s[|s| - 1] == c then TrimEndChar(s[..|s| - 1], c) else s
  }

  /** string.Trim(c) */
  function TrimChar(s: string, c: char): string
  {
    TrimEndChar(TrimStartChar(s, c), c)
  }

  lemma TrimCharKeeps(s: string, c: char)
    requires s == "" || (s[0] != c && s[|s| - 1] != c)
    ensures TrimChar(s, c) == s
  {
  }

  // ---------------------------------------------------------------------
  // Case
  // ---------------------------------------------------------------------

  /** Lower-casing of one character; only the ASCII letters are mapped. */
  function ToLowerChar(c: char): (r: char)
    ensures 'A' <= c <= 'Z' ==> 'a' <= r <= 'z' && r as int - c as int == 32
    ensures !('A' <= c <= 'Z') ==> r == c
  {
    if 'A' <= c <= 'Z' then (c as int + 32) as char else c
  }

  /** string.ToLower(), character by character. */
  function ToLower(s: string): (r: string)
    ensures |r| == |s|
    ensures forall i :: 0 <= i < |s| ==> r[i] == ToLowerChar(s[i])
  {
    if s == [] then [] else [ToLowerChar(s[0])] + ToLower(s[1..])
  }

  lemma ToLowerIdempotent(s: string)
    ensures ToLower(ToLower(s)) == ToLower(s)
  {
  }

  /** Lower-casing keeps white space and leaves other characters non-white,
    * so it commutes with Trim. */
  lemma ToLowerCharWhite(c: char)
    ensures IsWhiteSpace(ToLowerChar(c)) == IsWhiteSpace(c)
  {
  }

  lemma {:induction false} TrimStartToLower(s: string)
    ensures TrimStart(ToLower(s)) == ToLower(TrimStart(s))
  {
    if |s| > 0 {
      ToLowerCharWhite(s[0]);
      assert ToLower(s)[1..] == ToLower(s[1..]);
      TrimStartToLower(s[1..]);
    }
  }

  lemma {:induction false} TrimEndToLower(s: string)
    ensures TrimEnd(ToLower(s)) == ToLower(TrimEnd(s))
  {
    if |s| > 0 {
      ToLowerCharWhite(s[|s| - 1]);
      assert ToLower(s)[..|s| - 1] == ToLower(s[..|s| - 1]);
      TrimEndToLower(s[..|s| - 1]);
    }
  }

  lemma TrimToLower(s: string)
    ensures Trim(ToLower(s)) == ToLower(Trim(s))
  {
    TrimStartToLower(s);
    TrimEndToLower(TrimStart(s));
  }

  /** string.Equals(a, b, StringComparison.CurrentCultureIgnoreCase) */
  predicate EqualsIgnoreCase(a: string, b: string)
  {
    ToLower(a) == ToLower(b)
  }

  // ---------------------------------------------------------------------
  // Searching
  // ---------------------------------------------------------------------

  predicate OccursAt(s: string, sub: string, i: int)
  {
    0 <= i && i + |sub| <= |s| && s[i..i + |sub|] == sub
  }

  /** string.Contains(sub) */
  predicate Contains(s: string, sub: string)
  {
    exists i :: 0 <= i <= |s| && OccursAt(s, sub, i)
  }

  /** A text lacking one of sub's characters does not contain sub. */
  lemma MissingCharNotContains(s: string, sub: string, k: nat)
    requires k < |sub| && sub[k] !in s
    ensures !Contains(s, sub)
  {
    forall i | 0 <= i <= |s| ensures !OccursAt(s, sub, i) {
      if i + |sub| <= |s| {
        assert s[i..i + |sub|][k] == s[i + k];
      }
    }
  }

  /** The first occurrence of sub at or after position from. */
  function IndexOfFrom(s: string, sub: string, from: nat): (r: Option<nat>)
    ensures r.Some? ==> from <= r.value && OccursAt(s, sub, r.value)
    ensures r.Some? ==> forall j :: from <= j < r.value ==> !OccursAt(s, sub, j)
    ensures r.None? ==> forall j :: from <= j ==> !OccursAt(s, sub, j)
    decreases |s| - from
  {
    if from + |sub| > |s| then None
    else if s[from..from + |sub|] == sub then Some(from)
    else IndexOfFrom(s, sub, from + 1)
  }

  /** string.IndexOf(sub) */
  function IndexOf(s: string, sub: string): (r: Option<nat>)
    ensures r.Some? <==> Contains(s, sub)
    ensures r.Some? ==> OccursAt(s, sub, r.value) && forall j :: 0 <= j < r.value ==> !OccursAt(s, sub, j)
  {
    IndexOfFrom(s, sub, 0)
  }

  /** The last position holding c. */
  function LastIndexOf(s: string, c: char): (r: Option<nat>)
    ensures r.Some? ==> r.value < |s| && s[r.value] == c
    ensures r.Some? ==> forall j :: r.value < j < |s| ==> s[j] != c
    ensures r.None? ==> forall j :: 0 <= j < |s| ==> s[j] != c
  {
    if |s| == 0 then None
    else if s[|s| - 1] == c then Some(|s| - 1)
    else LastIndexOf(s[..|s| - 1], c)
  }

  // ---------------------------------------------------------------------
  // Split and Join
  // ---------------------------------------------------------------------

  /** string.Split(c): every piece between separators, empty pieces included. */
  function Split(s: string, c: char): (parts: seq<string>)
    ensures |parts| >= 1
  {
    if |s| == 0 then [""]
    else
      var rest := Split(s[1..], c);
      if s[0] == c then [""] + rest else [[s[0]] + rest[0]] + rest[1..]
  }

  /** string.Join(sep, parts) */
  function Join(sep: string, parts: seq<string>): string
  {
    if |parts| == 0 then ""
    else if |parts| == 1 then parts[0]
    else parts[0] + sep + Join(sep, parts[1..])
  }

  lemma {:induction false} JoinConsPrefix(sep: string, x: string, y: string, tail: seq<string>)
    ensures Join(sep, [x + y] + tail) == x + Join(sep, [y] + tail)
  {
    if |tail| == 0 {
      assert [x + y] + tail == [x + y];
      assert [y] + tail == [y];
    } else {
      assert ([x + y] + tail)[1..] == tail;
      assert ([y] + tail)[1..] == tail;
    }
  }

  /** Joining the pieces of a split with the separator gives back the text. */
  lemma {:induction false} JoinSplit(s: string, c: char)
    ensures Join([c], Split(s, c)) == s
  {
    if |s| > 0 {
      var rest := Split(s[1..], c);
      JoinSplit(s[1..], c);
      if s[0] == c {
        assert ([""] + rest)[1..] == rest;
        assert Join([c], [""] + rest) == "" + [c] + Join([c], rest);
      } else {
        assert rest == [rest[0]] + rest[1..];
        JoinConsPrefix([c], [s[0]], rest[0], rest[1..]);
        assert [s[0]] + s[1..] == s;
      }
    }
  }

  /** No piece of a split contains the separator. */
  lemma {:induction false} SplitPiecesFree(s: string, c: char)
    ensures forall k :: 0 <= k < |Split(s, c)| ==> c !in Split(s, c)[k]
  {
    if |s| > 0 {
      SplitPiecesFree(s[1..], c);
    }
  }

  lemma {:induction false} SplitWithout(s: string, c: char)
    requires c !in s
    ensures Split(s, c) == [s]
  {
    if |s| > 0 {
      assert c !in s[1..];
      SplitWithout(s[1..], c);
      assert [s[0]] + s[1..] == s;
    }
  }

  /** Split unfolded once on a text that starts with the separator. */
  lemma SplitConsSep(t: string, c: char)
    ensures Split([c] + t, c) == [""] + Split(t, c)
  {
    assert ([c] + t)[1..] == t;
  }

  /** Split unfolded once on a text that starts with another character. */
  lemma SplitConsOther(h: char, t: string, c: char)
    requires h != c
    ensures Split([h] + t, c) == [[h] + Split(t, c)[0]] + Split(t, c)[1..]
  {
    assert ([h] + t)[1..] == t;
  }

  lemma ConsHeadAppend(e: string, rx: seq<string>, ry: seq<string>)
    requires |rx| >= 1
    ensures [e + (rx + ry)[0]] + (rx + ry)[1..] == ([e + rx[0]] + rx[1..]) + ry
  {
    assert (rx + ry)[0] == rx[0];
    assert (rx + ry)[1..] == rx[1..] + ry;
  }

  /** One step of SplitAppend: a character in front of both sides. */
  lemma SplitAppendStep(h: char, s: string, t: string, y: string, c: char)
    requires Split(s, c) == Split(t, c) + Split(y, c)
    ensures Split([h] + s, c) == Split([h] + t, c) + Split(y, c)
  {
    if h == c {
      SplitConsSep(s, c);
      SplitConsSep(t, c);
      assert [""] + (Split(t, c) + Split(y, c)) == ([""] + Split(t, c)) + Split(y, c);
    } else {
      SplitConsOther(h, s, c);
      SplitConsOther(h, t, c);
      ConsHeadAppend([h], Split(t, c), Split(y, c));
    }
  }

  /** A separator between x and y splits them independently. */
  lemma {:induction false} SplitAppend(x: string, y: string, c: char)
    ensures Split(x + [c] + y, c) == Split(x, c) + Split(y, c)
  {
    if |x| == 0 {
      assert x + [c] + y == [c] + y;
      SplitConsSep(y, c);
    } else {
      SplitAppend(x[1..], y, c);
      SplitAppendStep(x[0], x[1..] + [c] + y, x[1..], y, c);
      assert [x[0]] + x[1..] == x;
      assert [x[0]] + (x[1..] + [c] + y) == x + [c] + y;
    }
  }

  /** Splitting a join of separator-free pieces gives the pieces back. */
  lemma {:induction false} SplitJoin(parts: seq<string>, c: char)
    requires |parts| >= 1
    requires forall k :: 0 <= k < |parts| ==> c !in parts[k]
    ensures Split(Join([c], parts), c) == parts
  {
    SplitWithout(parts[0], c);
    if |parts| > 1 {
      SplitJoin(parts[1..], c);
      SplitAppend(parts[0], Join([c], parts[1..]), c);
      assert [parts[0]] + parts[1..] == parts;
    }
  }

  /** string.Split(sep) with a string separator; an empty separator does not split. */
  function SplitOn(s: string, sep: string): (parts: seq<string>)
    ensures |parts| >= 1
    decreases |s|
  {
    if sep == "" then [s]
    else match IndexOf(s, sep)
      case None => [s]
      case Some(i) => [s[..i]] + SplitOn(s[i + |sep|..], sep)
  }

  lemma SplitOnWithout(s: string, sep: string)
    requires !Contains(s, sep)
    ensures SplitOn(s, sep) == [s]
  {
  }

  /** Splitting at the first occurrence: the piece before it, then the rest split again. */
  lemma SplitOnAt(pre: string, sep: string, post: string)
    requires sep != ""
    requires forall j :: 0 <= j < |pre| ==> !OccursAt(pre + sep + post, sep, j)
    ensures SplitOn(pre + sep + post, sep) == [pre] + SplitOn(post, sep)
  {
    var s := pre + sep + post;
    assert OccursAt(s, sep, |pre|) by {
      assert s[|pre|..|pre| + |sep|] == sep;
    }
    var i := IndexOf(s, sep).value;
    assert i == |pre|;
    assert s[..i] == pre;
    assert s[i + |sep|..] == post;
  }

  /** A character that occurs exactly once is found at that position. */
  lemma LastIndexOfOnly(s: string, c: char, i: nat)
    requires i < |s| && s[i] == c
    requires forall j :: 0 <= j < |s| && j != i ==> s[j] != c
    ensures LastIndexOf(s, c) == Some(i)
  {
  }

  // ---------------------------------------------------------------------
  // System.IO.Path (Unix: '/' is the only directory separator)
  // ---------------------------------------------------------------------

  const DirectorySeparator: char := '/'

  /** Path.GetFileName: the text after the last separator. */
  function GetFileName(path: string): (r: string)
    ensures DirectorySeparator !in r
    ensures |r| <= |path| && r == path[|path| - |r|..]
    ensures DirectorySeparator !in path ==> r == path
  {
    match LastIndexOf(path, DirectorySeparator)
    case None => path
    case Some(i) => path[i + 1..]
  }

  /** Path.GetExtension: from the last '.' of the file name to the end, or ""
    * when the file name has no '.' or ends with it. */
  function GetExtension(path: string): (r: string)
    ensures r != "" ==> |r| >= 2 && r[0] == '.' && '.' !in r[1..] && DirectorySeparator !in r
    ensures r != "" ==> |r| <= |path| && r == path[|path| - |r|..]
  {
    var name := GetFileName(path);
    match LastIndexOf(name, '.')
    case None => ""
    case Some(i) => if i == |name| - 1 then "" else name[i..]
  }

  /** Path.HasExtension */
  predicate HasExtension(path: string)
  {
    var name := GetFileName(path);
    match LastIndexOf(name, '.')
    case None => false
    case Some(i) => i != |name| - 1
  }

  lemma HasExtensionIff(path: string)
    ensures HasExtension(path) <==> GetExtension(path) != ""
  {
  }

  /** Path.GetFileNameWithoutExtension: the file name up to its last '.'. */
  function GetFileNameWithoutExtension(path: string): (r: string)
    ensures DirectorySeparator !in r
  {
    var name := GetFileName(path);
    match LastIndexOf(name, '.')
    case None => name
    case Some(i) => name[..i]
  }

  /** A file name is its title followed by its extension. */
  lemma FileNameSplitsIntoTitleAndExtension(path: string)
    requires DirectorySeparator !in path
    requires HasExtension(path)
    ensures GetFileNameWithoutExtension(path) + GetExtension(path) == path
  {
    var i := LastIndexOf(path, '.').value;
    assert path[..i] + path[i..] == path;
  }

  /** A path without a '.' has no extension. */
  lemma NoDotNoExtension(path: string)
    requires forall i :: 0 <= i < |path| ==> path[i] != '.'
    ensures !HasExtension(path)
  {
  }

  /** A bare file name with exactly one '.', not at its end, is its title,
    * the '.', and the rest. */
  lemma BareFileNameParts(name: string, dot: nat)
    requires DirectorySeparator !in name
    requires dot < |name| - 1 && name[dot] == '.'
    requires forall j :: 0 <= j < |name| && j != dot ==> name[j] != '.'
    ensures HasExtension(name)
    ensures GetExtension(name) == name[dot..]
    ensures GetFileNameWithoutExtension(name) == name[..dot]
  {
    LastIndexOfOnly(name, '.', dot);
  }

  /** Path.Combine(a, b): b alone when it is rooted or a is empty; a alone
    * when b is empty; otherwise the two joined by one separator. */
  function Combine(a: string, b: string): (r: string)
    ensures (b != "" && b[0] != DirectorySeparator && a != "" && a[|a| - 1] != DirectorySeparator)
              ==> r == a + [DirectorySeparator] + b
  {
    if b == "" then a
    else if a == "" then b
    else if b[0] == DirectorySeparator then b
    else if a[|a| - 1] == DirectorySeparator then a + b
    else a + [DirectorySeparator] + b
  }

  /** string.Replace(from, to) for characters. */
  function ReplaceChar(s: string, from: char, to: char): (r: string)
    ensures |r| == |s|
    ensures forall i :: 0 <= i < |s| ==> r[i] == (if s[i] == from then to else s[i])
  {
    if s == [] then [] else [if s[0] == from then to else s[0]] + ReplaceChar(s[1..], from, to)
  }

  lemma ReplaceSameChar(s: string, c: char)
    ensures ReplaceChar(s, c, c) == s
  {
  }

  // ---------------------------------------------------------------------
  // Int64 printing and parsing (invariant culture)
  // ---------------------------------------------------------------------

  const Int64Min: int := -0x8000_0000_0000_0000
  const Int64Max: int := 0x7FFF_FFFF_FFFF_FFFF

  predicate IsDigit(c: char)
  {
    '0' <= c <= '9'
  }

  predicate AllDigits(s: string)
  {
    forall i :: 0 <= i < |s| ==> IsDigit(s[i])
  }

  function DigitValue(c: char): nat
    requires IsDigit(c)
  {
    c as int - '0' as int
  }

  function DigitChar(d: nat): (c: char)
    requires d < 10
    ensures IsDigit(c) && DigitValue(c) == d
  {
    ('0' as int + d) as char
  }

  /** The value of a decimal digit string, most significant digit first. */
  function DigitsValue(s: string): nat
    requires AllDigits(s)
  {
    if s == [] then 0 else DigitsValue(s[..|s| - 1]) * 10 + DigitValue(s[|s| - 1])
  }

  /** The shortest decimal digits of n. */
  function NatToDigits(n: nat): (r: string)
    ensures AllDigits(r) && |r| >= 1
  {
    if n < 10 then [DigitChar(n)] else NatToDigits(n / 10) + [DigitChar(n % 10)]
  }

  lemma {:induction false} NatToDigitsValue(n: nat)
    ensures DigitsValue(NatToDigits(n)) == n
  {
    if n >= 10 {
      NatToDigitsValue(n / 10);
      var r := NatToDigits(n);
      assert r[..|r| - 1] == NatToDigits(n / 10);
    }
  }

  /** long.ToString() */
  function Int64ToString(n: int): (r: string)
    ensures r != [] && (r[0] == '-' || IsDigit(r[0]))
  {
    if n < 0 then "-" + NatToDigits(-n) else NatToDigits(n)
  }

  /** The white space long.Parse skips around the number. */
  predicate IsNumberWhite(c: char)
  {
    c == ' ' || ('\t' <= c <= '\r')
  }

  function SkipNumberWhiteStart(s: string): (r: string)
    ensures |r| <= |s|
  {
    if |s| > 0 && IsNumberWhite(s[0]) then SkipNumberWhiteStart(s[1..]) else s
  }

  function SkipNumberWhiteEnd(s: string): (r: string)
    ensures |r| <= |s|
  {
    if |s| > 0 && IsNumberWhite(s[|s| - 1]) then SkipNumberWhiteEnd(s[..|s| - 1]) else s
  }

  /** long.TryParse(s, out id) with NumberStyles.Integer: optional white space
    * around an optional sign and at least one digit, within the Int64 range. */
  function TryParseInt64(s: string): (r: Option<int>)
    ensures r.Some? ==> Int64Min <= r.value <= Int64Max
  {
    var t := SkipNumberWhiteEnd(SkipNumberWhiteStart(s));
    var negative := |t| > 0 && t[0] == '-';
    var digits := if |t| > 0 && (t[0] == '-' || t[0] == '+') then t[1..] else t;
    if digits == [] || !AllDigits(digits) then None
    else
      var v: int := if negative then -(DigitsValue(digits) as int) else DigitsValue(digits);
      if Int64Min <= v <= Int64Max then Some(v) else None
  }

  /** Parsing the printed form of an Int64 gives the number back. */
  lemma ParsePrintedInt64(n: int)
    requires Int64Min <= n <= Int64Max
    ensures TryParseInt64(Int64ToString(n)) == Some(n)
  {
    var s := Int64ToString(n);
    var d := NatToDigits(if n < 0 then -n else n);
    NatToDigitsValue(if n < 0 then -n else n);
    assert IsDigit(d[0]) && IsDigit(d[|d| - 1]);
    assert s[|s| - 1] == d[|d| - 1];
    assert SkipNumberWhiteStart(s) == s;
    assert SkipNumberWhiteEnd(s) == s;
    if n < 0 {
      assert s[1..] == d;
    } else {
      assert s == d;
    }
  }

  /** A text without any digit never parses. */
  lemma NoDigitNoNumber(s: string)
    requires forall i :: 0 <= i < |s| ==> !IsDigit(s[i])
    ensures TryParseInt64(s) == None
  {
    var t := SkipNumberWhiteEnd(SkipNumberWhiteStart(s));
    assert forall i :: 0 <= i < |t| ==> !IsDigit(t[i]) by {
      SkipSubstring(s);
    }
  }

  lemma SkipSubstring(s: string)
    ensures forall i :: 0 <= i < |SkipNumberWhiteEnd(SkipNumberWhiteStart(s))| ==>
              SkipNumberWhiteEnd(SkipNumberWhiteStart(s))[i] in s
  {
    SkipStartIn(s);
    SkipEndIn(SkipNumberWhiteStart(s));
  }

  lemma SkipStartIn(s: string)
    ensures forall i :: 0 <= i < |SkipNumberWhiteStart(s)| ==> SkipNumberWhiteStart(s)[i] in s
  {
  }

  lemma SkipEndIn(s: string)
    ensures forall i :: 0 <= i < |SkipNumberWhiteEnd(s)| ==> SkipNumberWhiteEnd(s)[i] in s
  {
  }
}
