/** The parts of Go's `strings` and `strconv` packages that the platform core
    calls, modelled on `seq<char>`: substring search, prefix test, whitespace
    trimming, field and separator splitting, and decimal integer formatting
    and parsing for the 64-bit `int` of the targets the service is built for. */
module GoText {

  // ---------------------------------------------------------------------
  // Substrings
  // ---------------------------------------------------------------------

  /** `sub` occurs in `s` starting at index `i`. */
  predicate OccursAt(s: string, sub: string, i: int)
  {
    0 <= i && i + |sub| <= |s| && s[i..i + |sub|] == sub
  }

  /** `strings.Contains(s, sub)`. */
  predicate Contains(s: string, sub: string)
  {
    exists i | 0 <= i <= |s| - |sub| :: OccursAt(s, sub, i)
  }

  /** `strings.HasPrefix(s, p)`. */
  predicate HasPrefix(s: string, p: string)
  {
    |p| <= |s| && s[..|p|] == p
  }

  /** `strings.Index(s, sub)`: the first occurrence of `sub` in `s`, or -1. */
  function Index(s: string, sub: string): (r: int)
    ensures r == -1 <==> !Contains(s, sub)
    ensures r != -1 ==> OccursAt(s, sub, r)
    ensures forall j :: 0 <= j < r ==> !OccursAt(s, sub, j)
    decreases |s|
  {
    if HasPrefix(s, sub) then
      assert OccursAt(s, sub, 0);
      0
    else if |s| <= |sub| then
      assert forall j :: 0 <= j <= |s| - |sub| ==> j == 0 && !OccursAt(s, sub, j);
      -1
    else
      var k := Index(s[1..], sub);
      forall j | 1 <= j ensures OccursAt(s, sub, j) <==> OccursAt(s[1..], sub, j - 1) {
        OccursAtShift(s, sub, j);
      }
      if k == -1 then
        -1
      else
        assert OccursAt(s, sub, k + 1);
        k + 1
  }

  /** An occurrence at `j >= 1` in `s` is an occurrence at `j - 1` in `s[1..]`. */
  lemma OccursAtShift(s: string, sub: string, j: int)
    requires s != [] && 1 <= j
    ensures OccursAt(s, sub, j) <==> OccursAt(s[1..], sub, j - 1)
  {
    if j + |sub| <= |s| {
      var a, b := s[j..j + |sub|], s[1..][j - 1..j - 1 + |sub|];
      assert forall i :: 0 <= i < |sub| ==> a[i] == s[j + i] == b[i];
      assert a == b;
    }
  }

  // ---------------------------------------------------------------------
  // Whitespace
  // ---------------------------------------------------------------------

  /** `unicode.IsSpace`: the Latin-1 spaces and the other Unicode White_Space
      code points. */
  predicate IsSpace(c: char)
  {
    || c == '\t' || c == '\n' || c == '\U{B}' || c == '\U{C}' || c == '\r' || c == ' '
    || c == '\U{85}' || c == '\U{A0}' || c == '\U{1680}'
    || ('\U{2000}' <= c <= '\U{200A}')
    || c == '\U{2028}' || c == '\U{2029}' || c == '\U{202F}' || c == '\U{205F}' || c == '\U{3000}'
  }

  /** Drops the leading white space of `s`. */
  function TrimLeftSpace(s: string): (r: string)
    ensures |r| <= |s| && r == s[|s| - |r|..]
    ensures r == [] || !IsSpace(r[0])
    ensures forall i :: 0 <= i < |s| - |r| ==> IsSpace(s[i])
  {
    if s != [] && IsSpace(s[0]) then TrimLeftSpace(s[1..]) else s
  }

  /** Drops the trailing white space of `s`. */
  function TrimRightSpace(s: string): (r: string)
    ensures |r| <= |s| && r == s[..|r|]
    ensures r == [] || !IsSpace(r[|r| - 1])
    ensures forall i :: |r| <= i < |s| ==> IsSpace(s[i])
  {
    if s != [] && IsSpace(s[|s| - 1]) then TrimRightSpace(s[..|s| - 1]) else s
  }

  /** `strings.TrimSpace(s)`. */
  function TrimSpace(s: string): string
  {
    TrimRightSpace(TrimLeftSpace(s))
  }

  /** `strings.TrimRight(s, [c])`: drops every trailing `c`. */
  function TrimRightChar(s: string, c: char): (r: string)
    ensures |r| <= |s| && r == s[..|r|]
    ensures r == [] || r[|r| - 1] != c
    ensures forall i :: |r| <= i < |s| ==> s[i] == c
  {
    if s != [] && s[|s| - 1] == c then TrimRightChar(s[..|s| - 1], c) else s
  }

  /** `strings.ReplaceAll(s, [c], "")`: every `c` removed, the rest kept in order. */
  function RemoveChar(s: string, c: char): (r: string)
    ensures c !in r
    ensures forall x :: x != c ==> multiset(r)[x] == multiset(s)[x]
  {
    if s == [] then []
    else
      assert s == [s[0]] + s[1..];
      (if s[0] == c then [] else [s[0]]) + RemoveChar(s[1..], c)
  }

  // ---------------------------------------------------------------------
  // Fields and Split
  // ---------------------------------------------------------------------

  /** The longest prefix of `s` that holds no white space. */
  function Word(s: string): (w: string)
    ensures |w| <= |s| && w == s[..|w|]
    ensures forall i :: 0 <= i < |w| ==> !IsSpace(w[i])
    ensures |w| == |s| || IsSpace(s[|w|])
  {
    if s == [] || IsSpace(s[0]) then [] else [s[0]] + Word(s[1..])
  }

  /** `strings.Fields(s)`: the maximal runs of non-space characters of `s`. */
  function Fields(s: string): (r: seq<string>)
    ensures forall i :: 0 <= i < |r| ==> r[i] != []
    decreases |s|
  {
    if s == [] then []
    else if IsSpace(s[0]) then Fields(s[1..])
    else
      var w := Word(s);
      [w] + Fields(s[|w|..])
  }

  /** `strings.Split(s, sep)` for a non-empty separator: the pieces between
      successive non-overlapping occurrences of `sep`, scanning from the left. */
  function Split(s: string, sep: string): (parts: seq<string>)
    requires sep != []
    ensures |parts| >= 1
    decreases |s|
  {
    var i := Index(s, sep);
    if i == -1 then [s] else [s[..i]] + Split(s[i + |sep|..], sep)
  }

  /** `strings.Join(parts, sep)`. */
  function Join(parts: seq<string>, sep: string): string
  {
    if parts == [] then [] else if |parts| == 1 then parts[0] else parts[0] + sep + Join(parts[1..], sep)
  }

  /** `ReplaceAll` distributes over concatenation, so the order of the kept
      characters is the order of the input. */
  lemma {:induction false} RemoveCharAppend(a: string, b: string, c: char)
    ensures RemoveChar(a + b, c) == RemoveChar(a, c) + RemoveChar(b, c)
    decreases |a|
  {
    if a != [] {
      assert (a + b)[1..] == a[1..] + b;
      RemoveCharAppend(a[1..], b, c);
    } else {
      assert a + b == b;
    }
  }

  /** Removing a character that does not occur changes nothing. */
  lemma {:induction false} RemoveCharAbsent(s: string, c: char)
    requires c !in s
    ensures RemoveChar(s, c) == s
    decreases |s|
  {
    if s != [] {
      RemoveCharAbsent(s[1..], c);
    }
  }

  /** A word ends at the first white space, whatever follows it. */
  lemma {:induction false} WordAppend(a: string, t: string)
    requires t == [] || IsSpace(t[0])
    ensures Word(a + t) == Word(a)
    decreases |a|
  {
    if a == [] {
      assert a + t == t;
    } else {
      assert (a + t)[0] == a[0];
      assert (a + t)[1..] == a[1..] + t;
      WordAppend(a[1..], t);
    }
  }

  /** A white-space character splits the fields of the text around it:
      none of them runs across it. */
  lemma {:induction false} FieldsAroundSpace(a: string, x: char, b: string)
    requires IsSpace(x)
    ensures Fields(a + [x] + b) == Fields(a) + Fields(b)
    decreases |a|, 1
  {
    if a == [] {
      assert a + [x] + b == [x] + b;
      assert ([x] + b)[1..] == b;
    } else if IsSpace(a[0]) {
      assert (a + [x] + b)[1..] == a[1..] + [x] + b;
      FieldsAroundSpace(a[1..], x, b);
    } else {
      FieldsAroundSpaceAfterWord(a, x, b);
    }
  }

  /** `FieldsAroundSpace` where `a` starts with a word. */
  lemma {:induction false} FieldsAroundSpaceAfterWord(a: string, x: char, b: string)
    requires IsSpace(x) && a != [] && !IsSpace(a[0])
    ensures Fields(a + [x] + b) == Fields(a) + Fields(b)
    decreases |a|, 0
  {
    var w := Word(a);
    var s := a + [x] + b;
    assert s == a + ([x] + b);
    WordAppend(a, [x] + b);
    assert s[|w|..] == a[|w|..] + [x] + b;
    FieldsAroundSpace(a[|w|..], x, b);
    FieldsOfWord(s);
    FieldsOfWord(a);
  }

  /** A text starting with a non-space character has its first word as its
      first field. */
  lemma FieldsOfWord(s: string)
    requires s != [] && !IsSpace(s[0])
    ensures Fields(s) == [Word(s)] + Fields(s[|Word(s)|..])
  {
  }

  /** Leading white space adds no field. */
  lemma FieldsLeadingSpace(s: string, x: char)
    requires IsSpace(x)
    ensures Fields([x] + s) == Fields(s)
  {
    assert ([x] + s)[1..] == s;
  }

  /** Trailing white space adds no field. */
  lemma FieldsTrailingSpace(s: string, x: char)
    requires IsSpace(x)
    ensures Fields(s + [x]) == Fields(s)
  {
    assert s + [x] == s + [x] + [];
    FieldsAroundSpace(s, x, []);
  }

  /** Two white-space characters in a row separate fields like one does. */
  lemma FieldsRepeatedSpace(a: string, x: char, y: char, b: string)
    requires IsSpace(x) && IsSpace(y)
    ensures Fields(a + [x, y] + b) == Fields(a + [x] + b)
  {
    assert a + [x, y] + b == a + [x] + ([y] + b);
    FieldsAroundSpace(a, x, [y] + b);
    FieldsLeadingSpace(b, y);
    FieldsAroundSpace(a, x, b);
  }

  /** An occurrence inside a prefix is an occurrence in the whole string. */
  lemma OccursInPrefix(s: string, sub: string, i: int, j: int)
    requires 0 <= i <= |s| && OccursAt(s[..i], sub, j)
    ensures OccursAt(s, sub, j)
  {
    assert s[..i][j..j + |sub|] == s[j..j + |sub|];
  }

  /** Round trip: joining the pieces of `Split` with the separator gives back
      the input. */
  lemma {:induction false} SplitJoin(s: string, sep: string)
    requires sep != []
    ensures Join(Split(s, sep), sep) == s
    decreases |s|
  {
    var i := Index(s, sep);
    if i != -1 {
      var rest := s[i + |sep|..];
      var tail := Split(rest, sep);
      SplitJoin(rest, sep);
      JoinCons(s[..i], tail, sep);
      SplitAt(s, sep, i);
    }
  }

  /** Joining a piece in front of a non-empty list puts one separator between. */
  lemma JoinCons(p: string, tail: seq<string>, sep: string)
    requires |tail| >= 1
    ensures Join([p] + tail, sep) == p + sep + Join(tail, sep)
  {
    assert ([p] + tail)[1..] == tail;
  }

  /** A string is the text before an occurrence, the occurrence and the rest. */
  lemma SplitAt(s: string, sep: string, i: int)
    requires OccursAt(s, sep, i)
    ensures s == s[..i] + sep + s[i + |sep|..]
  {
    assert s[i..i + |sep|] == sep;
  }

  /** No piece of `Split` holds the separator. */
  lemma {:induction false} SplitPiecesClean(s: string, sep: string)
    requires sep != []
    ensures forall p :: p in Split(s, sep) ==> !Contains(p, sep)
    decreases |s|
  {
    var i := Index(s, sep);
    if i != -1 {
      var rest := s[i + |sep|..];
      SplitPiecesClean(rest, sep);
      assert Split(s, sep) == [s[..i]] + Split(rest, sep);
      forall j | 0 <= j <= |s[..i]| - |sep| ensures !OccursAt(s[..i], sep, j) {
        if OccursAt(s[..i], sep, j) {
          OccursInPrefix(s, sep, i, j);
        }
      }
    }
  }

  /** `p` is followed by `sep` and no occurrence of `sep` begins inside `p`,
      not even one that runs on into the separator that follows it. */
  predicate EndsBeforeSeparator(p: string, sep: string)
    requires sep != []
  {
    !Contains(p + sep[..|sep| - 1], sep)
  }

  /** Splitting a piece that ends cleanly before the separator yields that
      piece first. */
  lemma SplitCons(p: string, sep: string, rest: string)
    requires sep != [] && EndsBeforeSeparator(p, sep)
    ensures Split(p + sep + rest, sep) == [p] + Split(rest, sep)
  {
    var s := p + sep + rest;
    assert OccursAt(s, sep, |p|) by {
      assert s[|p|..|p| + |sep|] == sep;
    }
    forall j | 0 <= j < |p| ensures !OccursAt(s, sep, j) {
      var t := p + sep[..|sep| - 1];
      var a, b := s[j..j + |sep|], t[j..j + |sep|];
      assert forall k :: 0 <= k < |sep| ==> a[k] == s[j + k] == t[j + k] == b[k];
      assert a == b;
      assert OccursAt(s, sep, j) == OccursAt(t, sep, j);
    }
    var i := Index(s, sep);
    assert i == |p|;
    assert s[..i] == p;
    assert s[i + |sep|..] == rest;
  }

  /** A string without the separator splits into itself alone. */
  lemma SplitSingle(p: string, sep: string)
    requires sep != [] && !Contains(p, sep)
    ensures Split(p, sep) == [p]
  {
  }

  // ---------------------------------------------------------------------
  // Decimal integers
  // ---------------------------------------------------------------------

  /** Bounds of Go's 64-bit `int` and `uint64`. */
  const MinInt: int := -0x8000_0000_0000_0000
  const MaxInt: int := 0x7FFF_FFFF_FFFF_FFFF
  const MaxUint64: int := 0xFFFF_FFFF_FFFF_FFFF

  predicate IsDigit(c: char) { '0' <= c <= '9' }

  function DigitValue(c: char): nat
    requires IsDigit(c)
  {
    c as int - '0' as int
  }

  function DigitChar(d: nat): (c: char)
    requires d < 10
    ensures IsDigit(c) && DigitValue(c) == d
  {
    ('0' as int + d) as char
  }

  /** The decimal digits of `n`, without leading zeros. */
  function NatToDecimal(n: nat): (s: string)
    ensures 1 <= |s|
    ensures forall i :: 0 <= i < |s| ==> IsDigit(s[i])
  {
    if n < 10 then [DigitChar(n)] else NatToDecimal(n / 10) + [DigitChar(n % 10)]
  }

  /** `strconv.Itoa(n)`, also what `fmt.Sprintf("%d", n)` prints. */
  function Itoa(n: int): string
  {
    if n < 0 then "-" + NatToDecimal(-n) else NatToDecimal(n)
  }

  /** What scanning unsigned decimal digits yields: a value, a character that
      is not a digit, or a value beyond `uint64`. */
  datatype UintScan = UintOk(value: nat) | UintSyntax | UintRange

  /** The digit loop of `strconv.ParseUint(s, 10, 64)` with accumulator `n`:
      it stops at the first non-digit, or as soon as the value would leave
      `uint64`, whichever comes first. */
  function ScanUint(s: string, n: nat): UintScan
    requires n <= MaxUint64
    decreases |s|
  {
    if s == [] then UintOk(n)
    else if !IsDigit(s[0]) then UintSyntax
    else if n >= MaxUint64 / 10 + 1 then UintRange
    else
      var n1 := n * 10 + DigitValue(s[0]);
      if n1 > MaxUint64 then UintRange else ScanUint(s[1..], n1)
  }

  /** Why `strconv.Atoi` rejected its input. */
  datatype NumError = InvalidSyntax | OutOfRange

  /** `strconv.Atoi(s)`: the value, or the error together with the value Go
      returns beside it (0 for bad syntax, the nearest bound when out of range). */
  datatype AtoiResult = Parsed(value: int) | AtoiError(returned: int, error: NumError)

  /** `strconv.Atoi(s)` on a 64-bit target: an optional sign, then one or more
      decimal digits, in the range of `int`. */
  function Atoi(s: string): (r: AtoiResult)
    ensures r.Parsed? ==> MinInt <= r.value <= MaxInt
    ensures r.Parsed? ==> s != [] && forall i :: 0 < i < |s| ==> IsDigit(s[i])
    ensures r.Parsed? ==> IsDigit(s[0]) || s[0] == '-' || s[0] == '+'
    ensures r.AtoiError? && r.error == InvalidSyntax ==> r.returned == 0
    ensures r.AtoiError? && r.error == OutOfRange ==> r.returned == MinInt || r.returned == MaxInt
  {
    if s == [] then AtoiError(0, InvalidSyntax)
    else
      var neg := s[0] == '-';
      var digits := if s[0] == '-' || s[0] == '+' then s[1..] else s;
      var scan := if digits == [] then UintSyntax else ScanUint(digits, 0);
      match scan
      case UintSyntax => AtoiError(0, InvalidSyntax)
      case UintRange => if neg then AtoiError(MinInt, OutOfRange) else AtoiError(MaxInt, OutOfRange)
      case UintOk(u) =>
        ScanUintDigits(digits, 0);
        if !neg && u > MaxInt then AtoiError(MaxInt, OutOfRange)
        else if neg && u > -MinInt then AtoiError(MinInt, OutOfRange)
        else
          var v: int := if neg then -(u as int) else u;
          Parsed(v)
  }

  /** A scan that succeeds has seen only digits and stays within `uint64`. */
  lemma {:induction false} ScanUintDigits(s: string, n: nat)
    requires n <= MaxUint64
    requires ScanUint(s, n).UintOk?
    ensures forall i :: 0 <= i < |s| ==> IsDigit(s[i])
    ensures ScanUint(s, n).value <= MaxUint64
    decreases |s|
  {
    if s != [] {
      var n1 := n * 10 + DigitValue(s[0]);
      ScanUintDigits(s[1..], n1);
      assert forall i :: 1 <= i < |s| ==> s[i] == s[1..][i - 1];
    }
  }

  /** Scanning a concatenation continues from where the first part stopped. */
  lemma {:induction false} ScanUintAppend(a: string, b: string, n: nat)
    requires n <= MaxUint64
    requires ScanUint(a, n).UintOk?
    ensures ScanUint(a, n).value <= MaxUint64
    ensures ScanUint(a + b, n) == ScanUint(b, ScanUint(a, n).value)
    decreases |a|
  {
    if a == [] {
      assert a + b == b;
    } else {
      assert (a + b)[0] == a[0];
      assert (a + b)[1..] == a[1..] + b;
      ScanUintAppend(a[1..], b, n * 10 + DigitValue(a[0]));
    }
  }

  /** The digits `Itoa` prints scan back to the number they came from. */
  lemma {:induction false} ScanNatToDecimal(m: nat)
    requires m <= MaxUint64
    ensures ScanUint(NatToDecimal(m), 0) == UintOk(m)
  {
    if m >= 10 {
      ScanNatToDecimal(m / 10);
      ScanUintAppend(NatToDecimal(m / 10), [DigitChar(m % 10)], 0);
    }
  }

  /** Round trip: `strconv.Atoi(strconv.Itoa(n)) == n` for every `int`. */
  lemma AtoiItoa(n: int)
    requires MinInt <= n <= MaxInt
    ensures Atoi(Itoa(n)) == Parsed(n)
  {
    if n < 0 {
      ScanNatToDecimal(-n);
      assert ("-" + NatToDecimal(-n))[1..] == NatToDecimal(-n);
    } else {
      ScanNatToDecimal(n);
    }
  }

  // ---------------------------------------------------------------------
  // strconv.Quote, as `NumError.Error` prints the rejected input
  // ---------------------------------------------------------------------

  const LowerHex := "0123456789abcdef"

  /** How `strconv.Quote` writes one character: `"` and `\` behind a
      backslash; the seven control characters with a letter escape by that
      letter; the other ASCII control characters and DEL as `\x` with two
      lower-case hex digits; every other character as it is. */
  function QuoteChar(c: char): string
  {
    if c == '"' || c == '\\' then ['\\', c]
    else if c as int == 7 then "\\a"
    else if c as int == 8 then "\\b"
    else if c as int == 12 then "\\f"
    else if c == '\n' then "\\n"
    else if c == '\r' then "\\r"
    else if c == '\t' then "\\t"
    else if c as int == 11 then "\\v"
    else if c as int < 32 || c as int == 127 then ['\\', 'x', LowerHex[c as int / 16], LowerHex[c as int % 16]]
    else [c]
  }

  /** The escaped characters of `s`, in order. */
  function QuoteBody(s: string): string
  {
    if s == [] then [] else QuoteChar(s[0]) + QuoteBody(s[1..])
  }

  /** `strconv.Quote(s)`: the escaped text between double quotes. */
  function Quote(s: string): (r: string)
    ensures |r| >= 2 && r[0] == '"' && r[|r| - 1] == '"'
    ensures r[1..|r| - 1] == QuoteBody(s)
  {
    "\"" + QuoteBody(s) + "\""
  }

  /** The value of a lower-case hex digit. */
  function HexValue(d: char): nat
  {
    if '0' <= d <= '9' then d as int - '0' as int
    else if 'a' <= d <= 'f' then d as int - 'a' as int + 10
    else 0
  }

  /** The character a one-letter escape stands for. */
  function Unescaped(e: char): char
  {
    if e == 'a' then 7 as char
    else if e == 'b' then 8 as char
    else if e == 'f' then 12 as char
    else if e == 'n' then '\n'
    else if e == 'r' then '\r'
    else if e == 't' then '\t'
    else if e == 'v' then 11 as char
    else e
  }

  /** Reading escapes back, for the escapes `QuoteChar` writes. */
  function Unescape(t: string): string
    decreases |t|
  {
    if t == [] then []
    else if t[0] != '\\' || |t| < 2 then [t[0]] + Unescape(t[1..])
    else if t[1] == 'x' && |t| >= 4 then [(16 * (HexValue(t[2]) % 16) + HexValue(t[3]) % 16) as char] + Unescape(t[4..])
    else [Unescaped(t[1])] + Unescape(t[2..])
  }

  /** A character that is not a backslash reads back as itself. */
  lemma UnescapePlain(c: char, rest: string)
    requires c != '\\'
    ensures Unescape([c] + rest) == [c] + Unescape(rest)
  {
    assert ([c] + rest)[1..] == rest;
  }

  /** A backslash and a letter other than 'x' read back as one character. */
  lemma UnescapeLetter(e: char, rest: string)
    requires e != 'x'
    ensures Unescape(['\\', e] + rest) == [Unescaped(e)] + Unescape(rest)
  {
    assert (['\\', e] + rest)[2..] == rest;
  }

  /** `\x` and two lower-case hex digits read back as the ASCII character
      they spell. */
  lemma UnescapeHex(n: int, rest: string)
    requires 0 <= n < 128
    ensures Unescape(['\\', 'x', LowerHex[n / 16], LowerHex[n % 16]] + rest) == [n as char] + Unescape(rest)
  {
    var hi, lo := n / 16, n % 16;
    var t := ['\\', 'x', LowerHex[hi], LowerHex[lo]] + rest;
    HexDigitValue(hi);
    HexDigitValue(lo);
    assert 16 * hi + lo == n;
    assert t[2] == LowerHex[hi] && t[3] == LowerHex[lo];
    assert t[4..] == rest;
  }

  /** Each lower-case hex digit has the value of its place in `LowerHex`. */
  lemma HexDigitValue(d: int)
    requires 0 <= d < 16
    ensures HexValue(LowerHex[d]) == d
  {
    if d < 10 {
      assert LowerHex[d] == ('0' as int + d) as char;
    } else {
      assert LowerHex[d] == ('a' as int + d - 10) as char;
    }
  }

  /** One escaped character reads back as itself, whatever follows it. */
  lemma UnescapeQuoteChar(c: char, rest: string)
    ensures Unescape(QuoteChar(c) + rest) == [c] + Unescape(rest)
  {
    var n := c as int;
    if c == '"' || c == '\\' {
      UnescapeLetter(c, rest);
    } else if n == 7 {
      UnescapeLetter('a', rest);
    } else if n == 8 {
      UnescapeLetter('b', rest);
    } else if n == 12 {
      UnescapeLetter('f', rest);
    } else if c == '\n' {
      UnescapeLetter('n', rest);
    } else if c == '\r' {
      UnescapeLetter('r', rest);
    } else if c == '\t' {
      UnescapeLetter('t', rest);
    } else if n == 11 {
      UnescapeLetter('v', rest);
    } else if n < 32 || n == 127 {
      UnescapeHex(n, rest);
    } else {
      UnescapePlain(c, rest);
    }
  }

  /** Round trip: the escaped body of `strconv.Quote(s)` reads back as `s`. */
  lemma {:induction false} UnescapeQuoteBody(s: string)
    ensures Unescape(QuoteBody(s)) == s
  {
    if s != [] {
      UnescapeQuoteChar(s[0], QuoteBody(s[1..]));
      UnescapeQuoteBody(s[1..]);
    }
  }

  /** Text with nothing to escape, such as a run of digits, is quoted as it
      is. */
  lemma {:induction false} QuotePlain(s: string)
    requires forall i :: 0 <= i < |s| ==> 32 <= s[i] as int < 127 && s[i] != '"' && s[i] != '\\'
    ensures QuoteBody(s) == s
  {
    if s != [] {
      QuotePlain(s[1..]);
    }
  }
}
