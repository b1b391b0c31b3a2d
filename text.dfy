/** String rules the client relies on: Python's str.lower (ASCII part), `in`,
    str.split with one separator, str.strip of one character, os.path.basename,
    os.path.splitext, str.encode (UTF-8) and urllib's quote_plus. */
module Text {

  type byte = b: int | 0 <= b < 256

  datatype Option<T> = None | Some(value: T)

  function LowerChar(c: char): char {
    if 'A' <= c <= 'Z' then (c as int + 32) as char else c
  }

  /** str.lower() restricted to ASCII letters. */
  function Lower(s: string): (r: string)
    ensures |r| == |s|
    ensures forall i :: 0 <= i < |s| ==> r[i] == LowerChar(s[i])
  {
    seq(|s|, i requires 0 <= i < |s| => LowerChar(s[i]))
  }

  lemma LowerIdempotent(s: string)
    ensures Lower(Lower(s)) == Lower(s)
  {
    assert forall i :: 0 <= i < |s| ==> Lower(Lower(s))[i] == Lower(s)[i];
  }

  predicate StartsWith(s: string, prefix: string) {
    |prefix| <= |s| && s[..|prefix|] == prefix
  }

  /** str.endswith */
  predicate EndsWith(s: string, suffix: string) {
    |suffix| <= |s| && s[|s| - |suffix|..] == suffix
  }

  predicate OccursAt(s: string, t: string, i: nat) {
    i + |t| <= |s| && s[i..i + |t|] == t
  }

  /** The leftmost index at or after `from` where `t` occurs in `s` (str.find). */
  function Find(s: string, t: string, from: nat): (r: Option<nat>)
    ensures r.Some? ==> from <= r.value && OccursAt(s, t, r.value)
    ensures forall j :: from <= j && (r.None? || j < r.value) ==> !OccursAt(s, t, j)
    decreases |s| - from
  {
    if from + |t| > |s| then None
    else if s[from..from + |t|] == t then Some(from)
    else Find(s, t, from + 1)
  }

  /** Python's `t in s` for strings. */
  predicate Contains(s: string, t: string) {
    Find(s, t, 0).Some?
  }

  lemma ContainsIff(s: string, t: string)
    ensures Contains(s, t) <==> exists i: nat :: OccursAt(s, t, i)
  {
    if !Contains(s, t) {
      forall i: nat ensures !OccursAt(s, t, i) {
      }
    }
  }

  /** str.split(sep) for a one-character separator: the pieces between the separators,
      empty ones included, so there is always at least one piece. */
  function Split(s: string, sep: char): (parts: seq<string>)
    ensures |parts| >= 1
    decreases |s|
  {
    if s == [] then [[]]
    else if s[0] == sep then [[]] + Split(s[1..], sep)
    else
      var rest := Split(s[1..], sep);
      [[s[0]] + rest[0]] + rest[1..]
  }

  /** sep.join(parts) */
  function Join(parts: seq<string>, sep: char): string
    requires |parts| >= 1
    decreases |parts|
  {
    if |parts| == 1 then parts[0] else parts[0] + [sep] + Join(parts[1..], sep)
  }

  predicate Free(s: string, c: char) {
    forall i :: 0 <= i < |s| ==> s[i] != c
  }

  /** Joining the pieces of a split gives back the string, and no piece holds the separator. */
  lemma {:induction false} SplitJoin(s: string, sep: char)
    ensures Join(Split(s, sep), sep) == s
    ensures forall k :: 0 <= k < |Split(s, sep)| ==> Free(Split(s, sep)[k], sep)
    decreases |s|
  {
    if s == [] {
    } else if s[0] == sep {
      SplitJoin(s[1..], sep);
      var rest := Split(s[1..], sep);
      assert Split(s, sep) == [[]] + rest;
      assert Join([[]] + rest, sep) == [] + [sep] + Join(rest, sep);
    } else {
      SplitJoin(s[1..], sep);
      var rest := Split(s[1..], sep);
      var parts := Split(s, sep);
      assert parts == [[s[0]] + rest[0]] + rest[1..];
      assert Free(rest[0], sep);
      if |rest| == 1 {
        assert Join(parts, sep) == [s[0]] + rest[0];
      } else {
        assert Join(rest, sep) == rest[0] + [sep] + Join(rest[1..], sep);
        assert parts[1..] == rest[1..];
        assert Join(parts, sep) == [s[0]] + rest[0] + [sep] + Join(rest[1..], sep);
      }
      assert s == [s[0]] + s[1..];
    }
  }

  /** Splitting a join of separator-free pieces gives back the pieces. */
  lemma {:induction false} JoinSplit(parts: seq<string>, sep: char)
    requires |parts| >= 1
    requires forall k :: 0 <= k < |parts| ==> Free(parts[k], sep)
    ensures Split(Join(parts, sep), sep) == parts
    decreases |parts|, |parts[0]|
  {
    if |parts[0]| == 0 {
      if |parts| == 1 {
      } else {
        var tail := Join(parts[1..], sep);
        JoinSplit(parts[1..], sep);
        assert Join(parts, sep) == [sep] + tail;
        assert ([sep] + tail)[1..] == tail;
        assert parts == [[]] + parts[1..];
      }
    } else {
      var c := parts[0][0];
      var shorter := [parts[0][1..]] + parts[1..];
      assert shorter[1..] == parts[1..];
      assert Free(shorter[0], sep);
      assert forall k :: 0 <= k < |shorter| ==> Free(shorter[k], sep);
      JoinSplit(shorter, sep);
      var j := Join(parts, sep);
      if |parts| == 1 {
        assert j == [c] + parts[0][1..];
        assert j[1..] == Join(shorter, sep);
      } else {
        assert j == [c] + (parts[0][1..] + [sep] + Join(parts[1..], sep));
        assert j[1..] == Join(shorter, sep);
      }
      assert j[0] == c && c != sep;
      assert [c] + shorter[0] == parts[0];
      assert parts == [[c] + shorter[0]] + shorter[1..];
    }
  }

  function Last<T>(s: seq<T>): T
    requires |s| >= 1
  {
    s[|s| - 1]
  }

  /** The last piece of a split is the part after the last separator: it holds no
      separator, and what precedes it is empty or ends with the separator. */
  lemma {:induction false} LastPiece(s: string, sep: char)
    ensures Free(Last(Split(s, sep)), sep)
    ensures EndsWith(s, Last(Split(s, sep)))
    ensures var n := |s| - |Last(Split(s, sep))|; n == 0 || s[n - 1] == sep
    ensures |Split(s, sep)| == 1 ==> Last(Split(s, sep)) == s
    ensures |Split(s, sep)| > 1 ==> |Last(Split(s, sep))| < |s|
    decreases |s|
  {
    SplitJoin(s, sep);
    if s != [] {
      LastPiece(s[1..], sep);
      var rest := Split(s[1..], sep);
      if s[0] != sep {
        var parts := Split(s, sep);
        if |rest| > 1 {
          assert Last(parts) == Last(rest);
        } else {
          assert Last(parts) == [s[0]] + rest[0];
          assert s == [s[0]] + s[1..];
        }
      } else {
        assert Last(Split(s, sep)) == Last(rest);
      }
    }
  }

  /** os.path.basename on a POSIX path: everything after the last '/'. */
  function Basename(path: string): (r: string)
    ensures Free(r, '/') && EndsWith(path, r)
    ensures |r| < |path| ==> path[|path| - |r| - 1] == '/'
  {
    LastPiece(path, '/');
    Last(Split(path, '/'))
  }

  function StripLeft(s: string, c: char): (r: string)
    ensures |r| <= |s| && r == s[|s| - |r|..]
    ensures r == [] || r[0] != c
    ensures forall i :: 0 <= i < |s| - |r| ==> s[i] == c
    decreases |s|
  {
    if s != [] && s[0] == c then StripLeft(s[1..], c) else s
  }

  function StripRight(s: string, c: char): (r: string)
    ensures |r| <= |s| && r == s[..|r|]
    ensures r == [] || r[|r| - 1] != c
    ensures forall i :: |r| <= i < |s| ==> s[i] == c
    decreases |s|
  {
    if s != [] && s[|s| - 1] == c then StripRight(s[..|s| - 1], c) else s
  }

  /** str.strip(c): drop every leading and trailing `c`. */
  function Strip(s: string, c: char): string {
    StripRight(StripLeft(s, c), c)
  }

  /** What strip removes is made of `c` only, and what it keeps neither starts nor ends
      with `c`. */
  lemma StripShape(s: string, c: char)
    ensures var r := Strip(s, c);
      (r == [] || (r[0] != c && r[|r| - 1] != c)) &&
      exists i: nat :: OccursAt(s, r, i) &&
        (forall j :: 0 <= j < i ==> s[j] == c) &&
        (forall j :: i + |r| <= j < |s| ==> s[j] == c)
  {
    var l := StripLeft(s, c);
    var r := StripRight(l, c);
    var i := |s| - |l|;
    assert s[i..i + |r|] == l[..|r|];
    assert OccursAt(s, r, i);
  }

  /** The index of the last `c` in `s`, if any (str.rfind). */
  function RFind(s: string, c: char): (r: Option<nat>)
    ensures r.Some? ==> r.value < |s| && s[r.value] == c && forall j :: r.value < j < |s| ==> s[j] != c
    ensures r.None? ==> Free(s, c)
    decreases |s|
  {
    if s == [] then None
    else if s[|s| - 1] == c then Some(|s| - 1)
    else RFind(s[..|s| - 1], c)
  }

  predicate AllDots(s: string) {
    forall i :: 0 <= i < |s| ==> s[i] == '.'
  }

  /** os.path.splitext(name)[0] for a name without '/': cut at the last '.', unless
      only dots precede it (".bashrc" has no extension). */
  function SplitextRoot(name: string): string {
    match RFind(name, '.')
    case None => name
    case Some(d) => if AllDots(name[..d]) then name else name[..d]
  }

  /** A name `stem + ext`, where ext is '.' followed by no further '.', and stem is not
      made of dots only, has root `stem`. */
  lemma SplitextOfExtension(stem: string, ext: string)
    requires |ext| >= 1 && ext[0] == '.' && Free(ext[1..], '.')
    requires !AllDots(stem)
    ensures SplitextRoot(stem + ext) == stem
  {
    var name := stem + ext;
    var d := |stem|;
    assert name[d] == '.';
    forall j | d < j < |name| ensures name[j] != '.' {
      assert name[j] == ext[1..][j - d - 1];
    }
    assert RFind(name, '.') == Some(d);
    assert name[..d] == stem;
  }

  /** UTF-8 encoding of one code point. */
  function Utf8Char(c: char): (r: seq<byte>)
    ensures 1 <= |r| <= 4
  {
    var n := c as int;
    if n < 0x80 then [n]
    else if n < 0x800 then [0xC0 + n / 64, 0x80 + n % 64]
    else if n < 0x10000 then [0xE0 + n / 4096, 0x80 + (n / 64) % 64, 0x80 + n % 64]
    else [0xF0 + n / 262144, 0x80 + (n / 4096) % 64, 0x80 + (n / 64) % 64, 0x80 + n % 64]
  }

  /** str.encode() with Python's default codec, UTF-8. */
  function Utf8(s: string): seq<byte>
    decreases |s|
  {
    if s == [] then [] else Utf8Char(s[0]) + Utf8(s[1..])
  }

  predicate IsAscii(s: string) {
    forall i :: 0 <= i < |s| ==> s[i] as int < 0x80
  }

  /** An ASCII string encodes to one byte per character, each equal to its code point. */
  lemma {:induction false} Utf8Ascii(s: string)
    requires IsAscii(s)
    ensures |Utf8(s)| == |s|
    ensures forall i :: 0 <= i < |s| ==> Utf8(s)[i] == s[i] as int
    decreases |s|
  {
    if s != [] {
      Utf8Ascii(s[1..]);
      assert Utf8(s) == [s[0] as int] + Utf8(s[1..]);
    }
  }

  lemma {:induction false} Utf8Append(a: string, b: string)
    ensures Utf8(a + b) == Utf8(a) + Utf8(b)
    decreases |a|
  {
    if a != [] {
      Utf8Append(a[1..], b);
      assert (a + b)[1..] == a[1..] + b;
    } else {
      assert a + b == b;
    }
  }

  const HEX_DIGITS: string := "0123456789ABCDEF"

  predicate IsAsciiLetter(c: char) {
    'a' <= c <= 'z' || 'A' <= c <= 'Z'
  }

  predicate IsDigit(c: char) {
    '0' <= c <= '9'
  }

  /** The characters quote_plus never escapes. */
  predicate IsUnreserved(c: char) {
    IsAsciiLetter(c) || IsDigit(c) || c == '_' || c == '.' || c == '-' || c == '~'
  }

  function PercentEncode(bytes: seq<byte>): (r: string)
    ensures |r| == 3 * |bytes|
    decreases |bytes|
  {
    if bytes == [] then []
    else ['%', HEX_DIGITS[bytes[0] / 16], HEX_DIGITS[bytes[0] % 16]] + PercentEncode(bytes[1..])
  }

  /** urllib's quote_plus: unreserved characters stay, a space becomes '+', every other
      character becomes the %XX escapes of its UTF-8 bytes. */
  function QuotePlus(s: string): string
    decreases |s|
  {
    if s == [] then []
    else
      var c := s[0];
      (if IsUnreserved(c) then [c] else if c == ' ' then ['+'] else PercentEncode(Utf8Char(c)))
      + QuotePlus(s[1..])
  }

  /** quote_plus leaves a string of unreserved characters as it is, and its output never
      holds the '&' and '=' that separate query fields. */
  lemma {:induction false} QuotePlusShape(s: string)
    ensures (forall i :: 0 <= i < |s| ==> IsUnreserved(s[i])) ==> QuotePlus(s) == s
    ensures Free(QuotePlus(s), '&') && Free(QuotePlus(s), '=')
    decreases |s|
  {
    if s != [] {
      QuotePlusShape(s[1..]);
      PercentFree(Utf8Char(s[0]));
      assert s == [s[0]] + s[1..];
    }
  }

  lemma {:induction false} PercentFree(bytes: seq<byte>)
    ensures Free(PercentEncode(bytes), '&') && Free(PercentEncode(bytes), '=')
    decreases |bytes|
  {
    if bytes != [] {
      PercentFree(bytes[1..]);
    }
  }

  /** str(n) for an int. */
  function DecimalString(n: int): (r: string)
    ensures |r| >= 1
    decreases if n < 0 then 1 - n else n
  {
    if n < 0 then "-" + DecimalString(-n)
    else if n < 10 then [HEX_DIGITS[n]]
    else DecimalString(n / 10) + [HEX_DIGITS[n % 10]]
  }
}
