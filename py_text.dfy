/**
 * The Python built-ins the two assemblers lean on, stated over Dafny strings:
 * substring membership (`sub in s`), `s.replace(c, "")` for one character,
 * `str(n)` and `int(s)` for integers, and the exceptions an assembler handler
 * can raise before it has appended anything.
 */
module PyText {

  datatype Option<T> = None | Some(value: T)

  /** The Python exceptions the handlers can raise on malformed assembly text. */
  datatype PyError = IndexError | KeyError | ValueError | TypeError

  /** A handler's outcome: its return value, or the exception it raised. */
  datatype Result<T> = Ok(value: T) | Raised(error: PyError)

  /** An entry of the `program` list: the handlers append both strings and ints. */
  datatype Value = Str(s: string) | Int(i: int)

  // ---------------------------------------------------------------------
  // sub in s

  /** Python's `sub in s` on strings. */
  predicate Contains(s: string, sub: string)
    decreases |s|
  {
    |sub| <= |s| && (s[..|sub|] == sub || Contains(s[1..], sub))
  }

  /** sub occurs in s starting at offset i. */
  predicate OccursAt(s: string, sub: string, i: int)
  {
    0 <= i <= |s| - |sub| && s[i..i + |sub|] == sub
  }

  /** `sub in s` holds exactly when sub occurs at some offset of s. */
  lemma {:induction false} ContainsAt(s: string, sub: string)
    ensures Contains(s, sub) <==> exists i :: OccursAt(s, sub, i)
    decreases |s|
  {
    if |sub| <= |s| && s[..|sub|] != sub {
      ContainsAt(s[1..], sub);
      if Contains(s[1..], sub) {
        var i :| OccursAt(s[1..], sub, i);
        assert s[i + 1..i + 1 + |sub|] == s[1..][i..i + |sub|];
        assert OccursAt(s, sub, i + 1);
      }
      if exists i :: OccursAt(s, sub, i) {
        var i :| OccursAt(s, sub, i);
        assert i != 0;
        assert s[1..][i - 1..i - 1 + |sub|] == s[i..i + |sub|];
        assert OccursAt(s[1..], sub, i - 1);
      }
    } else if |sub| <= |s| {
      assert OccursAt(s, sub, 0);
    }
  }

  /** For a one-character pattern, `c in s` is plain membership. */
  lemma ContainsChar(s: string, c: char)
    ensures Contains(s, [c]) <==> c in s
  {
    ContainsAt(s, [c]);
    if c in s {
      var i :| 0 <= i < |s| && s[i] == c;
      assert OccursAt(s, [c], i);
    }
    if Contains(s, [c]) {
      var i :| OccursAt(s, [c], i);
      assert s[i] == s[i..i + 1][0];
    }
  }

  /** A pattern holding a character s lacks does not occur in s. */
  lemma ContainsNeedsChar(s: string, sub: string, c: char)
    requires c in sub && c !in s
    ensures !Contains(s, sub)
  {
    ContainsAt(s, sub);
  }

  // ---------------------------------------------------------------------
  // s.replace(c, "")

  /** `s.replace(c, "")`: every occurrence of c dropped, the rest kept in order. */
  function Remove(s: string, c: char): (r: string)
    ensures c !in r
    ensures c !in s ==> r == s
    decreases |s|
  {
    if |s| == 0 then ""
    else (if s[0] == c then "" else [s[0]]) + Remove(s[1..], c)
  }

  /** `s.replace(c, "")` keeps every other character, each as often as before. */
  lemma {:induction false} RemoveKeepsOthers(s: string, c: char, d: char)
    requires d != c
    ensures multiset(Remove(s, c))[d] == multiset(s)[d]
    decreases |s|
  {
    if |s| > 0 {
      assert s == [s[0]] + s[1..];
      RemoveKeepsOthers(s[1..], c, d);
    }
  }

  // ---------------------------------------------------------------------
  // str(n) and int(s)

  predicate IsDigit(ch: char)
  {
    '0' <= ch <= '9'
  }

  /** A non-empty run of decimal digits. */
  predicate IsDigits(s: string)
  {
    |s| > 0 && forall i :: 0 <= i < |s| ==> IsDigit(s[i])
  }

  function DigitChar(d: int): (ch: char)
    requires 0 <= d < 10
    ensures IsDigit(ch) && DigitValue(ch) == d
  {
    ('0' as int + d) as char
  }

  /** The value of a run of decimal digits, most significant first. */
  function DigitsValue(s: string): nat
    requires forall i :: 0 <= i < |s| ==> IsDigit(s[i])
    decreases |s|
  {
    if |s| == 0 then 0 else 10 * DigitsValue(s[..|s| - 1]) + DigitValue(s[|s| - 1])
  }

  function DigitValue(ch: char): (d: nat)
    requires IsDigit(ch)
    ensures d < 10
  {
    ch as int - '0' as int
  }

  /** str(n) for n >= 0: decimal digits, no leading zero. */
  function NatToString(n: nat): (s: string)
    ensures IsDigits(s)
    ensures DigitsValue(s) == n
    decreases n
  {
    if n < 10 then [DigitChar(n)]
    else
      var s := NatToString(n / 10) + [DigitChar(n % 10)];
      assert s[..|s| - 1] == NatToString(n / 10);
      s
  }

  /** Python's str(n) for an int. */
  function IntToString(n: int): string
  {
    if n < 0 then "-" + NatToString(-n) else NatToString(n)
  }

  /**
   * Python's int(s) on a whitespace-free token: an optional sign, then
   * decimal digits.  Anything else raises ValueError.
   */
  function ParseInt(s: string): Option<int>
  {
    if |s| > 0 && (s[0] == '-' || s[0] == '+') && IsDigits(s[1..]) then
      var magnitude: int := DigitsValue(s[1..]);
      Some(if s[0] == '-' then -magnitude else magnitude)
    else if IsDigits(s) then Some(DigitsValue(s))
    else None
  }

  /** int(str(n)) == n. */
  lemma ParseIntToString(n: int)
    ensures ParseInt(IntToString(n)) == Some(n)
  {
    if n < 0 {
      assert IntToString(n)[1..] == NatToString(-n);
    }
  }

  /** str(n) is a run of digits, after a '-' for a negative n. */
  lemma IntToStringShape(n: int)
    ensures var s := IntToString(n);
            |s| > 0 && (n < 0 <==> s[0] == '-')
            && forall i :: (if n < 0 then 1 else 0) <= i < |s| ==> IsDigit(s[i])
  {
  }

  /** Python's str() of a list entry. */
  function PyStr(v: Value): string
  {
    match v
    case Str(s) => s
    case Int(i) => IntToString(i)
  }

  // ---------------------------------------------------------------------
  // Hexadecimal literals

  predicate IsHexDigit(ch: char)
  {
    '0' <= ch <= '9' || 'a' <= ch <= 'f' || 'A' <= ch <= 'F'
  }

  function HexDigitValue(ch: char): (d: nat)
    requires IsHexDigit(ch)
    ensures d < 16
  {
    if '0' <= ch <= '9' then ch as int - '0' as int
    else if 'a' <= ch <= 'f' then ch as int - 'a' as int + 10
    else ch as int - 'A' as int + 10
  }

  /** The value of a run of hexadecimal digits, most significant first. */
  function HexDigitsValue(s: string): nat
    requires forall i :: 0 <= i < |s| ==> IsHexDigit(s[i])
    decreases |s|
  {
    if |s| == 0 then 0 else 16 * HexDigitsValue(s[..|s| - 1]) + HexDigitValue(s[|s| - 1])
  }

  /** The number a token "0x" followed by hexadecimal digits denotes. */
  function HexLiteral(s: string): Option<int>
  {
    if 2 < |s| && s[..2] == "0x" && forall i :: 2 <= i < |s| ==> IsHexDigit(s[i])
    then Some(HexDigitsValue(s[2..]))
    else None
  }

  /** The number a four-character literal "0xHL" denotes. */
  lemma TwoDigitHex(s: string)
    requires |s| == 4 && s[..2] == "0x" && IsHexDigit(s[2]) && IsHexDigit(s[3])
    ensures HexLiteral(s) == Some(16 * HexDigitValue(s[2]) + HexDigitValue(s[3]))
  {
    var digits := s[2..];
    assert digits[..1][..0] == [];
    assert digits[..|digits| - 1] == digits[..1] == [s[2]];
    assert HexDigitsValue(digits[..1]) == 16 * HexDigitsValue([]) + HexDigitValue(s[2]);
    assert HexDigitsValue(digits) == 16 * HexDigitsValue(digits[..1]) + HexDigitValue(s[3]);
  }

  // ---------------------------------------------------------------------
  // The mutable containers the handlers share

  /** A Python list of program entries, appended to in place. */
  class PyList {
    var items: seq<Value>

    constructor (initial: seq<Value>)
      ensures items == initial
    {
      items := initial;
    }

    /** list.append */
    method Append(v: Value)
      modifies this
      ensures items == old(items) + [v]
    {
      items := items + [v];
    }
  }

  /** A Python dict from names to ints, assigned in place. */
  class PyDict {
    var entries: map<string, int>

    constructor (initial: map<string, int>)
      ensures entries == initial
    {
      entries := initial;
    }

    /** d[key] = value */
    method Set(key: string, value: int)
      modifies this
      ensures entries == old(entries)[key := value]
    {
      entries := entries[key := value];
    }
  }
}
