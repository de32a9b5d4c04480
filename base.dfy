// Shared vocabulary of the marketplace model: optional values, results with
// the chaincode's error kinds, and the two string conversions the chaincode
// relies on (whitespace trimming and decimal integers).

module Base {

  datatype Option<+T> = None | Some(value: T)
  {
    function GetOr(default: T): T
    {
      if Some? then value else default
    }
  }

  /** The ways an invocation of the chaincode fails. The Go code returns
    * free-text errors; each kind below names one family of those texts. */
  datatype Error =
    | InvalidArguments       // fewer positional arguments than the function reads
    | PayloadUndecodable     // the JSON argument does not decode into the expected struct
    | RecordUndecodable      // the ledger entry is absent or does not decode
    | InvalidType            // a state key was asked for an unknown object type code
    | Forbidden              // the caller's id or affiliation lacks the right
    | InvalidUserId          // CreateUser: blank user id
    | InvalidAffiliation     // CreateUser: blank, non-numeric or zero affiliation
    | InvalidUserType        // CreateUser: affiliation outside 1..5
    | IdentityUnavailable    // the caller's username or role cannot be obtained
    | NoUsername             // the caller's username is blank
    | NoAffiliation          // the caller's affiliation is not positive
    | UnknownFunction        // Invoke/Query called with a name it does not dispatch
    | NotModelled            // a dispatch target outside this model

  datatype Result<+T> = Ok(value: T) | Err(error: Error)
  {
    function GetOr(default: T): T
    {
      if Ok? then value else default
    }
  }

  // ---------------------------------------------------------------------
  // strings.TrimSpace

  /** Go's unicode.IsSpace: the Latin-1 spaces plus the non-Latin-1
    * characters with the Unicode White_Space property. */
  predicate IsSpace(c: char)
  {
    c == '\t' || c == '\n' || c == '\U{B}' || c == '\U{C}' || c == '\r' || c == ' '
    || c == '\U{85}' || c == '\U{A0}' || c == '\U{1680}'
    || ('\U{2000}' <= c <= '\U{200A}') || c == '\U{2028}' || c == '\U{2029}'
    || c == '\U{202F}' || c == '\U{205F}' || c == '\U{3000}'
  }

  predicate AllSpace(s: string)
  {
    forall i :: 0 <= i < |s| ==> IsSpace(s[i])
  }

  /** Drops leading white space: the result is a suffix of s that does not
    * start with a space, and everything dropped is space. */
  function TrimLeft(s: string): (r: string)
    ensures |r| <= |s| && r == s[|s| - |r|..]
    ensures r == [] || !IsSpace(r[0])
    ensures AllSpace(s[..|s| - |r|])
  {
    if |s| > 0 && IsSpace(s[0]) then
      var r := TrimLeft(s[1..]);
      assert s[1..][..|s| - 1 - |r|] == s[1..|s| - |r|];
      r
    else
      s
  }

  /** Drops trailing white space: the result is a prefix of s that does not
    * end with a space, and everything dropped is space. */
  function TrimRight(s: string): (r: string)
    ensures |r| <= |s| && r == s[..|r|]
    ensures r == [] || !IsSpace(r[|r| - 1])
    ensures AllSpace(s[|r|..])
  {
    if |s| > 0 && IsSpace(s[|s| - 1]) then
      var r := TrimRight(s[..|s| - 1]);
      assert s[..|s| - 1][|r|..] + [s[|s| - 1]] == s[|r|..];
      r
    else
      s
  }

  /** How many white-space characters TrimSpace removes from the front. */
  function LeadingSpaces(s: string): nat
  {
    |s| - |TrimLeft(s)|
  }

  /** strings.TrimSpace: the infix of s left after removing the white space at
    * both ends; what is removed is all white space and what is left neither
    * starts nor ends with white space. */
  function TrimSpace(s: string): (r: string)
    ensures LeadingSpaces(s) + |r| <= |s|
    ensures r == s[LeadingSpaces(s)..LeadingSpaces(s) + |r|]
    ensures AllSpace(s[..LeadingSpaces(s)]) && AllSpace(s[LeadingSpaces(s) + |r|..])
    ensures r == [] || (!IsSpace(r[0]) && !IsSpace(r[|r| - 1]))
  {
    var left := TrimLeft(s);
    var r := TrimRight(left);
    assert r == s[|s| - |left|..][..|r|];
    assert s[LeadingSpaces(s) + |r|..] == left[|r|..];
    r
  }

  /** A string trims to nothing exactly when it is all white space. */
  lemma {:induction false} TrimSpaceEmptyIff(s: string)
    ensures TrimSpace(s) == [] <==> AllSpace(s)
  {
    var left := TrimLeft(s);
    if TrimSpace(s) == [] {
      assert left[0..] == left;
      assert left == [];
      assert s[..|s|] == s;
    } else if AllSpace(s) {
      TrimLeftAllSpace(s);
    }
  }

  lemma {:induction false} TrimLeftAllSpace(s: string)
    requires AllSpace(s)
    ensures TrimLeft(s) == []
  {
    if s != [] {
      assert IsSpace(s[0]);
      assert AllSpace(s[1..]) by {
        forall i | 0 <= i < |s| - 1 ensures IsSpace(s[1..][i]) {
          assert s[1..][i] == s[i + 1];
        }
      }
      TrimLeftAllSpace(s[1..]);
    }
  }

  // ---------------------------------------------------------------------
  // strconv.Itoa and strconv.Atoi on a 64-bit platform

  predicate IsDigit(c: char)
  {
    '0' <= c <= '9'
  }

  predicate InInt64(n: int)
  {
    -0x8000_0000_0000_0000 <= n < 0x8000_0000_0000_0000
  }

  function DigitChar(d: nat): (c: char)
    requires d < 10
    ensures IsDigit(c)
  {
    "0123456789"[d]
  }

  function DigitValue(c: char): nat
    requires IsDigit(c)
  {
    (c as int - '0' as int) as nat
  }

  /** The decimal digits of n, most significant first, without leading zeros. */
  function Digits(n: nat): (r: string)
    ensures |r| > 0 && AllDigits(r)
    ensures |r| > 1 ==> r[0] != '0'
  {
    if n < 10 then [DigitChar(n)] else Digits(n / 10) + [DigitChar(n % 10)]
  }

  /** strconv.Itoa: decimal text of n, with a leading '-' for negatives. */
  function Itoa(n: int): (r: string)
  {
    if n < 0 then "-" + Digits(-n) else Digits(n)
  }

  predicate AllDigits(s: string)
  {
    forall i :: 0 <= i < |s| ==> IsDigit(s[i])
  }

  /** The value of a run of decimal digits, read left to right. */
  function DigitsValue(s: string): nat
    requires AllDigits(s)
  {
    if s == [] then 0 else DigitsValue(s[..|s| - 1]) * 10 + DigitValue(s[|s| - 1])
  }

  /** strconv.Atoi: an optional sign followed by at least one decimal digit,
    * whose value fits in 64 bits; anything else is an error (None). */
  function Atoi(s: string): (r: Option<int>)
    ensures r.Some? ==> InInt64(r.value)
  {
    var signed := |s| > 0 && (s[0] == '-' || s[0] == '+');
    var digits := if signed then s[1..] else s;
    if digits == [] || !AllDigits(digits) then None
    else
      var v: int := DigitsValue(digits);
      var n := if signed && s[0] == '-' then -v else v;
      if InInt64(n) then Some(n) else None
  }

  lemma {:induction false} DigitsValueOfDigits(n: nat)
    ensures DigitsValue(Digits(n)) == n
  {
    if n >= 10 {
      DigitsValueOfDigits(n / 10);
      var r := Digits(n);
      assert r[..|r| - 1] == Digits(n / 10);
    } else {
      assert DigitValue("0123456789"[n]) == n;
    }
  }

  /** Atoi of a run of digits is its value, when that fits in 64 bits. */
  lemma AtoiUnsigned(d: string)
    requires |d| > 0 && AllDigits(d) && InInt64(DigitsValue(d))
    ensures Atoi(d) == Some(DigitsValue(d))
  {
    assert IsDigit(d[0]);
    assert d[0] != '-' && d[0] != '+';
  }

  /** Atoi of a '-' and a run of digits is minus their value, when that fits
    * in 64 bits. */
  lemma AtoiNegative(d: string)
    requires |d| > 0 && AllDigits(d) && InInt64(-(DigitsValue(d) as int))
    ensures Atoi("-" + d) == Some(-(DigitsValue(d) as int))
  {
    var s := "-" + d;
    assert s[0] == '-' && s[1..] == d;
  }

  /** Atoi reads back what Itoa writes, for every 64-bit integer. */
  lemma AtoiItoa(n: int)
    requires InInt64(n)
    ensures Atoi(Itoa(n)) == Some(n)
  {
    if n < 0 {
      DigitsValueOfDigits(-n);
      AtoiNegative(Digits(-n));
    } else {
      DigitsValueOfDigits(n);
      AtoiUnsigned(Digits(n));
    }
  }

  /** Distinct integers print differently, so a logged amount identifies the value. */
  lemma ItoaInjective(m: int, n: int)
    requires InInt64(m) && InInt64(n) && Itoa(m) == Itoa(n)
    ensures m == n
  {
    AtoiItoa(m);
    AtoiItoa(n);
  }
}
