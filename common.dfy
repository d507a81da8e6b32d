/** Shared vocabulary: optional values, JSON values as both services see them,
    time, and the Java/Python string operations the core relies on. */
module Common {

  datatype Option<T> = None | Some(value: T)
  {
    function GetOr(default: T): T
    {
      match this
      case None => default
      case Some(v) => v
    }
  }

  /** Something that either yields a value or raises an exception with a text:
      the outcome of a call into code outside the model. */
  datatype Attempt<T> = Done(value: T) | Raise(reason: string)

  /** The back end's ErrorCode values. NOT_GROUP_OWNER and OWNER_CANNOT_BE_REMOVED
      are named by GroupException although the ErrorCode enum does not declare them. */
  datatype ErrorCode =
    | INVALID_INPUT_VALUE
    | ENTITY_NOT_FOUND
    | INTERNAL_SERVER_ERROR
    | GROUP_NOT_FOUND
    | NOT_GROUP_MEMBER
    | OWNER_CANNOT_LEAVE
    | GROUP_MEMBER_NOT_FOUND
    | INVALID_GROUP_OPERATION
    | NOT_GROUP_OWNER
    | OWNER_CANNOT_BE_REMOVED

  /** The Java exceptions the core throws, by class, with their message or code. */
  datatype Exception =
    | IllegalArgument(message: string)
    | IllegalState(message: string)
    | EntityNotFound(message: string)
    | RuntimeFailure(message: string)
    | DuplicateResource(message: string)
    | Api(code: ErrorCode, message: string)
    | NullPointer
    | ClassCast
      /** A write refused by the database: a null in a not-null column, a
          duplicate in a unique one, or a delete of a row a foreign key still names. */
    | ConstraintViolation(column: string)
    | StringIndexOutOfBounds
      /** List.get on an index past the end. */
    | IndexOutOfBounds
    | NumberFormat(input: string)
    | InvalidOperation(message: string)

  /** Throwable.getMessage: the text an exception was created with; for the
      exceptions the JDK raises itself the JDK's own text, given by `jdk`. */
  function MessageOf(e: Exception, jdk: Exception -> string): (r: string)
    ensures e.RuntimeFailure? ==> r == e.message
    ensures e.EntityNotFound? ==> r == e.message
  {
    match e
    case IllegalArgument(m) => m
    case IllegalState(m) => m
    case EntityNotFound(m) => m
    case RuntimeFailure(m) => m
    case DuplicateResource(m) => m
    case Api(_, m) => m
    case InvalidOperation(m) => m
    case _ => jdk(e)
  }

  /** getMessage as a function value, for callers that take one. */
  function GetMessage(jdk: Exception -> string): Exception -> string
  {
    e => MessageOf(e, jdk)
  }

  /** A Java call that returns a value or throws. */
  datatype Result<T> = Ok(value: T) | Err(error: Exception)
  {
    predicate IsFailure()
    {
      Err?
    }

    function PropagateFailure<U>(): Result<U>
      requires Err?
    {
      Err(error)
    }

    function Extract(): T
      requires Ok?
    {
      value
    }
  }

  /** A decoded JSON value (Jackson on the Java side, `json` on the Python side).
      Integral numbers and fractional numbers are kept apart because the Java
      code casts them to Integer and Number respectively. */
  datatype Json =
    | JNull
    | JBool(b: bool)
    | JNum(n: int)
    | JFrac(f: real)
    | JStr(s: string)
    | JArr(items: seq<Json>)
    | JObj(fields: map<string, Json>)

  /** A Spring MultipartFile as the services read it: its byte count, its
      declared content type and its original file name (either may be null).
      `isEmpty()` holds exactly when the file has no bytes. */
  datatype FilePart = FilePart(size: nat, contentType: Option<string>, originalFilename: Option<string>)
  {
    predicate IsEmpty()
    {
      size == 0
    }
  }

  /** Instants are whole seconds on one clock. */
  type Instant = int

  const MINUTE: int := 60
  const HOUR: int := 3600
  const DAY: int := 86400

  // ---------------------------------------------------------------------
  // Prefix, suffix and substring search (java.lang.String / Python str)
  // ---------------------------------------------------------------------

  predicate StartsWith(s: string, p: string)
  {
    |p| <= |s| && s[..|p|] == p
  }

  predicate EndsWith(s: string, p: string)
  {
    |p| <= |s| && s[|s| - |p|..] == p
  }

  predicate OccursAt(s: string, p: string, i: int)
  {
    0 <= i && i + |p| <= |s| && s[i..i + |p|] == p
  }

  /** String.indexOf(p, from): the first occurrence at or after `from`, or -1. */
  function IndexOfFrom(s: string, p: string, from: nat): (r: int)
    requires from <= |s|
    decreases |s| - from
    ensures r == -1 || (from <= r && OccursAt(s, p, r))
    ensures r == -1 ==> forall i :: from <= i <= |s| ==> !OccursAt(s, p, i)
    ensures 0 <= r ==> forall i :: from <= i < r ==> !OccursAt(s, p, i)
  {
    if OccursAt(s, p, from) then from
    else if from == |s| then -1
    else IndexOfFrom(s, p, from + 1)
  }

  /** String.indexOf(p). */
  function IndexOf(s: string, p: string): int
  {
    IndexOfFrom(s, p, 0)
  }

  /** String.contains / Python `in`. */
  predicate Contains(s: string, p: string)
  {
    IndexOf(s, p) >= 0
  }

  /** A single character occurs in `s`. */
  predicate HasChar(s: string, c: char)
  {
    exists i :: 0 <= i < |s| && s[i] == c
  }

  /** String.lastIndexOf(c): the last index holding `c`, or -1. */
  function LastIndexOfChar(s: string, c: char): (r: int)
    ensures -1 <= r < |s|
    ensures r == -1 <==> !HasChar(s, c)
    ensures 0 <= r ==> s[r] == c && forall j :: r < j < |s| ==> s[j] != c
  {
    if |s| == 0 then -1
    else if s[|s| - 1] == c then |s| - 1
    else
      var r := LastIndexOfChar(s[..|s| - 1], c);
      assert forall j :: 0 <= j < |s| - 1 ==> s[..|s| - 1][j] == s[j];
      r
  }

  /** String.indexOf(c): the first index holding `c`, or -1. */
  function IndexOfChar(s: string, c: char): (r: int)
    ensures -1 <= r < |s|
    ensures r == -1 <==> !HasChar(s, c)
    ensures 0 <= r ==> s[r] == c && forall j :: 0 <= j < r ==> s[j] != c
  {
    if |s| == 0 then -1
    else if s[0] == c then 0
    else
      var r := IndexOfChar(s[1..], c);
      assert forall j :: 1 <= j < |s| ==> s[1..][j - 1] == s[j];
      if r == -1 then -1 else r + 1
  }

  /** The text after the last `c` (all of `s` when there is none):
      Python s.split(c)[-1], Java s.substring(s.lastIndexOf(c) + 1). */
  function AfterLast(s: string, c: char): (r: string)
    ensures !HasChar(r, c) && EndsWith(s, r)
    ensures !HasChar(s, c) ==> r == s
  {
    var k := LastIndexOfChar(s, c) + 1;
    var r := s[k..];
    assert forall j :: 0 <= j < |r| ==> r[j] == s[k + j];
    r
  }

  /** The text before the first `c` (all of `s` when there is none):
      Python s.split(c)[0]. */
  function BeforeFirst(s: string, c: char): (r: string)
    ensures !HasChar(r, c) && StartsWith(s, r)
    ensures !HasChar(s, c) ==> r == s
  {
    var k := IndexOfChar(s, c);
    if k < 0 then s else s[..k]
  }

  /** A prefix of a string without `c` has no `c` either. */
  lemma PrefixKeepsAbsence(s: string, p: string, c: char)
    requires StartsWith(s, p) && !HasChar(s, c)
    ensures !HasChar(p, c)
  {
    forall i | 0 <= i < |p| ensures p[i] != c {
      assert p[i] == s[i];
    }
  }

  // ---------------------------------------------------------------------
  // Case mapping (ASCII letters)
  // ---------------------------------------------------------------------

  function LowerChar(c: char): char
  {
    if 'A' <= c <= 'Z' then (c as int + 32) as char else c
  }

  function UpperChar(c: char): char
  {
    if 'a' <= c <= 'z' then (c as int - 32) as char else c
  }

  /** String.toLowerCase on ASCII letters. */
  function Lower(s: string): (r: string)
    ensures |r| == |s|
    ensures forall i :: 0 <= i < |s| ==> r[i] == LowerChar(s[i])
  {
    seq(|s|, i requires 0 <= i < |s| => LowerChar(s[i]))
  }

  /** String.toUpperCase on ASCII letters. */
  function Upper(s: string): (r: string)
    ensures |r| == |s|
    ensures forall i :: 0 <= i < |s| ==> r[i] == UpperChar(s[i])
  {
    seq(|s|, i requires 0 <= i < |s| => UpperChar(s[i]))
  }

  /** String.equalsIgnoreCase on ASCII letters. */
  predicate EqualsIgnoreCase(a: string, b: string)
  {
    Lower(a) == Lower(b)
  }

  /** Lower-casing twice is lower-casing once. */
  lemma LowerIsIdempotent(s: string)
    ensures Lower(Lower(s)) == Lower(s)
  {
    assert forall i :: 0 <= i < |s| ==> LowerChar(LowerChar(s[i])) == LowerChar(s[i]);
  }

  // ---------------------------------------------------------------------
  // Decimal rendering (Long.toString, String.valueOf, Python str(int))
  // ---------------------------------------------------------------------

  predicate IsDigit(c: char)
  {
    '0' <= c <= '9'
  }

  function DigitChar(d: int): (c: char)
    requires 0 <= d < 10
    ensures IsDigit(c)
  {
    ('0' as int + d) as char
  }

  function DigitValue(c: char): (d: int)
    requires IsDigit(c)
    ensures 0 <= d < 10 && DigitChar(d) == c
  {
    c as int - '0' as int
  }

  predicate AllDigits(s: string)
  {
    forall i :: 0 <= i < |s| ==> IsDigit(s[i])
  }

  /** The value of a string of decimal digits. */
  function DigitsValue(s: string): (v: nat)
    requires AllDigits(s)
  {
    if |s| == 0 then 0 else DigitsValue(s[..|s| - 1]) * 10 + DigitValue(s[|s| - 1])
  }

  /** The shortest decimal rendering of a natural number. */
  function NatToString(n: nat): (r: string)
    ensures |r| >= 1 && AllDigits(r)
    ensures r[0] == '0' ==> n == 0 && r == "0"
    ensures DigitsValue(r) == n
  {
    if n < 10 then [DigitChar(n)]
    else
      var p := NatToString(n / 10);
      var r := p + [DigitChar(n % 10)];
      assert r[..|r| - 1] == p;
      r
  }

  /** Long.toString / String.valueOf(long) / Python str(int). */
  function IntToString(n: int): (r: string)
    ensures |r| >= 1
    ensures n >= 0 ==> r == NatToString(n)
    ensures n < 0 ==> r == "-" + NatToString(-n)
  {
    if n >= 0 then NatToString(n) else "-" + NatToString(-n)
  }

  lemma {:induction false} NatToStringLength(n: nat, k: nat)
    requires n < Pow10(k)
    ensures |NatToString(n)| <= if k == 0 then 1 else k
  {
    if n >= 10 {
      assert k >= 2;
      assert n / 10 < Pow10(k - 1);
      NatToStringLength(n / 10, k - 1);
    }
  }

  function Pow10(k: nat): (p: nat)
    ensures p >= 1
  {
    if k == 0 then 1 else 10 * Pow10(k - 1)
  }

  const LONG_MIN: int := -0x8000_0000_0000_0000
  const LONG_MAX: int := 0x7FFF_FFFF_FFFF_FFFF

  /** Long.valueOf(s) in base 10: an optional '+' or '-', then at least one
      ASCII digit and nothing else, with a value that fits in a long;
      anything else is a NumberFormatException. */
  function ParseLong(s: string): (r: Result<int>)
    ensures r.Ok? ==> LONG_MIN <= r.value <= LONG_MAX
    ensures r.Err? ==> r.error == NumberFormat(s)
    ensures r.Ok? ==> |s| > 0 && (IsDigit(s[0]) || s[0] == '-' || s[0] == '+')
  {
    var signed := |s| > 0 && (s[0] == '-' || s[0] == '+');
    var digits := if signed then s[1..] else s;
    if |digits| == 0 || !AllDigits(digits) then Err(NumberFormat(s))
    else
      var v: int := if signed && s[0] == '-' then 0 - (DigitsValue(digits) as int) else DigitsValue(digits);
      if v < LONG_MIN || v > LONG_MAX then Err(NumberFormat(s)) else Ok(v)
  }

  /** Long.valueOf reads back what Long.toString writes, for every long. */
  lemma LongRoundTrip(n: int)
    requires LONG_MIN <= n <= LONG_MAX
    ensures ParseLong(IntToString(n)) == Ok(n)
  {
    if n < 0 {
      var s := IntToString(n);
      assert s[1..] == NatToString(-n);
    } else {
      assert IsDigit(IntToString(n)[0]);
    }
  }

  // ---------------------------------------------------------------------
  // Joining and trimming
  // ---------------------------------------------------------------------

  /** String.join(sep, parts) / Python sep.join(parts). */
  function Join(sep: string, parts: seq<string>): (r: string)
    ensures |parts| == 0 ==> r == ""
    ensures |parts| == 1 ==> r == parts[0]
  {
    if |parts| == 0 then ""
    else if |parts| == 1 then parts[0]
    else Join(sep, parts[..|parts| - 1]) + sep + parts[|parts| - 1]
  }

  /** String.trim removes every leading and trailing character at or below U+0020. */
  predicate IsTrimmable(c: char)
  {
    c <= ' '
  }

  /** s.trim().isEmpty(): every character is trimmable. */
  predicate IsBlank(s: string)
  {
    forall i :: 0 <= i < |s| ==> IsTrimmable(s[i])
  }

  /** String.trim. */
  function Trim(s: string): (r: string)
    ensures |r| <= |s|
    ensures r == "" <==> IsBlank(s)
    decreases |s|
  {
    if |s| > 0 && IsTrimmable(s[0]) then
      var r := Trim(s[1..]);
      assert IsBlank(s[1..]) ==> IsBlank(s) by {
        if IsBlank(s[1..]) {
          forall i | 0 <= i < |s| ensures IsTrimmable(s[i]) {
            if i > 0 { assert s[i] == s[1..][i - 1]; }
          }
        }
      }
      r
    else if |s| > 0 && IsTrimmable(s[|s| - 1]) then
      var r := Trim(s[..|s| - 1]);
      assert s[..|s| - 1][0] == s[0];
      r
    else
      s
  }
}
