/** Values shared by every module of the model: Go's `(value, error)` return
    convention, bytes and IPv4 addresses, and the few helpers of Go's standard
    library (strconv.Itoa, net.JoinHostPort, strings.Contains,
    strings.TrimPrefix, net.IP.String) whose behaviour the core depends on. */
module Base {

  datatype Option<+T> = None | Some(value: T)

  /** A Go `error`. A `*net.OpError` is kept apart from every other error
      because path-MTU probing type-asserts on it and reads its inner error. */
  datatype Error =
    | OpError(op: string, inner: string)
    | Plain(msg: string)

  /** The outcome of a call into code outside the model: a value or an error. */
  datatype Result<+T> = Ok(value: T) | Err(error: Error)

  /** A Go return pair `(T, error)`: both halves matter on the error paths. */
  datatype Ret<+T> = Ret(val: T, err: Option<Error>)

  /** `err.Error()`: an OpError prints its operation before the inner error. */
  function Text(e: Error): string {
    match e
    case OpError(op, inner) => op + ": " + inner
    case Plain(msg) => msg
  }

  /** An HTTP GET with an optional bearer token, as the HTTP helpers of both
      revisions perform it: the status code, or an error. */
  type HttpGetter = (string, string) -> Ret<int>

  type Byte = x: int | 0 <= x < 256

  /** The 4-byte form of an IPv4 address. */
  type IPv4 = a: seq<Byte> | |a| == 4 witness [0, 0, 0, 0]

  predicate IsAscii(s: string) {
    forall i :: 0 <= i < |s| ==> (s[i] as int) < 128
  }

  /** `[]byte(s)` for an ASCII string. */
  function AsciiBytes(s: string): (b: seq<Byte>)
    requires IsAscii(s)
    ensures |b| == |s|
    ensures forall i :: 0 <= i < |s| ==> b[i] == s[i] as int
  {
    seq(|s|, i requires 0 <= i < |s| => s[i] as int)
  }

  function Zeros(n: nat): (z: seq<Byte>)
    ensures |z| == n && forall i :: 0 <= i < n ==> z[i] == 0
  {
    seq(n, _ => 0)
  }

  // ---------------------------------------------------------------------------
  // Decimal rendering (strconv.Itoa and the fields of a dotted quad)

  function Digit(d: nat): char
    requires d < 10
  {
    "0123456789"[d]
  }

  predicate IsDigit(c: char) {
    '0' <= c <= '9'
  }

  function DigitValue(c: char): nat
    requires IsDigit(c)
  {
    (c as int) - ('0' as int)
  }

  /** The shortest decimal numeral of `n`, most significant digit first. */
  function Decimal(n: nat): string
    decreases n
  {
    if n < 10 then [Digit(n)] else Decimal(n / 10) + [Digit(n % 10)]
  }

  /** Reads a numeral back; the partner of Decimal. */
  function ParseDecimal(s: string): nat
    requires forall i :: 0 <= i < |s| ==> IsDigit(s[i])
  {
    if s == [] then 0 else 10 * ParseDecimal(s[..|s| - 1]) + DigitValue(s[|s| - 1])
  }

  /** Every numeral Decimal writes is non-empty, made of digits, without a
      leading zero unless it is "0", and reads back as the same number. */
  lemma {:induction false} DecimalRoundTrip(n: nat)
    ensures |Decimal(n)| >= 1
    ensures forall i :: 0 <= i < |Decimal(n)| ==> IsDigit(Decimal(n)[i])
    ensures Decimal(n)[0] == '0' <==> n == 0
    ensures ParseDecimal(Decimal(n)) == n
  {
    if n >= 10 {
      DecimalRoundTrip(n / 10);
      var s := Decimal(n);
      assert s[..|s| - 1] == Decimal(n / 10);
    }
  }

  /** strconv.Itoa: a minus sign for negative numbers, then the numeral. */
  function Itoa(i: int): string {
    if i < 0 then "-" + Decimal(-i) else Decimal(i)
  }

  /** net.IP.String() of a 4-byte address: "a.b.c.d". */
  function DottedQuad(a: IPv4): string {
    Decimal(a[0]) + "." + Decimal(a[1]) + "." + Decimal(a[2]) + "." + Decimal(a[3])
  }

  /** net.JoinHostPort: a host containing a colon (an IPv6 literal) is
      bracketed. */
  function JoinHostPort(host: string, port: string): string {
    if ':' in host then "[" + host + "]:" + port else host + ":" + port
  }

  // ---------------------------------------------------------------------------
  // Substrings

  predicate HasPrefix<T(==)>(s: seq<T>, p: seq<T>) {
    |p| <= |s| && s[..|p|] == p
  }

  /** strings.TrimPrefix: removes one leading copy of `p`, if present. */
  function TrimPrefix<T(==)>(s: seq<T>, p: seq<T>): seq<T> {
    if HasPrefix(s, p) then s[|p|..] else s
  }

  /** strings.Contains, written as a left-to-right scan. */
  function Contains<T(==)>(s: seq<T>, sub: seq<T>): bool
    decreases |s|
  {
    HasPrefix(s, sub) || (|s| > 0 && Contains(s[1..], sub))
  }

  /** `sub` occurs in `s` starting at offset `i`. */
  predicate OccursAt<T(==)>(s: seq<T>, sub: seq<T>, i: int) {
    0 <= i <= |s| - |sub| && s[i..i + |sub|] == sub
  }

  /** The scan finds `sub` exactly when it occurs at some offset. */
  lemma {:induction false} ContainsIff<T>(s: seq<T>, sub: seq<T>)
    ensures Contains(s, sub) <==> exists i :: OccursAt(s, sub, i)
    decreases |s|
  {
    if HasPrefix(s, sub) {
      assert OccursAt(s, sub, 0);
    } else if |s| == 0 {
    } else {
      ContainsIff(s[1..], sub);
      if exists i :: OccursAt(s, sub, i) {
        var i :| OccursAt(s, sub, i);
        assert i != 0;
        assert OccursAt(s[1..], sub, i - 1);
      }
      if Contains(s[1..], sub) {
        var i :| OccursAt(s[1..], sub, i);
        assert OccursAt(s, sub, i + 1);
      }
    }
  }

  // ---------------------------------------------------------------------------
  // Counting

  /** How many entries of `s` are true, counted as a loop over `s` would. */
  function CountTrue(s: seq<bool>): nat {
    if s == [] then 0 else CountTrue(s[..|s| - 1]) + (if s[|s| - 1] then 1 else 0)
  }

  /** Counting one more entry adds one exactly when it is true. */
  lemma CountTrueSnoc(s: seq<bool>, b: bool)
    ensures CountTrue(s + [b]) == CountTrue(s) + (if b then 1 else 0)
  {
    assert (s + [b])[..|s|] == s;
  }

  /** Extending a counted prefix by one entry. */
  lemma CountTruePrefix(s: seq<bool>, i: int)
    requires 0 <= i < |s|
    ensures CountTrue(s[..i + 1]) == CountTrue(s[..i]) + (if s[i] then 1 else 0)
  {
    assert s[..i + 1] == s[..i] + [s[i]];
    CountTrueSnoc(s[..i], s[i]);
  }

  /** A count never exceeds the number of entries, and equals it exactly when
      every entry is true. */
  lemma {:induction false} CountTrueAll(s: seq<bool>)
    ensures CountTrue(s) <= |s|
    ensures CountTrue(s) == |s| <==> forall i :: 0 <= i < |s| ==> s[i]
  {
    if s != [] {
      var init := s[..|s| - 1];
      CountTrueAll(init);
      if forall i :: 0 <= i < |s| ==> s[i] {
        assert forall i :: 0 <= i < |init| ==> init[i];
      }
    }
  }
}
