/**
 * The foreign pieces the service leans on, made abstract: the sha256 digest and the
 * bcrypt hash (each an injective constructor, so equal digests mean equal inputs),
 * the JavaScript string operations the handlers use (`trim`, `parseInt`), and the
 * shape of a parsed JSON request body.
 */
module Primitives {
  import opened Wrappers

  /** `sha256(x)` as hex. The constructor is injective, as a collision-free hash is assumed to be. */
  datatype Digest = Sha256(preimage: string)

  /** A bcrypt hash of a plaintext; the salt and work factor are not modelled. */
  datatype PasswordHash = Bcrypt(plaintext: string)

  /** `bcrypt.compare(plain, hash)`: true exactly when `hash` was made from `plain`. */
  predicate Compare(plain: string, hash: PasswordHash) {
    hash == Bcrypt(plain)
  }

  // ---------------------------------------------------------------------------
  // String.prototype.trim

  /** The white-space and line-terminator characters `trim` removes: the ASCII ones,
      the byte-order mark, the line and paragraph separators and every Unicode space separator. */
  predicate IsSpace(c: char) {
    c == ' ' || c == '\t' || c == '\n' || c == '\r' || c == '\U{000B}' || c == '\U{000C}'
    || c == '\U{00A0}' || c == '\U{FEFF}' || c == '\U{2028}' || c == '\U{2029}'
    || c == '\U{1680}' || ('\U{2000}' <= c <= '\U{200A}') || c == '\U{202F}' || c == '\U{205F}' || c == '\U{3000}'
  }

  function TrimStart(s: string): (r: string)
    ensures |r| <= |s| && r == s[|s| - |r|..]
    ensures r == [] || !IsSpace(r[0])
    ensures forall i :: 0 <= i < |s| - |r| ==> IsSpace(s[i])
  {
    if s != [] && IsSpace(s[0]) then TrimStart(s[1..]) else s
  }

  function TrimEnd(s: string): (r: string)
    ensures |r| <= |s| && r == s[..|r|]
    ensures r == [] || !IsSpace(r[|r| - 1])
    ensures forall i :: |r| <= i < |s| ==> IsSpace(s[i])
  {
    if s != [] && IsSpace(s[|s| - 1]) then TrimEnd(s[..|s| - 1]) else s
  }

  /** `r` is the piece of `s` at `i`, with only white space before and after it. */
  predicate SpacedAt(s: string, r: string, i: int) {
    && 0 <= i <= |s| - |r| && r == s[i..i + |r|]
    && (forall k :: 0 <= k < i ==> IsSpace(s[k]))
    && (forall k :: i + |r| <= k < |s| ==> IsSpace(s[k]))
  }

  /** `s.trim()`: the longest piece of `s` that neither starts nor ends with white space. */
  function Trim(s: string): (r: string)
    ensures exists i :: SpacedAt(s, r, i)
    ensures r == [] || (!IsSpace(r[0]) && !IsSpace(r[|r| - 1]))
  {
    var t := TrimStart(s);
    var r := TrimEnd(t);
    var i := |s| - |t|;
    assert r == s[i..i + |r|];
    assert forall k :: i + |r| <= k < |s| ==> s[k] == t[k - i];
    assert SpacedAt(s, r, i);
    r
  }

  lemma TrimIdempotent(s: string)
    ensures Trim(Trim(s)) == Trim(s)
  {
    var r := Trim(s);
    assert TrimStart(r) == r;
    assert TrimEnd(r) == r;
  }

  // ---------------------------------------------------------------------------
  // Values of a JSON request body, and the casts the schema applies to them

  /** A field of a parsed JSON body: the handlers only meet strings and booleans. */
  datatype Value = Str(s: string) | Bool(b: bool)

  /** `req.body`: its keys and their values. */
  type Body = map<string, Value>

  function Field(body: Body, key: string): Option<Value> {
    if key in body then Some(body[key]) else None
  }

  /** The String cast a schema path applies to a value. */
  function AsText(v: Value): string {
    match v
    case Str(s) => s
    case Bool(b) => if b then "true" else "false"
  }

  /** The Boolean cast a schema path applies to a value; `None` is a cast failure. */
  function CastBoolean(v: Value): (r: Option<bool>)
    ensures v.Bool? ==> r == Some(v.b)
    ensures v.Str? ==> (r == Some(true) <==> v.s in {"true", "1", "yes"})
    ensures v.Str? ==> (r == Some(false) <==> v.s in {"false", "0", "no"})
  {
    match v
    case Bool(b) => Some(b)
    case Str(s) =>
      if s == "true" || s == "1" || s == "yes" then Some(true)
      else if s == "false" || s == "0" || s == "no" then Some(false)
      else None
  }

  // ---------------------------------------------------------------------------
  // parseInt(s, 10) || 0

  predicate IsDigit(c: char) { '0' <= c <= '9' }

  /** The longest prefix of `s` made of decimal digits. */
  function DigitPrefix(s: string): (r: string)
    ensures |r| <= |s| && r == s[..|r|]
    ensures forall i :: 0 <= i < |r| ==> IsDigit(r[i])
    ensures |r| < |s| ==> !IsDigit(s[|r|])
  {
    if s != [] && IsDigit(s[0]) then [s[0]] + DigitPrefix(s[1..]) else []
  }

  /** The value of a string of decimal digits, read most significant first. */
  function DigitsValue(ds: string): nat
    requires forall i :: 0 <= i < |ds| ==> IsDigit(ds[i])
  {
    if ds == [] then 0
    else
      assert IsDigit(ds[|ds| - 1]);
      DigitsValue(ds[..|ds| - 1]) * 10 + (ds[|ds| - 1] as int - '0' as int)
  }

  /**
   * `parseInt(s, 10) || 0`: leading white space is skipped, one sign is read, then the
   * longest run of digits; no digits (NaN), an absent string and zero all give 0.
   */
  function ParseIntOr0(s: Option<string>): (n: int) {
    if s.None? then 0
    else
      var t := TrimStart(s.value);
      var negative := t != [] && t[0] == '-';
      var body := if t != [] && (t[0] == '-' || t[0] == '+') then t[1..] else t;
      var ds := DigitPrefix(body);
      if ds == [] then 0
      else if negative then -(DigitsValue(ds) as int) else DigitsValue(ds)
  }

  /** The decimal numeral of `n`, without leading zeros. */
  function Decimal(n: nat): (r: string)
    ensures r != [] && forall i :: 0 <= i < |r| ==> IsDigit(r[i])
  {
    if n < 10 then [('0' as int + n) as char]
    else Decimal(n / 10) + [('0' as int + n % 10) as char]
  }

  lemma {:induction false} DecimalValue(n: nat)
    ensures DigitsValue(Decimal(n)) == n
  {
    if n >= 10 {
      var r := Decimal(n);
      assert r[..|r| - 1] == Decimal(n / 10);
      DecimalValue(n / 10);
    }
  }

  lemma {:induction false} DigitPrefixOfDigits(s: string)
    requires forall i :: 0 <= i < |s| ==> IsDigit(s[i])
    ensures DigitPrefix(s) == s
  {
    if s != [] {
      DigitPrefixOfDigits(s[1..]);
    }
  }

  /** parseInt reads back every numeral it could be given. */
  lemma ParseIntOfDecimal(n: nat)
    ensures ParseIntOr0(Some(Decimal(n))) == n
  {
    var d := Decimal(n);
    DigitPrefixOfDigits(d);
    DecimalValue(n);
    assert !IsSpace(d[0]) && d[0] != '-' && d[0] != '+';
    assert TrimStart(d) == d;
  }

  /** ... and every numeral with a minus sign in front. */
  lemma ParseIntOfNegativeDecimal(n: nat)
    ensures ParseIntOr0(Some("-" + Decimal(n))) == -(n as int)
  {
    var d := Decimal(n);
    DigitPrefixOfDigits(d);
    DecimalValue(n);
    var m := "-" + d;
    assert m[0] == '-' && !IsSpace(m[0]);
    assert TrimStart(m) == m;
    assert m[1..] == d;
    assert DigitPrefix(m[1..]) == d;
  }

  /** A string whose first non-blank character is neither a sign nor a digit reads as 0. */
  lemma ParseIntOfNonNumeral(s: string)
    requires var t := TrimStart(s); t == [] || (!IsDigit(t[0]) && t[0] != '-' && t[0] != '+')
    ensures ParseIntOr0(Some(s)) == 0
  {
  }

  // ---------------------------------------------------------------------------
  // findOne: the first document of a collection, in natural order, that matches

  function FirstIndex<T>(s: seq<T>, p: T -> bool): (r: Option<nat>)
    ensures r.Some? ==> r.value < |s| && p(s[r.value])
    ensures r.Some? ==> forall j :: 0 <= j < r.value ==> !p(s[j])
    ensures r.None? <==> forall j :: 0 <= j < |s| ==> !p(s[j])
  {
    if s == [] then None
    else if p(s[0]) then Some(0)
    else match FirstIndex(s[1..], p)
      case None => None
      case Some(k) => Some(k + 1)
  }

  /** The elements of `s` that satisfy `p`, in their order in `s`. */
  function Select<T(!new)>(s: seq<T>, p: T -> bool): (r: seq<T>)
    ensures |r| <= |s|
    ensures forall x :: x in r <==> x in s && p(x)
  {
    if s == [] then []
    else if p(s[0]) then [s[0]] + Select(s[1..], p)
    else Select(s[1..], p)
  }

  /** Selecting with a test every element passes keeps the whole sequence. */
  lemma {:induction false} SelectAll<T(!new)>(s: seq<T>, p: T -> bool)
    requires forall x :: x in s ==> p(x)
    ensures Select(s, p) == s
  {
    if s != [] {
      assert s[0] in s;
      assert forall x :: x in s[1..] ==> x in s;
      SelectAll(s[1..], p);
    }
  }

  /** Two tests that agree on every element select the same elements, in the same order. */
  lemma {:induction false} SelectSame<T(!new)>(s: seq<T>, p: T -> bool, q: T -> bool)
    requires forall x :: x in s ==> p(x) == q(x)
    ensures Select(s, p) == Select(s, q)
  {
    if s != [] {
      assert s[0] in s;
      assert forall x :: x in s[1..] ==> x in s;
      SelectSame(s[1..], p, q);
    }
  }
}
