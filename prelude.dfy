/** Small building blocks shared by the rest of the model: optional values,
    the errors a turn can end in, Go's 16-bit integers and truncating division,
    the string helpers of Go's `strings` package that the bot uses, and a
    deterministic choice from a finite set of integers. */
module Prelude {

  datatype Option<+T> = None | Some(value: T)

  /** Why a turn stopped early. `NoRows` is Go's `sql.ErrNoRows`, the only
      storage error the model produces; `Panic` is a Go run-time panic. */
  datatype Error =
    | NoRows
    | NegativeOffset
    | GeocodingFailed(reason: string)
    | Panic(why: PanicKind)

  datatype PanicKind = NilPointer | IndexOutOfRange

  datatype Result<+T> = Ok(value: T) | Err(error: Error)

  /** A time of day as `time.Parse("15:04", ·)` yields it. */
  datatype Clock = Clock(hour: int, minute: int)

  /** Text of an error as Go's `err.Error()` gives it (the geocoding client's
      message is not interpreted, only carried). */
  function ErrorText(e: Error): string
  {
    match e
    case NoRows => "sql: no rows in result set"
    case NegativeOffset => "pq: OFFSET must not be negative"
    case GeocodingFailed(reason) => reason
    case Panic(_) => "panic"
  }

  // ---------------------------------------------------------------------------
  // Go integers

  /** Go's `int16`. */
  newtype int16 = x: int | -0x8000 <= x < 0x8000

  /** Conversion of an integer to `int16` in Go: the low 16 bits, read in two's
      complement. Values already in range are kept. */
  function Wrap16(x: int): (r: int16)
    ensures -0x8000 <= x < 0x8000 ==> r as int == x
    ensures (x - r as int) % 0x10000 == 0
  {
    ((x + 0x8000) % 0x10000 - 0x8000) as int16
  }

  /** Go's `/` on integers: the quotient is truncated toward zero. */
  function Quot(a: int, b: int): (q: int)
    requires b > 0
    ensures a >= 0 ==> 0 <= a - q * b < b
    ensures a < 0 ==> -b < a - q * b <= 0
  {
    if a >= 0 then a / b else -((-a) / b)
  }

  /** Go's `%` on integers: the remainder takes the sign of the dividend. */
  function Rem(a: int, b: int): (r: int)
    requires b > 0
    ensures a == Quot(a, b) * b + r
    ensures a >= 0 ==> 0 <= r < b
    ensures a < 0 ==> -b < r <= 0
  {
    a - Quot(a, b) * b
  }

  function Max(a: int, b: int): int
  {
    if a >= b then a else b
  }

  // ---------------------------------------------------------------------------
  // Strings (Go's `strings` package, on code points)

  /** `strings.HasPrefix` */
  predicate HasPrefix(s: string, prefix: string)
  {
    |prefix| <= |s| && s[..|prefix|] == prefix
  }

  /** `strings.Replace(s, "\n", " ", -1)` */
  function ReplaceNewlines(s: string): (r: string)
    ensures |r| == |s|
    ensures forall k :: 0 <= k < |s| ==> r[k] == (if s[k] == '\n' then ' ' else s[k])
    ensures '\n' !in r
  {
    seq(|s|, k requires 0 <= k < |s| => if s[k] == '\n' then ' ' else s[k])
  }

  /** `unicode.IsSpace`: the Latin-1 spaces and the other Unicode White_Space
      code points. */
  predicate IsSpace(c: char)
  {
    c == '\t' || c == '\n' || c == '\U{000B}' || c == '\U{000C}' || c == '\r' || c == ' '
    || c == '\U{0085}' || c == '\U{00A0}' || c == '\U{1680}'
    || ('\U{2000}' <= c <= '\U{200A}')
    || c == '\U{2028}' || c == '\U{2029}' || c == '\U{202F}' || c == '\U{205F}' || c == '\U{3000}'
  }

  /** Number of white-space characters at the start of `s`. */
  function LeadingSpaces(s: string): (n: nat)
    ensures n <= |s|
    ensures forall k :: 0 <= k < n ==> IsSpace(s[k])
    ensures n < |s| ==> !IsSpace(s[n])
    decreases |s|
  {
    if s != [] && IsSpace(s[0]) then 1 + LeadingSpaces(s[1..]) else 0
  }

  /** Number of white-space characters at the end of `s`. */
  function TrailingSpaces(s: string): (n: nat)
    ensures n <= |s|
    ensures forall k :: |s| - n <= k < |s| ==> IsSpace(s[k])
    ensures n < |s| ==> !IsSpace(s[|s| - 1 - n])
    decreases |s|
  {
    if s != [] && IsSpace(s[|s| - 1]) then 1 + TrailingSpaces(s[..|s| - 1]) else 0
  }

  /** `strings.TrimSpace`: cut the leading and the trailing white space. */
  function TrimSpace(s: string): string
  {
    var t := s[LeadingSpaces(s)..];
    t[..|t| - TrailingSpaces(t)]
  }

  /** What `TrimSpace` keeps is a contiguous part of `s`, starting after the
      leading white space. */
  lemma TrimSpaceKeepsMiddle(s: string)
    ensures var r := TrimSpace(s);
      LeadingSpaces(s) + |r| <= |s| && r == s[LeadingSpaces(s) .. LeadingSpaces(s) + |r|]
  {
    var n := LeadingSpaces(s);
    var t := s[n..];
    var m := TrailingSpaces(t);
    var r := TrimSpace(s);
    assert r == t[..|t| - m];
    assert |r| == |t| - m && |t| == |s| - n;
    forall i | 0 <= i < |r|
      ensures r[i] == s[n + i]
    {
      assert r[i] == t[i];
    }
  }

  /** Everything `TrimSpace` cuts off after the kept part is white space. */
  lemma TrimSpaceCutsOnlySpace(s: string)
    ensures var r := TrimSpace(s);
      LeadingSpaces(s) + |r| <= |s| && forall k :: LeadingSpaces(s) + |r| <= k < |s| ==> IsSpace(s[k])
  {
    var n := LeadingSpaces(s);
    var t := s[n..];
    var m := TrailingSpaces(t);
    var r := TrimSpace(s);
    assert r == t[..|t| - m];
    assert |r| == |t| - m && |t| == |s| - n;
    forall k | n + |r| <= k < |s|
      ensures IsSpace(s[k])
    {
      var j := k - n;
      assert |t| - m <= j < |t|;
      assert IsSpace(t[j]);
      assert s[k] == t[j];
    }
  }

  /** The kept part neither starts nor ends with white space. */
  lemma TrimSpaceEnds(s: string)
    ensures var r := TrimSpace(s); r == [] || (!IsSpace(r[0]) && !IsSpace(r[|r| - 1]))
  {
    var n := LeadingSpaces(s);
    var t := s[n..];
    var m := TrailingSpaces(t);
    var r := TrimSpace(s);
    assert r == t[..|t| - m];
    if r != [] {
      assert r[0] == s[n];
      assert r[|r| - 1] == t[|t| - 1 - m];
    }
  }

  /** Trimming leaves nothing exactly when `s` is all white space. */
  lemma TrimSpaceEmpty(s: string)
    ensures TrimSpace(s) == [] <==> forall k :: 0 <= k < |s| ==> IsSpace(s[k])
  {
    var n := LeadingSpaces(s);
    var t := s[n..];
    var m := TrailingSpaces(t);
    assert TrimSpace(s) == t[..|t| - m];
    if TrimSpace(s) == [] {
      assert n == |s|;
    } else {
      assert n < |s| && !IsSpace(s[n]);
    }
  }

  /** Trimming twice cuts nothing more. */
  lemma {:induction false} TrimSpaceIdempotent(s: string)
    ensures TrimSpace(TrimSpace(s)) == TrimSpace(s)
  {
    var r := TrimSpace(s);
    TrimSpaceEnds(s);
    if r != [] {
      assert LeadingSpaces(r) == 0;
      assert TrailingSpaces(r) == 0;
      assert r[0..][..|r| - 0] == r;
    }
  }

  /** Decimal digits of a natural number, as `%d` prints it. */
  function Decimal(n: nat): (r: string)
    ensures r != []
    ensures forall k :: 0 <= k < |r| ==> '0' <= r[k] <= '9'
  {
    var d := [(48 + n % 10) as char];
    if n < 10 then d else Decimal(n / 10) + d
  }

  /** The number a string of decimal digits denotes, most significant first. */
  function DigitsValue(s: string): int
  {
    if s == [] then 0 else DigitsValue(s[..|s| - 1]) * 10 + (s[|s| - 1] as int - 48)
  }

  /** `Decimal` spells out its argument: the digits denote `n`, and only zero
      itself begins with the digit zero. */
  lemma {:induction false} DecimalSpells(n: nat)
    ensures DigitsValue(Decimal(n)) == n
    ensures |Decimal(n)| == 1 || Decimal(n)[0] != '0'
    decreases n
  {
    var d := [(48 + n % 10) as char];
    if n >= 10 {
      var h := Decimal(n / 10);
      DecimalSpells(n / 10);
      assert (h + d)[..|h + d| - 1] == h;
      assert DigitsValue(h + d) == DigitsValue(h) * 10 + n % 10;
      assert (h + d)[0] == h[0];
      if |h| == 1 {
        assert h[..0] == [];
        assert DigitsValue(h) == h[0] as int - 48;
      }
    }
  }

  /** Distinct numbers print differently. */
  lemma DecimalInjective(m: nat, n: nat)
    requires Decimal(m) == Decimal(n)
    ensures m == n
  {
    DecimalSpells(m);
    DecimalSpells(n);
  }

  // ---------------------------------------------------------------------------
  // Deterministic choice

  /** Every non-empty finite set of integers has a least element. */
  lemma {:induction false} Least(s: set<int>) returns (m: int)
    requires s != {}
    ensures m in s && forall j :: j in s ==> m <= j
    decreases |s|
  {
    assert exists y :: y in s by {
      if forall y :: y !in s {
        assert false;
      }
    }
    var x :| x in s;
    var rest := s - {x};
    if rest == {} {
      assert s == {x};
      m := x;
    } else {
      var n := Least(rest);
      m := if x < n then x else n;
      forall j | j in s
        ensures m <= j
      {
        if j != x {
          assert j in rest;
        }
      }
    }
  }

  lemma MinimumExists(s: set<int>)
    requires s != {}
    ensures exists m :: m in s && forall j :: j in s ==> m <= j
  {
    var m := Least(s);
  }

  /** The least element of a non-empty finite set of integers. */
  function MinOf(s: set<int>): (m: int)
    requires s != {}
    ensures m in s && forall j :: j in s ==> m <= j
  {
    MinimumExists(s);
    var m :| m in s && (forall j :: j in s ==> m <= j); m
  }
}
