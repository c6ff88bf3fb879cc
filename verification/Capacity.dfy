/** Sizes: rounding in 64-bit arithmetic, their decimal text, and sequences of expand requests. */
module Capacity {
  import opened Base

  const MI := 1024 * 1024
  const GI := 1024 * 1024 * 1024

  /** The largest size that rounds without leaving 64 bits. */
  const LIMIT := 0x8000_0000_0000_0000 - 0x4000_0000

  /** Division that truncates toward zero. */
  function Quotient(a: int, b: int): int
    requires b > 0
  {
    if a >= 0 then a / b else -((-a) / b)
  }

  function RoundUp(size: int, unit: int): int
    requires unit > 0
  {
    Wrap(Quotient(Wrap(size + unit - 1), unit) * unit)
  }

  function GetRoundedCapacity(size: int): int { if size > GI then RoundUp(size, GI) else RoundUp(size, MI) }

  /** The least multiple of the unit that is not below the size. */
  predicate LeastMultiple(size: int, unit: int, r: int)
    requires unit > 0
  {
    r % unit == 0 && size <= r < size + unit
  }

  function Unit(size: int): (unit: int)
    ensures unit > 0
  {
    if size > GI then GI else MI
  }

  lemma WholePart(n: int, unit: int)
    requires unit > 0
    ensures n / unit * unit <= n < n / unit * unit + unit && (n / unit * unit) % unit == 0
  {
    MultipleMod(n / unit, unit);
  }

  lemma MultipleMod(q: int, unit: int)
    requires unit > 0
    ensures (q * unit) % unit == 0
  {
    var r := (q * unit) % unit;
    var p := (q * unit) / unit;
    assert q * unit == p * unit + r;
    assert (q - p) * unit == r;
    Scaled(q - p, unit);
  }

  lemma Scaled(d: int, unit: int)
    requires unit > 0
    ensures d >= 1 ==> d * unit >= unit
    ensures d <= -1 ==> d * unit <= -unit
  {
  }

  lemma RoundUpIsLeast(size: int, unit: int)
    requires 0 <= size <= LIMIT && (unit == MI || unit == GI)
    ensures LeastMultiple(size, unit, RoundUp(size, unit))
  {
    WrapIsInt64(size + unit - 1);
    WholePart(size + unit - 1, unit);
    WrapIsInt64((size + unit - 1) / unit * unit);
  }

  /** Rounding gives the least whole number of Gi above 1 Gi, and of Mi up to it. */
  lemma RoundedIsLeast(size: int)
    requires 0 <= size <= LIMIT
    ensures LeastMultiple(size, if size > 1073741824 then 1073741824 else 1048576, GetRoundedCapacity(size))
  {
    RoundUpIsLeast(size, Unit(size));
  }

  /** Over all of int64, the rounded size covers the size exactly up to the limit; beyond it, it is negative. */
  lemma RoundedCoversIff(size: int)
    requires Int64(size)
    ensures GetRoundedCapacity(size) >= size <==> size <= LIMIT
    ensures size > LIMIT ==> GetRoundedCapacity(size) < 0
    ensures Int64(GetRoundedCapacity(size))
  {
    if size > LIMIT {
      Overflows(size);
    } else if size >= 0 {
      RoundedIsLeast(size);
      WrapIsInt64(Quotient(Wrap(size + Unit(size) - 1), Unit(size)) * Unit(size));
    } else {
      NegativeRounds(size);
    }
  }

  /** Past the limit the sum wraps to the bottom of the range. */
  lemma Overflows(size: int)
    requires LIMIT < size && Int64(size)
    ensures GetRoundedCapacity(size) < 0 && Int64(GetRoundedCapacity(size))
  {
    var sum := size + GI - 1 - 0x1_0000_0000_0000_0000;
    assert Wrap(size + GI - 1) == sum;
    WholePart(-sum, GI);
    WrapIsInt64(-((-sum) / GI * GI));
  }

  lemma NegativeRounds(size: int)
    requires size < 0 && Int64(size)
    ensures size <= GetRoundedCapacity(size) <= 0 && Int64(GetRoundedCapacity(size))
  {
    var sum := size + MI - 1;
    WrapIsInt64(sum);
    var q := Quotient(sum, MI);
    assert size <= q * MI <= 0 by {
      if sum < 0 { WholePart(-sum, MI); } else { WholePart(sum, MI); }
    }
    WrapIsInt64(q * MI);
  }

  lemma MultiplesApart(x: int, y: int, unit: int)
    requires (unit == MI || unit == GI) && x % unit == 0 && y % unit == 0 && x < y + unit
    ensures x <= y
  {
  }

  lemma LeastIsMonotone(a: int, x: int, b: int, y: int)
    requires a <= b && LeastMultiple(a, Unit(a), x) && LeastMultiple(b, Unit(b), y)
    ensures x <= y
  {
    if b <= GI {
      MultiplesApart(x, y, MI);
    } else if a <= GI {
      MultiplesApart(x, GI, MI);
    } else {
      MultiplesApart(x, y, GI);
    }
  }

  lemma RoundedMonotone(a: int, b: int)
    requires 0 <= a <= b <= LIMIT
    ensures GetRoundedCapacity(a) <= GetRoundedCapacity(b)
  {
    RoundedIsLeast(a);
    RoundedIsLeast(b);
    LeastIsMonotone(a, GetRoundedCapacity(a), b, GetRoundedCapacity(b));
  }

  lemma LeastIsFixed(size: int, x: int, y: int)
    requires LeastMultiple(size, Unit(size), x) && LeastMultiple(x, Unit(x), y)
    ensures x == y
  {
    if size <= GI { MultiplesApart(x, GI, MI); }
    MultiplesApart(y, x, Unit(x));
  }

  lemma RoundedIdempotent(size: int)
    requires 0 <= size <= LIMIT
    ensures GetRoundedCapacity(GetRoundedCapacity(size)) == GetRoundedCapacity(size)
  {
    RoundedIsLeast(size);
    RoundedMonotone(size, LIMIT);
    RoundedIsLeast(GetRoundedCapacity(size));
    LeastIsFixed(size, GetRoundedCapacity(size), GetRoundedCapacity(GetRoundedCapacity(size)));
  }

  /** The volblocksize and recordsize values ZFS allows. */
  const BLOCK_SIZES := {512, 1024, 2048, 4096, 8192, 16384, 32768, 65536, 131072, 262144, 524288, 1048576}

  lemma RoundedIsAligned(size: int, block: int)
    requires 0 <= size <= LIMIT && block in BLOCK_SIZES
    ensures GetRoundedCapacity(size) % block == 0
  {
    RoundedIsLeast(size);
    WholeMi(size, GetRoundedCapacity(size));
    Aligned(GetRoundedCapacity(size), block);
  }

  lemma WholeMi(size: int, r: int)
    requires LeastMultiple(size, Unit(size), r)
    ensures r % MI == 0
  {
  }

  lemma Halved(r: int, d: int)
    requires d > 0 && r % (2 * d) == 0
    ensures r % d == 0
  {
    var q := r / (2 * d);
    assert r == (2 * d) * q == (2 * q) * d;
    MultipleMod(2 * q, d);
  }

  lemma Aligned(r: int, block: int)
    requires r % MI == 0 && block in BLOCK_SIZES
    ensures r % block == 0
  {
    Halved(r, 524288);
    Halved(r, 262144);
    Halved(r, 131072);
    Halved(r, 65536);
    Halved(r, 32768);
    Halved(r, 16384);
    Halved(r, 8192);
    Halved(r, 4096);
    Halved(r, 2048);
    Halved(r, 1024);
    Halved(r, 512);
  }

  // ---- decimal text --------------------------------------------------------------------------

  function Digit(d: int): char
    requires 0 <= d < 10
  {
    "0123456789"[d]
  }

  function DigitValue(c: char): Option<int> { if '0' <= c <= '9' then Some(c as int - '0' as int) else None }

  function Digits(n: nat): (s: string)
    ensures s != ""
  {
    if n < 10 then [Digit(n)] else Digits(n / 10) + [Digit(n % 10)]
  }

  function FormatInt(n: int): string { if n < 0 then "-" + Digits(-n) else Digits(n) }

  function ParseDigits(s: string): Option<int> {
    if s == "" then None
    else
      var last := DigitValue(s[|s| - 1]);
      if |s| == 1 then last
      else
        var front := ParseDigits(s[..|s| - 1]);
        if front.None? || last.None? then None else Some(front.value * 10 + last.value)
  }

  /** strconv.ParseInt(s, 10, 64). */
  function ParseInt(s: string): (r: Option<int>)
    ensures r.Some? ==> Int64(r.value)
  {
    if s == "" then None
    else
      var digits := ParseDigits(if s[0] == '+' || s[0] == '-' then s[1..] else s);
      if digits.None? then None
      else
        var n := if s[0] == '-' then -digits.value else digits.value;
        if Int64(n) then Some(n) else None
  }

  lemma DigitRoundTrip(d: int)
    requires 0 <= d < 10
    ensures DigitValue(Digit(d)) == Some(d)
  {
  }

  lemma {:induction false} DigitsRoundTrip(n: nat)
    ensures ParseDigits(Digits(n)) == Some(n)
    ensures '0' <= Digits(n)[0] <= '9'
  {
    if n < 10 {
      DigitRoundTrip(n);
    } else {
      DigitsRoundTrip(n / 10);
      DigitRoundTrip(n % 10);
      var s := Digits(n);
      assert s[..|s| - 1] == Digits(n / 10) && s[0] == Digits(n / 10)[0];
    }
  }

  /** Decimal: a text followed by a digit is ten times the text and the digit; a digit is its own value. */
  lemma DecimalMeans(s: string, d: int)
    requires 0 <= d < 10
    ensures var c := (48 + d) as char;
            && ParseDigits([c]) == Some(d)
            && (ParseDigits(s).Some? ==> ParseDigits(s + [c]) == Some(10 * ParseDigits(s).value + d))
  {
    var c := (48 + d) as char;
    assert (s + [c])[..|s|] == s;
  }

  lemma ParsePlain(s: string, n: int)
    requires s != "" && '0' <= s[0] <= '9' && ParseDigits(s) == Some(n) && Int64(n)
    ensures ParseInt(s) == Some(n)
  {
  }

  lemma ParseNegative(s: string, n: int)
    requires ParseDigits(s) == Some(n) && Int64(-n)
    ensures ParseInt("-" + s) == Some(-n)
  {
    assert ("-" + s)[1..] == s;
  }

  lemma DecimalRoundTrip(n: int)
    requires Int64(n)
    ensures ParseInt(FormatInt(n)) == Some(n)
  {
    if n < 0 {
      DigitsRoundTrip(-n);
      ParseNegative(Digits(-n), -n);
    } else {
      DigitsRoundTrip(n);
      ParsePlain(Digits(n), n);
    }
  }

  // ---- expanding ------------------------------------------------------------------------------

  /** An expand request: the bytes it asks for, and whether its write to the resource succeeds. */
  datatype Request = Request(bytes: int, written: bool)

  datatype Reply = Failed | Reply(bytes: int, nodeExpansion: bool)

  /** ControllerExpandVolume on the stored capacity. */
  function Expand(stored: string, request: Request): (string, Reply) {
    var updated := GetRoundedCapacity(request.bytes);
    var size := ParseInt(stored);
    if size.None? then (stored, Failed)
    else if size.value >= updated then (stored, Reply(size.value, false))
    else if !request.written then (stored, Failed)
    else (FormatInt(updated), Reply(updated, true))
  }

  function ExpandAll(stored: string, requests: seq<Request>): string {
    if requests == [] then stored else Expand(ExpandAll(stored, requests[..|requests| - 1]), requests[|requests| - 1]).0
  }

  /**
   * When a request is answered: the stored text must parse; then a volume that has the rounded size
   * already is left as it is, and one that has not is given exactly that size, if the write succeeds.
   */
  lemma AnsweredIff(stored: string, request: Request, rounded: int)
    requires Int64(request.bytes)
    requires 0 <= request.bytes <= LIMIT ==>
      LeastMultiple(request.bytes, if request.bytes > 1073741824 then 1073741824 else 1048576, rounded)
    ensures var (after, reply) := Expand(stored, request);
            match ParseInt(stored)
            case None => after == stored && reply == Failed
            case Some(size) =>
              && (size >= 0 && !(0 <= request.bytes <= LIMIT) ==> after == stored && reply == Reply(size, false))
              && (0 <= request.bytes <= LIMIT ==>
                    if size >= rounded then after == stored && reply == Reply(size, false)
                    else if request.written then ParseInt(after) == Some(rounded) && reply == Reply(rounded, true)
                    else after == stored && reply == Failed)
  {
    RoundedCoversIff(request.bytes);
    DecimalRoundTrip(GetRoundedCapacity(request.bytes));
    if request.bytes < 0 { NegativeRounds(request.bytes); }
    else if request.bytes <= LIMIT {
      RoundedIsLeast(request.bytes);
      OneLeast(request.bytes, Unit(request.bytes), rounded, GetRoundedCapacity(request.bytes));
    }
  }

  lemma OneLeast(size: int, unit: int, a: int, b: int)
    requires unit > 0 && LeastMultiple(size, unit, a) && LeastMultiple(size, unit, b)
    ensures a == b
  {
    var d := a / unit - b / unit;
    assert a - b == d * unit;
    Scaled(d, unit);
  }

  /** A reply is the capacity now stored; it covers the request unless the rounding overflowed. */
  lemma ReplyCoversIff(stored: string, request: Request)
    requires Int64(request.bytes) && ParseInt(stored).Some? && ParseInt(stored).value >= 0
    ensures var (after, reply) := Expand(stored, request);
            && ParseInt(after).Some? && ParseInt(after).value >= ParseInt(stored).value
            && (reply.Reply? ==>
                  && reply.bytes == ParseInt(after).value
                  && (reply.bytes >= request.bytes
                    <==> request.bytes <= LIMIT || ParseInt(stored).value >= request.bytes)
                  && (reply.nodeExpansion <==> after != stored))
            && (reply.Failed? ==> after == stored)
  {
    RoundedCoversIff(request.bytes);
    DecimalRoundTrip(GetRoundedCapacity(request.bytes));
  }

  /** Asking again gets the same answer and changes nothing. */
  lemma ExpandIsIdempotent(stored: string, request: Request, again: bool)
    requires Int64(request.bytes) && Expand(stored, request).1.Reply?
    ensures var (after, reply) := Expand(stored, request);
            Expand(after, request.(written := again)) == (after, Reply(reply.bytes, false))
  {
    RoundedCoversIff(request.bytes);
    DecimalRoundTrip(GetRoundedCapacity(request.bytes));
  }

  function Max(a: int, b: int): int { if a >= b then a else b }

  /** The capacity that all written requests together call for. */
  function Highest(size: int, requests: seq<Request>): int {
    if requests == [] then size
    else
      var soFar := Highest(size, requests[..|requests| - 1]);
      if requests[|requests| - 1].written then Max(soFar, GetRoundedCapacity(requests[|requests| - 1].bytes)) else soFar
  }

  /** Whatever the requests, the stored capacity is the highest called for: it never shrinks. */
  lemma {:induction false} ExpandAllIsHighest(stored: string, requests: seq<Request>)
    requires ParseInt(stored).Some? && AllInt64(requests)
    ensures ParseInt(ExpandAll(stored, requests)) == Some(Highest(ParseInt(stored).value, requests))
    ensures Highest(ParseInt(stored).value, requests) >= ParseInt(stored).value
  {
    if requests != [] {
      var last := requests[|requests| - 1];
      ExpandAllIsHighest(stored, requests[..|requests| - 1]);
      RoundedCoversIff(last.bytes);
      DecimalRoundTrip(GetRoundedCapacity(last.bytes));
    }
  }

  lemma ExpandGrows(stored: string, request: Request)
    requires Int64(request.bytes) && ParseInt(stored).Some?
    ensures var (after, reply) := Expand(stored, request);
            && ParseInt(after).Some? && ParseInt(after).value >= ParseInt(stored).value
            && (reply.Reply? ==> ParseInt(after).value >= GetRoundedCapacity(request.bytes))
  {
    RoundedCoversIff(request.bytes);
    DecimalRoundTrip(GetRoundedCapacity(request.bytes));
  }

  /** The i-th request was answered. */
  ghost predicate Answered(stored: string, requests: seq<Request>, i: nat) {
    i < |requests| && Expand(ExpandAll(stored, requests[..i]), requests[i]).1.Reply?
  }

  ghost predicate AllInt64(requests: seq<Request>) { forall i :: 0 <= i < |requests| ==> Int64(requests[i].bytes) }

  lemma StoredParses(stored: string, requests: seq<Request>)
    requires ParseInt(stored).Some? && AllInt64(requests)
    ensures ParseInt(ExpandAll(stored, requests)).Some?
  {
    ExpandAllIsHighest(stored, requests);
  }

  /** The last request was answered, so it is covered. */
  lemma AnsweredNow(stored: string, requests: seq<Request>, k: nat)
    requires ParseInt(stored).Some? && AllInt64(requests) && |requests| == k + 1
    requires Answered(stored, requests, k) && requests[k].bytes <= LIMIT
    ensures ParseInt(ExpandAll(stored, requests)).Some?
    ensures ParseInt(ExpandAll(stored, requests)).value >= requests[k].bytes
  {
    StoredParses(stored, requests[..k]);
    ExpandGrows(ExpandAll(stored, requests[..k]), requests[k]);
    RoundedCoversIff(requests[k].bytes);
  }

  lemma NeverShrinks(stored: string, requests: seq<Request>, k: nat)
    requires ParseInt(stored).Some? && AllInt64(requests) && |requests| == k + 1
    ensures ParseInt(ExpandAll(stored, requests[..k])).Some? && ParseInt(ExpandAll(stored, requests)).Some?
    ensures ParseInt(ExpandAll(stored, requests)).value >= ParseInt(ExpandAll(stored, requests[..k])).value
  {
    StoredParses(stored, requests[..k]);
    ExpandGrows(ExpandAll(stored, requests[..k]), requests[k]);
  }

  lemma AnsweredBefore(stored: string, requests: seq<Request>, k: nat, i: nat)
    requires |requests| == k + 1 && i < k && Answered(stored, requests, i)
    ensures Answered(stored, requests[..k], i)
  {
    assert requests[..k][..i] == requests[..i];
  }

  /** Every request that was answered stays covered, however many follow it. */
  lemma {:induction false} AnsweredStaysCovered(stored: string, requests: seq<Request>, i: nat)
    requires ParseInt(stored).Some? && AllInt64(requests)
    requires Answered(stored, requests, i) && requests[i].bytes <= LIMIT
    ensures ParseInt(ExpandAll(stored, requests)).Some?
    ensures ParseInt(ExpandAll(stored, requests)).value >= requests[i].bytes
    decreases |requests|
  {
    var k := |requests| - 1;
    if i == k {
      AnsweredNow(stored, requests, k);
    } else {
      AnsweredBefore(stored, requests, k, i);
      AnsweredStaysCovered(stored, requests[..k], i);
      NeverShrinks(stored, requests, k);
    }
  }
}
