/** The few pieces of JavaScript semantics the style compiler relies on:
    nullable numbers and their truthiness, `x >>> 0`, the decimal text of an
    index in `str + i`, and `Array.prototype.join('')`. */
module Runtime {

  /** A value that may be `null`. */
  datatype Option<+T> = None | Some(value: T)

  /** `if (x)` on a value that is either `null` or a number: `null` and `0` are falsy. */
  predicate Truthy(x: Option<int>) {
    x.Some? && x.value != 0
  }

  const TWO_TO_32: int := 0x1_0000_0000

  /** `x >>> 0` on an integral number: reduction modulo 2^32 into [0, 2^32). */
  function ToUint32(x: int): (r: nat)
    ensures r < TWO_TO_32
    ensures 0 <= x < TWO_TO_32 ==> r == x
    ensures (x - r) % TWO_TO_32 == 0
  {
    x % TWO_TO_32
  }

  /** `h >>> 0` where `h` may be `null`; `null >>> 0` is `0`. */
  function NullableToUint32(h: Option<int>): (r: nat)
    ensures r < TWO_TO_32
    ensures h.None? ==> r == 0
  {
    match h
    case None => 0
    case Some(x) => ToUint32(x)
  }

  predicate IsDigit(c: char) {
    '0' <= c <= '9'
  }

  function DigitChar(d: nat): (c: char)
    requires d < 10
    ensures IsDigit(c) && c as int - '0' as int == d
  {
    ('0' as int + d) as char
  }

  /** The text JavaScript produces for a non-negative integer in `str + i`:
      decimal digits, no leading zero. */
  function NumberToString(n: nat): (s: string)
    ensures |s| >= 1
    ensures forall k :: 0 <= k < |s| ==> IsDigit(s[k])
    ensures |s| > 1 ==> s[0] != '0'
    decreases n
  {
    if n < 10 then [DigitChar(n)] else NumberToString(n / 10) + [DigitChar(n % 10)]
  }

  /** Reads a string of decimal digits back as a number (the partner of NumberToString). */
  function ParseDecimal(s: string): nat
    requires forall k :: 0 <= k < |s| ==> IsDigit(s[k])
    decreases |s|
  {
    if s == [] then 0
    else
      assert IsDigit(s[|s| - 1]);
      ParseDecimal(s[..|s| - 1]) * 10 + (s[|s| - 1] as int - '0' as int)
  }

  /** The decimal text of an index reads back as that index. */
  lemma {:induction false} ParseNumberToString(n: nat)
    ensures ParseDecimal(NumberToString(n)) == n
    decreases n
  {
    var s := NumberToString(n);
    if n < 10 {
      assert s[..|s| - 1] == [];
    } else {
      assert s[..|s| - 1] == NumberToString(n / 10);
      ParseNumberToString(n / 10);
    }
  }

  /** Different indices have different decimal texts. */
  lemma NumberToStringInjective(m: nat, n: nat)
    ensures NumberToString(m) == NumberToString(n) ==> m == n
  {
    ParseNumberToString(m);
    ParseNumberToString(n);
  }

  /** A string's JavaScript `length`: its count of UTF-16 code units. A character
      above U+FFFF is a surrogate pair and counts twice. */
  function Utf16Length(s: string): (n: nat)
    ensures |s| <= n <= 2 * |s|
    ensures (forall i :: 0 <= i < |s| ==> s[i] as int < 0x1_0000) ==> n == |s|
    decreases |s|
  {
    if s == [] then 0
    else Utf16Length(s[..|s| - 1]) + (if s[|s| - 1] as int < 0x1_0000 then 1 else 2)
  }

  lemma ConcatAssoc(x: string, y: string, z: string)
    ensures (x + y) + z == x + (y + z)
  {
  }

  /** `chunks.join('')`: the chunks concatenated in order. No chunks give `''`;
      one chunk gives that chunk, so a plain-string result of `flatten` and its
      one-chunk array join alike. */
  function Join(chunks: seq<string>): (r: string)
    ensures chunks == [] ==> r == ""
    ensures |chunks| == 1 ==> r == chunks[0]
    ensures (forall i :: 0 <= i < |chunks| ==> |chunks[i]| <= |r|)
    decreases |chunks|
  {
    if chunks == [] then "" else chunks[0] + Join(chunks[1..])
  }

  /** Joining two runs of chunks is joining each and concatenating. */
  lemma {:induction false} JoinAppend(a: seq<string>, b: seq<string>)
    ensures Join(a + b) == Join(a) + Join(b)
    decreases |a|
  {
    if a == [] {
      assert a + b == b;
    } else {
      assert (a + b)[1..] == a[1..] + b;
      JoinAppend(a[1..], b);
    }
  }
}
