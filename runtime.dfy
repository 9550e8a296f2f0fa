/**
 * The few pieces of Python's own behaviour that the engines rely on:
 * list subscripts (negative indices count from the end), `str` of an
 * integer, and `"\n".join(words)`.
 */
module Runtime {
  import opened Wrappers

  /** A subscript as the source receives it: `__getitem__` first asks `isinstance(index, int)`. */
  datatype Key = IntKey(i: int) | OtherKey(typeName: string)

  const ListIndexMessage := "list index out of range"

  /**
   * `s[i]` on a Python list: defined for `-|s| <= i < |s|`, where a negative
   * index counts from the end; anything else raises IndexError (here: Failure).
   */
  function ListIndex<T>(s: seq<T>, i: int): (r: Result<T, string>)
    ensures r.Success? <==> -|s| <= i < |s|
    ensures 0 <= i < |s| ==> r == Success(s[i])
    ensures -|s| <= i < 0 ==> r == Success(s[|s| + i])
    ensures r.Failure? ==> r.error == ListIndexMessage
  {
    if 0 <= i < |s| then Success(s[i])
    else if -|s| <= i < 0 then Success(s[|s| + i])
    else Failure(ListIndexMessage)
  }

  function DigitChar(d: nat): char
    requires d < 10
  {
    "0123456789"[d]
  }

  /** The decimal text of a natural number, as `str(n)` prints it. */
  function Decimal(n: nat): (r: string)
    ensures |r| >= 1
    ensures forall k :: 0 <= k < |r| ==> '0' <= r[k] <= '9'
    ensures n < 10 ==> r == [DigitChar(n)]
    decreases n
  {
    if n < 10 then [DigitChar(n)] else Decimal(n / 10) + [DigitChar(n % 10)]
  }

  /** The number a string of decimal digits spells. */
  function DigitsValue(s: string): nat
    requires forall k :: 0 <= k < |s| ==> '0' <= s[k] <= '9'
  {
    if |s| == 0 then 0 else 10 * DigitsValue(s[..|s| - 1]) + (s[|s| - 1] as int - '0' as int)
  }

  /** `str(n)` spells `n`, without leading zeros. */
  lemma {:induction false} DecimalValue(n: nat)
    ensures DigitsValue(Decimal(n)) == n
    ensures |Decimal(n)| > 1 ==> Decimal(n)[0] != '0'
    decreases n
  {
    if n >= 10 {
      DecimalValue(n / 10);
      assert Decimal(n)[..|Decimal(n)| - 1] == Decimal(n / 10);
    }
  }

  /** `str(i)` for any integer. */
  function IntText(i: int): string {
    if i < 0 then "-" + Decimal(-i) else Decimal(i)
  }

  /** `"\n".join(words)`. */
  function JoinLines(words: seq<string>): (r: string)
    ensures words == [] ==> r == ""
    ensures |words| == 1 ==> r == words[0]
  {
    if words == [] then ""
    else if |words| == 1 then words[0]
    else words[0] + "\n" + JoinLines(words[1..])
  }
}
