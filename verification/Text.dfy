/** Text and byte helpers shared by the models: decimal numbers, separators, white space. */
module Text {

  newtype byte = x: int | 0 <= x < 256

  datatype Option<+T> = None | Some(value: T)

  predicate IsDigit(c: char) { '0' <= c <= '9' }

  predicate IsHex(c: char) { IsDigit(c) || 'a' <= c <= 'f' }

  function Digit(d: nat): (c: char)
    requires d < 10
    ensures IsDigit(c)
  {
    ('0' as int + d) as char
  }

  /** strconv.Itoa on non-negative numbers. */
  function Itoa(n: nat): (s: string)
    ensures |s| >= 1
    ensures forall i :: 0 <= i < |s| ==> IsDigit(s[i])
  {
    if n < 10 then [Digit(n)] else Itoa(n / 10) + [Digit(n % 10)]
  }

  lemma {:induction false} ItoaInjective(a: nat, b: nat)
    requires Itoa(a) == Itoa(b)
    ensures a == b
  {
    var s, t := Itoa(a), Itoa(b);
    assert s[|s| - 1] == Digit(a % 10) && t[|t| - 1] == Digit(b % 10);
    if a >= 10 && b >= 10 {
      assert s[..|s| - 1] == Itoa(a / 10) && t[..|t| - 1] == Itoa(b / 10);
      ItoaInjective(a / 10, b / 10);
    }
  }

  /** What lies after a common prefix decides equality. */
  lemma PrefixCancels(p: string, a: string, b: string)
    ensures p + a == p + b <==> a == b
  {
    assert (p + a)[|p|..] == a;
    assert (p + b)[|p|..] == b;
  }

  function Digits(s: string): Option<nat>
  {
    if s == [] then None
    else if !IsDigit(s[|s| - 1]) then None
    else if |s| == 1 then Some(s[0] as int - '0' as int)
    else match Digits(s[..|s| - 1])
         case None => None
         case Some(n) => Some(10 * n + (s[|s| - 1] as int - '0' as int))
  }

  function Signed(negative: bool, n: nat): int { if negative then -(n as int) else n }

  /** strconv.Atoi: an optional sign and decimal digits. */
  function Atoi(s: string): Option<int>
  {
    if s != [] && (s[0] == '-' || s[0] == '+') then
      match Digits(s[1..])
      case None => None
      case Some(n) => Some(Signed(s[0] == '-', n))
    else
      match Digits(s)
      case None => None
      case Some(n) => Some(n)
  }

  lemma {:induction false} ItoaReadsBack(n: nat)
    ensures Digits(Itoa(n)) == Some(n)
  {
    var s := Itoa(n);
    if n >= 10 {
      ItoaReadsBack(n / 10);
      assert s[..|s| - 1] == Itoa(n / 10) && s[|s| - 1] == Digit(n % 10);
    }
  }

  lemma AtoiReadsBack(n: nat)
    ensures Atoi(Itoa(n)) == Some(n)
  {
    ItoaReadsBack(n);
    assert IsDigit(Itoa(n)[0]);
  }

  lemma Uncons<T>(s: seq<T>, i: nat)
    requires i < |s|
    ensures s[i..] == [s[i]] + s[i + 1..] && |s[i..]| > 0 && s[i..][0] == s[i] && s[i..][1..] == s[i + 1..]
  {
  }

  lemma Assoc<T>(a: seq<T>, b: seq<T>, c: seq<T>)
    ensures a + (b + c) == (a + b) + c
  {
  }

  lemma Shift<T>(a: seq<T>, x: T, b: seq<T>)
    ensures a + ([x] + b) == (a + [x]) + b
  {
  }

  lemma Whole<T>(s: seq<T>)
    ensures s[..|s|] == s && s[|s|..] == [] && s[0..] == s && s[..0] == [] && s + [] == s && [] + s == s
  {
  }

  predicate White(c: char)
  {
    || c == ' ' || '\t' <= c <= '\r' || c == 0x85 as char || c == 0xA0 as char || c == 0x1680 as char
    || 0x2000 as char <= c <= 0x200A as char || c == 0x2028 as char || c == 0x2029 as char
    || c == 0x202F as char || c == 0x205F as char || c == 0x3000 as char
  }

  function TrimLeft(s: string): string
  {
    if s != [] && White(s[0]) then TrimLeft(s[1..]) else s
  }

  function TrimRight(s: string): string
  {
    if s != [] && White(s[|s| - 1]) then TrimRight(s[..|s| - 1]) else s
  }

  function TrimSpace(s: string): string { TrimRight(TrimLeft(s)) }
}
