/**
 `fastItoa`: the decimal digits of a number written right-aligned into a buffer.
 */
module Itoa {

  predicate IsDigit(c: char) { '0' <= c <= '9' }

  predicate AllDigits(s: string) { forall i :: 0 <= i < |s| ==> IsDigit(s[i]) }

  function DigitOf(d: nat): char
    requires d < 10
  {
    '0' + d as char
  }

  function Value(c: char): nat
    requires IsDigit(c)
  {
    c as int - '0' as int
  }

  /** The reference meaning: the number a string of digits denotes. */
  function Parse(s: string): nat
    requires AllDigits(s)
  {
    if s == [] then 0 else 10 * Parse(s[..|s| - 1]) + Value(s[|s| - 1])
  }

  function Pow10(k: nat): nat { if k == 0 then 1 else 10 * Pow10(k - 1) }

  /** How many decimal digits a number has. */
  function Digits(val: nat): (n: nat)
    ensures n >= 1
  {
    if val < 10 then 1 else 1 + Digits(val / 10)
  }

  lemma {:induction false} ParsePrepend(c: char, s: string)
    requires IsDigit(c) && AllDigits(s)
    ensures Parse([c] + s) == Value(c) * Pow10(|s|) + Parse(s)
  {
    if s == [] {
      assert [c] + s == [c] && [c][..0] == [];
    } else {
      var front := s[..|s| - 1];
      assert ([c] + s)[..|s|] == [c] + front;
      ParsePrepend(c, front);
      Distribute(Value(c), Pow10(|s| - 1));
    }
  }

  lemma Distribute(d: int, p: int)
    ensures 10 * (d * p) == d * (10 * p)
  {
  }

  lemma SplitDigit(val: nat, p: nat)
    ensures val / 10 * (10 * p) + val % 10 * p == val * p
  {
    var q, r := val / 10, val % 10;
    assert val == 10 * q + r;
    assert (10 * q + r) * p == 10 * q * p + r * p;
  }

  /** The number made up of what is still to be written and the digits written so far. */
  function Made(val: nat, done: string): nat
    requires AllDigits(done)
  {
    val * Pow10(|done|) + Parse(done)
  }

  /** Moving the last digit of a number in front of the digits written so far keeps the number they make up. */
  lemma {:induction false} MoveDigit(val: nat, done: string)
    requires AllDigits(done)
    ensures
      var next := [DigitOf(val % 10)] + done;
      AllDigits(next) && Made(val / 10, next) == Made(val, done)
    ensures Made(0, done) == Parse(done)
    ensures DigitOf(val % 10) == '0' && val < 10 ==> val == 0
  {
    ParsePrepend(DigitOf(val % 10), done);
    SplitDigit(val, Pow10(|done|));
  }

  /** A number below `10^k` has at most `k` digits. */
  lemma {:induction false} DigitsBound(val: nat, k: nat)
    requires k > 0 && val < Pow10(k)
    ensures Digits(val) <= k
  {
    assert Pow10(1) == 10 * Pow10(0) == 10;
    if val >= 10 {
      DigitsBound(val / 10, k - 1);
    }
  }

  /** 20 cells suffice for every 64-bit value. */
  lemma TwentySuffice(val: nat)
    requires val < 0x1_0000_0000_0000_0000
    ensures Digits(val) <= 20
  {
    assert Pow10(4) == 10000;
    assert Pow10(8) == 1_0000_0000;
    assert Pow10(12) == 1_0000_0000_0000;
    assert Pow10(16) == 1_0000_0000_0000_0000;
    assert Pow10(20) == 1_0000_0000_0000_0000_0000;
    DigitsBound(val, 20);
  }

  /**
   The view returned, the cells from `idx` on, is exactly as long as the number has digits, parses back to it
   and has no leading zero unless it is "0"; the cells before it are untouched.
   */
  method FastItoa(value: nat, buf: array<char>) returns (idx: nat)
    requires Digits(value) <= buf.Length
    modifies buf
    ensures idx == buf.Length - Digits(value)
    ensures forall i :: idx <= i < buf.Length ==> IsDigit(buf[i])
    ensures Parse(buf[idx..]) == value
    ensures buf[idx] == '0' ==> value == 0
    ensures buf[..idx] == old(buf[..idx])
  {
    var val: nat := value;
    idx := buf.Length;
    assert buf[idx..] == [];
    // The do-while loop: its body runs once before the test.
    var again := true;
    while again
      invariant 0 <= idx <= buf.Length
      invariant again ==> Digits(val) + (buf.Length - idx) == Digits(value) <= buf.Length
      invariant !again ==> val == 0 && idx == buf.Length - Digits(value)
      invariant again <==> val > 0 || idx == buf.Length
      invariant AllDigits(buf[idx..]) && Made(val, buf[idx..]) == value
      invariant idx < buf.Length && !again ==> (buf[idx] == '0' ==> value == 0)
      invariant forall i :: 0 <= i < idx ==> buf[i] == old(buf[i])
      decreases val, again
    {
      ghost var done, was := buf[idx..], val;
      idx := idx - 1;
      buf[idx] := DigitOf(val % 10);
      val := val / 10;
      again := val > 0;
      assert buf[idx..] == [buf[idx]] + done;
      MoveDigit(was, done);
    }
    MoveDigit(0, buf[idx..]);
    assert buf[..idx] == old(buf[..idx]);
    assert forall i :: idx <= i < buf.Length ==> buf[i] == buf[idx..][i - idx];
  }
}
