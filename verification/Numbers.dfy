/** Whole numbers as text: strconv.Itoa and strconv.Atoi of a 64-bit host. */
module Numbers {
  import opened Faults

  const MAX_UINT: int := 0xFFFF_FFFF_FFFF_FFFF
  const MAX_INT: int := 0x7FFF_FFFF_FFFF_FFFF

  predicate IsDigit(c: char) {
    '0' <= c <= '9'
  }

  function Digits(n: nat): (s: string)
    ensures s != "" && forall k :: 0 <= k < |s| ==> IsDigit(s[k])
  {
    if n < 10 then [('0' as int + n) as char] else Digits(n / 10) + [('0' as int + n % 10) as char]
  }

  function DigitOf(c: char): (d: nat)
    requires IsDigit(c)
  {
    c as int - '0' as int
  }

  /** The number that a string of digits stands for. */
  function Value(s: string): (n: nat)
    requires forall k :: 0 <= k < |s| ==> IsDigit(s[k])
  {
    if s == "" then 0 else 10 * Value(s[..|s| - 1]) + DigitOf(s[|s| - 1])
  }

  /** How many digits the string begins with. */
  function Leading(s: string): (n: nat)
    ensures n <= |s| && (forall k :: 0 <= k < n ==> IsDigit(s[k])) && (n < |s| ==> !IsDigit(s[n]))
  {
    if s == "" || !IsDigit(s[0]) then 0 else 1 + Leading(s[1..])
  }

  // ----------------------------------------------------------------- reading

  /** The loop of strconv.ParseUint: it ends at the first character that is no digit, and at the
      first digit that makes the number too big, whatever follows. */
  function ParseUint(s: string, n: nat): (r: Option<nat>) {
    if s == "" then Some(n)
    else if !IsDigit(s[0]) then None
    else if n * 10 + DigitOf(s[0]) > MAX_UINT then Some(MAX_UINT)
    else ParseUint(s[1..], n * 10 + DigitOf(s[0]))
  }

  predicate Signed(s: string) {
    s != "" && (s[0] == '+' || s[0] == '-')
  }

  function Unsigned(s: string): string {
    if Signed(s) then s[1..] else s
  }

  /** strconv.Atoi with its error ignored: 0 for what is not a number, the nearest number for
      what is out of range. */
  function Atoi(s: string): (n: int) {
    if Unsigned(s) == "" then 0
    else match ParseUint(Unsigned(s), 0)
      case None => 0
      case Some(n) => Clamped(if s[0] == '-' then 0 - n else n)
  }

  function Clamped(n: int): int {
    if n > MAX_INT then MAX_INT else if n < -MAX_INT - 1 then -MAX_INT - 1 else n
  }

  // ------------------------------------------------------------- what is read

  lemma {:induction false} ValueGrows(s: string, k: nat)
    requires k <= |s| && forall i :: 0 <= i < |s| ==> IsDigit(s[i])
    ensures Value(s[..k]) <= Value(s)
  {
    if k == |s| {
      assert s[..k] == s;
    } else {
      ValueGrows(s[..|s| - 1], k);
      assert s[..|s| - 1][..k] == s[..k];
    }
  }

  lemma {:induction false} ParsesFrom(s: string, k: nat)
    requires k <= Leading(s) && Value(s[..k]) <= MAX_UINT
    ensures ParseUint(s[k..], Value(s[..k])) ==
            if Value(s[..Leading(s)]) > MAX_UINT then Some(MAX_UINT)
            else if Leading(s) < |s| then None else Some(Value(s))
    decreases |s| - k
  {
    if k == Leading(s) {
      assert k == |s| ==> s[..k] == s;
    } else {
      assert s[..k + 1][..k] == s[..k] && s[k..][1..] == s[k + 1..];
      assert Value(s[..k + 1]) == Value(s[..k]) * 10 + DigitOf(s[k]);
      if Value(s[..k + 1]) > MAX_UINT {
        ValueGrows(s[..Leading(s)], k + 1);
        assert s[..Leading(s)][..k + 1] == s[..k + 1];
      } else {
        ParsesFrom(s, k + 1);
      }
    }
  }

  /** What Atoi reads, for any text: the leading digits count, unless something else follows
      while the number still fits into 64 bits. */
  lemma AtoiExactly(s: string)
    ensures var body := Unsigned(s);
            var value := Value(body[..Leading(body)]);
            Atoi(s) ==
            if body == "" || (Leading(body) < |body| && value <= MAX_UINT) then 0
            else Clamped(if s[0] == '-' then 0 - value else value)
  {
    var body := Unsigned(s);
    assert body[0..] == body && body[..0] == "";
    ParsesFrom(body, 0);
    assert body[..|body|] == body;
  }

  lemma {:induction false} ValueOfDigits(n: nat)
    ensures Value(Digits(n)) == n
  {
    if n < 10 {
      assert Digits(n)[..0] == "";
    } else {
      ValueOfDigits(n / 10);
      assert Digits(n)[..|Digits(n)| - 1] == Digits(n / 10);
    }
  }

  /** Reading undoes writing. */
  lemma AtoiOfDigits(n: nat)
    requires n <= MAX_INT
    ensures Atoi(Digits(n)) == n
  {
    var s := Digits(n);
    ValueOfDigits(n);
    AtoiExactly(s);
    assert IsDigit(s[0]) && !Signed(s) && s[..Leading(s)] == s;
  }
}
