/** What texts are numbers, and which: the number formats of strconv said character by character. */
module Numbers {
  import opened Basics
  import opened Text

  function Pow10(n: nat): nat { if n == 0 then 1 else 10 * Pow10(n - 1) }

  /** Each digit counts with the power of ten of its place. */
  function Weigh(s: string): int {
    if s == "" then 0 else (s[0] as int - '0' as int) * Pow10(|s| - 1) + Weigh(s[1..])
  }

  /** A sign or none, and at least one digit. */
  ghost predicate IsNumber(s: string) {
    || (|s| >= 1 && forall k | 0 <= k < |s| :: '0' <= s[k] <= '9')
    || (|s| >= 2 && (s[0] == '-' || s[0] == '+') && forall k | 1 <= k < |s| :: '0' <= s[k] <= '9')
  }

  function NumberOf(s: string): int {
    if s == "" then 0
    else if s[0] == '-' then -Weigh(s[1..])
    else if s[0] == '+' then Weigh(s[1..])
    else Weigh(s)
  }

  /** A digit put in front of a number adds its weight. */
  lemma {:induction false} FrontDigit(s: string)
    requires s != "" && AllDigits(s)
    ensures ParseNat(s) == (s[0] as int - '0' as int) * Pow10(|s| - 1) + ParseNat(s[1..])
    decreases |s|
  {
    if |s| == 1 {
      assert s[..0] == "" && s[1..] == "";
    } else {
      var t := s[..|s| - 1];
      FrontDigit(t);
      assert t[1..] == s[1..][..|s| - 2] && s[1..][|s| - 2] == s[|s| - 1];
      var d, p := s[0] as int - '0' as int, Pow10(|s| - 2);
      assert 10 * (d * p) == d * (10 * p);
    }
  }

  lemma {:induction false} ParseNatWeighs(s: string)
    requires AllDigits(s)
    ensures ParseNat(s) == Weigh(s) >= 0
    decreases |s|
  {
    if s != "" {
      FrontDigit(s);
      ParseNatWeighs(s[1..]);
    }
  }

  lemma LeadingZero(s: string)
    ensures Weigh("0" + s) == Weigh(s)
  {
    assert ("0" + s)[1..] == s;
  }

  /** Exactly the signed or unsigned numbers parse, whatever zeros they begin with, each to its value. */
  lemma ParseIntIff(s: string)
    ensures ParseInt(s).Some? <==> IsNumber(s)
    ensures IsNumber(s) ==> ParseInt(s) == Some(NumberOf(s))
  {
    if s != "" && AllDigits(s) {
      ParseNatWeighs(s);
    } else if |s| >= 2 && AllDigits(s[1..]) {
      ParseNatWeighs(s[1..]);
    }
    if |s| >= 2 {
      assert AllDigits(s[1..]) <==> forall k | 1 <= k < |s| :: '0' <= s[k] <= '9' by {
        assert forall k | 1 <= k < |s| :: s[1..][k - 1] == s[k];
      }
    }
  }

  /** Atoi fails exactly for texts that are no numbers and for numbers that do not fit into 64 bits. */
  lemma AtoiIff(s: string)
    ensures Atoi(s) ==
            if IsNumber(s) && -9223372036854775808 <= NumberOf(s) <= 9223372036854775807 then Some(NumberOf(s))
            else None
  {
    ParseIntIff(s);
  }

  /** So an empty text, a lone sign, and a text with any other character in it are errors. */
  lemma NoNumber(s: string)
    requires || s == "" || s == "-" || s == "+"
             || exists k :: 0 <= k < |s| && !('0' <= s[k] <= '9') && !(k == 0 && (s[0] == '-' || s[0] == '+'))
    ensures Atoi(s) == None
  {
    AtoiIff(s);
  }

  /** ParseUint with its error ignored: 0 for texts that are not made of digits, at most 2^64 - 1. */
  lemma ParseUintIs(s: string)
    ensures ParseUint(s) ==
            if s == "" || exists k :: 0 <= k < |s| && !('0' <= s[k] <= '9') then 0
            else if Weigh(s) <= 18446744073709551615 then Weigh(s)
            else 18446744073709551615
  {
    if AllDigits(s) {
      ParseNatWeighs(s);
    }
  }

  lemma {:induction false} NoLeadingZero(n: nat)
    ensures n >= 10 ==> FormatNat(n)[0] != '0'
    ensures |FormatNat(n)| > 1 ==> n >= 10
    decreases n
  {
    if n >= 10 {
      NoLeadingZero(n / 10);
      assert FormatNat(n)[0] == FormatNat(n / 10)[0];
    }
  }

  /** Itoa writes digits without leading zeros, after a minus sign if the number is negative, and what it
      writes is worth the number. */
  lemma ItoaSpelled(n: int)
    ensures NumberOf(Itoa(n)) == n && IsNumber(Itoa(n))
    ensures n < 0 <==> Itoa(n)[0] == '-'
    ensures n >= 0 ==> forall k | 0 <= k < |Itoa(n)| :: '0' <= Itoa(n)[k] <= '9'
    ensures n > 9 ==> Itoa(n)[0] != '0'
    ensures n < -9 ==> Itoa(n)[1] != '0'
  {
    ParseItoa(n);
    ParseIntIff(Itoa(n));
    if n >= 0 {
      NoLeadingZero(n);
    } else {
      NoLeadingZero(-n);
      assert Itoa(n)[1..] == FormatNat(-n);
    }
  }
}
