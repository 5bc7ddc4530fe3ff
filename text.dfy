/** String helpers standing in for the JavaScript string built-ins the views
    call: `toLowerCase`, `includes`, `Number.prototype.toString`, `padStart`
    and `Array.prototype.join('')`. */
module Text {

  /** Lower-cases the ASCII letters A-Z and leaves every other character alone. */
  function ToLower(s: string): (r: string)
    ensures |r| == |s|
    ensures forall i :: 0 <= i < |s| && !('A' <= s[i] <= 'Z') ==> r[i] == s[i]
    ensures forall i :: 0 <= i < |s| ==> !('A' <= r[i] <= 'Z')
  {
    seq(|s|, i requires 0 <= i < |s| =>
      if 'A' <= s[i] <= 'Z' then (s[i] as int + 32) as char else s[i])
  }

  lemma ToLowerIdempotent(s: string)
    ensures ToLower(ToLower(s)) == ToLower(s)
  {
  }

  predicate IsPrefix(p: string, s: string) {
    |p| <= |s| && s[..|p|] == p
  }

  /** `needle` occurs in `hay` starting at position `i`. */
  ghost predicate OccursAt(hay: string, needle: string, i: int) {
    0 <= i && i + |needle| <= |hay| && hay[i..i + |needle|] == needle
  }

  /** `hay.includes(needle)`: tries every start position from the left. The
      empty needle is found everywhere, and a needle is never found in a
      shorter text. */
  function Contains(hay: string, needle: string): (r: bool)
    ensures needle == [] ==> r
    ensures r ==> |needle| <= |hay|
    decreases |hay|
  {
    if IsPrefix(needle, hay) then true
    else if hay == [] then false
    else Contains(hay[1..], needle)
  }

  lemma {:induction false} ContainsIff(hay: string, needle: string)
    ensures Contains(hay, needle) <==> exists i :: OccursAt(hay, needle, i)
    decreases |hay|
  {
    if IsPrefix(needle, hay) {
      assert OccursAt(hay, needle, 0);
    } else if hay == [] {
    } else {
      ContainsIff(hay[1..], needle);
      if exists i :: OccursAt(hay, needle, i) {
        var i :| OccursAt(hay, needle, i);
        assert i != 0;
        assert hay[1..][i - 1..i - 1 + |needle|] == hay[i..i + |needle|];
        assert OccursAt(hay[1..], needle, i - 1);
      }
      if exists j :: OccursAt(hay[1..], needle, j) {
        var j :| OccursAt(hay[1..], needle, j);
        assert hay[1..][j..j + |needle|] == hay[j + 1..j + 1 + |needle|];
        assert OccursAt(hay, needle, j + 1);
      }
    }
  }

  /** The decimal digit character for `d`. */
  function DigitChar(d: nat): (c: char)
    requires d < 10
    ensures '0' <= c <= '9'
  {
    ('0' as int + d) as char
  }

  function DigitValue(c: char): (d: nat)
    requires '0' <= c <= '9'
    ensures d < 10
  {
    c as int - '0' as int
  }

  predicate AllDigits(s: string) {
    forall i :: 0 <= i < |s| ==> '0' <= s[i] <= '9'
  }

  /** `n.toString()` for a non-negative integer: decimal, no leading zeros. */
  function NatToString(n: nat): (r: string)
    ensures |r| >= 1 && AllDigits(r)
    ensures n < 10 <==> |r| == 1
    ensures 10 <= n < 100 <==> |r| == 2
    ensures |r| > 1 ==> r[0] != '0'
  {
    if n < 10 then [DigitChar(n)] else NatToString(n / 10) + [DigitChar(n % 10)]
  }

  /** The value of a string of decimal digits. */
  function ParseDigits(s: string): nat
    requires AllDigits(s)
  {
    if s == [] then 0 else ParseDigits(s[..|s| - 1]) * 10 + DigitValue(s[|s| - 1])
  }

  lemma {:induction false} ParseNatToString(n: nat)
    ensures ParseDigits(NatToString(n)) == n
  {
    var r := NatToString(n);
    if n >= 10 {
      ParseNatToString(n / 10);
      assert r[..|r| - 1] == NatToString(n / 10);
    }
  }

  /** `s.padStart(width, [c])`. */
  function PadStart(s: string, width: nat, c: char): (r: string)
    ensures |r| == if |s| >= width then |s| else width
    ensures r[|r| - |s|..] == s
    ensures forall i :: 0 <= i < |r| - |s| ==> r[i] == c
  {
    if |s| >= width then s else seq(width - |s|, _ => c) + s
  }

  /** `slots.join('')`: with single-character slots, one character per
      filled slot. */
  function Join(slots: seq<string>): (r: string)
    ensures AtMostOneChar(slots) ==> |r| == CountNonEmpty(slots)
  {
    if slots == [] then ""
    else
      assert AtMostOneChar(slots) ==> AtMostOneChar(slots[1..]) by {
        if AtMostOneChar(slots) {
          forall i | 0 <= i < |slots[1..]| ensures |slots[1..][i]| <= 1 { assert slots[1..][i] == slots[i + 1]; }
        }
      }
      slots[0] + Join(slots[1..])
  }

  /** Every slot holds at most one character. */
  predicate AtMostOneChar(slots: seq<string>) {
    forall i :: 0 <= i < |slots| ==> |slots[i]| <= 1
  }

  function CountNonEmpty(slots: seq<string>): (n: nat)
    ensures n <= |slots|
  {
    if slots == [] then 0 else (if slots[0] != "" then 1 else 0) + CountNonEmpty(slots[1..])
  }

  /** With single-character slots, the joined length counts the filled slots;
      so it equals the slot count exactly when every slot is filled. */
  lemma {:induction false} JoinLengthCountsFilled(slots: seq<string>)
    requires AtMostOneChar(slots)
    ensures |Join(slots)| == CountNonEmpty(slots)
    ensures |Join(slots)| == |slots| <==> forall i :: 0 <= i < |slots| ==> slots[i] != ""
  {
    if slots != [] {
      JoinLengthCountsFilled(slots[1..]);
      if |Join(slots)| == |slots| {
        forall i | 0 <= i < |slots| ensures slots[i] != "" {
          if i > 0 { assert slots[1..][i - 1] == slots[i]; }
        }
      }
      if forall i :: 0 <= i < |slots| ==> slots[i] != "" {
        assert forall i :: 0 <= i < |slots[1..]| ==> slots[1..][i] != "" by {
          forall i | 0 <= i < |slots[1..]| ensures slots[1..][i] != "" { assert slots[1..][i] == slots[i + 1]; }
        }
      }
    }
  }
}
