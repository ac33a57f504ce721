/** The `MM:SS` clock labels of the player and the recorder: each part is a
    decimal numeral left-padded with '0' to two characters. */
module TimeFormat {
  import opened Wrappers
  import opened Decimal

  /** `String.prototype.padStart(width, fill)` with a one-character fill. */
  function PadStart(s: string, width: nat, fill: char): (r: string)
    ensures |r| == if |s| >= width then |s| else width
    ensures r[|r| - |s|..] == s
    ensures forall i :: 0 <= i < |r| - |s| ==> r[i] == fill
  {
    if |s| >= width then s else seq(width - |s|, _ => fill) + s
  }

  /** `n.toString().padStart(2, '0')`. */
  function Pad2(n: nat): string {
    PadStart(Show(n), 2, '0')
  }

  lemma Pad2Digits(n: nat)
    ensures AllDigits(Pad2(n)) && Parse(Pad2(n)) == n
    ensures |Pad2(n)| == (if n < 100 then 2 else |Show(n)|)
  {
    ShowLength(n);
    ParseShow(n);
    if n < 10 {
      assert Pad2(n) == "0" + Show(n);
      ParseLeadingZero(Show(n));
    } else {
      assert Pad2(n) == Show(n);
    }
  }

  lemma {:induction false} ShowLength(n: nat)
    ensures n < 100 ==> |Show(n)| <= 2
    ensures n >= 10 ==> |Show(n)| >= 2
  {
    if n >= 10 {
      ShowLength(n / 10);
    }
  }

  /** `Number.prototype.toString` on an integer value. */
  function ShowInt(i: int): (s: string)
    ensures i >= 0 ==> s == Show(i)
    ensures i < 0 ==> s == "-" + Show(-i)
    ensures |s| >= 1 && (s[0] == '-' <==> i < 0)
  {
    if i < 0 then "-" + Show(-i) else Show(i)
  }

  /** The text of an integer reads back as that integer: its digits give its
      magnitude, after a leading minus sign when it is negative. */
  lemma ShowIntReadBack(i: int)
    ensures i >= 0 ==> AllDigits(ShowInt(i)) && Parse(ShowInt(i)) == i
    ensures i < 0 ==> ShowInt(i)[0] == '-' && AllDigits(ShowInt(i)[1..]) && Parse(ShowInt(i)[1..]) == -i
  {
    if i >= 0 {
      ParseShow(i);
    } else {
      var t := Show(-i);
      assert ShowInt(i) == "-" + t;
      assert ShowInt(i)[1..] == t;
      ParseShow(-i);
    }
  }

  /** `${Pad2(minutes)}:${Pad2(seconds)}`. */
  function Clock(minutes: nat, seconds: nat): string {
    Pad2(minutes) + ":" + Pad2(seconds)
  }

  /** Index of the first `c` in `s`, or -1, as `String.prototype.indexOf`. */
  function FirstIndex(s: string, c: char): (i: int)
    ensures -1 <= i < |s|
    ensures i == -1 <==> c !in s
    ensures 0 <= i ==> s[i] == c && c !in s[..i]
  {
    if s == [] then -1
    else if s[0] == c then 0
    else
      var j := FirstIndex(s[1..], c);
      assert j >= 0 ==> s[1..][..j] == s[1..j + 1];
      if j < 0 then -1 else j + 1
  }

  /** Reads a label back: digits, one ':', digits. */
  function ParseClock(text: string): Option<(nat, nat)> {
    var i := FirstIndex(text, ':');
    if i < 0 then None
    else
      var left, right := text[..i], text[i + 1..];
      if |left| > 0 && |right| > 0 && AllDigits(left) && AllDigits(right)
      then Some((Parse(left), Parse(right)))
      else None
  }

  lemma {:induction false} FirstIndexAfterDigits(a: string, b: string)
    requires AllDigits(a)
    ensures FirstIndex(a + ":" + b, ':') == |a|
  {
    var s := a + ":" + b;
    assert s[|a|] == ':';
    assert s[..|a|] == a;
    assert ':' !in a;
  }

  lemma ParseJoined(l: string, r: string)
    requires |l| > 0 && |r| > 0 && AllDigits(l) && AllDigits(r)
    ensures ParseClock(l + ":" + r) == Some((Parse(l), Parse(r)))
  {
    var s := l + ":" + r;
    FirstIndexAfterDigits(l, r);
    assert s[..|l|] == l;
    assert s[|l| + 1..] == r;
  }

  /** Every label can be read back to the numbers it was made from. */
  lemma ClockRoundTrip(minutes: nat, seconds: nat)
    ensures ParseClock(Clock(minutes, seconds)) == Some((minutes, seconds))
  {
    Pad2Digits(minutes);
    Pad2Digits(seconds);
    ParseJoined(Pad2(minutes), Pad2(seconds));
  }
}
