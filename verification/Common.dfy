/** Datatypes and number formatting shared by the component models. */
module Common {

  datatype Option<+T> = None | Some(value: T)

  function Digit(d: nat): char
    requires d < 10
  {
    '0' + d as char
  }

  function Decimal(n: nat): (s: string)
    ensures s != ""
  {
    if n < 10 then [Digit(n)] else Decimal(n / 10) + [Digit(n % 10)]
  }

  lemma {:induction false} DecimalIsInjective(m: nat, n: nat)
    requires Decimal(m) == Decimal(n)
    ensures m == n
  {
    var a, b := Decimal(m), Decimal(n);
    assert a[|a| - 1] == b[|b| - 1];
    if m >= 10 && n >= 10 {
      assert a[..|a| - 1] == Decimal(m / 10) && b[..|b| - 1] == Decimal(n / 10);
      DecimalIsInjective(m / 10, n / 10);
    } else if m >= 10 || n >= 10 {
      assert false;
    }
  }

  function IntText(n: int): string { if n < 0 then "-" + Decimal(-n) else Decimal(n) }

  lemma {:induction false} DecimalHasNoSign(n: nat)
    ensures Decimal(n)[0] != '-'
  {
    if n >= 10 {
      DecimalHasNoSign(n / 10);
    }
  }

  lemma IntTextIsInjective(m: int, n: int)
    requires IntText(m) == IntText(n)
    ensures m == n
  {
    if m < 0 && n < 0 {
      assert IntText(m)[1..] == Decimal(-m) && IntText(n)[1..] == Decimal(-n);
      DecimalIsInjective(-m, -n);
    } else if m >= 0 && n >= 0 {
      DecimalIsInjective(m, n);
    } else {
      DecimalHasNoSign(if m < 0 then n else m);
    }
  }

  function Join(parts: seq<string>): string {
    if parts == [] then "" else parts[0] + Join(parts[1..])
  }

  lemma {:induction false} JoinOfSum(a: seq<string>, b: seq<string>)
    ensures Join(a + b) == Join(a) + Join(b)
  {
    if a == [] {
      assert a + b == b;
    } else {
      assert (a + b)[0] == a[0] && (a + b)[1..] == a[1..] + b;
      JoinOfSum(a[1..], b);
    }
  }

  // -------------------------------------------------------------------- text

  function Lower(text: string): string {
    seq(|text|, i requires 0 <= i < |text| => if 'A' <= text[i] <= 'Z' then text[i] - 'A' + 'a' else text[i])
  }

  predicate StandsAt(text: string, part: string, i: nat) {
    i + |part| <= |text| && text[i..i + |part|] == part
  }

  predicate Contains(text: string, part: string) {
    exists i: nat :: i <= |text| && StandsAt(text, part, i)
  }

  predicate IsSpace(c: char) { c == ' ' || c == '\t' || c == '\n' || c == '\r' }

  function TrimLeft(text: string): string {
    if text != "" && IsSpace(text[0]) then TrimLeft(text[1..]) else text
  }

  function TrimRight(text: string): string {
    if text != "" && IsSpace(text[|text| - 1]) then TrimRight(text[..|text| - 1]) else text
  }

  function Strip(text: string): string { TrimRight(TrimLeft(text)) }

  predicate AllSpaces(text: string) { forall i :: 0 <= i < |text| ==> IsSpace(text[i]) }

  lemma {:induction false} TrimLeftSays(text: string) returns (gone: string)
    ensures text == gone + TrimLeft(text) && AllSpaces(gone)
    ensures TrimLeft(text) != "" ==> !IsSpace(TrimLeft(text)[0])
  {
    gone := "";
    if text != "" && IsSpace(text[0]) {
      var rest := TrimLeftSays(text[1..]);
      gone := [text[0]] + rest;
      assert text == [text[0]] + text[1..];
    }
  }

  lemma {:induction false} TrimRightSays(text: string) returns (gone: string)
    ensures text == TrimRight(text) + gone && AllSpaces(gone)
    ensures TrimRight(text) != "" ==> !IsSpace(TrimRight(text)[|TrimRight(text)| - 1])
  {
    gone := "";
    if text != "" && IsSpace(text[|text| - 1]) {
      var last := [text[|text| - 1]];
      var rest := TrimRightSays(text[..|text| - 1]);
      gone := rest + last;
      assert text == text[..|text| - 1] + last;
      assert text == TrimRight(text[..|text| - 1]) + (rest + last);
    }
  }

  /** Stripping takes the white space off both ends and nothing else. */
  lemma StripSays(text: string) returns (left: string, right: string)
    ensures text == left + Strip(text) + right && AllSpaces(left) && AllSpaces(right)
    ensures Strip(text) != "" ==> !IsSpace(Strip(text)[0]) && !IsSpace(Strip(text)[|Strip(text)| - 1])
  {
    hide AllSpaces, TrimLeft, TrimRight;
    var trimmed := TrimLeft(text);
    left := TrimLeftSays(text);
    right := TrimRightSays(trimmed);
    assert text == left + (Strip(text) + right);
    if Strip(text) != "" {
      assert trimmed[0] == Strip(text)[0];
    }
  }
}
