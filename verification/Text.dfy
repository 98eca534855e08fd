// Text as both halves of the program see it: one whitespace class, trimming, decimal numbers.
module Text {

  datatype Option<+T> = None | Some(value: T)

  // The characters both Go's unicode.IsSpace and JavaScript's \s call whitespace.
  predicate IsSpace(c: char) {
    c in {' ', '\t', '\n', '\r', '\U{000B}', '\U{000C}', '\U{00A0}', '\U{1680}', '\U{2028}', '\U{2029}',
          '\U{202F}', '\U{205F}', '\U{3000}'}
    || '\U{2000}' <= c <= '\U{200A}'
  }

  // A string no trim would change.
  predicate Trimmed(s: string) {
    s == "" || (!IsSpace(s[0]) && !IsSpace(s[|s| - 1]))
  }

  function TrimLeft(s: string): (t: string)
    ensures t == "" || !IsSpace(t[0])
    ensures Trimmed(s) ==> t == s
  {
    if s != "" && IsSpace(s[0]) then TrimLeft(s[1..]) else s
  }

  function TrimRight(s: string): (t: string)
    ensures t == "" || !IsSpace(t[|t| - 1])
    ensures Trimmed(s) ==> t == s
    ensures s != "" && !IsSpace(s[0]) ==> t != "" && t[0] == s[0]
  {
    if s != "" && IsSpace(s[|s| - 1]) then TrimRight(s[..|s| - 1]) else s
  }

  lemma {:induction false} TrimRightPrefix(s: string)
    ensures TrimRight(s) <= s
    ensures forall i :: |TrimRight(s)| <= i < |s| ==> IsSpace(s[i])
  {
    if s != "" && IsSpace(s[|s| - 1]) {
      TrimRightPrefix(s[..|s| - 1]);
    }
  }

  function Trim(s: string): (t: string)
    ensures Trimmed(t)
    ensures Trimmed(s) ==> t == s
  {
    TrimRight(TrimLeft(s))
  }

  predicate Blank(s: string) { forall i :: 0 <= i < |s| ==> IsSpace(s[i]) }

  lemma {:induction false} TrimLeftSuffix(s: string) returns (before: string)
    ensures s == before + TrimLeft(s) && Blank(before)
  {
    if s != "" && IsSpace(s[0]) {
      var rest := TrimLeftSuffix(s[1..]);
      before := [s[0]] + rest;
    } else {
      before := "";
    }
  }

  // Trimming takes off whitespace at both ends and nothing else.
  lemma TrimTakesBlanks(s: string) returns (before: string, after: string)
    ensures s == before + Trim(s) + after && Blank(before) && Blank(after)
  {
    hide TrimLeft, TrimRight;
    before := TrimLeftSuffix(s);
    var rest := TrimLeft(s);
    TrimRightPrefix(rest);
    after := rest[|TrimRight(rest)|..];
  }

  function Digit(n: nat): char
    requires n < 10
  {
    ('0' as int + n) as char
  }

  // The decimal text of a number, as fmt.Sprint and String both write it.
  function Decimal(n: nat): (s: string)
    ensures s != "" && forall i :: 0 <= i < |s| ==> '0' <= s[i] <= '9'
    ensures Trimmed(s)
  {
    if n < 10 then [Digit(n)] else Decimal(n / 10) + [Digit(n % 10)]
  }

  // What a text of digits is worth.
  function Worth(s: string): nat
    requires forall i :: 0 <= i < |s| ==> '0' <= s[i] <= '9'
  {
    if s == "" then 0 else 10 * Worth(s[..|s| - 1]) + (s[|s| - 1] as int - '0' as int)
  }

  // The decimal text of a number is worth that number, and starts with a zero only for zero itself.
  lemma {:induction false} DecimalReads(n: nat)
    ensures Worth(Decimal(n)) == n && (Decimal(n)[0] == '0' <==> n == 0)
  {
    var s := Decimal(n);
    assert s[|s| - 1] == Digit(n % 10);
    if n < 10 {
      assert s[..|s| - 1] == "";
    } else {
      DecimalReads(n / 10);
      assert s[..|s| - 1] == Decimal(n / 10);
    }
  }
}
