/** Trimming and decimal text. */
module Strings {

  const SPACES: set<char> := {' ', '\t', '\n', '\r', '\U{00000b}', '\U{00000c}'}

  function StripLeft(s: string): string {
    if s != "" && s[0] in SPACES then StripLeft(s[1..]) else s
  }

  function StripRight(s: string): string {
    if s != "" && s[|s| - 1] in SPACES then StripRight(s[..|s| - 1]) else s
  }

  function Strip(s: string): string { StripRight(StripLeft(s)) }

  function Decimal(n: nat): string {
    if n < 10 then [('0' as int + n) as char] else Decimal(n / 10) + [('0' as int + n % 10) as char]
  }

  /** Trimming takes white space off both ends and nothing else. */
  lemma {:induction false} StripTrims(s: string) returns (before: string, after: string)
    ensures s == before + Strip(s) + after
    ensures forall c | c in before || c in after :: c in {' ', '\t', '\n', '\r', '\U{00000b}', '\U{00000c}'}
    ensures Strip(s) != "" ==> Strip(s)[0] !in SPACES && Strip(s)[|Strip(s)| - 1] !in SPACES
  {
    before := LeftTrims(s);
    after := RightTrims(StripLeft(s));
    var r := Strip(s);
    if r != "" { assert StripLeft(s)[0] == r[0]; }
  }

  lemma {:induction false} LeftTrims(s: string) returns (before: string)
    ensures s == before + StripLeft(s) && forall c | c in before :: c in SPACES
    ensures StripLeft(s) != "" ==> StripLeft(s)[0] !in SPACES
  {
    before := "";
    if s != "" && s[0] in SPACES {
      var more := LeftTrims(s[1..]);
      before := [s[0]] + more;
      assert s == [s[0]] + s[1..];
    }
  }

  lemma {:induction false} RightTrims(s: string) returns (after: string)
    ensures s == StripRight(s) + after && forall c | c in after :: c in SPACES
    ensures StripRight(s) != "" ==> StripRight(s)[|StripRight(s)| - 1] !in SPACES
  {
    after := "";
    if s != "" && s[|s| - 1] in SPACES {
      var more := RightTrims(s[..|s| - 1]);
      after := more + [s[|s| - 1]];
      assert s == s[..|s| - 1] + [s[|s| - 1]];
    }
  }

  /** The number a text of digits stands for. */
  function Reading(text: string): int
    decreases |text|
  {
    if text == "" then 0 else Reading(text[..|text| - 1]) * 10 + (text[|text| - 1] as int - '0' as int)
  }

  /** A number in decimal reads as itself, and starts with no zero of its own. */
  lemma {:induction false} DecimalReads(n: nat)
    ensures Reading(Decimal(n)) == n && Decimal(n) != "" && (n > 0 ==> Decimal(n)[0] != '0')
    ensures forall c | c in Decimal(n) :: '0' <= c <= '9'
  {
    if n >= 10 {
      DecimalReads(n / 10);
      assert Decimal(n)[..|Decimal(n)| - 1] == Decimal(n / 10);
    } else {
      assert Decimal(n)[..0] == "";
    }
  }
}
