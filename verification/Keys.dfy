/** The texts that are hashed into capture identifiers and target keys: different
    parts give different texts, so the model may use the parts themselves. */
module Keys {
  import opened Basics
  import opened Strings

  /** A separator that the first part does not contain splits a text in one way. */
  lemma {:induction false} SplitOnce(a: string, sep: char, x: string, b: string, y: string)
    requires sep !in a && sep !in b && a + [sep] + x == b + [sep] + y
    ensures a == b && x == y
  {
    var s, t := a + [sep] + x, b + [sep] + y;
    FirstIsIn(a);
    FirstIsIn(b);
    assert s[0] == (if a == [] then sep else a[0]) && t[0] == (if b == [] then sep else b[0]);
    if a == [] {
      assert s[1..] == x && t[1..] == y;
    } else {
      assert s[1..] == a[1..] + [sep] + x && t[1..] == b[1..] + [sep] + y;
      assert a == [a[0]] + a[1..] && b == [b[0]] + b[1..];
      SplitOnce(a[1..], sep, x, b[1..], y);
    }
  }

  lemma {:induction false} DecimalDigits(n: nat)
    ensures Decimal(n) != "" && forall c | c in Decimal(n) :: '0' <= c <= '9'
  {
    if n >= 10 { DecimalDigits(n / 10); }
  }

  lemma {:induction false} DecimalOnce(m: nat, n: nat)
    requires Decimal(m) == Decimal(n)
    ensures m == n
    decreases m + n
  {
    var s := Decimal(m);
    if m >= 10 && n >= 10 {
      assert s[..|s| - 1] == Decimal(m / 10) && s[..|s| - 1] == Decimal(n / 10);
      DecimalOnce(m / 10, n / 10);
      assert s[|s| - 1] == ('0' as int + m % 10) as char == ('0' as int + n % 10) as char;
    } else if m >= 10 {
      DecimalDigits(m / 10);
    } else if n >= 10 {
      DecimalDigits(n / 10);
    }
  }

  /** Job, page number, cursor and digest, joined for hashing. */
  function CaptureText(job: string, number: nat, place: string, digest: string): string {
    job + "|" + (Decimal(number) + "|" + (place + "|" + digest))
  }

  /** The text determines its parts, even when a cursor contains the separator,
      since the digest has a fixed width. */
  lemma {:induction false} CaptureTextOnce(
    job: string, number: nat, place: string, digest: string,
    job': string, number': nat, place': string, digest': string)
    requires '|' !in job && '|' !in job' && |digest| == |digest'|
    requires CaptureText(job, number, place, digest) == CaptureText(job', number', place', digest')
    ensures job == job' && number == number' && place == place' && digest == digest'
  {
    hide Decimal;
    var x, y := place + "|" + digest, place' + "|" + digest';
    SplitOnce(job, '|', Decimal(number) + "|" + x, job', Decimal(number') + "|" + y);
    DecimalDigits(number);
    DecimalDigits(number');
    SplitOnce(Decimal(number), '|', x, Decimal(number'), y);
    DecimalOnce(number, number');
    assert x == y && |place| == |place'|;
    assert place == x[..|place|] && place' == y[..|place'|];
    assert digest == x[|place| + 1..] && digest' == y[|place'| + 1..];
  }

  /** Group identifier and URL, joined for hashing. */
  function TargetText(group: string, url: string): string {
    group + "\0" + url
  }

  lemma {:induction false} TargetTextOnce(group: string, url: string, group': string, url': string)
    requires '\0' !in group && '\0' !in group'
    requires TargetText(group, url) == TargetText(group', url')
    ensures group == group' && url == url'
  {
    SplitOnce(group, '\0', url, group', url');
  }
}
