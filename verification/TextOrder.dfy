/** The order of text: character by character, a prefix before what extends it. */
module TextOrder {

  predicate Before(a: string, b: string) {
    b != [] && (a == [] || a[0] < b[0] || (a[0] == b[0] && Before(a[1..], b[1..])))
  }

  lemma {:induction false} NotBeforeItself(a: string)
    ensures !Before(a, a)
  {
    if a != [] { NotBeforeItself(a[1..]); }
  }

  lemma {:induction false} BeforeChains(a: string, b: string, c: string)
    requires Before(a, b) && Before(b, c)
    ensures Before(a, c)
  {
    if a != [] && a[0] == b[0] && b[0] == c[0] { BeforeChains(a[1..], b[1..], c[1..]); }
  }

  lemma {:induction false} OneComesFirst(a: string, b: string)
    requires a != b
    ensures Before(a, b) || Before(b, a)
  {
    if a != [] && b != [] && a[0] == b[0] {
      assert a == [a[0]] + a[1..] && b == [b[0]] + b[1..];
      OneComesFirst(a[1..], b[1..]);
    }
  }

  /** Fields of equal width decide before what follows them. */
  lemma {:induction false} FieldsFirst(p: string, q: string, x: string, y: string)
    requires |p| == |q|
    ensures Before(p + x, q + y) <==> Before(p, q) || (p == q && Before(x, y))
  {
    if p == [] {
      assert p + x == x && q + y == y;
    } else {
      assert (p + x)[1..] == p[1..] + x && (q + y)[1..] == q[1..] + y;
      assert p == [p[0]] + p[1..] && q == [q[0]] + q[1..];
      FieldsFirst(p[1..], q[1..], x, y);
    }
  }

  /** The first place where two texts differ decides; a text that ends there comes
      first. */
  lemma {:induction false} FirstDifference(a: string, b: string, n: nat)
    requires n <= |a| && n <= |b| && a[..n] == b[..n]
    requires n < |a| && n < |b| ==> a[n] != b[n]
    ensures Before(a, b) <==> n < |b| && (n == |a| || a[n] < b[n])
  {
    if n > 0 {
      assert a[0] == a[..n][0] && b[0] == b[..n][0];
      assert a[1..][..n - 1] == a[..n][1..] && b[1..][..n - 1] == b[..n][1..];
      FirstDifference(a[1..], b[1..], n - 1);
    } else if n == |a| == |b| {
      NotBeforeItself(a);
    }
  }
}
