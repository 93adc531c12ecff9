/** Names of file groups: an index written in decimal and padded with zeros to
    ten characters, so that the order of names as strings is the order of the
    indices. */
module FileNames {

  const NAME_WIDTH := 10

  function Digit(d: nat): (c: char)
    requires d < 10
    ensures c == "0123456789"[d]
  {
    "0123456789"[d]
  }

  /** std::to_string of a non-negative int. */
  function Decimal(n: nat): (s: string)
    ensures s != []
  {
    if n < 10 then [Digit(n)] else Decimal(n / 10) + [Digit(n % 10)]
  }

  /** std::to_string. */
  function ToString(i: int): string {
    if i < 0 then "-" + Decimal(-i) else Decimal(i)
  }

  function ZeroChars(n: nat): (s: string)
    ensures |s| == n
  {
    seq(n, _ => '0')
  }

  /** ConvertIndexToString. */
  function GroupName(i: int): string {
    var s := ToString(i);
    var count := NAME_WIDTH - |s|;
    if count > 0 then ZeroChars(count) + s else s
  }

  /** operator< of std::string. */
  predicate Less(a: string, b: string) {
    if b == [] then false
    else if a == [] then true
    else if a[0] != b[0] then a[0] < b[0]
    else Less(a[1..], b[1..])
  }

  // ------------------------------------------------ the order of the names

  function Pow10(w: nat): (p: nat)
    ensures p >= 1
  {
    if w == 0 then 1 else 10 * Pow10(w - 1)
  }

  /** The last w decimal digits of n. */
  function Fixed(n: nat, w: nat): (s: string)
    ensures |s| == w
  {
    if w == 0 then [] else Fixed(n / 10, w - 1) + [Digit(n % 10)]
  }

  lemma {:induction false} FixedZero(w: nat)
    ensures Fixed(0, w) == ZeroChars(w)
  {
    if w > 0 {
      FixedZero(w - 1);
    }
  }

  /** Padding a number to a width that holds it gives its digits. */
  lemma {:induction false} PaddedIsFixed(n: nat, w: nat)
    requires w >= 1 && n < Pow10(w)
    ensures |Decimal(n)| <= w
    ensures ZeroChars(w - |Decimal(n)|) + Decimal(n) == Fixed(n, w)
  {
    if n < 10 {
      FixedZero(w - 1);
    } else {
      PaddedIsFixed(n / 10, w - 1);
      var zeros, digits := ZeroChars(w - |Decimal(n)|), Decimal(n / 10);
      assert zeros + (digits + [Digit(n % 10)]) == (zeros + digits) + [Digit(n % 10)];
    }
  }

  lemma {:induction false} LessSnoc(a: string, b: string, c: char, d: char)
    requires |a| == |b|
    ensures Less(a + [c], b + [d]) <==> Less(a, b) || (a == b && c < d)
  {
    var x, y := a + [c], b + [d];
    if a == [] {
      assert x == [c] && y == [d];
      assert [c][1..] == [] && [d][1..] == [];
    } else {
      assert x[1..] == a[1..] + [c] && y[1..] == b[1..] + [d];
      LessSnoc(a[1..], b[1..], c, d);
      assert a == [a[0]] + a[1..] && b == [b[0]] + b[1..];
    }
  }

  lemma {:induction false} FixedOrder(a: nat, b: nat, w: nat)
    requires a < Pow10(w) && b < Pow10(w)
    ensures Less(Fixed(a, w), Fixed(b, w)) <==> a < b
    ensures Fixed(a, w) == Fixed(b, w) <==> a == b
  {
    if w > 0 {
      FixedOrder(a / 10, b / 10, w - 1);
      var x, y := Fixed(a / 10, w - 1), Fixed(b / 10, w - 1);
      LessSnoc(x, y, Digit(a % 10), Digit(b % 10));
      var fa, fb := Fixed(a, w), Fixed(b, w);
      assert fa[..w - 1] == x && fb[..w - 1] == y && fa[w - 1] == Digit(a % 10) && fb[w - 1] == Digit(b % 10);
    }
  }

  lemma TenToTheTen()
    ensures Pow10(NAME_WIDTH) == 10_000_000_000
  {
    assert Pow10(3) == 1000;
    assert Pow10(6) == 1000 * Pow10(3) by {
      assert Pow10(4) == 10 * Pow10(3);
    }
    assert Pow10(7) == 10 * Pow10(6);
    assert Pow10(8) == 10 * Pow10(7);
    assert Pow10(9) == 10 * Pow10(8);
  }

  lemma NameIsFixed(a: int)
    requires 0 <= a <= 0x7fff_ffff
    ensures a < Pow10(NAME_WIDTH) && GroupName(a) == Fixed(a, NAME_WIDTH)
  {
    hide Fixed, Decimal, Pow10;
    TenToTheTen();
    PaddedIsFixed(a, NAME_WIDTH);
    assert ZeroChars(0) + Decimal(a) == Decimal(a);
  }

  /** Names sort as the indices they were made from. */
  lemma NameOrder(a: int, b: int)
    requires 0 <= a <= 0x7fff_ffff && 0 <= b <= 0x7fff_ffff
    ensures Less(GroupName(a), GroupName(b)) <==> a < b
    ensures GroupName(a) == GroupName(b) <==> a == b
    ensures |GroupName(a)| == NAME_WIDTH
  {
    hide Fixed, Decimal, Less, Pow10, GroupName;
    NameIsFixed(a);
    NameIsFixed(b);
    FixedOrder(a, b, NAME_WIDTH);
  }

  // ------------------------------------------------------ sorted listings

  predicate Ascending(names: seq<string>) {
    forall i, j :: 0 <= i < j < |names| ==> Less(names[i], names[j])
  }

  /** What FindIndexFiles followed by std::sort yields for a directory. */
  ghost predicate Lists(names: seq<string>, keys: set<string>) {
    Ascending(names) && (forall k :: k in keys <==> k in names)
  }

  lemma {:induction false} LessIrreflexive(a: string)
    ensures !Less(a, a)
  {
    if a != [] {
      LessIrreflexive(a[1..]);
    }
  }

  lemma {:induction false} LessAsymmetric(a: string, b: string)
    requires Less(a, b)
    ensures !Less(b, a)
  {
    if a != [] && a[0] == b[0] {
      LessAsymmetric(a[1..], b[1..]);
    }
  }

  /** A directory has only one sorted listing. */
  lemma {:induction false} ListingIsUnique(a: seq<string>, b: seq<string>)
    requires Ascending(a) && Ascending(b)
    requires forall k :: k in a <==> k in b
    ensures a == b
    decreases |a|
  {
    SomeMember(b);
    if a == [] {
    } else {
      assert a[0] in b;
      assert b[0] in a;
      var i :| 0 <= i < |b| && b[i] == a[0];
      var j :| 0 <= j < |a| && a[j] == b[0];
      if i > 0 {
        assert Less(b[0], b[i]);
        if j > 0 {
          assert Less(a[0], a[j]);
          LessAsymmetric(a[0], b[0]);
        }
        LessIrreflexive(a[0]);
      }
      forall k
        ensures k in a[1..] <==> k in b[1..]
      {
        TailMembers(a, k);
        TailMembers(b, k);
      }
      ListingIsUnique(a[1..], b[1..]);
      assert a == [a[0]] + a[1..] && b == [b[0]] + b[1..];
    }
  }

  lemma SomeMember(b: seq<string>)
    ensures b != [] ==> exists k :: k in b
  {
    if b != [] {
      assert b[0] in b;
    }
  }

  lemma TailMembers(a: seq<string>, k: string)
    requires Ascending(a) && a != []
    ensures k in a[1..] <==> k in a && k != a[0]
  {
    if k in a[1..] {
      var i :| 0 <= i < |a[1..]| && a[1..][i] == k;
      assert Less(a[0], a[i + 1]);
      LessIrreflexive(k);
    }
  }
}
