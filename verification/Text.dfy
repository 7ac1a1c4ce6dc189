/** Strings as the program uses them: order, decimal printing, separators, case folding and trimming.
    Characters are treated as ASCII; Unicode folding is outside the model. */
module Text {

  // ----- Byte-wise order of strings (Go's `<` on strings) -----

  predicate Less(a: string, b: string) {
    b != "" && (a == "" || a[0] < b[0] || (a[0] == b[0] && Less(a[1..], b[1..])))
  }

  /** The texts agree in the first `i` characters, and then the one ends or has the smaller character. */
  predicate Splits(a: string, b: string, i: nat) {
    i <= |a| && i < |b| && a[..i] == b[..i] && (i < |a| ==> a[i] < b[i])
  }

  lemma {:induction false} LessMeans(a: string, b: string)
    ensures Less(a, b) <==> exists i :: Splits(a, b, i)
  {
    if a == "" {
      assert b != "" ==> Splits(a, b, 0);
    } else if b != "" && a[0] == b[0] {
      LessMeans(a[1..], b[1..]);
      if i: nat :| Splits(a[1..], b[1..], i) {
        assert a[..i + 1] == [a[0]] + a[1..][..i] && b[..i + 1] == [b[0]] + b[1..][..i];
        assert Splits(a, b, i + 1);
      }
      if i: nat :| Splits(a, b, i) {
        assert i > 0 && a[1..][..i - 1] == a[..i][1..] && b[1..][..i - 1] == b[..i][1..];
        assert Splits(a[1..], b[1..], i - 1);
      }
    } else if b != "" {
      assert a[0] < b[0] ==> Splits(a, b, 0);
      if i: nat :| Splits(a, b, i) {
        assert i > 0 ==> a[..i][0] == b[..i][0];
      }
    }
  }

  lemma LessIsAsymmetric(a: string, b: string)
    requires Less(a, b)
    ensures !Less(b, a) && a != b
  {
  }

  lemma {:induction false} LessIsTransitive(a: string, b: string, c: string)
    requires Less(a, b) && Less(b, c)
    ensures Less(a, c)
  {
    if a != "" && a[0] == b[0] && b[0] == c[0] {
      LessIsTransitive(a[1..], b[1..], c[1..]);
    }
  }

  lemma {:induction false} LessIsTotal(a: string, b: string)
    ensures Less(a, b) || a == b || Less(b, a)
  {
    if a != "" && b != "" && a[0] == b[0] {
      LessIsTotal(a[1..], b[1..]);
      assert a == [a[0]] + a[1..] && b == [b[0]] + b[1..];
    }
  }

  // ----- Separators -----

  /** The first separator of a text determines what stands on both sides of it. */
  lemma FirstSeparator(a1: string, r1: string, a2: string, r2: string, c: char)
    requires c !in a1 && c !in a2
    requires a1 + [c] + r1 == a2 + [c] + r2
    ensures a1 == a2 && r1 == r2
  {
    var t := a1 + [c] + r1;
    assert t[|a1|] == c && t[|a2|] == c;
    assert forall i | 0 <= i < |a1| :: t[i] == a1[i];
    assert forall i | 0 <= i < |a2| :: t[i] == a2[i];
    assert |a1| == |a2|;
    assert a1 == t[..|a1|] && a2 == t[..|a2|];
    assert r1 == t[|a1| + 1..] && r2 == t[|a2| + 1..];
  }

  /** So does the last one. */
  lemma LastSeparator(l1: string, b1: string, l2: string, b2: string, c: char)
    requires c !in b1 && c !in b2
    requires l1 + [c] + b1 == l2 + [c] + b2
    ensures l1 == l2 && b1 == b2
  {
    var t := l1 + [c] + b1;
    assert t[|l1|] == c && t[|l2|] == c;
    assert forall i | |l1| < i < |t| :: t[i] == b1[i - |l1| - 1];
    assert forall i | |l2| < i < |t| :: t[i] == b2[i - |l2| - 1];
    assert |l1| == |l2|;
    assert l1 == t[..|l1|] && l2 == t[..|l2|];
    assert b1 == t[|l1| + 1..] && b2 == t[|l2| + 1..];
  }

  lemma PrefixCancels(p: string, a: string, b: string)
    requires p + a == p + b
    ensures a == b
  {
    assert a == (p + a)[|p|..] && b == (p + b)[|p|..];
  }

  /** strings.Join */
  function Join(parts: seq<string>, sep: string): string {
    if parts == [] then "" else if |parts| == 1 then parts[0] else parts[0] + sep + Join(parts[1..], sep)
  }

  /** What a joined text of non-empty, separator-free parts shows about the number of parts. */
  lemma JoinShape(p: seq<string>, c: char)
    requires forall s | s in p :: s != "" && c !in s
    ensures p == [] <==> Join(p, [c]) == ""
    ensures |p| >= 2 <==> c in Join(p, [c])
  {
    if p != [] {
      assert p[0] in p;
      assert |p| >= 2 ==> c in p[0] + [c] + Join(p[1..], [c]);
    }
  }

  lemma {:induction false} JoinIsInjective(p: seq<string>, q: seq<string>, c: char)
    requires forall s | s in p :: s != "" && c !in s
    requires forall s | s in q :: s != "" && c !in s
    requires Join(p, [c]) == Join(q, [c])
    ensures p == q
  {
    JoinShape(p, c);
    JoinShape(q, c);
    if |p| >= 2 {
      assert p[0] in p && q[0] in q;
      assert forall s | s in p[1..] :: s in p;
      assert forall s | s in q[1..] :: s in q;
      FirstSeparator(p[0], Join(p[1..], [c]), q[0], Join(q[1..], [c]), c);
      JoinIsInjective(p[1..], q[1..], c);
      assert p == [p[0]] + p[1..] && q == [q[0]] + q[1..];
    }
  }

  lemma {:induction false} JoinHasNo(parts: seq<string>, sep: string, c: char)
    requires c !in sep && forall s | s in parts :: c !in s
    ensures c !in Join(parts, sep)
  {
    if |parts| > 1 {
      JoinHasNo(parts[1..], sep, c);
    }
  }

  // ----- Decimal printing (fmt's %d) -----

  function Digit(d: nat): char
    requires d < 10
  {
    ('0' as int + d) as char
  }

  function Digits(n: nat): string {
    if n < 10 then [Digit(n)] else Digits(n / 10) + [Digit(n % 10)]
  }

  function Itoa(n: int): string {
    if n < 0 then "-" + Digits(-n) else Digits(n)
  }

  lemma {:induction false} DigitsAreDigits(n: nat)
    ensures Digits(n) != "" && forall c | c in Digits(n) :: '0' <= c <= '9'
  {
    if n >= 10 {
      DigitsAreDigits(n / 10);
    }
  }

  lemma {:induction false} DigitsInjective(m: nat, n: nat)
    requires Digits(m) == Digits(n)
    ensures m == n
  {
    DigitsAreDigits(m / 10);
    DigitsAreDigits(n / 10);
    var t := Digits(m);
    assert t[|t| - 1] == Digit(m % 10) == Digit(n % 10);
    if m >= 10 && n >= 10 {
      assert t[..|t| - 1] == Digits(m / 10) && t[..|t| - 1] == Digits(n / 10);
      DigitsInjective(m / 10, n / 10);
    }
  }

  lemma ItoaSign(n: int)
    ensures Itoa(n) != "" && (Itoa(n)[0] == '-' <==> n < 0)
    ensures forall c | c in Itoa(n) :: c == '-' || '0' <= c <= '9'
  {
    var k := if n < 0 then -n else n;
    DigitsAreDigits(k);
    assert Digits(k)[0] in Digits(k);
  }

  lemma ItoaInjective(m: int, n: int)
    requires Itoa(m) == Itoa(n)
    ensures m == n
  {
    ItoaSign(m);
    ItoaSign(n);
    if m < 0 {
      PrefixCancels("-", Digits(-m), Digits(-n));
      DigitsInjective(-m, -n);
    } else {
      DigitsInjective(m, n);
    }
  }

  // ----- Case folding, trimming and safe names -----

  function LowerChar(c: char): char {
    if 'A' <= c <= 'Z' then ('a' as int + (c as int - 'A' as int)) as char else c
  }

  function Lower(s: string): (r: string)
    ensures |r| == |s|
  {
    seq(|s|, i requires 0 <= i < |s| => LowerChar(s[i]))
  }

  predicate EqualFold(s: string, t: string) {
    Lower(s) == Lower(t)
  }

  /** Equal, or an upper-case letter and the same letter in lower case. */
  predicate SameLetter(c: char, d: char) {
    c == d || ('A' <= c <= 'Z' && d as int == c as int + 32) || ('A' <= d <= 'Z' && c as int == d as int + 32)
  }

  lemma FoldMeans(s: string, t: string)
    ensures EqualFold(s, t) <==> |s| == |t| && forall i | 0 <= i < |s| :: SameLetter(s[i], t[i])
  {
    if EqualFold(s, t) {
      assert forall i | 0 <= i < |s| :: LowerChar(s[i]) == Lower(s)[i] == Lower(t)[i] == LowerChar(t[i]);
    }
  }

  function TrimLeft(s: string, cut: set<char>): string {
    if s != "" && s[0] in cut then TrimLeft(s[1..], cut) else s
  }

  function TrimRight(s: string, cut: set<char>): string {
    if s != "" && s[|s| - 1] in cut then TrimRight(s[..|s| - 1], cut) else s
  }

  const WHITE := {' ', '\t', '\n', '\r'}

  /** strings.TrimSpace */
  function TrimSpace(s: string): string {
    TrimRight(TrimLeft(s, WHITE), WHITE)
  }

  lemma {:induction false} TrimKeepsCharacters(s: string, cut: set<char>)
    ensures forall c | c in TrimLeft(s, cut) :: c in s
    ensures forall c | c in TrimRight(s, cut) :: c in s
    decreases |s|
  {
    if s != "" {
      TrimKeepsCharacters(s[1..], cut);
      TrimKeepsCharacters(s[..|s| - 1], cut);
    }
  }

  lemma {:induction false} TrimLeftMeans(s: string, cut: set<char>) returns (i: nat)
    ensures i <= |s| && TrimLeft(s, cut) == s[i..] && (forall k | 0 <= k < i :: s[k] in cut) && (i < |s| ==> s[i] !in cut)
  {
    i := 0;
    if s != "" && s[0] in cut {
      i := TrimLeftMeans(s[1..], cut);
      i := i + 1;
    }
  }

  lemma {:induction false} TrimRightMeans(s: string, cut: set<char>) returns (j: nat)
    ensures j <= |s| && TrimRight(s, cut) == s[..j] && (forall k | j <= k < |s| :: s[k] in cut) && (j > 0 ==> s[j - 1] !in cut)
  {
    j := |s|;
    if s != "" && s[|s| - 1] in cut {
      j := TrimRightMeans(s[..|s| - 1], cut);
    }
  }

  /** Trimming leaves the part between the first and the last character that is not to be cut. */
  lemma TrimMeans(s: string, cut: set<char>) returns (i: nat, j: nat)
    ensures i <= j <= |s| && TrimRight(TrimLeft(s, cut), cut) == s[i..j]
    ensures forall k | 0 <= k < i || j <= k < |s| :: s[k] in cut
    ensures i < j ==> s[i] !in cut && s[j - 1] !in cut
  {
    i := TrimLeftMeans(s, cut);
    j := TrimRightMeans(s[i..], cut);
    assert s[i..][..j] == s[i..i + j];
    assert forall k | j <= k < |s| - i :: s[i + k] == s[i..][k];
    assert forall k | i + j <= k < |s| :: s[k] == s[i..][k - i];
    j := i + j;
  }

  lemma TrimTwice(s: string)
    ensures TrimSpace(TrimSpace(s)) == TrimSpace(s)
  {
    var i, j := TrimMeans(s, WHITE);
  }

  predicate NameChar(c: char) {
    'a' <= c <= 'z' || '0' <= c <= '9' || c == '-'
  }

  function Dashed(s: string): (r: string)
    ensures |r| == |s|
  {
    seq(|s|, i requires 0 <= i < |s| => if NameChar(s[i]) then s[i] else '-')
  }

  /** safeName in pkg/ingress/builder.go: lower-case letters, digits and dashes, never empty. */
  function SafeName(s: string): string {
    var t := TrimSpace(Lower(s));
    if t == "" then "x"
    else
      var out := TrimRight(TrimLeft(Dashed(t), {'-'}), {'-'});
      if out == "" then "x" else out
  }

  method BuildSafeName(s: string) returns (r: string)
    ensures r == SafeName(s)
  {
    var t := TrimSpace(Lower(s));
    if t == "" {
      return "x";
    }
    var b := "";
    for i := 0 to |t|
      invariant b == Dashed(t)[..i]
    {
      if NameChar(t[i]) {
        b := b + [t[i]];
      } else {
        b := b + "-";
      }
    }
    assert b == Dashed(t);
    var out := TrimRight(TrimLeft(b, {'-'}), {'-'});
    if out == "" {
      return "x";
    }
    r := out;
  }

  predicate Alphanumeric(c: char) {
    'a' <= c <= 'z' || '0' <= c <= '9'
  }

  /** A safe name is the lower-case text from its first letter or digit to its last, with dashes for all that is neither; without
      any it is an x. */
  lemma SafeNameMeans(s: string) returns (i: nat, j: nat)
    ensures i <= j <= |s| && forall k | 0 <= k < i || j <= k < |s| :: !Alphanumeric(Lower(s)[k])
    ensures i < j ==>
              && |SafeName(s)| == j - i && Alphanumeric(Lower(s)[i]) && Alphanumeric(Lower(s)[j - 1])
              && forall k | 0 <= k < j - i :: SafeName(s)[k] == if Alphanumeric(Lower(s)[i + k]) then Lower(s)[i + k] else '-'
    ensures i == j ==> SafeName(s) == "x"
  {
    hide Lower, TrimLeft, TrimRight;
    var a, b := TrimMeans(Lower(s), WHITE);
    var t := Lower(s)[a..b];
    var c, d := TrimMeans(Dashed(t), {'-'});
    assert forall k | 0 <= k < |t| :: t[k] == Lower(s)[a + k];
    i, j := a + c, a + d;
    forall k | 0 <= k < i || j <= k < |s| ensures !Alphanumeric(Lower(s)[k]) {
      if a <= k < b {
        assert Dashed(t)[k - a] == '-' && t[k - a] == Lower(s)[k];
      }
    }
  }

  /** A safe name never contains the separator of graph keys. */
  lemma SafeNamesAreSafe(s: string)
    ensures SafeName(s) != "" && forall c | c in SafeName(s) :: NameChar(c)
  {
    var d := Dashed(TrimSpace(Lower(s)));
    TrimKeepsCharacters(d, {'-'});
    TrimKeepsCharacters(TrimLeft(d, {'-'}), {'-'});
  }
}
