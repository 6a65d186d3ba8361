/** String building blocks shared by the emitters: separator joins and decimal rendering. */
module Text {

  /** The parts with `sep` between consecutive parts and nowhere else, built the way the
      generator's loops build it: left to right, one part at a time. */
  function Join(parts: seq<string>, sep: string): string
    decreases |parts|
  {
    if |parts| == 0 then ""
    else if |parts| == 1 then parts[0]
    else Join(parts[..|parts| - 1], sep) + sep + parts[|parts| - 1]
  }

  /** Concatenation regroups freely; stated once, generically, so that callers holding long
      emitted texts need not compare them element by element. */
  lemma AppendAssoc<T>(a: seq<T>, b: seq<T>, c: seq<T>)
    ensures (a + b) + c == a + (b + c)
  {
  }

  /** Three pieces written one after the other: the whole is their concatenation. */
  lemma ThreeSteps<T>(s0: seq<T>, s1: seq<T>, s2: seq<T>, s3: seq<T>, a: seq<T>, b: seq<T>, c: seq<T>)
    requires s1 == s0 + a && s2 == s1 + b && s3 == s2 + c
    ensures s3 == s0 + (a + b + c)
  {
  }

  /** Four pieces written one after the other: the whole is their concatenation. */
  lemma FourSteps<T>(s0: seq<T>, s1: seq<T>, s2: seq<T>, s3: seq<T>, s4: seq<T>,
                     a: seq<T>, b: seq<T>, c: seq<T>, d: seq<T>)
    requires s1 == s0 + a && s2 == s1 + b && s3 == s2 + c && s4 == s3 + d
    ensures s4 == s0 + (a + b + c + d)
  {
  }

  /** Five pieces written one after the other: the whole is their concatenation. */
  lemma FiveSteps<T>(s0: seq<T>, s1: seq<T>, s2: seq<T>, s3: seq<T>, s4: seq<T>, s5: seq<T>,
                     a: seq<T>, b: seq<T>, c: seq<T>, d: seq<T>, e: seq<T>)
    requires s1 == s0 + a && s2 == s1 + b && s3 == s2 + c && s4 == s3 + d && s5 == s4 + e
    ensures s5 == s0 + (a + b + c + d + e)
  {
  }

  /** Three lines written one after the other. */
  lemma ThreeLines<T>(s0: seq<T>, s1: seq<T>, s2: seq<T>, s3: seq<T>, x: T, y: T, z: T)
    requires s1 == s0 + [x] && s2 == s1 + [y] && s3 == s2 + [z]
    ensures s3 == s0 + [x, y, z]
  {
  }

  /** A block, then a middle part, then two lines: the whole is their concatenation. */
  lemma Framed<T>(s0: seq<T>, s1: seq<T>, s2: seq<T>, s3: seq<T>, s4: seq<T>, head: seq<T>, body: seq<T>, x: T, y: T)
    requires s1 == s0 + head && s2 == s1 + body && s3 == s2 + [x] && s4 == s3 + [y]
    ensures s4 == s0 + (head + body + [x, y])
  {
  }

  /** Where the two halves of a concatenation sit in it. */
  lemma TwoBlocks<T>(a: seq<T>, b: seq<T>)
    ensures |a + b| == |a| + |b|
    ensures forall i :: 0 <= i < |a| ==> (a + b)[i] == a[i]
    ensures forall i :: 0 <= i < |b| ==> (a + b)[|a| + i] == b[i]
    ensures forall k :: 0 <= k <= |a| ==> (a + b)[..k] == a[..k]
    ensures (a + b)[|a|..] == b
  {
  }

  /** Where each of five consecutive blocks sits in their concatenation. */
  lemma FiveBlocks<T>(a: seq<T>, b: seq<T>, c: seq<T>, d: seq<T>, e: seq<T>)
    ensures |a + b + c + d + e| == |a| + |b| + |c| + |d| + |e|
    ensures forall i :: 0 <= i < |b| ==> (a + b + c + d + e)[|a| + i] == b[i]
    ensures forall i :: 0 <= i < |c| ==> (a + b + c + d + e)[|a| + |b| + i] == c[i]
    ensures forall i :: 0 <= i < |d| ==> (a + b + c + d + e)[|a| + |b| + |c| + i] == d[i]
    ensures (a + b + c + d + e)[|a| + |b| + |c| + |d|..] == e
  {
  }

  /** Sum of the lengths of the parts. */
  function TotalLength(parts: seq<string>): nat
    decreases |parts|
  {
    if parts == [] then 0 else TotalLength(parts[..|parts| - 1]) + |parts[|parts| - 1]|
  }

  /** Joining from the front gives the same text: the first part, one separator, the rest joined. */
  lemma {:induction false} JoinCons(p: string, parts: seq<string>, sep: string)
    requires parts != []
    ensures Join([p] + parts, sep) == p + sep + Join(parts, sep)
    decreases |parts|
  {
    if |parts| == 1 {
      assert [p] + parts == [p, parts[0]];
    } else {
      var n := |parts|;
      assert ([p] + parts)[..n] == [p] + parts[..n - 1];
      JoinCons(p, parts[..n - 1], sep);
    }
  }

  /** There is exactly one separator between consecutive parts, and none before the first or after
      the last: the joined text is as long as the parts plus |parts| - 1 separators. */
  lemma {:induction false} JoinLength(parts: seq<string>, sep: string)
    requires parts != []
    ensures |Join(parts, sep)| == TotalLength(parts) + (|parts| - 1) * |sep|
    decreases |parts|
  {
    if |parts| > 1 {
      JoinLength(parts[..|parts| - 1], sep);
      assert parts[..|parts| - 1][..|parts| - 2] == parts[..|parts| - 2];
    } else {
      assert parts[..0] == [];
    }
  }

  /** A joined text ends with its last part: nothing follows the last part. */
  lemma JoinEndsWithLast(parts: seq<string>, sep: string)
    requires parts != []
    ensures var j, last := Join(parts, sep), parts[|parts| - 1]; |last| <= |j| && j[|j| - |last|..] == last
  {
  }

  /** The character of a decimal digit. */
  function DigitChar(d: nat): (c: char)
    requires d < 10
    ensures '0' <= c <= '9' && c as int - '0' as int == d
  {
    ('0' as int + d) as char
  }

  /** Decimal rendering of an unsigned counter, as std::to_string gives it. */
  function NatToString(n: nat): (s: string)
    ensures |s| >= 1
    ensures n >= 10 ==> |s| >= 2
    ensures forall i :: 0 <= i < |s| ==> '0' <= s[i] <= '9'
    decreases n
  {
    if n < 10 then [DigitChar(n)] else NatToString(n / 10) + [DigitChar(n % 10)]
  }

  /** Different counters render differently, so generated argument names never collide. */
  lemma {:induction false} NatToStringInjective(a: nat, b: nat)
    requires NatToString(a) == NatToString(b)
    ensures a == b
    decreases a
  {
    var s := NatToString(a);
    if a < 10 && b < 10 {
      assert DigitChar(a) == s[0] == DigitChar(b);
    } else if a >= 10 && b >= 10 {
      var sa, sb := NatToString(a / 10), NatToString(b / 10);
      assert s == sa + [DigitChar(a % 10)] == sb + [DigitChar(b % 10)];
      assert |sa| == |sb|;
      assert sa == s[..|s| - 1] == sb;
      assert DigitChar(a % 10) == s[|s| - 1] == DigitChar(b % 10);
      NatToStringInjective(a / 10, b / 10);
    }
  }
}
