/** Facts about separators in text, and byte-wise order. */
module Text {
  /** Two texts that are cut at their first separator agree exactly when both parts do. */
  lemma FirstSeparator(c: char, head1: string, tail1: string, head2: string, tail2: string)
    requires c !in head1 && c !in head2
    ensures head1 + [c] + tail1 == head2 + [c] + tail2 <==> head1 == head2 && tail1 == tail2
  {
    var s1, s2 := head1 + [c] + tail1, head2 + [c] + tail2;
    assert s1[|head1|] == c && s2[|head2|] == c;
    assert forall i :: 0 <= i < |head1| ==> s1[i] == head1[i];
    assert forall i :: 0 <= i < |head2| ==> s2[i] == head2[i];
    if s1 == s2 {
      assert head1 == s1[..|head1|] && head2 == s2[..|head2|];
      assert tail1 == s1[|head1| + 1..] && tail2 == s2[|head2| + 1..];
    }
  }

  function Occurrences(c: char, s: string): nat {
    if s == "" then 0 else Occurrences(c, s[..|s| - 1]) + if s[|s| - 1] == c then 1 else 0
  }

  lemma {:induction false} PrefixHasFewer(c: char, s: string, k: nat)
    requires k <= |s|
    ensures Occurrences(c, s[..k]) <= Occurrences(c, s)
  {
    if k == |s| {
      assert s[..k] == s;
    } else {
      assert s[..|s| - 1][..k] == s[..k];
      PrefixHasFewer(c, s[..|s| - 1], k);
    }
  }

  /** Heads with equally many separators end at the same place. */
  lemma CountedSeparator(c: char, head1: string, tail1: string, head2: string, tail2: string)
    requires Occurrences(c, head1) == Occurrences(c, head2)
    ensures head1 + [c] + tail1 == head2 + [c] + tail2 <==> head1 == head2 && tail1 == tail2
  {
    if head1 + [c] + tail1 == head2 + [c] + tail2 {
      if |head1| == |head2| {
        assert head1 == (head1 + [c] + tail1)[..|head1|] == head2;
        assert tail1 == (head1 + [c] + tail1)[|head1| + 1..] == tail2;
      } else if |head1| < |head2| {
        ShorterHead(c, head1, tail1, head2, tail2);
      } else {
        ShorterHead(c, head2, tail2, head1, tail1);
      }
    }
  }

  lemma ShorterHead(c: char, head1: string, tail1: string, head2: string, tail2: string)
    requires head1 + [c] + tail1 == head2 + [c] + tail2 && |head1| < |head2|
    ensures Occurrences(c, head1) < Occurrences(c, head2)
  {
    var k := |head1| + 1;
    assert head2[..k] == (head1 + [c] + tail1)[..k] == head1 + [c];
    assert (head1 + [c])[..|head1|] == head1;
    PrefixHasFewer(c, head2, k);
  }

  /** Byte-wise order of Go strings. */
  predicate LessEq(a: string, b: string) {
    a == "" || (b != "" && (a[0] < b[0] || (a[0] == b[0] && LessEq(a[1..], b[1..]))))
  }

  lemma {:induction false} LessEqTotal(a: string, b: string)
    ensures LessEq(a, b) || LessEq(b, a)
  {
    if a != "" && b != "" { LessEqTotal(a[1..], b[1..]); }
  }

  lemma {:induction false} LessEqAntisymmetric(a: string, b: string)
    requires LessEq(a, b) && LessEq(b, a)
    ensures a == b
  {
    if a != "" {
      LessEqAntisymmetric(a[1..], b[1..]);
      assert a == [a[0]] + a[1..] && b == [b[0]] + b[1..];
    }
  }

  lemma {:induction false} LessEqTransitive(a: string, b: string, c: string)
    requires LessEq(a, b) && LessEq(b, c)
    ensures LessEq(a, c)
  {
    if a != "" && a[0] == b[0] == c[0] { LessEqTransitive(a[1..], b[1..], c[1..]); }
  }

  ghost predicate Sorted(s: seq<string>) { forall i, j :: 0 <= i < j < |s| ==> LessEq(s[i], s[j]) }

  function Insert(x: string, s: seq<string>): seq<string> {
    if s == [] || LessEq(x, s[0]) then [x] + s else [s[0]] + Insert(x, s[1..])
  }

  function Sort(s: seq<string>): seq<string> {
    if s == [] then [] else Insert(s[0], Sort(s[1..]))
  }

  lemma {:induction false} InsertKeepsElements(x: string, s: seq<string>)
    ensures multiset(Insert(x, s)) == multiset(s) + multiset{x}
  {
    if s != [] {
      assert s == [s[0]] + s[1..];
      if !LessEq(x, s[0]) { InsertKeepsElements(x, s[1..]); }
    }
  }

  lemma {:induction false} InsertKeepsOrder(x: string, s: seq<string>)
    requires Sorted(s)
    ensures Sorted(Insert(x, s))
  {
    if s != [] {
      if LessEq(x, s[0]) {
        forall j | 0 <= j < |s| ensures LessEq(x, s[j]) {
          if j > 0 { LessEqTransitive(x, s[0], s[j]); }
        }
      } else {
        LessEqTotal(x, s[0]);
        InsertKeepsOrder(x, s[1..]);
        InsertKeepsElements(x, s[1..]);
        var rest := Insert(x, s[1..]);
        forall j | 0 <= j < |rest| ensures LessEq(s[0], rest[j]) {
          assert rest[j] in multiset(rest);
          if rest[j] != x {
            assert rest[j] in multiset(s[1..]);
            var k :| 0 <= k < |s[1..]| && s[1..][k] == rest[j];
            assert s[k + 1] == rest[j];
          }
        }
      }
    }
  }

  lemma {:induction false} SortSorts(s: seq<string>)
    ensures Sorted(Sort(s)) && multiset(Sort(s)) == multiset(s)
  {
    if s != [] {
      SortSorts(s[1..]);
      InsertKeepsElements(s[0], Sort(s[1..]));
      InsertKeepsOrder(s[0], Sort(s[1..]));
      assert s == [s[0]] + s[1..];
    }
  }

  lemma SortedFirsts(a: seq<string>, b: seq<string>)
    requires Sorted(a) && Sorted(b) && multiset(a) == multiset(b) && a != [] && b != []
    ensures LessEq(a[0], b[0]) && a[0] == b[0]
  {
    assert b[0] in multiset(a) && a[0] in multiset(b);
    var i :| 0 <= i < |b| && b[i] == a[0];
    var j :| 0 <= j < |a| && a[j] == b[0];
    LessEqTotal(a[0], a[0]);
    assert LessEq(a[0], a[j]) && LessEq(b[0], b[i]);
    LessEqAntisymmetric(a[0], b[0]);
  }

  lemma DropFirst(a: seq<string>)
    requires a != []
    ensures multiset(a[1..]) == multiset(a) - multiset{a[0]}
    ensures Sorted(a) ==> Sorted(a[1..])
  {
    assert a == [a[0]] + a[1..];
  }

  /** A multiset has one sorted listing. */
  lemma {:induction false} SortedIsUnique(a: seq<string>, b: seq<string>)
    requires Sorted(a) && Sorted(b) && multiset(a) == multiset(b)
    ensures a == b
  {
    assert |a| == |multiset(a)| == |multiset(b)| == |b|;
    if a != [] {
      SortedFirsts(a, b);
      DropFirst(a);
      DropFirst(b);
      hide Sorted;
      SortedIsUnique(a[1..], b[1..]);
      assert a == [a[0]] + a[1..] && b == [b[0]] + b[1..];
    }
  }

  function Join(parts: seq<string>, sep: char): string {
    if parts == [] then "" else if |parts| == 1 then parts[0] else parts[0] + [sep] + Join(parts[1..], sep)
  }

  predicate Plain(parts: seq<string>, sep: char) {
    forall i :: 0 <= i < |parts| ==> parts[i] != "" && sep !in parts[i]
  }

  /** Joining non-empty parts without the separator loses nothing. */
  lemma {:induction false} JoinInjective(a: seq<string>, b: seq<string>, sep: char)
    requires Plain(a, sep) && Plain(b, sep)
    ensures Join(a, sep) == Join(b, sep) <==> a == b
  {
    if |a| >= 2 { assert Join(a, sep)[|a[0]|] == sep; }
    if |b| >= 2 { assert Join(b, sep)[|b[0]|] == sep; }
    if |a| >= 2 && |b| >= 2 {
      FirstSeparator(sep, a[0], Join(a[1..], sep), b[0], Join(b[1..], sep));
      JoinInjective(a[1..], b[1..], sep);
      assert a == [a[0]] + a[1..] && b == [b[0]] + b[1..];
    } else if |a| == 1 && |b| == 1 {
      assert a == [a[0]] && b == [b[0]];
    }
  }
}
