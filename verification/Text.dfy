/** The few string operations of Go's `strings` and `sort` packages the controller relies on. */
module Text {

  function Split(s: string, sep: char): (parts: seq<string>)
    ensures |parts| >= 1
  {
    if s == "" then [""]
    else
      var rest := Split(s[1..], sep);
      if s[0] == sep then [""] + rest else [[s[0]] + rest[0]] + rest[1..]
  }

  function Join(parts: seq<string>, sep: char): string {
    if |parts| == 0 then ""
    else if |parts| == 1 then parts[0]
    else parts[0] + [sep] + Join(parts[1..], sep)
  }

  function TrimRight(s: string, c: char): string {
    if s != "" && s[|s| - 1] == c then TrimRight(s[..|s| - 1], c) else s
  }

  // Every part followed by the separator, the way a loop of `snaps = snaps + name + ","` builds it.
  function Terminated(parts: seq<string>, sep: char): string {
    if parts == [] then ""
    else Terminated(parts[..|parts| - 1], sep) + parts[|parts| - 1] + [sep]
  }

  ghost predicate AllFree(parts: seq<string>, sep: char) {
    forall i | 0 <= i < |parts| :: sep !in parts[i]
  }

  /* ---- Split and Join are inverse ---- */

  lemma {:induction false} SplitFree(a: string, sep: char)
    requires sep !in a
    ensures Split(a, sep) == [a]
  {
    if a != "" {
      SplitFree(a[1..], sep);
      assert [a[0]] + a[1..] == a;
    }
  }

  lemma {:induction false} SplitFirst(a: string, b: string, sep: char)
    requires sep !in a
    ensures Split(a + [sep] + b, sep) == [a] + Split(b, sep)
  {
    var s := a + [sep] + b;
    if a == "" {
      assert s[1..] == b;
    } else {
      assert s[1..] == a[1..] + [sep] + b;
      SplitFirst(a[1..], b, sep);
      assert [a[0]] + a[1..] == a;
    }
  }

  lemma {:induction false} SplitJoin(parts: seq<string>, sep: char)
    requires |parts| >= 1 && AllFree(parts, sep)
    ensures Split(Join(parts, sep), sep) == parts
  {
    if |parts| == 1 {
      SplitFree(parts[0], sep);
    } else {
      SplitJoin(parts[1..], sep);
      SplitFirst(parts[0], Join(parts[1..], sep), sep);
      assert [parts[0]] + parts[1..] == parts;
    }
  }

  lemma {:induction false} JoinSplit(s: string, sep: char)
    ensures Join(Split(s, sep), sep) == s
    ensures AllFree(Split(s, sep), sep)
  {
    if s != "" {
      var rest := Split(s[1..], sep);
      JoinSplit(s[1..], sep);
      assert [s[0]] + s[1..] == s;
      if s[0] == sep {
        assert ([""] + rest)[1..] == rest;
      } else {
        var parts := [[s[0]] + rest[0]] + rest[1..];
        assert parts[1..] == rest[1..];
      }
    }
  }

  lemma {:induction false} JoinSnoc(parts: seq<string>, last: string, sep: char)
    requires |parts| >= 1
    ensures Join(parts + [last], sep) == Join(parts, sep) + [sep] + last
  {
    var all := parts + [last];
    if |parts| == 1 {
      assert all[1..] == [last];
    } else {
      assert all[1..] == parts[1..] + [last];
      JoinSnoc(parts[1..], last, sep);
    }
  }

  /* ---- The member list as it is written, trimmed and read back ---- */

  lemma {:induction false} TerminatedIsJoin(parts: seq<string>, sep: char)
    requires |parts| >= 1
    ensures Terminated(parts, sep) == Join(parts, sep) + [sep]
  {
    var n := |parts| - 1;
    assert parts == parts[..n] + [parts[n]];
    if n == 0 {
      assert Terminated(parts, sep) == Terminated([], sep) + parts[0] + [sep];
    } else {
      TerminatedIsJoin(parts[..n], sep);
      JoinSnoc(parts[..n], parts[n], sep);
    }
  }

  lemma {:induction false} JoinEndsWithLast(parts: seq<string>, sep: char)
    requires |parts| >= 1 && parts[|parts| - 1] != ""
    ensures var s := Join(parts, sep); s != "" && s[|s| - 1] == parts[|parts| - 1][|parts[|parts| - 1]| - 1]
  {
    if |parts| > 1 {
      JoinEndsWithLast(parts[1..], sep);
    }
  }

  // Trimming the built list and splitting it gives the members back; splitting it
  // untrimmed gives the members and one empty name.
  lemma MemberListRoundTrip(names: seq<string>, sep: char)
    requires |names| >= 1 && AllFree(names, sep) && names[|names| - 1] != ""
    ensures TrimRight(Terminated(names, sep), sep) == Join(names, sep)
    ensures Split(TrimRight(Terminated(names, sep), sep), sep) == names
    ensures Split(Terminated(names, sep), sep) == names + [""]
  {
    var last := names[|names| - 1];
    var s := Join(names, sep);
    TerminatedIsJoin(names, sep);
    JoinEndsWithLast(names, sep);
    assert last[|last| - 1] in last;
    assert (s + [sep])[..|s|] == s;
    SplitJoin(names, sep);
    JoinSnoc(names, "", sep);
    assert Join(names + [""], sep) == Terminated(names, sep);
    SplitJoin(names + [""], sep);
  }

  /* ---- Tokens of composed identifiers ---- */

  function Last(parts: seq<string>): string
    requires |parts| >= 1
  {
    parts[|parts| - 1]
  }

  lemma {:induction false} LastToken(prefix: string, token: string, sep: char)
    requires sep !in token
    ensures Last(Split(prefix + [sep] + token, sep)) == token
  {
    var s := prefix + [sep] + token;
    if prefix == "" {
      assert s[1..] == token;
      SplitFree(token, sep);
    } else {
      assert s[1..] == prefix[1..] + [sep] + token;
      LastToken(prefix[1..], token, sep);
      LongSplit(prefix[1..], token, sep);
    }
  }

  lemma {:induction false} LongSplit(a: string, b: string, sep: char)
    ensures |Split(a + [sep] + b, sep)| >= 2
  {
    var s := a + [sep] + b;
    if a == "" {
      assert s[1..] == b;
    } else {
      assert s[1..] == a[1..] + [sep] + b;
      LongSplit(a[1..], b, sep);
    }
  }

  /* ---- Sorting ---- */

  // Go compares strings byte by byte, which on UTF-8 is the order of the characters.
  predicate LessEq(a: string, b: string) {
    a == "" || (b != "" && (a[0] < b[0] || (a[0] == b[0] && LessEq(a[1..], b[1..]))))
  }

  lemma {:induction false} LessEqTotal(a: string, b: string)
    ensures LessEq(a, b) || LessEq(b, a)
  {
    if a != "" && b != "" { LessEqTotal(a[1..], b[1..]); }
  }

  lemma {:induction false} LessEqAntisymmetric(a: string, b: string)
    requires LessEq(a, b) && LessEq(b, a)
    ensures a == b
  {
    if a != "" {
      LessEqAntisymmetric(a[1..], b[1..]);
      assert a == [a[0]] + a[1..] && b == [b[0]] + b[1..];
    }
  }

  lemma {:induction false} LessEqTransitive(a: string, b: string, c: string)
    requires LessEq(a, b) && LessEq(b, c)
    ensures LessEq(a, c)
  {
    if a != "" && a[0] == b[0] == c[0] { LessEqTransitive(a[1..], b[1..], c[1..]); }
  }

  // Where two strings part, the smaller one has the smaller character; a beginning comes first.
  ghost predicate PartsBelow(a: string, b: string, k: nat) {
    k < |a| && k < |b| && a[..k] == b[..k] && a[k] < b[k]
  }

  ghost predicate NotAfter(a: string, b: string) { a <= b || exists k: nat :: PartsBelow(a, b, k) }

  lemma {:induction false} LessEqMeans(a: string, b: string)
    ensures LessEq(a, b) <==> NotAfter(a, b)
  {
    if a != "" && b != "" {
      LessEqMeans(a[1..], b[1..]);
      assert a == [a[0]] + a[1..] && b == [b[0]] + b[1..];
      if a[0] < b[0] { assert PartsBelow(a, b, 0); }
      if a[0] == b[0] && LessEq(a[1..], b[1..]) && !(a[1..] <= b[1..]) {
        var k: nat :| PartsBelow(a[1..], b[1..], k);
        assert a[..k + 1] == [a[0]] + a[1..][..k] && b[..k + 1] == [b[0]] + b[1..][..k];
        assert PartsBelow(a, b, k + 1);
      }
      if k: nat :| PartsBelow(a, b, k) {
        if k > 0 {
          assert a[..k][0] == b[..k][0];
          assert a[1..][..k - 1] == a[..k][1..] && b[1..][..k - 1] == b[..k][1..];
          assert PartsBelow(a[1..], b[1..], k - 1);
        }
      }
      if a <= b { assert a[1..] <= b[1..]; }
    }
  }

  ghost predicate Sorted(xs: seq<string>) {
    forall i, j | 0 <= i < j < |xs| :: LessEq(xs[i], xs[j])
  }

  function Insert(x: string, xs: seq<string>): seq<string> {
    if xs == [] then [x]
    else if LessEq(x, xs[0]) then [x] + xs
    else [xs[0]] + Insert(x, xs[1..])
  }

  function Sort(xs: seq<string>): seq<string> {
    if xs == [] then [] else Insert(xs[0], Sort(xs[1..]))
  }

  lemma {:induction false} InsertSorts(x: string, xs: seq<string>)
    requires Sorted(xs)
    ensures Sorted(Insert(x, xs))
    ensures multiset(Insert(x, xs)) == multiset(xs) + multiset{x}
  {
    if xs == [] {
    } else if LessEq(x, xs[0]) {
      forall j | 0 <= j < |xs| ensures LessEq(x, xs[j]) {
        if j > 0 { LessEqTransitive(x, xs[0], xs[j]); }
      }
    } else {
      assert xs == [xs[0]] + xs[1..];
      var rest := Insert(x, xs[1..]);
      InsertSorts(x, xs[1..]);
      LessEqTotal(x, xs[0]);
      forall j | 0 <= j < |rest| ensures LessEq(xs[0], rest[j]) {
        assert rest[j] in multiset(rest);
        assert rest[j] == x || rest[j] in multiset(xs[1..]);
        if rest[j] != x {
          assert rest[j] in xs[1..];
        }
      }
    }
  }

  lemma {:induction false} SortSorts(xs: seq<string>)
    ensures Sorted(Sort(xs)) && multiset(Sort(xs)) == multiset(xs)
  {
    if xs != [] {
      assert xs == [xs[0]] + xs[1..];
      SortSorts(xs[1..]);
      InsertSorts(xs[0], Sort(xs[1..]));
    }
  }

  lemma HeadIsLeast(a: seq<string>, x: string)
    requires Sorted(a) && x in a
    ensures LessEq(a[0], x)
  {
    LessEqTotal(x, x);
  }

  lemma HeadsAgree(a: seq<string>, b: seq<string>)
    requires Sorted(a) && Sorted(b) && multiset(a) == multiset(b) && a != [] && b != []
    ensures a[0] == b[0]
  {
    hide Sorted, LessEq;
    assert a[0] in multiset(b) && b[0] in multiset(a);
    HeadIsLeast(a, b[0]);
    HeadIsLeast(b, a[0]);
    LessEqAntisymmetric(a[0], b[0]);
  }

  lemma SortedTail(a: seq<string>)
    requires Sorted(a) && a != []
    ensures Sorted(a[1..]) && multiset(a[1..]) == multiset(a) - multiset{a[0]}
  {
    hide LessEq;
    assert a == [a[0]] + a[1..];
  }

  lemma {:induction false} SortedIsUnique(a: seq<string>, b: seq<string>)
    requires Sorted(a) && Sorted(b) && multiset(a) == multiset(b)
    ensures a == b
  {
    hide Sorted, LessEq;
    if a == [] || b == [] {
      assert |multiset(a)| == |multiset(b)|;
    } else {
      HeadsAgree(a, b);
      SortedTail(a);
      SortedTail(b);
      SortedIsUnique(a[1..], b[1..]);
      assert a == [a[0]] + a[1..] && b == [b[0]] + b[1..];
    }
  }

  // Sorting forgets the order: one list for every arrangement of the same elements.
  lemma SortIsCanonical(a: seq<string>, b: seq<string>)
    requires multiset(a) == multiset(b)
    ensures Sort(a) == Sort(b)
  {
    SortSorts(a);
    SortSorts(b);
    SortedIsUnique(Sort(a), Sort(b));
  }
}
