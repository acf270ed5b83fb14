/** The order Go's strings.Compare puts on text, and sorting by a total order. */
module Ordering {

  predicate TextLe(a: string, b: string) {
    a == "" || (b != "" && (a[0] < b[0] || (a[0] == b[0] && TextLe(a[1..], b[1..]))))
  }

  lemma {:induction false} TextLeTotal(a: string, b: string)
    ensures TextLe(a, b) || TextLe(b, a)
    decreases |a|
  {
    if a != "" && b != "" {
      TextLeTotal(a[1..], b[1..]);
    }
  }

  lemma {:induction false} TextLeTransitive(a: string, b: string, c: string)
    requires TextLe(a, b) && TextLe(b, c)
    ensures TextLe(a, c)
    decreases |a|
  {
    if a != "" && a[0] == b[0] == c[0] {
      TextLeTransitive(a[1..], b[1..], c[1..]);
    }
  }

  lemma {:induction false} TextLeAntisymmetric(a: string, b: string)
    requires TextLe(a, b) && TextLe(b, a)
    ensures a == b
    decreases |a|
  {
    if a != "" {
      TextLeAntisymmetric(a[1..], b[1..]);
      assert a == [a[0]] + a[1..] && b == [b[0]] + b[1..];
    }
  }

  /** Ascending, and nothing twice. */
  predicate Ascending(s: seq<string>) {
    forall i, j :: 0 <= i < j < |s| ==> TextLe(s[i], s[j]) && s[i] != s[j]
  }

  lemma InsertAscending(x: string, s: seq<string>)
    requires Ascending(s)
    ensures Ascending(InsertUnique(x, s))
  {
    if s != [] && x != s[0] {
      TextLeTotal(x, s[0]);
      if TextLe(x, s[0]) {
        forall j | 0 <= j < |s| ensures TextLe(x, s[j]) && x != s[j] {
          if j > 0 {
            TextLeTransitive(x, s[0], s[j]);
            if x == s[j] {
              TextLeAntisymmetric(s[0], x);
            }
          }
        }
      } else {
        assert s == [s[0]] + s[1..];
        InsertAscending(x, s[1..]);
        var rest := InsertUnique(x, s[1..]);
        forall j | 0 <= j < |rest| ensures TextLe(s[0], rest[j]) && s[0] != rest[j] {
          assert rest[j] in rest;
          if rest[j] != x {
            var i :| 0 <= i < |s[1..]| && s[1..][i] == rest[j];
            assert s[i + 1] == rest[j];
          }
        }
      }
    }
  }

  /** Inserts into a duplicate-free ordered list, dropping an equal text. */
  function InsertUnique(x: string, s: seq<string>): (r: seq<string>)
    ensures forall y :: y in r <==> y == x || y in s
  {
    if s == [] then [x]
    else if x == s[0] then s
    else if TextLe(x, s[0]) then [x] + s
    else [s[0]] + InsertUnique(x, s[1..])
  }

  /** uniqueSortedStrings: sort, then drop equal neighbours. */
  function UniqueSorted(s: seq<string>): (r: seq<string>)
    ensures forall y :: y in r <==> y in s
  {
    if s == [] then [] else InsertUnique(s[0], UniqueSorted(s[1..]))
  }

  lemma {:induction false} UniqueSortedAscends(s: seq<string>)
    ensures Ascending(UniqueSorted(s))
  {
    if s != [] {
      UniqueSortedAscends(s[1..]);
      InsertAscending(s[0], UniqueSorted(s[1..]));
    }
  }
}
