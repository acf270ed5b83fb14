/** White space, words and prefixes of one line of text. */
module Words {

  predicate IsSpace(c: char) {
    c == ' ' || c == '\t' || c == '\n' || c == '\r' || c == 0x0B as char || c == 0x0C as char
  }

  lemma Spaces(c: char)
    ensures IsSpace(c) <==> c in ['\t', '\n', 0x0B as char, 0x0C as char, '\r', ' ']
  {
  }

  predicate NoSpace(s: string) {
    forall c :: c in s ==> !IsSpace(c)
  }

  predicate NoQuote(s: string) {
    '"' !in s && '\'' !in s
  }

  predicate IsWord(s: string) {
    s != "" && NoSpace(s)
  }

  predicate HasPrefix(s: string, p: string) {
    |p| <= |s| && s[..|p|] == p
  }

  predicate EndsWith(s: string, c: char) {
    s != "" && s[|s| - 1] == c
  }

  function TrimLeft(s: string): string {
    if s != "" && IsSpace(s[0]) then TrimLeft(s[1..]) else s
  }

  function TrimRight(s: string): string {
    if s != "" && IsSpace(s[|s| - 1]) then TrimRight(s[..|s| - 1]) else s
  }

  function Trim(s: string): string {
    TrimRight(TrimLeft(s))
  }

  /** No white space at either end. */
  predicate Tidy(s: string) {
    s == "" || (!IsSpace(s[0]) && !IsSpace(s[|s| - 1]))
  }

  lemma {:induction false} TrimLeftSuffix(s: string)
    ensures |TrimLeft(s)| <= |s| && TrimLeft(s) == s[|s| - |TrimLeft(s)|..]
    ensures TrimLeft(s) != "" ==> !IsSpace(TrimLeft(s)[0])
    ensures forall i :: 0 <= i < |s| - |TrimLeft(s)| ==> IsSpace(s[i])
    ensures forall c :: c in s && !IsSpace(c) ==> c in TrimLeft(s)
  {
    if s != "" && IsSpace(s[0]) {
      TrimLeftSuffix(s[1..]);
    }
  }

  lemma {:induction false} TrimRightPrefix(s: string)
    ensures |TrimRight(s)| <= |s| && TrimRight(s) == s[..|TrimRight(s)|]
    ensures TrimRight(s) != "" ==> !IsSpace(TrimRight(s)[|TrimRight(s)| - 1])
    ensures forall i :: |TrimRight(s)| <= i < |s| ==> IsSpace(s[i])
  {
    if s != "" && IsSpace(s[|s| - 1]) {
      TrimRightPrefix(s[..|s| - 1]);
    }
  }

  lemma TrimTidy(s: string)
    ensures Tidy(Trim(s)) && forall c :: c in Trim(s) ==> c in s
  {
    TrimLeftSuffix(s);
    TrimRightPrefix(TrimLeft(s));
  }

  lemma TidyTrims(s: string)
    requires Tidy(s)
    ensures Trim(s) == s
  {
  }

  /** Trimming does not touch an end that is not white space. */
  lemma TrimKeepsEnd(s: string)
    requires s != "" && !IsSpace(s[|s| - 1])
    ensures Trim(s) != "" && Trim(s)[|Trim(s)| - 1] == s[|s| - 1]
  {
    TrimLeftSuffix(s);
    assert s[|s| - 1] in s;
  }

  // ----- words -----

  /** The words of a text. */
  function Fields(s: string): (r: seq<string>)
    ensures forall i :: 0 <= i < |r| ==> IsWord(r[i])
    ensures s != "" && !IsSpace(s[0]) ==> r != []
  {
    if s == "" then []
    else if IsSpace(s[0]) then Fields(s[1..])
    else if |s| == 1 || IsSpace(s[1]) then [[s[0]]] + Fields(s[1..])
    else
      var r := Fields(s[1..]);
      assert forall c :: c in [s[0]] + r[0] ==> c == s[0] || c in r[0];
      [[s[0]] + r[0]] + r[1..]
  }

  function Join(fs: seq<string>): string {
    if fs == [] then ""
    else if |fs| == 1 then fs[0]
    else fs[0] + " " + Join(fs[1..])
  }

  /** One more character in front. */
  function Grown(c: char, t: string): seq<string> {
    if IsSpace(c) then Fields(t)
    else if t == "" || IsSpace(t[0]) then [[c]] + Fields(t)
    else [[c] + Fields(t)[0]] + Fields(t)[1..]
  }

  lemma FieldsCons(c: char, t: string)
    ensures Fields([c] + t) == Grown(c, t)
  {
    assert ([c] + t)[1..] == t;
  }

  lemma HeadConcat(w: string, x: seq<string>, y: seq<string>)
    requires x != []
    ensures [w + (x + y)[0]] + (x + y)[1..] == ([w + x[0]] + x[1..]) + y
  {
  }

  lemma GrownConcat(c: char, t: string, u: string, y: seq<string>)
    requires Fields(u) == Fields(t) + y && u != "" && if t == "" then IsSpace(u[0]) else u[0] == t[0]
    ensures Grown(c, u) == Grown(c, t) + y
  {
    hide Fields;
    if !IsSpace(c) {
      if t == "" || IsSpace(t[0]) {
        assert [[c]] + (Fields(t) + y) == ([[c]] + Fields(t)) + y;
      } else {
        HeadConcat([c], Fields(t), y);
      }
    }
  }

  lemma {:induction false} FieldsConcat(a: string, b: string)
    ensures Fields(a + " " + b) == Fields(a) + Fields(b)
    decreases |a|
  {
    if a == "" {
      assert a + " " + b == [' '] + b;
      FieldsCons(' ', b);
    } else {
      hide Fields;
      var c, t := a[0], a[1..];
      var u := t + " " + b;
      assert a == [c] + t && a + " " + b == [c] + u;
      FieldsConcat(t, b);
      FieldsCons(c, t);
      FieldsCons(c, u);
      GrownConcat(c, t, u, Fields(b));
    }
  }

  lemma {:induction false} FieldsWord(s: string)
    requires IsWord(s)
    ensures Fields(s) == [s]
  {
    assert s[0] in s;
    if |s| > 1 {
      assert s[1] in s && forall c :: c in s[1..] ==> c in s;
      FieldsWord(s[1..]);
      assert s == [s[0]] + s[1..];
    } else {
      assert s[1..] == "" && s == [s[0]];
      assert Fields(s) == [[s[0]]] + Fields("");
    }
  }

  /** Joining words and splitting the result gives the words back. */
  lemma {:induction false} FieldsJoin(fs: seq<string>)
    requires forall f :: f in fs ==> IsWord(f)
    ensures Fields(Join(fs)) == fs
  {
    if fs != [] {
      assert fs[0] in fs && forall f :: f in fs[1..] ==> f in fs;
      FieldsWord(fs[0]);
      if |fs| > 1 {
        FieldsJoin(fs[1..]);
        FieldsConcat(fs[0], Join(fs[1..]));
      }
    }
  }

  lemma {:induction false} FieldsChars(s: string)
    ensures forall f, c :: f in Fields(s) && c in f ==> c in s
  {
    if s != "" {
      FieldsChars(s[1..]);
      assert forall c :: c in s[1..] ==> c in s;
      if !IsSpace(s[0]) && |s| > 1 && !IsSpace(s[1]) {
        var r := Fields(s[1..]);
        forall f, c | f in Fields(s) && c in f ensures c in s {
          if f == [s[0]] + r[0] {
            assert c == s[0] || c in r[0];
            assert r[0] in r;
          } else {
            assert f in r[1..];
            assert f in r;
          }
        }
      }
    }
  }

  /** A text that does not end in white space ends as its last word does. */
  lemma {:induction false} LastWord(s: string)
    requires s != "" && !IsSpace(s[|s| - 1])
    ensures Fields(s) != []
    ensures EndsWith(Fields(s)[|Fields(s)| - 1], s[|s| - 1])
  {
    if |s| > 1 {
      assert s[1..][|s[1..]| - 1] == s[|s| - 1];
      LastWord(s[1..]);
    } else {
      assert s[1..] == "";
    }
  }

  /** Any text between two others keeps its own words: blanks in a part show as more words. */
  lemma {:induction false} JoinCount(fs: seq<string>)
    ensures |Fields(Join(fs))| == WordCount(fs)
  {
    if |fs| > 1 {
      JoinCount(fs[1..]);
      FieldsConcat(fs[0], Join(fs[1..]));
    } else if |fs| == 1 {
      assert fs[1..] == [];
    }
  }

  function WordCount(fs: seq<string>): nat {
    if fs == [] then 0 else |Fields(fs[0])| + WordCount(fs[1..])
  }

  /** Only a word is one word, among texts that do not begin and end in white space. */
  lemma {:induction false} OneWord(s: string)
    requires s != "" && Tidy(s) && |Fields(s)| == 1
    ensures NoSpace(s)
  {
    if |s| > 1 {
      if IsSpace(s[1]) {
        LastWord(s[1..]);
      } else {
        assert Tidy(s[1..]);
        OneWord(s[1..]);
        assert forall c :: c in s ==> c == s[0] || c in s[1..];
      }
    } else {
      assert forall c :: c in s ==> c == s[0];
    }
  }

  lemma {:induction false} JoinChars(fs: seq<string>)
    ensures forall c :: c in Join(fs) ==> c == ' ' || exists f :: f in fs && c in f
  {
    if |fs| == 1 {
      assert fs[0] in fs;
    } else if |fs| > 1 {
      JoinChars(fs[1..]);
      assert fs[0] in fs && forall f :: f in fs[1..] ==> f in fs;
    }
  }

  lemma {:induction false} JoinEnds(fs: seq<string>)
    requires fs != [] && forall f :: f in fs ==> f != ""
    ensures Join(fs) != "" && fs[0] != "" && Join(fs)[0] == fs[0][0]
    ensures EndsWith(fs[|fs| - 1], Join(fs)[|Join(fs)| - 1])
  {
    assert fs[0] in fs;
    if |fs| > 1 {
      assert forall f :: f in fs[1..] ==> f in fs;
      JoinEnds(fs[1..]);
    }
  }
}
