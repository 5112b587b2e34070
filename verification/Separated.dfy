/** Splitting text at a separator and joining it again, as `split` and `join` do in JavaScript. */
module Separated {

  function Split(s: string, sep: char): (parts: seq<string>)
    ensures |parts| >= 1
  {
    if s == [] then [""]
    else
      var rest := Split(s[1..], sep);
      if s[0] == sep then [""] + rest else [[s[0]] + rest[0]] + rest[1..]
  }

  function Join(parts: seq<string>, sep: char): string {
    if parts == [] then ""
    else if |parts| == 1 then parts[0]
    else parts[0] + [sep] + Join(parts[1..], sep)
  }

  predicate NoneContains(parts: seq<string>, sep: char) {
    forall i :: 0 <= i < |parts| ==> sep !in parts[i]
  }

  lemma {:induction false} JoinOfSplit(s: string, sep: char)
    ensures Join(Split(s, sep), sep) == s
    ensures NoneContains(Split(s, sep), sep)
  {
    if s != [] {
      JoinOfSplit(s[1..], sep);
      var rest := Split(s[1..], sep);
      if s[0] == sep {
        assert Split(s, sep)[1..] == rest;
      } else {
        JoinHead(rest[0], rest[1..], [s[0]], sep);
        assert rest == [rest[0]] + rest[1..];
        assert s == [s[0]] + s[1..];
      }
    }
  }

  lemma JoinHead(head: string, tail: seq<string>, prefix: string, sep: char)
    ensures Join([prefix + head] + tail, sep) == prefix + Join([head] + tail, sep)
  {
    assert ([prefix + head] + tail)[1..] == tail == ([head] + tail)[1..];
  }

  lemma {:induction false} SplitOfPlain(s: string, sep: char)
    requires sep !in s
    ensures Split(s, sep) == [s]
  {
    if s != [] {
      SplitOfPlain(s[1..], sep);
      assert s == [s[0]] + s[1..];
    }
  }

  lemma {:induction false} SplitOfSum(a: string, b: string, sep: char)
    ensures Split(a + [sep] + b, sep) == Split(a, sep) + Split(b, sep)
  {
    if a == [] {
      assert (a + [sep] + b)[1..] == b;
    } else {
      assert (a + [sep] + b)[1..] == a[1..] + [sep] + b;
      SplitOfSum(a[1..], b, sep);
    }
  }

  lemma {:induction false} SplitOfJoin(parts: seq<string>, sep: char)
    requires parts != [] && NoneContains(parts, sep)
    ensures Split(Join(parts, sep), sep) == parts
  {
    SplitOfPlain(parts[0], sep);
    if |parts| > 1 {
      SplitOfJoin(parts[1..], sep);
      SplitOfSum(parts[0], Join(parts[1..], sep), sep);
    }
  }

  lemma {:induction false} JoinOfSum(a: seq<string>, b: seq<string>, sep: char)
    requires a != [] && b != []
    ensures Join(a + b, sep) == Join(a, sep) + [sep] + Join(b, sep)
  {
    if |a| == 1 {
      assert (a + b)[1..] == b;
    } else {
      assert (a + b)[1..] == a[1..] + b;
      JoinOfSum(a[1..], b, sep);
    }
  }

  lemma {:induction false} SplitKeepsOut(s: string, sep: char, c: char)
    requires c !in s
    ensures NoneContains(Split(s, sep), c)
  {
    if s != [] {
      assert s == [s[0]] + s[1..];
      SplitKeepsOut(s[1..], sep, c);
    }
  }

  lemma {:induction false} JoinKeepsOut(parts: seq<string>, sep: char, c: char)
    requires c != sep && NoneContains(parts, c)
    ensures c !in Join(parts, sep)
  {
    if |parts| > 1 {
      JoinKeepsOut(parts[1..], sep, c);
    }
  }
}
