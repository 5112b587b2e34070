/** JavaScript strings: sequences of UTF-16 code units, compared unit by unit. */
module JsText {

  newtype CodeUnit = x: int | 0 <= x < 0x1_0000

  type Text = seq<CodeUnit>

  function UnitsOf(c: char): (t: Text)
    ensures t != [] && (|t| == 1 <==> c as int < 0x1_0000)
  {
    var n := c as int;
    if n < 0x1_0000 then [n as CodeUnit]
    else [(0xd800 + (n - 0x1_0000) / 0x400) as CodeUnit, (0xdc00 + (n - 0x1_0000) % 0x400) as CodeUnit]
  }

  /** The text of a string of characters, in UTF-16. */
  function Utf16(s: string): (t: Text)
    ensures t == [] <==> s == ""
  {
    if s == "" then [] else UnitsOf(s[0]) + Utf16(s[1..])
  }

  lemma UnitsInjective(a: char, b: char, s: Text, t: Text)
    requires UnitsOf(a) + s == UnitsOf(b) + t
    ensures a == b && s == t
  {
    var whole := UnitsOf(a) + s;
    assert whole[0] == UnitsOf(a)[0] == UnitsOf(b)[0];
    assert |UnitsOf(a)| == |UnitsOf(b)|;
    assert s == whole[|UnitsOf(a)|..] == t;
    if |UnitsOf(a)| == 2 {
      assert whole[1] == UnitsOf(a)[1] == UnitsOf(b)[1];
    }
  }

  lemma {:induction false} Utf16Injective(a: string, b: string)
    requires Utf16(a) == Utf16(b)
    ensures a == b
  {
    if a != "" && b != "" {
      UnitsInjective(a[0], b[0], Utf16(a[1..]), Utf16(b[1..]));
      Utf16Injective(a[1..], b[1..]);
      assert a == [a[0]] + a[1..] && b == [b[0]] + b[1..];
    }
  }

  /** The `<` of two strings. */
  predicate Less(a: Text, b: Text) {
    b != [] && (a == [] || a[0] < b[0] || (a[0] == b[0] && Less(a[1..], b[1..])))
  }

  /** After what they share, the first ends or has the smaller unit. */
  lemma {:induction false} LessExactlyWhen(a: Text, b: Text)
    ensures Less(a, b)
            <==> exists n :: 0 <= n <= |a| && n < |b| && a[..n] == b[..n] && (n < |a| ==> a[n] < b[n])
  {
    if b != [] && a != [] && a[0] == b[0] {
      LessExactlyWhen(a[1..], b[1..]);
      if Less(a, b) {
        var n :| 0 <= n <= |a[1..]| && n < |b[1..]| && a[1..][..n] == b[1..][..n]
                 && (n < |a[1..]| ==> a[1..][n] < b[1..][n]);
        assert a[..n + 1] == [a[0]] + a[1..][..n] && b[..n + 1] == [b[0]] + b[1..][..n];
      }
      if n :| 1 <= n <= |a| && n < |b| && a[..n] == b[..n] && (n < |a| ==> a[n] < b[n]) {
        assert a[1..][..n - 1] == a[..n][1..] && b[1..][..n - 1] == b[..n][1..];
      }
    } else if b != [] {
      assert a[..0] == b[..0];
    }
  }

  lemma {:induction false} LessIrreflexive(a: Text)
    ensures !Less(a, a)
  {
    if a != [] {
      LessIrreflexive(a[1..]);
    }
  }

  lemma {:induction false} LessTransitive(a: Text, b: Text, c: Text)
    requires Less(a, b) && Less(b, c)
    ensures Less(a, c)
  {
    if a != [] && a[0] == b[0] == c[0] {
      LessTransitive(a[1..], b[1..], c[1..]);
    }
  }

  lemma {:induction false} LessTotal(a: Text, b: Text)
    ensures a == b || Less(a, b) || Less(b, a)
  {
    if a != [] && b != [] && a[0] == b[0] {
      LessTotal(a[1..], b[1..]);
      assert a == [a[0]] + a[1..] && b == [b[0]] + b[1..];
    }
  }

  /** Every key comes before the ones after it. */
  predicate Ascending(keys: seq<Text>) {
    forall i, j :: 0 <= i < j < |keys| ==> Less(keys[i], keys[j])
  }

  /** An ascending sequence is determined by its elements. */
  lemma {:induction false} AscendingIsUnique(a: seq<Text>, b: seq<Text>)
    requires Ascending(a) && Ascending(b)
    requires forall k :: k in a <==> k in b
    ensures a == b
  {
    assert a != [] ==> a[0] in a;
    assert b != [] ==> b[0] in b;
    if a != [] && b != [] {
      SameFirst(a, b);
      var x := a[0];
      forall k ensures k in a[1..] <==> k in b[1..] {
        TailMembers(a, k);
        TailMembers(b, k);
      }
      AscendingIsUnique(a[1..], b[1..]);
      assert a == [x] + a[1..] && b == [x] + b[1..];
    }
  }

  lemma SameFirst(a: seq<Text>, b: seq<Text>)
    requires Ascending(a) && Ascending(b) && a != [] && b != []
    requires forall k :: k in a <==> k in b
    ensures a[0] == b[0]
  {
    assert a[0] in b && b[0] in a by { assert a[0] in a && b[0] in b; }
    var i :| 0 <= i < |b| && b[i] == a[0];
    var j :| 0 <= j < |a| && a[j] == b[0];
    if i > 0 && j > 0 {
      LessTransitive(a[0], b[0], a[0]);
      LessIrreflexive(a[0]);
    }
  }

  lemma TailMembers(a: seq<Text>, k: Text)
    requires Ascending(a) && a != []
    ensures k in a[1..] <==> k in a && k != a[0]
  {
    LessIrreflexive(a[0]);
    assert a == [a[0]] + a[1..];
    if k in a[1..] {
      var i :| 0 <= i < |a[1..]| && a[1..][i] == k;
      assert a[i + 1] == k;
    }
  }

  function Insert(key: Text, keys: seq<Text>): (r: seq<Text>)
    ensures |r| == |keys| + 1
  {
    if keys == [] || Less(key, keys[0]) then [key] + keys else [keys[0]] + Insert(key, keys[1..])
  }

  lemma {:induction false} InsertKeepsOrder(key: Text, keys: seq<Text>)
    requires Ascending(keys) && key !in keys
    ensures Ascending(Insert(key, keys))
    ensures forall k :: k in Insert(key, keys) <==> k == key || k in keys
  {
    if keys != [] {
      LessTotal(key, keys[0]);
      assert keys == [keys[0]] + keys[1..];
      if Less(key, keys[0]) {
        forall j | 0 <= j < |keys| ensures Less(key, keys[j]) {
          if j > 0 { LessTransitive(key, keys[0], keys[j]); }
        }
      } else {
        InsertKeepsOrder(key, keys[1..]);
        var rest := Insert(key, keys[1..]);
        forall j | 0 <= j < |rest| ensures Less(keys[0], rest[j]) {
          assert rest[j] in rest;
        }
      }
    }
  }

  /** The keys in ascending order. */
  ghost function SortedKeys(keys: set<Text>): (r: seq<Text>)
    ensures Ascending(r) && (forall k :: k in r <==> k in keys) && |r| == |keys|
  {
    if keys == {} then []
    else
      var key :| key in keys;
      var rest := SortedKeys(keys - {key});
      InsertKeepsOrder(key, rest);
      Insert(key, rest)
  }
}
