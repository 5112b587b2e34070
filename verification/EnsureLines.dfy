/** Making lines present in, or absent from, a remote file (src/ensure.ts). */
module EnsureLines {
  import opened Separated

  datatype Content = Missing | Text(text: string)

  datatype Wanted = Present | Absent

  datatype Outcome = Ok(added: int) | FileMissing

  function Lines(text: string): seq<string> { Split(text, '\n') }

  /** `xs.filter((x) => !ys.includes(x))`. */
  function Without(xs: seq<string>, ys: seq<string>): (r: seq<string>)
    ensures |r| <= |xs|
  {
    if xs == [] then []
    else (if xs[0] in ys then [] else [xs[0]]) + Without(xs[1..], ys)
  }

  function Existing(file: Content): seq<string> {
    Lines(if file.Text? then file.text else "")
  }

  /** The file and the answer after one call. */
  function Ensured(file: Content, lines: seq<string>, wanted: Wanted, createIfMissing: bool): (Content, Outcome) {
    var existing := Existing(file);
    match wanted
    case Absent =>
      var kept := Without(existing, lines);
      if file.Missing? || kept == existing then (file, Ok(0))
      else (Text(Join(kept, '\n')), Ok(|kept| - |existing|))
    case Present =>
      var missing := Without(lines, existing);
      if file.Missing? && !createIfMissing then (file, FileMissing)
      else if missing == [] then (file, Ok(0))
      else
        (Text(if file.Text? then file.text + "\n" + Join(missing, '\n') else Join(missing, '\n')), Ok(|missing|))
  }

  class RemoteFile {
    var content: Content

    constructor (content: Content)
      ensures this.content == content
    {
      this.content := content;
    }

    method EnsureLinesInFile(lines: seq<string>, createIfMissing: bool, wanted: Wanted) returns (r: Outcome)
      modifies this
      ensures (content, r) == Ensured(old(content), lines, wanted, createIfMissing)
    {
      var fileContent, fileExists := "", false;
      if content.Text? {
        fileExists, fileContent := true, content.text;
      } else if wanted == Absent {
        return Ok(0);
      } else if !createIfMissing {
        return FileMissing;
      }
      var existingLines := Split(fileContent, '\n');
      if wanted == Absent {
        var filtered := Without(existingLines, lines);
        WithoutAll(existingLines, lines);
        if |filtered| == |existingLines| {
          return Ok(0);
        }
        content := Text(Join(filtered, '\n'));
        return Ok(-(|existingLines| - |filtered|));
      }
      var missing := Without(lines, existingLines);
      if |missing| == 0 {
        return Ok(0);
      }
      content := Text(if fileExists then fileContent + "\n" + Join(missing, '\n') else Join(missing, '\n'));
      return Ok(|missing|);
    }
  }

  /** A line of a caller: not empty, and really one line. */
  predicate Proper(lines: seq<string>) {
    NoneContains(lines, '\n') && forall i :: 0 <= i < |lines| ==> lines[i] != ""
  }

  // ---- Filtering ----

  lemma {:induction false} WithoutAll(xs: seq<string>, ys: seq<string>)
    ensures |Without(xs, ys)| == |xs| <==> Without(xs, ys) == xs
    ensures Without(xs, ys) == xs <==> forall i :: 0 <= i < |xs| ==> xs[i] !in ys
    ensures Without(xs, ys) == [] <==> forall i :: 0 <= i < |xs| ==> xs[i] in ys
  {
    if xs != [] {
      WithoutAll(xs[1..], ys);
    }
  }

  lemma {:induction false} WithoutMembers(xs: seq<string>, ys: seq<string>)
    ensures forall x :: x in Without(xs, ys) <==> x in xs && x !in ys
  {
    if xs != [] {
      WithoutMembers(xs[1..], ys);
      assert xs == [xs[0]] + xs[1..];
    }
  }

  lemma {:induction false} WithoutOfSum(a: seq<string>, b: seq<string>, ys: seq<string>)
    ensures Without(a + b, ys) == Without(a, ys) + Without(b, ys)
  {
    if a == [] {
      assert a + b == b;
    } else {
      assert (a + b)[1..] == a[1..] + b;
      WithoutOfSum(a[1..], b, ys);
    }
  }

  lemma WithoutAppended(xs: seq<string>, ys: seq<string>)
    requires forall i :: 0 <= i < |ys| ==> ys[i] !in xs
    ensures Without(xs + ys, ys) == xs
  {
    WithoutAll(xs, ys);
    WithoutAll(ys, ys);
    WithoutOfSum(xs, ys, ys);
  }

  lemma WithoutPlain(xs: seq<string>, ys: seq<string>, sep: char)
    requires NoneContains(xs, sep)
    ensures NoneContains(Without(xs, ys), sep)
  {
    WithoutMembers(xs, ys);
    forall i | 0 <= i < |Without(xs, ys)| ensures sep !in Without(xs, ys)[i] {
      assert Without(xs, ys)[i] in xs;
    }
  }

  // ---- What a call achieves ----

  /** The lines of the file after a call that wants lines present: the old ones in their old order, then
      the missing ones in the caller's order. A file that did not exist consists of the missing ones. */
  lemma PresentLines(file: Content, lines: seq<string>, create: bool)
    requires NoneContains(lines, '\n') && (file.Text? || create)
    ensures var (after, r) := Ensured(file, lines, Present, create);
            var missing := Without(lines, Existing(file));
            && r == Ok(|missing|)
            && (file.Text? ==> after.Text? && Existing(after) == Existing(file) + missing)
            && (file.Missing? ==> Existing(after) == if missing == [] then [""] else missing)
  {
    var missing := Without(lines, Existing(file));
    WithoutPlain(lines, Existing(file), '\n');
    if missing != [] {
      SplitOfJoin(missing, '\n');
      if file.Text? {
        SplitOfSum(file.text, Join(missing, '\n'), '\n');
        assert file.text + "\n" + Join(missing, '\n') == file.text + ['\n'] + Join(missing, '\n');
      }
    }
  }

  /** The lines of the file after a call that wants lines absent: the others, in order. A file of which
      nothing is left reads back as one empty line. */
  lemma AbsentLines(file: Content, lines: seq<string>, create: bool)
    requires file.Text?
    ensures var (after, r) := Ensured(file, lines, Absent, create);
            var kept := Without(Existing(file), lines);
            && after.Text? && r == Ok(|kept| - |Existing(file)|)
            && Existing(after) == if kept == [] then [""] else kept
  {
    JoinOfSplit(file.text, '\n');
    WithoutAll(Existing(file), lines);
    WithoutPlain(Existing(file), lines, '\n');
    if Without(Existing(file), lines) != [] {
      SplitOfJoin(Without(Existing(file), lines), '\n');
    }
  }

  /** Afterwards every wanted line is there, and no unwanted one is. */
  lemma EnsureAchieves(file: Content, lines: seq<string>, create: bool)
    requires Proper(lines)
    ensures file.Text? || create ==>
              forall i :: 0 <= i < |lines| ==> lines[i] in Existing(Ensured(file, lines, Present, create).0)
    ensures forall i :: 0 <= i < |lines| ==> lines[i] !in Existing(Ensured(file, lines, Absent, create).0)
  {
    WithoutMembers(lines, Existing(file));
    WithoutMembers(Existing(file), lines);
    if file.Text? || create {
      PresentLines(file, lines, create);
    }
    if file.Text? {
      AbsentLines(file, lines, create);
    }
  }

  /** Asking a second time changes nothing and reports 0. */
  lemma EnsureIsIdempotent(file: Content, lines: seq<string>, wanted: Wanted, create: bool)
    requires Proper(lines) && (file.Text? || create || wanted == Absent)
    ensures var (after, _) := Ensured(file, lines, wanted, create);
            Ensured(after, lines, wanted, create) == (after, Ok(0))
  {
    EnsureAchieves(file, lines, create);
    var after := Ensured(file, lines, wanted, create).0;
    WithoutAll(lines, Existing(after));
    WithoutAll(Existing(after), lines);
  }

  /** On an existing file the second "present" call reports 0 exactly when no line contains a newline: a
      "line" with one is never found again, and is appended anew by every call. */
  lemma PresentIdempotentIff(text: string, lines: seq<string>, create: bool)
    ensures var (after, _) := Ensured(Text(text), lines, Present, create);
            (Ensured(after, lines, Present, create).1 == Ok(0) <==> NoneContains(lines, '\n'))
  {
    var after := Ensured(Text(text), lines, Present, create).0;
    WithoutMembers(lines, Existing(after));
    JoinOfSplit(after.text, '\n');
    if NoneContains(lines, '\n') {
      PresentLines(Text(text), lines, create);
      WithoutMembers(lines, Existing(Text(text)));
      WithoutAll(lines, Existing(after));
    } else {
      var i :| 0 <= i < |lines| && '\n' in lines[i];
      assert lines[i] !in Existing(after);
      assert lines[i] in Without(lines, Existing(after));
    }
  }

  /** Present then absent gives back the identical file exactly when it held none of the lines. */
  lemma PresentThenAbsentRestores(text: string, lines: seq<string>, create: bool)
    requires Proper(lines)
    ensures var (added, _) := Ensured(Text(text), lines, Present, create);
            (Ensured(added, lines, Absent, create).0 == Text(text)
             <==> forall i :: 0 <= i < |lines| ==> lines[i] !in Lines(text))
  {
    var added := Ensured(Text(text), lines, Present, create).0;
    if forall i :: 0 <= i < |lines| ==> lines[i] !in Lines(text) {
      RestoresWhenNew(text, lines, create);
    } else {
      EnsureAchieves(added, lines, create);
    }
  }

  lemma RestoresWhenNew(text: string, lines: seq<string>, create: bool)
    requires Proper(lines) && forall i :: 0 <= i < |lines| ==> lines[i] !in Lines(text)
    ensures var (added, _) := Ensured(Text(text), lines, Present, create);
            Ensured(added, lines, Absent, create).0 == Text(text)
  {
    var added := Ensured(Text(text), lines, Present, create).0;
    PresentLines(Text(text), lines, create);
    WithoutAll(lines, Lines(text));
    assert Existing(added) == Lines(text) + lines;
    WithoutAppended(Lines(text), lines);
    JoinOfSplit(text, '\n');
  }

  /** A file that is not there stays so, unless lines are wanted present and it may be created; without that leave the
      caller hears that it is missing, and in no other case. An empty line does not bring it into being. */
  lemma MissingFileStaysMissingExactlyWhen(file: Content, lines: seq<string>, wanted: Wanted, create: bool)
    ensures var (after, r) := Ensured(file, lines, wanted, create);
            (r == FileMissing <==> file.Missing? && wanted == Present && !create)
            && (after.Missing?
                <==> file.Missing?
                     && (wanted == Absent || !create || forall i :: 0 <= i < |lines| ==> lines[i] == ""))
            && (after.Missing? && r != FileMissing ==> r == Ok(0))
  {
    WithoutAll(lines, [""]);
    assert Lines("") == [""];
  }
}
