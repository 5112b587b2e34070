/** Remote paths: how they are normalised and matched against policy prefixes, by the server's policy
    engine (src/policy.ts) and by the agent (src/remote/policy.ts). Both work on strings; the results here
    say what they mean on lists of segments. */
module RemotePaths {
  import opened Separated
  import opened RemoteTypes

  // ---- node:path's posix.normalize, by its documented meaning ----

  function Backward(segments: seq<string>, absolute: bool): seq<string> {
    if segments != [] && segments[|segments| - 1] != ".." then segments[..|segments| - 1]
    else if absolute then segments
    else segments + [".."]
  }

  /** Walk `parts` from `at`: empty parts and `.` stay, `..` goes up. */
  function Walk(absolute: bool, at: seq<string>, parts: seq<string>): seq<string>
    decreases |parts|
  {
    if parts == [] then at
    else if parts[0] == "" || parts[0] == "." then Walk(absolute, at, parts[1..])
    else if parts[0] == ".." then Walk(absolute, Backward(at, absolute), parts[1..])
    else Walk(absolute, at + [parts[0]], parts[1..])
  }

  function PosixNormalize(path: string): string {
    if path == "" then "."
    else
      var absolute, trailing := path[0] == '/', path[|path| - 1] == '/';
      var segments := Walk(absolute, [], Split(path, '/'));
      if segments == [] then (if absolute then "/" else if trailing then "./" else ".")
      else (if absolute then "/" else "") + Join(segments, '/') + (if trailing then "/" else "")
  }

  function Slashed(path: string): (r: string)
    ensures |r| == |path|
    ensures forall i :: 0 <= i < |r| ==> r[i] == if path[i] == '\\' then '/' else path[i]
  {
    seq(|path|, i requires 0 <= i < |path| => if path[i] == '\\' then '/' else path[i])
  }

  // ---- The meaning of a path ----

  /** Where a path leads: from the root or from the working directory, along these segments. */
  datatype Place = Place(absolute: bool, segments: seq<string>)

  function PlaceOf(path: string): Place {
    var slashed := Slashed(path);
    var absolute := slashed != "" && slashed[0] == '/';
    Place(absolute, Walk(absolute, [], Split(slashed, '/')))
  }

  function PlaceText(p: Place): string {
    if p.absolute then "/" + Join(p.segments, '/')
    else if p.segments == [] then "."
    else Join(p.segments, '/')
  }

  predicate IsSegment(s: string) { s != "" && s != "." && '/' !in s && '\\' !in s }

  /** Every segment is one, and `..` survives only at the front of a relative path. */
  predicate Resolved(absolute: bool, segments: seq<string>) {
    && (forall i :: 0 <= i < |segments| ==> IsSegment(segments[i]))
    && (forall i :: 0 <= i < |segments| && segments[i] == ".." ==>
          !absolute && forall j :: 0 <= j < i ==> segments[j] == "..")
  }

  /** The segments of a path of the policy engine, which takes every path from the root. */
  function Segments(path: string): seq<string> { Walk(true, [], Split(Slashed(path), '/')) }

  // ---- The policy engine (src/policy.ts) ----

  function Stripped(value: string, separator: char, root: string): string {
    if |value| > |root| && value[|value| - 1] == separator then Stripped(value[..|value| - 1], separator, root)
    else value
  }

  method StripTrailingSeparators(value: string, separator: char, root: string) returns (stripped: string)
    ensures stripped == Stripped(value, separator, root)
    ensures stripped <= value
    ensures |stripped| > |root| ==> stripped[|stripped| - 1] != separator
    ensures forall i :: |stripped| <= i < |value| ==> value[i] == separator
  {
    stripped := value;
    while |stripped| > |root| && stripped[|stripped| - 1] == separator
      invariant stripped <= value
      invariant Stripped(stripped, separator, root) == Stripped(value, separator, root)
      invariant forall i :: |stripped| <= i < |value| ==> value[i] == separator
    {
      stripped := stripped[..|stripped| - 1];
    }
  }

  const NUL := 0 as char

  /** `normalizeRemotePosixPath`; `None` stands for the error on a NUL. */
  function NormalizeRemotePosixPath(path: string): Option<string> {
    if NUL in path then None
    else
      var unix := Slashed(path);
      var absolute := if unix != "" && unix[0] == '/' then unix else "/" + unix;
      Some(Stripped(PosixNormalize(absolute), '/', "/"))
  }

  predicate StartsWith(s: string, prefix: string) { prefix <= s }

  predicate IsSegmentBoundaryPathMatch(candidate: string, prefix: string, separator: char) {
    candidate == prefix || StartsWith(candidate, prefix + [separator])
  }

  predicate IsPathUnder(path: string, prefix: string, separator: char) {
    prefix == "/" || IsSegmentBoundaryPathMatch(path, prefix, separator)
  }

  datatype Decision = Allowed | NulByte | DeniedPrefix | OutsideAllowed

  /** The path rules of a configuration. */
  datatype Rules = Rules(deny: seq<string>, allow: seq<string>, allowDestructiveFs: bool)

  const DEFAULT_ALLOWED_MUTATION_PREFIXES := ["/tmp", "/var/tmp", "/home", "/Users"]

  /** Some prefix leads to an ancestor of the path, or to the path itself. */
  predicate Covered(prefixes: seq<string>, path: string) {
    exists i :: 0 <= i < |prefixes| && Segments(prefixes[i]) <= Segments(path)
  }

  /** What the rules mean for one path, on segments. */
  function PathDecision(rules: Rules, destructive: bool, path: string): Decision {
    if NUL in path then NulByte
    else if Covered(rules.deny, path) then DeniedPrefix
    else if
      && destructive && !rules.allowDestructiveFs
      && !Covered(if rules.allow != [] then rules.allow else DEFAULT_ALLOWED_MUTATION_PREFIXES, path)
    then OutsideAllowed
    else Allowed
  }

  /** The first path that is not allowed decides. */
  function PathsDecision(rules: Rules, destructive: bool, paths: seq<string>): Decision {
    if paths == [] then Allowed
    else if PathDecision(rules, destructive, paths[0]) != Allowed then PathDecision(rules, destructive, paths[0])
    else PathsDecision(rules, destructive, paths[1..])
  }

  predicate NulFree(paths: seq<string>) { forall i :: 0 <= i < |paths| ==> NUL !in paths[i] }

  function NormalizeAll(paths: seq<string>): (r: seq<string>)
    requires NulFree(paths)
    ensures |r| == |paths|
    ensures forall i :: 0 <= i < |r| ==> Some(r[i]) == NormalizeRemotePosixPath(paths[i])
  {
    if paths == [] then [] else [NormalizeRemotePosixPath(paths[0]).value] + NormalizeAll(paths[1..])
  }

  class PolicyEngine {
    ghost const rules: Rules
    const allowDestructiveFs: bool
    const pathDenyPrefixes: seq<string>
    const pathAllowPrefixes: seq<string>
    const defaultPathAllowPrefixes: seq<string>

    ghost predicate Valid() {
      && NulFree(rules.deny) && NulFree(rules.allow) && NulFree(DEFAULT_ALLOWED_MUTATION_PREFIXES)
      && allowDestructiveFs == rules.allowDestructiveFs
      && pathDenyPrefixes == NormalizeAll(rules.deny)
      && pathAllowPrefixes == NormalizeAll(rules.allow)
      && defaultPathAllowPrefixes == NormalizeAll(DEFAULT_ALLOWED_MUTATION_PREFIXES)
    }

    /** The source throws for a prefix with a NUL in it. */
    constructor (rules: Rules)
      requires NulFree(rules.deny) && NulFree(rules.allow)
      ensures Valid() && this.rules == rules
    {
      this.rules := rules;
      allowDestructiveFs := rules.allowDestructiveFs;
      pathDenyPrefixes := NormalizeAll(rules.deny);
      pathAllowPrefixes := NormalizeAll(rules.allow);
      defaultPathAllowPrefixes := NormalizeAll(DEFAULT_ALLOWED_MUTATION_PREFIXES);
    }

    /** The remote-path part of `evaluate`: string work, but the verdict is the one on segments. */
    method Evaluate(paths: seq<string>, destructive: bool) returns (d: Decision)
      requires Valid()
      ensures d == PathsDecision(rules, destructive, paths)
    {
      for i := 0 to |paths|
        invariant PathsDecision(rules, destructive, paths) == PathsDecision(rules, destructive, paths[i..])
      {
        assert paths[i..][0] == paths[i] && paths[i..][1..] == paths[i + 1..];
        var normalized := NormalizeRemotePosixPath(paths[i]);
        if normalized.None? {
          return NulByte;
        }
        var path := normalized.value;
        AnyUnder(rules.deny, pathDenyPrefixes, paths[i], path);
        if exists k :: 0 <= k < |pathDenyPrefixes| && IsPathUnder(path, pathDenyPrefixes[k], '/') {
          return DeniedPrefix;
        }
        var allowPrefixes := if |pathAllowPrefixes| > 0 then pathAllowPrefixes else defaultPathAllowPrefixes;
        if destructive && !allowDestructiveFs {
          AnyUnder(if rules.allow != [] then rules.allow else DEFAULT_ALLOWED_MUTATION_PREFIXES, allowPrefixes,
                   paths[i], path);
          if !exists k :: 0 <= k < |allowPrefixes| && IsPathUnder(path, allowPrefixes[k], '/') {
            return OutsideAllowed;
          }
        }
      }
      return Allowed;
    }
  }

  lemma AnyUnder(prefixes: seq<string>, normalized: seq<string>, path: string, normalizedPath: string)
    requires NulFree(prefixes) && normalized == NormalizeAll(prefixes)
    requires NormalizeRemotePosixPath(path) == Some(normalizedPath)
    ensures (exists k :: 0 <= k < |normalized| && IsPathUnder(normalizedPath, normalized[k], '/'))
       <==> Covered(prefixes, path)
  {
    forall k | 0 <= k < |prefixes|
      ensures IsPathUnder(normalizedPath, normalized[k], '/') <==> Segments(prefixes[k]) <= Segments(path)
    {
      UnderIsSegmentPrefix(path, prefixes[k]);
    }
  }

  // ---- Walking ----

  lemma {:induction false} WalkResolves(absolute: bool, at: seq<string>, parts: seq<string>)
    requires Resolved(absolute, at)
    requires forall i :: 0 <= i < |parts| ==> '/' !in parts[i] && '\\' !in parts[i]
    ensures Resolved(absolute, Walk(absolute, at, parts))
    decreases |parts|
  {
    if parts != [] {
      if parts[0] == "" || parts[0] == "." {
        WalkResolves(absolute, at, parts[1..]);
      } else if parts[0] == ".." {
        WalkResolves(absolute, Backward(at, absolute), parts[1..]);
      } else {
        WalkResolves(absolute, at + [parts[0]], parts[1..]);
      }
    }
  }

  /** Walking along segments that are already resolved just follows them. */
  lemma {:induction false} WalkAlong(absolute: bool, at: seq<string>, parts: seq<string>)
    requires Resolved(absolute, at + parts)
    ensures Walk(absolute, at, parts) == at + parts
    decreases |parts|
  {
    if parts == [] {
      assert at + parts == at;
    } else {
      assert (at + parts)[|at|] == parts[0];
      assert at + parts == at + [parts[0]] + parts[1..];
      if parts[0] == ".." && at != [] {
        assert (at + parts)[|at| - 1] == "..";
      }
      WalkAlong(absolute, at + [parts[0]], parts[1..]);
    }
  }

  lemma {:induction false} WalkKeepsOut(absolute: bool, at: seq<string>, parts: seq<string>, c: char)
    requires c != '.' && NoneContains(at, c) && NoneContains(parts, c)
    ensures NoneContains(Walk(absolute, at, parts), c)
    decreases |parts|
  {
    if parts != [] {
      if parts[0] == "" || parts[0] == "." {
        WalkKeepsOut(absolute, at, parts[1..], c);
      } else if parts[0] == ".." {
        WalkKeepsOut(absolute, Backward(at, absolute), parts[1..], c);
      } else {
        WalkKeepsOut(absolute, at + [parts[0]], parts[1..], c);
      }
    }
  }

  lemma {:induction false} JoinEnds(segments: seq<string>)
    requires segments != [] && forall i :: 0 <= i < |segments| ==> IsSegment(segments[i])
    ensures var text := Join(segments, '/'); text != "" && text[0] != '/' && text[|text| - 1] != '/'
  {
    assert IsSegment(segments[0]);
    if |segments| > 1 {
      JoinEnds(segments[1..]);
    }
  }

  lemma PlaceIsResolved(path: string)
    ensures Resolved(PlaceOf(path).absolute, PlaceOf(path).segments)
    ensures Resolved(true, Segments(path))
  {
    var slashed := Slashed(path);
    JoinOfSplit(slashed, '/');
    SplitKeepsOut(slashed, '/', '\\');
    WalkResolves(PlaceOf(path).absolute, [], Split(slashed, '/'));
    WalkResolves(true, [], Split(slashed, '/'));
  }

  /** The parts a place's text splits into. */
  lemma PlaceParts(p: Place)
    requires Resolved(p.absolute, p.segments)
    ensures Split(PlaceText(p), '/')
         == if p.segments != [] then (if p.absolute then [""] else []) + p.segments
            else if p.absolute then ["", ""] else ["."]
  {
    if p.segments != [] {
      SplitOfJoin(p.segments, '/');
      assert PlaceText(p) == (if p.absolute then "/" else "") + Join(p.segments, '/');
      assert p.absolute ==> PlaceText(p)[1..] == Join(p.segments, '/');
    } else if p.absolute {
      assert PlaceText(p) == "/" && "/"[1..] == "";
    } else {
      SplitOfPlain(".", '/');
    }
  }

  // ---- What the engine's normal form is ----

  lemma AbsoluteParts(path: string)
    ensures var unix := Slashed(path);
            var absolute := if unix != "" && unix[0] == '/' then unix else "/" + unix;
            && absolute != "" && absolute[0] == '/'
            && Walk(true, [], Split(absolute, '/')) == Segments(path)
  {
    var unix := Slashed(path);
    assert ("/" + unix)[1..] == unix;
    var parts := Split("/" + unix, '/');
    assert parts[1..] == Split(unix, '/');
  }

  /** The normal form of a path is the text of its segments: absolute, with no empty, `.` or `..` segment. */
  lemma NormalFormIsSegments(path: string)
    requires NUL !in path
    ensures Resolved(true, Segments(path))
    ensures NormalizeRemotePosixPath(path) == Some(PlaceText(Place(true, Segments(path))))
  {
    AbsoluteParts(path);
    PlaceIsResolved(path);
    var text := PlaceText(Place(true, Segments(path)));
    if Segments(path) != [] {
      JoinEnds(Segments(path));
      assert Stripped(text, '/', "/") == text;
      TrailingSlash(text);
    } else {
      assert text == "/";
    }
  }

  /** Normalising is idempotent, and fails only on a NUL. */
  lemma NormalizeIsIdempotent(path: string)
    ensures NormalizeRemotePosixPath(path).None? <==> NUL in path
    ensures NUL !in path ==>
              var n := NormalizeRemotePosixPath(path).value;
              NormalizeRemotePosixPath(n) == Some(n) && Segments(n) == Segments(path)
  {
    if NUL !in path {
      NormalFormIsSegments(path);
      var p := Place(true, Segments(path));
      var n := PlaceText(p);
      SegmentsOfText(p);
      NulStaysOut(path);
      NormalFormIsSegments(n);
    }
  }

  lemma NulStaysOut(path: string)
    requires NUL !in path
    ensures NUL !in PlaceText(Place(true, Segments(path)))
  {
    var slashed := Slashed(path);
    forall i | 0 <= i < |slashed| ensures slashed[i] != NUL {
      assert path[i] in path;
    }
    SplitKeepsOut(slashed, '/', NUL);
    WalkKeepsOut(true, [], Split(slashed, '/'), NUL);
    JoinKeepsOut(Segments(path), '/', NUL);
  }

  lemma SlashedText(p: Place)
    requires Resolved(p.absolute, p.segments)
    ensures Slashed(PlaceText(p)) == PlaceText(p)
  {
    assert NoneContains(p.segments, '\\');
    JoinKeepsOut(p.segments, '/', '\\');
    assert '\\' !in PlaceText(p);
  }

  lemma SegmentsOfText(p: Place)
    requires p.absolute && Resolved(true, p.segments)
    ensures Segments(PlaceText(p)) == p.segments
  {
    SlashedText(p);
    PlaceParts(p);
    var parts := Split(PlaceText(p), '/');
    assert parts[0] == "";
    if p.segments != [] {
      assert parts[1..] == p.segments;
      WalkAlong(true, [], p.segments);
      assert [] + p.segments == p.segments;
    } else {
      assert parts == ["", ""] && parts[1..] == [""];
      assert Walk(true, [], [""]) == Walk(true, [], [""][1..]) == [];
      assert Walk(true, [], parts) == Walk(true, [], parts[1..]);
    }
  }

  // ---- String prefixes are segment prefixes ----

  /** A text and a separator begin another text exactly when the segments do, properly. */
  lemma TextPrefix(p: Place, q: Place)
    requires Resolved(p.absolute, p.segments) && Resolved(q.absolute, q.segments)
    requires q.segments != []
    ensures StartsWith(PlaceText(p), PlaceText(q) + "/")
       <==> p.absolute == q.absolute && q.segments < p.segments
  {
    var tp, tq := PlaceText(p), PlaceText(q);
    if StartsWith(tp, tq + "/") {
      var rest := tp[|tq| + 1..];
      assert tp == tq + ['/'] + rest;
      SplitOfSum(tq, rest, '/');
      PartsPrefix(p, q, Split(rest, '/'));
    }
    if p.absolute == q.absolute && q.segments < p.segments {
      LongerText(p, q, p.segments[|q.segments|..]);
    }
  }

  lemma LongerText(p: Place, q: Place, more: seq<string>)
    requires q.segments != [] && more != []
    requires p == Place(q.absolute, q.segments + more)
    ensures PlaceText(p) == PlaceText(q) + "/" + Join(more, '/')
  {
    JoinOfSum(q.segments, more, '/');
  }

  lemma PartsPrefix(p: Place, q: Place, rest: seq<string>)
    requires Resolved(p.absolute, p.segments) && Resolved(q.absolute, q.segments)
    requires q.segments != [] && |rest| >= 1
    requires Split(PlaceText(p), '/') == Split(PlaceText(q), '/') + rest
    ensures p.absolute == q.absolute && q.segments < p.segments
  {
    PlaceParts(p);
    PlaceParts(q);
    var pp, pq := Split(PlaceText(p), '/'), Split(PlaceText(q), '/');
    assert pp[0] == pq[0];
    assert IsSegment(q.segments[0]);
    if p.segments != [] {
      assert IsSegment(p.segments[0]);
      var skip := if p.absolute then 1 else 0;
      assert pp[skip..] == p.segments && pq[skip..] == q.segments;
      assert pp[skip..] == pq[skip..] + rest;
    }
  }

  lemma TextInjective(p: Place, q: Place)
    requires Resolved(p.absolute, p.segments) && Resolved(q.absolute, q.segments)
    requires PlaceText(p) == PlaceText(q)
    ensures p == q
  {
    PlaceParts(p);
    PlaceParts(q);
    assert p.segments != [] ==> IsSegment(p.segments[0]);
    assert q.segments != [] ==> IsSegment(q.segments[0]);
    if p.segments != [] && q.segments != [] {
      var parts, skip := Split(PlaceText(p), '/'), if p.absolute then 1 else 0;
      assert p.absolute == q.absolute;
      assert parts[skip..] == p.segments && parts[skip..] == q.segments;
    }
  }

  lemma PrefixCases(a: seq<string>, b: seq<string>)
    ensures a <= b <==> a == b || a < b
  {}

  /** The engine's string test on normal forms is the list-prefix test on segments. */
  lemma UnderIsSegmentPrefix(path: string, prefix: string)
    requires NUL !in path && NUL !in prefix
    ensures IsPathUnder(NormalizeRemotePosixPath(path).value, NormalizeRemotePosixPath(prefix).value, '/')
       <==> Segments(prefix) <= Segments(path)
  {
    NormalFormIsSegments(path);
    NormalFormIsSegments(prefix);
    var p, q := Place(true, Segments(path)), Place(true, Segments(prefix));
    if q.segments == [] {
      assert PlaceText(q) == "/";
    } else {
      JoinEnds(q.segments);
      TextPrefix(p, q);
      PrefixCases(q.segments, p.segments);
      if PlaceText(p) == PlaceText(q) {
        TextInjective(p, q);
      }
    }
  }

  // ---- What follows for the engine ----

  predicate AnyPrefix(prefixes: seq<string>, path: string) {
    exists k :: 0 <= k < |prefixes| && IsPathUnder(path, prefixes[k], '/')
  }

  lemma DefaultsAreNulFree()
    ensures NulFree(DEFAULT_ALLOWED_MUTATION_PREFIXES)
  {}

  /** The verdict on one path as the engine finds it, on normalised strings. */
  function StringVerdict(rules: Rules, destructive: bool, path: string): Decision
    requires NulFree(rules.deny) && NulFree(rules.allow)
  {
    DefaultsAreNulFree();
    var normalized := NormalizeRemotePosixPath(path);
    if normalized.None? then NulByte
    else if AnyPrefix(NormalizeAll(rules.deny), normalized.value) then DeniedPrefix
    else if
      && destructive && !rules.allowDestructiveFs
      && !AnyPrefix(NormalizeAll(if rules.allow != [] then rules.allow else DEFAULT_ALLOWED_MUTATION_PREFIXES),
                    normalized.value)
    then OutsideAllowed
    else Allowed
  }

  /** The verdict on strings is the one that the segments call for. */
  lemma StringVerdictIsOnSegments(rules: Rules, destructive: bool, path: string)
    requires NulFree(rules.deny) && NulFree(rules.allow)
    ensures StringVerdict(rules, destructive, path) == PathDecision(rules, destructive, path)
  {
    hide IsPathUnder, Segments, NormalizeAll;
    DefaultsAreNulFree();
    if NUL !in path {
      var normalized := NormalizeRemotePosixPath(path).value;
      var allow := if rules.allow != [] then rules.allow else DEFAULT_ALLOWED_MUTATION_PREFIXES;
      AnyUnder(rules.deny, NormalizeAll(rules.deny), path, normalized);
      AnyUnder(allow, NormalizeAll(allow), path, normalized);
    }
  }

  /** A verdict depends only on the segments that a path resolves to (and on whether there is a NUL). */
  lemma VerdictDependsOnSegments(rules: Rules, destructive: bool, a: string, b: string)
    requires NulFree(rules.deny) && NulFree(rules.allow)
    requires Segments(a) == Segments(b) && (NUL in a <==> NUL in b)
    ensures StringVerdict(rules, destructive, a) == StringVerdict(rules, destructive, b)
  {
    StringVerdictIsOnSegments(rules, destructive, a);
    StringVerdictIsOnSegments(rules, destructive, b);
  }

  /** A denied directory denies every descendant. */
  lemma DenialIsInherited(rules: Rules, destructive: bool, directory: string, descendant: string)
    requires NulFree(rules.deny) && NulFree(rules.allow)
    requires StringVerdict(rules, destructive, directory) == DeniedPrefix
    requires Segments(directory) <= Segments(descendant) && NUL !in descendant
    ensures StringVerdict(rules, destructive, descendant) == DeniedPrefix
  {
    hide StringVerdict, Segments;
    StringVerdictIsOnSegments(rules, destructive, directory);
    StringVerdictIsOnSegments(rules, destructive, descendant);
    var i :| 0 <= i < |rules.deny| && Segments(rules.deny[i]) <= Segments(directory);
    assert Segments(rules.deny[i]) <= Segments(descendant);
  }

  /** The path is at one of these places or below it. */
  ghost predicate IsBelow(path: string, places: seq<string>) {
    exists i :: 0 <= i < |places| && Segments(places[i]) <= Segments(path)
  }

  /** What is allowed of one path: there is no NUL in it, it is not below a denied place, and a destructive operation,
      unless these are allowed everywhere, stays below the places allowed or, if none are configured, the four that are
      by default. */
  ghost predicate MayTouch(rules: Rules, destructive: bool, path: string) {
    0 as char !in path && !IsBelow(path, rules.deny)
    && (destructive && !rules.allowDestructiveFs ==>
          IsBelow(path, if rules.allow != [] then rules.allow else ["/tmp", "/var/tmp", "/home", "/Users"]))
  }

  lemma DecisionMeans(rules: Rules, destructive: bool, path: string)
    ensures PathDecision(rules, destructive, path)
            == if 0 as char in path then NulByte
               else if IsBelow(path, rules.deny) then DeniedPrefix
               else if !MayTouch(rules, destructive, path) then OutsideAllowed
               else Allowed
  {
    hide Segments;
  }

  /** A request is allowed exactly when each of its paths may be touched, and otherwise the first path that may not be
      says why. */
  lemma {:induction false} AllowedExactlyWhen(rules: Rules, destructive: bool, paths: seq<string>)
    ensures PathsDecision(rules, destructive, paths) == Allowed
            <==> forall i :: 0 <= i < |paths| ==> MayTouch(rules, destructive, paths[i])
    ensures PathsDecision(rules, destructive, paths) != Allowed ==>
              exists i :: 0 <= i < |paths| && !MayTouch(rules, destructive, paths[i])
                          && (forall k :: 0 <= k < i ==> MayTouch(rules, destructive, paths[k]))
                          && PathsDecision(rules, destructive, paths)
                             == if 0 as char in paths[i] then NulByte
                                else if IsBelow(paths[i], rules.deny) then DeniedPrefix
                                else OutsideAllowed
  {
    hide MayTouch, IsBelow, PathDecision;
    if paths != [] {
      DecisionMeans(rules, destructive, paths[0]);
      MayTouchMeans(rules, destructive, paths[0]);
      AllowedExactlyWhen(rules, destructive, paths[1..]);
      assert paths == [paths[0]] + paths[1..];
      if MayTouch(rules, destructive, paths[0]) && PathsDecision(rules, destructive, paths[1..]) != Allowed {
        var i :| 0 <= i < |paths[1..]| && !MayTouch(rules, destructive, paths[1..][i])
                 && (forall k :: 0 <= k < i ==> MayTouch(rules, destructive, paths[1..][k]))
                 && PathsDecision(rules, destructive, paths[1..])
                    == if 0 as char in paths[1..][i] then NulByte
                       else if IsBelow(paths[1..][i], rules.deny) then DeniedPrefix
                       else OutsideAllowed;
        assert paths[i + 1] == paths[1..][i];
        forall k | 0 <= k < i + 1 ensures MayTouch(rules, destructive, paths[k]) {
          assert k > 0 ==> paths[k] == paths[1..][k - 1];
        }
      } else if !MayTouch(rules, destructive, paths[0]) {
        assert paths[0] == paths[0..][0];
      }
    }
  }

  lemma MayTouchMeans(rules: Rules, destructive: bool, path: string)
    ensures MayTouch(rules, destructive, path) ==> 0 as char !in path && !IsBelow(path, rules.deny)
  {
    hide Segments;
  }

  // ---- The agent (src/remote/policy.ts) ----

  /** `normalizePolicyPath`: at most one trailing slash goes, and nothing left means the root. */
  function NormalizePolicyPath(value: string): string {
    var n := PosixNormalize(Slashed(value));
    var cut := if n != "" && n[|n| - 1] == '/' then n[..|n| - 1] else n;
    if cut == "" then "/" else cut
  }

  predicate Matches(normalized: string, rawPrefix: string) {
    var prefix := NormalizePolicyPath(rawPrefix);
    if prefix == "/" then normalized == "/" else normalized == prefix || StartsWith(normalized, prefix + "/")
  }

  predicate IsPathAllowed(denyPaths: seq<string>, allowPaths: seq<string>, filePath: string) {
    var normalized := NormalizePolicyPath(filePath);
    && !(exists i :: 0 <= i < |denyPaths| && Matches(normalized, denyPaths[i]))
    && exists i :: 0 <= i < |allowPaths| && Matches(normalized, allowPaths[i])
  }

  /** The agent's rule on places: same origin, and a prefix of segments, except that a prefix without
      segments (the root, or the working directory) covers only itself. */
  predicate AgentCovers(prefix: Place, p: Place) {
    && prefix.absolute == p.absolute
    && if prefix.segments == [] then p.segments == [] else prefix.segments <= p.segments
  }

  lemma EmptyPath(value: string)
    ensures Slashed(value) == "" ==> PlaceOf(value).segments == []
  {}

  lemma PolicyPathIsPlace(value: string)
    ensures NormalizePolicyPath(value) == PlaceText(PlaceOf(value))
  {
    hide Walk, Slashed;
    var p := PlaceOf(value);
    EmptyPath(value);
    PlaceIsResolved(value);
    if p.segments != [] {
      JoinEnds(p.segments);
      TrailingSlash(PlaceText(p));
      assert PlaceText(p) == (if p.absolute then "/" else "") + Join(p.segments, '/');
    }
  }

  lemma TrailingSlash(text: string)
    ensures text + "" == text && (text + "/")[..|text + "/"| - 1] == text
  {}

  lemma MatchIsCover(value: string, rawPrefix: string)
    ensures Matches(NormalizePolicyPath(value), rawPrefix) <==> AgentCovers(PlaceOf(rawPrefix), PlaceOf(value))
  {
    var p, q := PlaceOf(value), PlaceOf(rawPrefix);
    PolicyPathIsPlace(value);
    PolicyPathIsPlace(rawPrefix);
    PlaceIsResolved(value);
    PlaceIsResolved(rawPrefix);
    if PlaceText(p) == PlaceText(q) {
      TextInjective(p, q);
    }
    if q.segments != [] {
      JoinEnds(q.segments);
      TextPrefix(p, q);
      PrefixCases(q.segments, p.segments);
    } else if !q.absolute {
      NothingUnderDot(p);
    }
  }

  lemma NothingUnderDot(p: Place)
    requires Resolved(p.absolute, p.segments)
    ensures !StartsWith(PlaceText(p), "./")
  {
    if StartsWith(PlaceText(p), "./") {
      var rest := PlaceText(p)[2..];
      assert PlaceText(p) == "." + ['/'] + rest;
      SplitOfSum(".", rest, '/');
      SplitOfPlain(".", '/');
      PlaceParts(p);
      DotIsNoPart(p);
    }
  }

  lemma DotIsNoPart(p: Place)
    requires Resolved(p.absolute, p.segments)
    ensures Split(PlaceText(p), '/')[0] == "." ==> |Split(PlaceText(p), '/')| == 1
  {
    PlaceParts(p);
    if p.segments != [] {
      assert IsSegment(p.segments[0]);
    }
  }

  /** The agent's verdict on segments. */
  lemma AgentVerdict(denyPaths: seq<string>, allowPaths: seq<string>, filePath: string)
    ensures IsPathAllowed(denyPaths, allowPaths, filePath)
       <==> && (forall i :: 0 <= i < |denyPaths| ==> !AgentCovers(PlaceOf(denyPaths[i]), PlaceOf(filePath)))
            && (exists i :: 0 <= i < |allowPaths| && AgentCovers(PlaceOf(allowPaths[i]), PlaceOf(filePath)))
  {
    forall i | 0 <= i < |denyPaths|
      ensures Matches(NormalizePolicyPath(filePath), denyPaths[i])
         <==> AgentCovers(PlaceOf(denyPaths[i]), PlaceOf(filePath))
    {
      MatchIsCover(filePath, denyPaths[i]);
    }
    forall i | 0 <= i < |allowPaths|
      ensures Matches(NormalizePolicyPath(filePath), allowPaths[i])
         <==> AgentCovers(PlaceOf(allowPaths[i]), PlaceOf(filePath))
    {
      MatchIsCover(filePath, allowPaths[i]);
    }
  }

  /** The two checks differ on `/` only: as an engine prefix it covers every path, as an agent prefix only
      the root. With any other absolute prefix they agree on absolute paths. */
  lemma RootPrefixDiffers(path: string, prefix: string)
    requires NUL !in path && NUL !in prefix && PlaceOf(path).absolute && PlaceOf(prefix).absolute
    ensures var engine :=
              IsPathUnder(NormalizeRemotePosixPath(path).value, NormalizeRemotePosixPath(prefix).value, '/');
            var agent := Matches(NormalizePolicyPath(path), prefix);
            && (engine && !agent <==> Segments(prefix) == [] && Segments(path) != [])
            && (agent ==> engine)
  {
    UnderIsSegmentPrefix(path, prefix);
    MatchIsCover(path, prefix);
  }
}
