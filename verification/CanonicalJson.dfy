/** The canonical form of a JSON value that every signature is computed over (src/remote/crypto.ts). */
module CanonicalJson {
  import opened JsText

  // ---- Values ----

  /** A JavaScript value. A number is carried as the token JSON.stringify prints for it. */
  datatype Json =
    | Null
    | Bool(b: bool)
    | Num(token: Text)
    | Str(s: Text)
    | Arr(items: seq<Json>)
    | Obj(fields: seq<Field>)
    | Undefined

  datatype Field = Field(key: Text, value: Json)

  /** What a value means: objects are maps, without order and without undefined members. */
  datatype Doc =
    | DNull
    | DBool(b: bool)
    | DNum(token: Text)
    | DStr(s: Text)
    | DArr(items: seq<Doc>)
    | DObj(fields: map<Text, Doc>)

  predicate IsNumberUnit(c: CodeUnit) {
    '0' as int <= c as int <= '9' as int || c as int == '-' as int || c as int == '+' as int
    || c as int == '.' as int || c as int == 'e' as int
  }

  predicate IsNumber(token: Text) {
    token != [] && forall i :: 0 <= i < |token| ==> IsNumberUnit(token[i])
  }

  predicate DistinctKeys(fields: seq<Field>) {
    forall i, j :: 0 <= i < j < |fields| ==> fields[i].key != fields[j].key
  }

  /** A JSON value: no undefined except as a member of an object, and no key twice. */
  predicate IsJson(v: Json) {
    match v
    case Undefined => false
    case Num(token) => IsNumber(token)
    case Arr(items) => forall i :: 0 <= i < |items| ==> IsJson(items[i])
    case Obj(fields) =>
      DistinctKeys(fields) && forall i :: 0 <= i < |fields| ==> fields[i].value.Undefined? || IsJson(fields[i].value)
    case _ => true
  }

  predicate IsDoc(d: Doc) {
    match d
    case DNum(token) => IsNumber(token)
    case DArr(items) => forall i :: 0 <= i < |items| ==> IsDoc(items[i])
    case DObj(fields) => forall k :: k in fields ==> IsDoc(fields[k])
    case _ => true
  }

  function Denote(v: Json): Doc {
    match v
    case Null => DNull
    case Bool(b) => DBool(b)
    case Num(token) => DNum(token)
    case Str(s) => DStr(s)
    case Arr(items) => DArr(DenoteItems(items))
    case Obj(fields) => DObj(DenoteFields(fields))
    case Undefined => DNull
  }

  function DenoteItems(items: seq<Json>): seq<Doc> {
    if items == [] then [] else [Denote(items[0])] + DenoteItems(items[1..])
  }

  function DenoteFields(fields: seq<Field>): map<Text, Doc> {
    if fields == [] then map[]
    else if fields[0].value.Undefined? then DenoteFields(fields[1..])
    else DenoteFields(fields[1..])[fields[0].key := Denote(fields[0].value)]
  }

  // ---- Printing, as the source does it ----

  const QUOTE: CodeUnit := 34
  const BACKSLASH: CodeUnit := 92
  const COMMA: CodeUnit := 44
  const COLON: CodeUnit := 58
  const OPEN_BRACKET: CodeUnit := 91
  const CLOSE_BRACKET: CodeUnit := 93
  const OPEN_BRACE: CodeUnit := 123
  const CLOSE_BRACE: CodeUnit := 125
  const LETTER_U: CodeUnit := 117
  const NULL_TEXT: Text := [110, 117, 108, 108]
  const TRUE_TEXT: Text := [116, 114, 117, 101]
  const FALSE_TEXT: Text := [102, 97, 108, 115, 101]

  predicate IsHighSurrogate(c: CodeUnit) { 0xd800 <= c < 0xdc00 }

  predicate IsLowSurrogate(c: CodeUnit) { 0xdc00 <= c < 0xe000 }

  function HexDigit(d: int): CodeUnit
    requires 0 <= d < 16
  {
    if d < 10 then (48 + d) as CodeUnit else (87 + d) as CodeUnit
  }

  function UnicodeEscape(c: CodeUnit): Text {
    var n := c as int;
    [BACKSLASH, LETTER_U, HexDigit(n / 4096), HexDigit(n / 256 % 16), HexDigit(n / 16 % 16), HexDigit(n % 16)]
  }

  /** One code unit inside a string literal of JSON.stringify. */
  function EscapeUnit(c: CodeUnit): Text {
    if c == 8 then [BACKSLASH, 98]
    else if c == 9 then [BACKSLASH, 116]
    else if c == 10 then [BACKSLASH, 110]
    else if c == 12 then [BACKSLASH, 102]
    else if c == 13 then [BACKSLASH, 114]
    else if c == QUOTE then [BACKSLASH, QUOTE]
    else if c == BACKSLASH then [BACKSLASH, BACKSLASH]
    else if c < 32 || IsHighSurrogate(c) || IsLowSurrogate(c) then UnicodeEscape(c)
    else [c]
  }

  /** A surrogate pair is written as it is, a lone surrogate escaped. */
  function Escape(s: Text): Text {
    if s == [] then []
    else if |s| > 1 && IsHighSurrogate(s[0]) && IsLowSurrogate(s[1]) then s[..2] + Escape(s[2..])
    else EscapeUnit(s[0]) + Escape(s[1..])
  }

  function Quoted(s: Text): Text { [QUOTE] + Escape(s) + [QUOTE] }

  function JoinComma(parts: seq<Text>): Text {
    if parts == [] then []
    else if |parts| == 1 then parts[0]
    else parts[0] + [COMMA] + JoinComma(parts[1..])
  }

  datatype Member = Member(key: Text, text: Text)

  function InsertMember(m: Member, ms: seq<Member>): seq<Member> {
    if ms == [] || Less(m.key, ms[0].key) then [m] + ms else [ms[0]] + InsertMember(m, ms[1..])
  }

  /** `.sort` with the key comparison of the source. */
  function SortMembers(ms: seq<Member>): seq<Member> {
    if ms == [] then [] else InsertMember(ms[0], SortMembers(ms[1..]))
  }

  function MemberTexts(ms: seq<Member>): seq<Text> {
    if ms == [] then [] else [Quoted(ms[0].key) + [COLON] + ms[0].text] + MemberTexts(ms[1..])
  }

  function Canonical(v: Json): Text {
    match v
    case Null => NULL_TEXT
    case Bool(b) => if b then TRUE_TEXT else FALSE_TEXT
    case Num(token) => token
    case Str(s) => Quoted(s)
    case Arr(items) => [OPEN_BRACKET] + JoinComma(CanonicalItems(items)) + [CLOSE_BRACKET]
    case Obj(fields) => [OPEN_BRACE] + JoinComma(MemberTexts(SortMembers(CanonicalMembers(fields)))) + [CLOSE_BRACE]
    case Undefined => []
  }

  function CanonicalItems(items: seq<Json>): seq<Text> {
    if items == [] then [] else [Canonical(items[0])] + CanonicalItems(items[1..])
  }

  /** The entries that are not undefined, each value printed. */
  function CanonicalMembers(fields: seq<Field>): seq<Member> {
    if fields == [] then []
    else if fields[0].value.Undefined? then CanonicalMembers(fields[1..])
    else [Member(fields[0].key, Canonical(fields[0].value))] + CanonicalMembers(fields[1..])
  }

  // ---- The reference: print the meaning, keys ascending (section 3.2.3 of RFC 8785) ----

  ghost function Print(d: Doc): Text
    decreases d, 0
  {
    match d
    case DNull => NULL_TEXT
    case DBool(b) => if b then TRUE_TEXT else FALSE_TEXT
    case DNum(token) => token
    case DStr(s) => Quoted(s)
    case DArr(items) => [OPEN_BRACKET] + JoinComma(PrintItems(items)) + [CLOSE_BRACKET]
    case DObj(fields) => [OPEN_BRACE] + JoinComma(PrintMembers(d, SortedKeys(fields.Keys))) + [CLOSE_BRACE]
  }

  ghost function PrintItems(items: seq<Doc>): seq<Text> {
    if items == [] then [] else [Print(items[0])] + PrintItems(items[1..])
  }

  ghost function PrintMembers(d: Doc, keys: seq<Text>): seq<Text>
    requires d.DObj? && forall k :: k in keys ==> k in d.fields
    decreases d, 0, |keys|
  {
    if keys == [] then []
    else
      assert keys[0] in d.fields;
      assert forall k :: k in keys[1..] ==> k in keys;
      [Quoted(keys[0]) + [COLON] + Print(d.fields[keys[0]])] + PrintMembers(d, keys[1..])
  }

  // ---- The source's print is the reference print of the meaning ----

  function Keys(ms: seq<Member>): (r: seq<Text>)
    ensures |r| == |ms|
  {
    seq(|ms|, i requires 0 <= i < |ms| => ms[i].key)
  }

  lemma {:induction false} InsertMemberKeys(m: Member, ms: seq<Member>)
    ensures Keys(InsertMember(m, ms)) == Insert(m.key, Keys(ms))
    ensures forall x :: x in InsertMember(m, ms) <==> x == m || x in ms
  {
    if ms == [] || Less(m.key, ms[0].key) {
      assert Keys([m] + ms) == [m.key] + Keys(ms);
    } else {
      InsertMemberKeys(m, ms[1..]);
      assert ms == [ms[0]] + ms[1..];
      assert Keys(ms)[1..] == Keys(ms[1..]);
      assert Keys([ms[0]] + InsertMember(m, ms[1..])) == [ms[0].key] + Keys(InsertMember(m, ms[1..]));
    }
  }

  /** Sorting orders the members by key and keeps exactly them. */
  lemma {:induction false} SortedMembers(ms: seq<Member>)
    requires forall i, j :: 0 <= i < j < |ms| ==> ms[i].key != ms[j].key
    ensures Ascending(Keys(SortMembers(ms)))
    ensures forall m :: m in SortMembers(ms) <==> m in ms
  {
    if ms != [] {
      SortedMembers(ms[1..]);
      var rest := SortMembers(ms[1..]);
      InsertMemberKeys(ms[0], rest);
      assert ms == [ms[0]] + ms[1..];
      forall i | 0 <= i < |rest| ensures rest[i].key != ms[0].key {
        assert rest[i] in ms[1..];
      }
      InsertKeepsOrder(ms[0].key, Keys(rest));
    }
  }

  /** The members print the fields of the document, each once. */
  ghost predicate Describes(ms: seq<Member>, fields: map<Text, Doc>) {
    && (forall m :: m in ms ==> m.key in fields && m.text == Print(fields[m.key]))
    && (forall k :: k in fields ==> exists m :: m in ms && m.key == k)
  }

  lemma {:induction false} MembersDescribe(fields: seq<Field>)
    requires IsJson(Obj(fields))
    ensures IsDoc(DObj(DenoteFields(fields))) && Describes(CanonicalMembers(fields), DenoteFields(fields))
    ensures forall i, j :: 0 <= i < j < |CanonicalMembers(fields)| ==>
              CanonicalMembers(fields)[i].key != CanonicalMembers(fields)[j].key
    ensures forall k :: k in DenoteFields(fields) ==> exists i :: 0 <= i < |fields| && fields[i].key == k
    decreases fields
  {
    if fields != [] {
      var f, tail := fields[0], fields[1..];
      assert forall i :: 0 <= i < |tail| ==> tail[i] == fields[i + 1];
      MembersDescribe(tail);
      assert f.key !in DenoteFields(tail);
      forall k | k in DenoteFields(tail) ensures exists i :: 0 <= i < |fields| && fields[i].key == k {
        var i :| 0 <= i < |tail| && tail[i].key == k;
        assert fields[i + 1].key == k;
      }
      if !f.value.Undefined? {
        CanonicalIsPrint(f.value);
        AddMember(Member(f.key, Canonical(f.value)), Denote(f.value), CanonicalMembers(tail), DenoteFields(tail));
      }
    }
  }

  lemma AddMember(m: Member, d: Doc, ms: seq<Member>, fields: map<Text, Doc>)
    requires Describes(ms, fields) && m.key !in fields && m.text == Print(d)
    requires forall i, j :: 0 <= i < j < |ms| ==> ms[i].key != ms[j].key
    ensures Describes([m] + ms, fields[m.key := d])
    ensures forall i, j :: 0 <= i < j < |[m] + ms| ==> ([m] + ms)[i].key != ([m] + ms)[j].key
  {
    hide Print;
    forall k | k in fields.Keys + {m.key} ensures exists x :: x in [m] + ms && x.key == k {
      if k == m.key {
        assert m in [m] + ms;
      } else {
        var x :| x in ms && x.key == k;
        assert x in [m] + ms;
      }
    }
  }

  lemma {:induction false} ItemsArePrint(items: seq<Json>)
    requires forall i :: 0 <= i < |items| ==> IsJson(items[i])
    ensures CanonicalItems(items) == PrintItems(DenoteItems(items))
    ensures IsDoc(DArr(DenoteItems(items)))
    decreases items
  {
    if items != [] {
      CanonicalIsPrint(items[0]);
      ItemsArePrint(items[1..]);
      assert ([Denote(items[0])] + DenoteItems(items[1..]))[1..] == DenoteItems(items[1..]);
    }
  }

  lemma {:induction false} TextsArePrint(ms: seq<Member>, d: Doc)
    requires d.DObj? && forall m :: m in ms ==> m.key in d.fields && m.text == Print(d.fields[m.key])
    requires forall k :: k in Keys(ms) ==> k in d.fields
    ensures MemberTexts(ms) == PrintMembers(d, Keys(ms))
  {
    if ms != [] {
      assert ms[0] in ms;
      assert forall m :: m in ms[1..] ==> m in ms;
      assert Keys(ms)[1..] == Keys(ms[1..]);
      assert Keys(ms)[0] == ms[0].key;
      TextsArePrint(ms[1..], d);
    }
  }

  /** What the source prints depends only on the meaning, and is its reference print. */
  lemma {:induction false} CanonicalIsPrint(v: Json)
    requires IsJson(v)
    ensures IsDoc(Denote(v)) && Canonical(v) == Print(Denote(v))
    decreases v
  {
    match v {
      case Arr(items) => ItemsArePrint(items);
      case Obj(fields) =>
        MembersDescribe(fields);
        ObjectIsPrint(CanonicalMembers(fields), DObj(DenoteFields(fields)));
      case _ =>
    }
  }

  lemma ObjectIsPrint(ms: seq<Member>, d: Doc)
    requires d.DObj? && Describes(ms, d.fields)
    requires forall i, j :: 0 <= i < j < |ms| ==> ms[i].key != ms[j].key
    ensures [OPEN_BRACE] + JoinComma(MemberTexts(SortMembers(ms))) + [CLOSE_BRACE] == Print(d)
  {
    var sorted := SortMembers(ms);
    SortedMembers(ms);
    forall k ensures k in Keys(sorted) <==> k in SortedKeys(d.fields.Keys) {
      if k in Keys(sorted) {
        var i :| 0 <= i < |sorted| && sorted[i].key == k;
        assert sorted[i] in ms;
      }
      if k in d.fields {
        var m :| m in ms && m.key == k;
        assert m in sorted;
        var i :| 0 <= i < |sorted| && sorted[i] == m;
        assert Keys(sorted)[i] == k;
      }
    }
    AscendingIsUnique(Keys(sorted), SortedKeys(d.fields.Keys));
    TextsArePrint(sorted, d);
  }

  // ---- Reading it back ----

  datatype StringRead = NoString | StringRead(s: Text, rest: Text)

  datatype Parsed = Fail | Got(doc: Doc, rest: Text)

  datatype ItemsRead = NoItems | ItemsRead(items: seq<Doc>, rest: Text)

  datatype MembersRead = NoMembers | MembersRead(fields: map<Text, Doc>, rest: Text)

  function HexValue(c: CodeUnit): int {
    if 48 <= c <= 57 then c as int - 48 else if 97 <= c <= 102 then c as int - 87 else -1
  }

  /** The unit a two-character escape stands for. */
  function Unescaped(c: CodeUnit): int {
    if c == 98 then 8 else if c == 116 then 9 else if c == 110 then 10 else if c == 102 then 12
    else if c == 114 then 13 else if c == QUOTE || c == BACKSLASH then c as int else -1
  }

  function PrependUnit(c: CodeUnit, r: StringRead): StringRead {
    if r.NoString? then NoString else StringRead([c] + r.s, r.rest)
  }

  function HexUnit(t: Text): int
    requires |t| == 4
  {
    var a, b, c, d := HexValue(t[0]), HexValue(t[1]), HexValue(t[2]), HexValue(t[3]);
    if a < 0 || b < 0 || c < 0 || d < 0 then -1 else 4096 * a + 256 * b + 16 * c + d
  }

  /** After an opening quote. */
  function ReadString(t: Text): (r: StringRead)
    ensures r.StringRead? ==> |r.rest| < |t|
  {
    if t == [] then NoString
    else if t[0] == QUOTE then StringRead([], t[1..])
    else if t[0] != BACKSLASH then PrependUnit(t[0], ReadString(t[1..]))
    else if |t| >= 6 && t[1] == LETTER_U then
      var unit := HexUnit(t[2..6]);
      if 0 <= unit < 0x1_0000 then PrependUnit(unit as CodeUnit, ReadString(t[6..])) else NoString
    else if |t| >= 2 && Unescaped(t[1]) >= 0 then PrependUnit(Unescaped(t[1]) as CodeUnit, ReadString(t[2..]))
    else NoString
  }

  function NumberLength(t: Text): (n: nat)
    ensures n <= |t|
  {
    if t == [] || !IsNumberUnit(t[0]) then 0 else 1 + NumberLength(t[1..])
  }

  function ParseValue(t: Text): (r: Parsed)
    ensures r.Got? ==> |r.rest| < |t|
    decreases |t|, 0
  {
    if t == [] then Fail
    else if t[0] == QUOTE then
      var s := ReadString(t[1..]);
      if s.NoString? then Fail else Got(DStr(s.s), s.rest)
    else if t[0] == OPEN_BRACKET then
      if |t| > 1 && t[1] == CLOSE_BRACKET then Got(DArr([]), t[2..])
      else
        var r := ParseItems(t[1..]);
        if r.NoItems? then Fail else Got(DArr(r.items), r.rest)
    else if t[0] == OPEN_BRACE then
      if |t| > 1 && t[1] == CLOSE_BRACE then Got(DObj(map[]), t[2..])
      else
        var r := ParseMembers(t[1..]);
        if r.NoMembers? then Fail else Got(DObj(r.fields), r.rest)
    else if NULL_TEXT <= t then Got(DNull, t[4..])
    else if TRUE_TEXT <= t then Got(DBool(true), t[4..])
    else if FALSE_TEXT <= t then Got(DBool(false), t[5..])
    else
      var n := NumberLength(t);
      if n == 0 then Fail else Got(DNum(t[..n]), t[n..])
  }

  /** After an opening bracket: values separated by commas up to the closing one. */
  function ParseItems(t: Text): (r: ItemsRead)
    ensures r.ItemsRead? ==> |r.rest| < |t|
    decreases |t|, 1
  {
    match ParseValue(t)
    case Fail => NoItems
    case Got(doc, rest) =>
      if rest == [] then NoItems
      else if rest[0] == CLOSE_BRACKET then ItemsRead([doc], rest[1..])
      else if rest[0] == COMMA then
        var more := ParseItems(rest[1..]);
        if more.NoItems? then NoItems else ItemsRead([doc] + more.items, more.rest)
      else NoItems
  }

  /** After an opening brace: a key, a colon and a value, and so on up to the closing brace. */
  function ParseMembers(t: Text): (r: MembersRead)
    ensures r.MembersRead? ==> |r.rest| < |t|
    decreases |t|, 1
  {
    if t == [] || t[0] != QUOTE then NoMembers
    else
      match ReadString(t[1..])
      case NoString => NoMembers
      case StringRead(key, after) =>
        if after == [] || after[0] != COLON then NoMembers
        else
          match ParseValue(after[1..])
          case Fail => NoMembers
          case Got(doc, rest) =>
            if rest == [] then NoMembers
            else if rest[0] == CLOSE_BRACE then MembersRead(map[key := doc], rest[1..])
            else if rest[0] == COMMA then
              var more := ParseMembers(rest[1..]);
              if more.NoMembers? then NoMembers else MembersRead(more.fields[key := doc], more.rest)
            else NoMembers
  }

  /** What follows cannot be taken for more of a number. */
  predicate EndsNumber(rest: Text) { rest == [] || !IsNumberUnit(rest[0]) }

  lemma HexDigitValue(d: int)
    requires 0 <= d < 16
    ensures HexValue(HexDigit(d)) == d
  {}

  lemma FourDigits(n: nat)
    ensures n == 4096 * (n / 4096) + 256 * (n / 256 % 16) + 16 * (n / 16 % 16) + n % 16
  {
    assert n / 16 / 16 == n / 256 && n / 256 / 16 == n / 4096;
  }

  lemma HexRoundTrip(c: CodeUnit)
    ensures HexUnit(UnicodeEscape(c)[2..6]) == c as int
  {
    var n := c as int;
    FourDigits(n);
    HexDigitValue(n / 4096);
    HexDigitValue(n / 256 % 16);
    HexDigitValue(n / 16 % 16);
    HexDigitValue(n % 16);
    hide HexDigit, HexValue;
    var t := UnicodeEscape(c)[2..6];
    assert t == [HexDigit(n / 4096), HexDigit(n / 256 % 16), HexDigit(n / 16 % 16), HexDigit(n % 16)];
  }

  lemma EscapedUnitReadsBack(c: CodeUnit, tail: Text)
    ensures ReadString(EscapeUnit(c) + tail) == PrependUnit(c, ReadString(tail))
  {
    var e := EscapeUnit(c);
    assert (e + tail)[|e|..] == tail;
    if |e| == 6 {
      HexRoundTrip(c);
      assert (e + tail)[2..6] == UnicodeEscape(c)[2..6];
    }
  }

  lemma RawUnitReadsBack(c: CodeUnit, tail: Text)
    requires c != QUOTE && c != BACKSLASH
    ensures ReadString([c] + tail) == PrependUnit(c, ReadString(tail))
  {
    assert ([c] + tail)[1..] == tail;
  }

  /** A quoted string is read back, whatever follows. */
  lemma {:induction false} StringReadsBack(s: Text, rest: Text)
    ensures ReadString(Escape(s) + ([QUOTE] + rest)) == StringRead(s, rest)
  {
    hide ReadString, EscapeUnit;
    var end := [QUOTE] + rest;
    if s == [] {
      EndOfString(rest);
      assert Escape(s) + end == end;
    } else if |s| > 1 && IsHighSurrogate(s[0]) && IsLowSurrogate(s[1]) {
      StringReadsBack(s[2..], rest);
      PairReadsBack(s, Escape(s[2..]), end);
    } else {
      StringReadsBack(s[1..], rest);
      EscapedUnitReadsBack(s[0], Escape(s[1..]) + end);
      Assoc(EscapeUnit(s[0]), Escape(s[1..]), end);
      assert s == [s[0]] + s[1..];
    }
  }

  lemma Assoc(a: Text, b: Text, c: Text)
    ensures a + b + c == a + (b + c)
  {}

  lemma PairReadsBack(s: Text, escaped: Text, end: Text)
    requires |s| > 1 && IsHighSurrogate(s[0]) && IsLowSurrogate(s[1])
    requires ReadString(escaped + end).StringRead? && ReadString(escaped + end).s == s[2..]
    ensures ReadString(s[..2] + escaped + end) == StringRead(s, ReadString(escaped + end).rest)
  {
    hide ReadString;
    var tail := escaped + end;
    assert s[..2] + escaped + end == [s[0]] + ([s[1]] + tail);
    RawUnitReadsBack(s[1], tail);
    RawUnitReadsBack(s[0], [s[1]] + tail);
    assert s == [s[0]] + ([s[1]] + s[2..]);
  }

  lemma EndOfString(rest: Text)
    ensures ReadString([QUOTE] + rest) == StringRead([], rest)
  {
    assert ([QUOTE] + rest)[1..] == rest;
  }

  lemma {:induction false} NumberReadsBack(token: Text, rest: Text)
    requires (forall i :: 0 <= i < |token| ==> IsNumberUnit(token[i])) && EndsNumber(rest)
    ensures NumberLength(token + rest) == |token|
  {
    if token == [] {
      assert token + rest == rest;
    } else {
      assert (token + rest)[1..] == token[1..] + rest;
      NumberReadsBack(token[1..], rest);
    }
  }

  /** How a printed value begins. */
  lemma PrintStarts(d: Doc)
    requires IsDoc(d)
    ensures Print(d) != [] && Print(d)[0] != CLOSE_BRACKET && Print(d)[0] != CLOSE_BRACE && Print(d)[0] != COMMA
  {}

  lemma StringValueReadsBack(s: Text, rest: Text)
    ensures ParseValue(Quoted(s) + rest) == Got(DStr(s), rest)
  {
    var t := Quoted(s) + rest;
    assert t[1..] == Escape(s) + ([QUOTE] + rest);
    StringReadsBack(s, rest);
  }

  lemma NumberValueReadsBack(token: Text, rest: Text)
    requires IsNumber(token) && EndsNumber(rest)
    ensures ParseValue(token + rest) == Got(DNum(token), rest)
  {
    NumberReadsBack(token, rest);
    assert (token + rest)[0] == token[0] && IsNumberUnit(token[0]);
    assert (token + rest)[..|token|] == token && (token + rest)[|token|..] == rest;
  }

  lemma LiteralsReadBack(b: bool, rest: Text)
    ensures ParseValue(NULL_TEXT + rest) == Got(DNull, rest)
    ensures ParseValue((if b then TRUE_TEXT else FALSE_TEXT) + rest) == Got(DBool(b), rest)
  {
    assert (NULL_TEXT + rest)[4..] == rest;
    assert (TRUE_TEXT + rest)[4..] == rest;
    assert (FALSE_TEXT + rest)[5..] == rest;
  }

  /** The closing or separating unit after a value. */
  lemma {:induction false} ItemsReadBack(items: seq<Doc>, rest: Text)
    requires items != [] && forall i :: 0 <= i < |items| ==> IsDoc(items[i])
    ensures ParseItems(JoinComma(PrintItems(items)) + ([CLOSE_BRACKET] + rest)) == ItemsRead(items, rest)
    decreases items, 1
  {
    var after := [CLOSE_BRACKET] + rest;
    if |items| == 1 {
      ValueReadsBack(items[0], after);
      LastItem(items[0], rest);
    } else {
      ItemsReadBack(items[1..], rest);
      var tail := JoinComma(PrintItems(items[1..])) + after;
      ValueReadsBack(items[0], [COMMA] + tail);
      ItemShape(items, after);
      NextItem(items[0], tail);
      hide Print, ParseItems, JoinComma;
      assert items == [items[0]] + items[1..];
    }
  }

  lemma LastItem(d: Doc, rest: Text)
    requires ParseValue(Print(d) + ([CLOSE_BRACKET] + rest)) == Got(d, [CLOSE_BRACKET] + rest)
    ensures ParseItems(JoinComma(PrintItems([d])) + ([CLOSE_BRACKET] + rest)) == ItemsRead([d], rest)
  {
    hide Print, ParseValue;
    assert PrintItems([d]) == [Print(d)];
    assert ([CLOSE_BRACKET] + rest)[1..] == rest;
  }

  lemma NextItem(d: Doc, tail: Text)
    requires ParseValue(Print(d) + ([COMMA] + tail)) == Got(d, [COMMA] + tail)
    ensures var more := ParseItems(tail);
            ParseItems(Print(d) + ([COMMA] + tail))
            == if more.NoItems? then NoItems else ItemsRead([d] + more.items, more.rest)
  {
    hide Print, ParseValue;
    assert ([COMMA] + tail)[1..] == tail;
  }

  lemma ItemShape(items: seq<Doc>, after: Text)
    requires |items| > 1
    ensures JoinComma(PrintItems(items)) + after
         == Print(items[0]) + ([COMMA] + (JoinComma(PrintItems(items[1..])) + after))
  {
    hide Print;
    JoinFirst(Print(items[0]), PrintItems(items[1..]), after);
  }

  lemma JoinFirst(first: Text, others: seq<Text>, after: Text)
    requires others != []
    ensures JoinComma([first] + others) + after == first + ([COMMA] + (JoinComma(others) + after))
  {
    assert ([first] + others)[1..] == others;
    hide JoinComma;
    Assoc(first, [COMMA] + JoinComma(others), after);
    Assoc([COMMA], JoinComma(others), after);
    Assoc(first, [COMMA], JoinComma(others));
  }

  function FieldsOf(d: Doc, keys: seq<Text>): map<Text, Doc>
    requires d.DObj? && forall k :: k in keys ==> k in d.fields
  {
    map k | k in keys :: d.fields[k]
  }

  lemma {:induction false} MembersReadBack(d: Doc, keys: seq<Text>, rest: Text)
    requires IsDoc(d) && d.DObj? && keys != [] && forall k :: k in keys ==> k in d.fields
    ensures ParseMembers(JoinComma(PrintMembers(d, keys)) + ([CLOSE_BRACE] + rest))
         == MembersRead(FieldsOf(d, keys), rest)
    decreases d, 0, |keys|
  {
    assert keys[0] in keys && forall k :: k in keys[1..] ==> k in keys;
    var key, value := keys[0], d.fields[keys[0]];
    var after := [CLOSE_BRACE] + rest;
    if |keys| == 1 {
      ValueReadsBack(value, after);
      LastMember(d, key, value, rest);
      assert keys == [key];
    } else {
      MembersReadBack(d, keys[1..], rest);
      var tail := JoinComma(PrintMembers(d, keys[1..])) + after;
      ValueReadsBack(value, [COMMA] + tail);
      NextMember(key, value, tail);
      MemberShape(d, keys, after);
      FieldsFirst(d, keys);
    }
  }

  lemma FieldsFirst(d: Doc, keys: seq<Text>)
    requires d.DObj? && keys != [] && forall k :: k in keys ==> k in d.fields
    requires forall k :: k in keys[1..] ==> k in d.fields
    ensures keys[0] in d.fields && FieldsOf(d, keys) == FieldsOf(d, keys[1..])[keys[0] := d.fields[keys[0]]]
  {
    assert keys[0] in keys;
    assert keys == [keys[0]] + keys[1..];
  }

  lemma MemberShape(d: Doc, keys: seq<Text>, after: Text)
    requires d.DObj? && |keys| > 1 && forall k :: k in keys ==> k in d.fields
    requires forall k :: k in keys[1..] ==> k in d.fields
    ensures keys[0] in d.fields
    ensures JoinComma(PrintMembers(d, keys)) + after
         == Quoted(keys[0])
            + ([COLON] + (Print(d.fields[keys[0]]) + ([COMMA] + (JoinComma(PrintMembers(d, keys[1..])) + after))))
  {
    hide Print, Quoted;
    assert keys[0] in keys;
    var key, value := Quoted(keys[0]), Print(d.fields[keys[0]]);
    var others := PrintMembers(d, keys[1..]);
    assert PrintMembers(d, keys) == [key + [COLON] + value] + others;
    assert |others| == |keys[1..]| by { CountMembers(d, keys[1..]); }
    JoinFirst(key + [COLON] + value, others, after);
    hide JoinComma, PrintMembers;
    Assoc(key + [COLON], value, [COMMA] + (JoinComma(others) + after));
    Assoc(key, [COLON], value + ([COMMA] + (JoinComma(others) + after)));
  }

  lemma {:induction false} CountMembers(d: Doc, keys: seq<Text>)
    requires d.DObj? && forall k :: k in keys ==> k in d.fields
    ensures |PrintMembers(d, keys)| == |keys|
  {
    hide Print, Quoted;
    if keys != [] {
      assert keys[0] in keys && forall k :: k in keys[1..] ==> k in keys;
      CountMembers(d, keys[1..]);
    }
  }

  lemma KeyReadsBack(key: Text, rest: Text)
    ensures var t := Quoted(key) + ([COLON] + rest);
            && t[0] == QUOTE
            && ReadString(t[1..]) == StringRead(key, [COLON] + rest)
            && ([COLON] + rest)[1..] == rest
  {
    var t := Quoted(key) + ([COLON] + rest);
    assert t[1..] == Escape(key) + ([QUOTE] + ([COLON] + rest));
    StringReadsBack(key, [COLON] + rest);
  }

  lemma NextMember(key: Text, value: Doc, tail: Text)
    requires ParseValue(Print(value) + ([COMMA] + tail)) == Got(value, [COMMA] + tail)
    ensures var more := ParseMembers(tail);
            ParseMembers(Quoted(key) + ([COLON] + (Print(value) + ([COMMA] + tail))))
            == if more.NoMembers? then NoMembers else MembersRead(more.fields[key := value], more.rest)
  {
    hide Print, Quoted, ReadString, ParseValue;
    KeyReadsBack(key, Print(value) + ([COMMA] + tail));
    assert ([COMMA] + tail)[1..] == tail;
  }

  lemma LastMember(d: Doc, key: Text, value: Doc, rest: Text)
    requires d.DObj? && key in d.fields && d.fields[key] == value
    requires ParseValue(Print(value) + ([CLOSE_BRACE] + rest)) == Got(value, [CLOSE_BRACE] + rest)
    ensures ParseMembers(JoinComma(PrintMembers(d, [key])) + ([CLOSE_BRACE] + rest))
         == MembersRead(FieldsOf(d, [key]), rest)
  {
    hide Print, Quoted, ReadString, ParseValue;
    KeyReadsBack(key, Print(value) + ([CLOSE_BRACE] + rest));
    assert PrintMembers(d, [key]) == [Quoted(key) + [COLON] + Print(value)];
    assert JoinComma(PrintMembers(d, [key])) + ([CLOSE_BRACE] + rest)
        == Quoted(key) + ([COLON] + (Print(value) + ([CLOSE_BRACE] + rest)));
    assert ([CLOSE_BRACE] + rest)[1..] == rest;
    assert FieldsOf(d, [key]) == map[key := value];
  }

  /** Reading undoes printing, whatever follows, as long as it cannot continue a number. */
  lemma {:induction false} ValueReadsBack(d: Doc, rest: Text)
    requires IsDoc(d) && EndsNumber(rest)
    ensures ParseValue(Print(d) + rest) == Got(d, rest)
    decreases d, 1
  {
    match d {
      case DNull => LiteralsReadBack(true, rest);
      case DBool(b) => LiteralsReadBack(b, rest);
      case DNum(token) => NumberValueReadsBack(token, rest);
      case DStr(s) => StringValueReadsBack(s, rest);
      case DArr(items) =>
        if items != [] {
          ItemsReadBack(items, rest);
        }
        ArrayReadsBack(items, rest);
      case DObj(fields) =>
        var keys := SortedKeys(fields.Keys);
        if keys != [] {
          MembersReadBack(d, keys, rest);
        }
        ObjectReadsBack(d, keys, rest);
    }
  }

  lemma ArrayReadsBack(items: seq<Doc>, rest: Text)
    requires forall i :: 0 <= i < |items| ==> IsDoc(items[i])
    requires items != [] ==>
               ParseItems(JoinComma(PrintItems(items)) + ([CLOSE_BRACKET] + rest)) == ItemsRead(items, rest)
    ensures ParseValue(Print(DArr(items)) + rest) == Got(DArr(items), rest)
  {
    hide ParseItems, Print;
    var inside := JoinComma(PrintItems(items)) + ([CLOSE_BRACKET] + rest);
    ArrayShape(items, rest);
    assert ([OPEN_BRACKET] + inside)[1..] == inside;
    if items == [] {
      assert inside == [CLOSE_BRACKET] + rest;
      assert ([OPEN_BRACKET] + inside)[2..] == rest;
    } else {
      ArrayStarts(items, [CLOSE_BRACKET] + rest);
    }
  }

  lemma ArrayShape(items: seq<Doc>, rest: Text)
    ensures Print(DArr(items)) + rest == [OPEN_BRACKET] + (JoinComma(PrintItems(items)) + ([CLOSE_BRACKET] + rest))
  {}

  lemma ArrayStarts(items: seq<Doc>, after: Text)
    requires items != [] && forall i :: 0 <= i < |items| ==> IsDoc(items[i])
    ensures var inside := JoinComma(PrintItems(items)) + after; inside != [] && inside[0] != CLOSE_BRACKET
  {
    PrintStarts(items[0]);
    hide Print;
    if |items| > 1 {
      ItemShape(items, after);
    } else {
      assert PrintItems(items) == [Print(items[0])];
    }
  }

  lemma ObjectReadsBack(d: Doc, keys: seq<Text>, rest: Text)
    requires d.DObj? && keys == SortedKeys(d.fields.Keys)
    requires keys != [] ==>
               ParseMembers(JoinComma(PrintMembers(d, keys)) + ([CLOSE_BRACE] + rest))
               == MembersRead(FieldsOf(d, keys), rest)
    ensures ParseValue(Print(d) + rest) == Got(d, rest)
  {
    hide ParseMembers, Print;
    var inside := JoinComma(PrintMembers(d, keys)) + ([CLOSE_BRACE] + rest);
    ObjectShape(d, rest);
    assert ([OPEN_BRACE] + inside)[1..] == inside;
    if keys == [] {
      assert inside == [CLOSE_BRACE] + rest;
      assert ([OPEN_BRACE] + inside)[2..] == rest;
      assert d.fields == map[];
    } else {
      ObjectStarts(d, keys, [CLOSE_BRACE] + rest);
      assert FieldsOf(d, keys) == d.fields;
    }
  }

  lemma ObjectShape(d: Doc, rest: Text)
    requires d.DObj?
    ensures Print(d) + rest
         == [OPEN_BRACE] + (JoinComma(PrintMembers(d, SortedKeys(d.fields.Keys))) + ([CLOSE_BRACE] + rest))
  {}

  lemma ObjectStarts(d: Doc, keys: seq<Text>, after: Text)
    requires d.DObj? && keys != [] && forall k :: k in keys ==> k in d.fields
    ensures var inside := JoinComma(PrintMembers(d, keys)) + after; inside != [] && inside[0] == QUOTE
  {
    hide Print;
    assert keys[0] in keys && forall k :: k in keys[1..] ==> k in keys;
    assert PrintMembers(d, keys)[0][0] == QUOTE;
  }

  // ---- The law ----

  /** Two JSON values have the same canonical form exactly when they are equal up to the order of object
      members and members that are undefined. */
  lemma CanonicalIsInjective(a: Json, b: Json)
    requires IsJson(a) && IsJson(b)
    ensures Canonical(a) == Canonical(b) <==> Denote(a) == Denote(b)
  {
    CanonicalIsPrint(a);
    CanonicalIsPrint(b);
    if Canonical(a) == Canonical(b) {
      PrintIsInjective(Denote(a), Denote(b));
    }
  }

  lemma PrintIsInjective(a: Doc, b: Doc)
    requires IsDoc(a) && IsDoc(b) && Print(a) == Print(b)
    ensures a == b
  {
    ValueReadsBack(a, []);
    ValueReadsBack(b, []);
  }

  /** Outside JSON the law fails: an undefined array element is printed as nothing. */
  lemma UndefinedElementCollides()
    ensures Canonical(Arr([Undefined])) == Canonical(Arr([]))
  {
    assert CanonicalItems([Undefined]) == [[]];
  }
}
