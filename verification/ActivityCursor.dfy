/**
 * The cursor of the activity journal as the client holds it: the time and id of a row, as JSON text in
 * base64url. Decoding takes any text at all.
 */
module ActivityCursor {
  import opened Prelude

  // ----- base64url

  type Byte = n: nat | n < 256

  type Sextet = n: nat | n < 64

  function CharOf(n: Sextet): char {
    if n < 26 then 'A' + n as char
    else if n < 52 then 'a' + (n - 26) as char
    else if n < 62 then '0' + (n - 52) as char
    else if n == 62 then '-' else '_'
  }

  /** Both base64 alphabets are read; any other character is skipped. */
  function SextetOf(c: char): Option<Sextet> {
    if 'A' <= c <= 'Z' then Some((c - 'A') as nat)
    else if 'a' <= c <= 'z' then Some((c - 'a') as nat + 26)
    else if '0' <= c <= '9' then Some((c - '0') as nat + 52)
    else if c == '-' || c == '+' then Some(62)
    else if c == '_' || c == '/' then Some(63)
    else None
  }

  function First(a: Byte): (n: Sextet)
    ensures n == a / 4
  {
    a / 4
  }

  /** The low bits of `a` followed by the high bits of `b`. */
  function Second(a: Byte, b: Byte): (n: Sextet)
    ensures n / 16 == a % 4 && n % 16 == b / 16
  {
    assert a % 4 <= 3 && b / 16 <= 15;
    a % 4 * 16 + b / 16
  }

  function Third(b: Byte, c: Byte): (n: Sextet)
    ensures n / 4 == b % 16 && n % 4 == c / 64
  {
    assert b % 16 <= 15 && c / 64 <= 3;
    b % 16 * 4 + c / 64
  }

  function Sextets(bytes: seq<Byte>): seq<Sextet>
    decreases |bytes|
  {
    if |bytes| == 0 then []
    else if |bytes| == 1 then [First(bytes[0]), Second(bytes[0], 0)]
    else if |bytes| == 2 then [First(bytes[0]), Second(bytes[0], bytes[1]), Third(bytes[1], 0)]
    else [First(bytes[0]), Second(bytes[0], bytes[1]), Third(bytes[1], bytes[2]), bytes[2] % 64] + Sextets(bytes[3..])
  }

  /** Bits that do not fill a byte are dropped. */
  function Bytes(sextets: seq<Sextet>): seq<Byte>
    decreases |sextets|
  {
    if |sextets| < 2 then []
    else
      var a: int, b: int := sextets[0], sextets[1];
      var first: Byte := a * 4 + b / 16;
      if |sextets| == 2 then [first]
      else
        var c: int := sextets[2];
        var second: Byte := b % 16 * 16 + c / 4;
        if |sextets| == 3 then [first, second]
        else
          var d: int := sextets[3];
          var third: Byte := c % 4 * 64 + d;
          [first, second, third] + Bytes(sextets[4..])
  }

  lemma {:induction false} BytesOfSextets(bytes: seq<Byte>)
    ensures Bytes(Sextets(bytes)) == bytes
    decreases |bytes|
  {
    if |bytes| >= 3 {
      BytesOfSextets(bytes[3..]);
      assert Sextets(bytes)[4..] == Sextets(bytes[3..]);
      assert bytes == bytes[..3] + bytes[3..];
    }
  }

  function Written(sextets: seq<Sextet>): (text: string)
    ensures |text| == |sextets| && forall i :: 0 <= i < |text| ==> text[i] == CharOf(sextets[i])
  {
    seq(|sextets|, i requires 0 <= i < |sextets| => CharOf(sextets[i]))
  }

  function Read(text: string): seq<Sextet>
    decreases |text|
  {
    if text == "" then []
    else match SextetOf(text[0])
      case Some(n) => [n] + Read(text[1..])
      case None => Read(text[1..])
  }

  lemma {:induction false} ReadWritten(sextets: seq<Sextet>)
    ensures Read(Written(sextets)) == sextets
    decreases |sextets|
  {
    if sextets != [] {
      ReadWritten(sextets[1..]);
      assert Written(sextets)[1..] == Written(sextets[1..]);
      assert sextets == [sextets[0]] + sextets[1..];
    }
  }

  // ----- Characters

  /** ASCII text without quotes, backslashes or control characters. */
  predicate Plain(text: string) {
    forall i :: 0 <= i < |text| ==> PlainChar(text[i])
  }

  predicate PlainChar(c: char) {
    ' ' <= c <= '~' && c != '"' && c != '\\'
  }

  predicate Ascii(text: string) {
    forall i :: 0 <= i < |text| ==> text[i] as int < 128
  }

  function Encoded(text: string): (bytes: seq<Byte>)
    requires Ascii(text)
    ensures |bytes| == |text| && forall i :: 0 <= i < |text| ==> bytes[i] == text[i] as int
  {
    seq(|text|, i requires 0 <= i < |text| => text[i] as int)
  }

  function Decoded(bytes: seq<Byte>): (text: string)
    ensures |text| == |bytes|
    ensures forall i :: 0 <= i < |bytes| && bytes[i] < 128 ==> text[i] as int == bytes[i]
  {
    seq(|bytes|, i requires 0 <= i < |bytes| => if bytes[i] < 128 then bytes[i] as char else '\U{FFFD}')
  }

  // ----- JSON

  datatype Json =
    | Null
    | Bool(value: bool)
    | Number(digits: string)
    | Str(text: string)
    | Arr(items: seq<Json>)
    | Obj(fields: map<string, Json>)

  predicate IsSpace(c: char) {
    c == ' ' || c == '\t' || c == '\n' || c == '\r'
  }

  predicate IsDigit(c: char) {
    '0' <= c <= '9'
  }

  function SkipSpace(s: string, i: nat): (j: nat)
    requires i <= |s|
    ensures i <= j <= |s|
    decreases |s| - i
  {
    if i < |s| && IsSpace(s[i]) then SkipSpace(s, i + 1) else i
  }

  function SkipDigits(s: string, i: nat): (j: nat)
    requires i <= |s|
    ensures i <= j <= |s|
    decreases |s| - i
  {
    if i < |s| && IsDigit(s[i]) then SkipDigits(s, i + 1) else i
  }

  function HexDigit(c: char): Option<nat> {
    if IsDigit(c) then Some((c - '0') as nat)
    else if 'a' <= c <= 'f' then Some((c - 'a') as nat + 10)
    else if 'A' <= c <= 'F' then Some((c - 'A') as nat + 10)
    else None
  }

  /** Four hexadecimal digits; half of a surrogate pair reads as the replacement character. */
  function Hex4(s: string, i: nat): Option<char>
    requires i + 4 <= |s|
  {
    match (HexDigit(s[i]), HexDigit(s[i + 1]), HexDigit(s[i + 2]), HexDigit(s[i + 3]))
    case (Some(a), Some(b), Some(c), Some(d)) =>
      var code := a * 4096 + b * 256 + c * 16 + d;
      Some(if code < 0xD800 || 0xE000 <= code < 0x10000 then code as char else '\U{FFFD}')
    case _ => None
  }

  /** The character an escape stands for, and where it ends. */
  function Escape(s: string, i: nat): (r: Option<(char, nat)>)
    requires i < |s|
    ensures r.Some? ==> i < r.value.1 <= |s|
  {
    match s[i]
    case '"' => Some(('"', i + 1))
    case '\\' => Some(('\\', i + 1))
    case '/' => Some(('/', i + 1))
    case 'b' => Some((8 as char, i + 1))
    case 'f' => Some((12 as char, i + 1))
    case 'n' => Some(('\n', i + 1))
    case 'r' => Some(('\r', i + 1))
    case 't' => Some(('\t', i + 1))
    case 'u' =>
      if i + 5 > |s| || Hex4(s, i + 1).None? then None else Some((Hex4(s, i + 1).value, i + 5))
    case _ => None
  }

  /** The rest of a string literal, after its opening quote. */
  function ParseString(s: string, i: nat): (r: Option<(string, nat)>)
    requires i <= |s|
    ensures r.Some? ==> i < r.value.1 <= |s|
    decreases |s| - i
  {
    if i == |s| || s[i] < ' ' then None
    else if s[i] == '"' then Some(("", i + 1))
    else if s[i] != '\\' then Prepend(s[i], ParseString(s, i + 1))
    else if i + 1 == |s| || Escape(s, i + 1).None? then None
    else
      var (c, next) := Escape(s, i + 1).value;
      Prepend(c, ParseString(s, next))
  }

  function Prepend(c: char, rest: Option<(string, nat)>): Option<(string, nat)> {
    match rest
    case Some((text, next)) => Some(([c] + text, next))
    case None => None
  }

  function ParseNumber(s: string, i: nat): (r: Option<(Json, nat)>)
    requires i < |s|
    ensures r.Some? ==> i < r.value.1 <= |s|
  {
    var start := if s[i] == '-' then i + 1 else i;
    if start == |s| || !IsDigit(s[start]) then None
    else
      var whole := if s[start] == '0' then start + 1 else SkipDigits(s, start + 1);
      var fraction := if whole < |s| && s[whole] == '.' then SkipDigits(s, whole + 1) else whole;
      if fraction == whole + 1 then None
      else if fraction < |s| && (s[fraction] == 'e' || s[fraction] == 'E') then
        var sign := if fraction + 1 < |s| && (s[fraction + 1] == '+' || s[fraction + 1] == '-') then 2 else 1;
        var end := SkipDigits(s, fraction + sign);
        if end == fraction + sign then None else Some((Number(s[i..end]), end))
      else Some((Number(s[i..fraction]), fraction))
  }

  predicate LiteralAt(s: string, i: nat, word: string) {
    i + |word| <= |s| && s[i..i + |word|] == word
  }

  function ParseValue(s: string, start: nat): (r: Option<(Json, nat)>)
    requires start <= |s|
    ensures r.Some? ==> start < r.value.1 <= |s|
    decreases |s| - start, 1
  {
    var i := SkipSpace(s, start);
    if i == |s| then None
    else if s[i] == '"' then
      (match ParseString(s, i + 1)
       case Some((text, next)) => Some((Str(text), next))
       case None => None)
    else if s[i] == '{' then
      var j := SkipSpace(s, i + 1);
      if j < |s| && s[j] == '}' then Some((Obj(map[]), j + 1)) else ParseMembers(s, i + 1, map[])
    else if s[i] == '[' then
      var j := SkipSpace(s, i + 1);
      if j < |s| && s[j] == ']' then Some((Arr([]), j + 1)) else ParseItems(s, i + 1, [])
    else if LiteralAt(s, i, "true") then Some((Bool(true), i + 4))
    else if LiteralAt(s, i, "false") then Some((Bool(false), i + 5))
    else if LiteralAt(s, i, "null") then Some((Null, i + 4))
    else ParseNumber(s, i)
  }

  /** The remaining members of an object. A repeated name keeps its last value. */
  function ParseMembers(s: string, start: nat, fields: map<string, Json>): (r: Option<(Json, nat)>)
    requires start <= |s|
    ensures r.Some? ==> start < r.value.1 <= |s|
    decreases |s| - start, 0
  {
    var i := SkipSpace(s, start);
    if i == |s| || s[i] != '"' then None
    else match ParseString(s, i + 1)
      case None => None
      case Some((name, next)) =>
        match AfterName(s, next)
        case None => None
        case Some((value, after)) => AfterMember(s, after, fields[name := value])
  }

  function AfterName(s: string, start: nat): (r: Option<(Json, nat)>)
    requires start <= |s|
    ensures r.Some? ==> start < r.value.1 <= |s|
    decreases |s| - start, 0
  {
    var i := SkipSpace(s, start);
    if i == |s| || s[i] != ':' then None else ParseValue(s, i + 1)
  }

  function AfterMember(s: string, start: nat, fields: map<string, Json>): (r: Option<(Json, nat)>)
    requires start <= |s|
    ensures r.Some? ==> start < r.value.1 <= |s|
    decreases |s| - start, 0
  {
    var i := SkipSpace(s, start);
    if i == |s| then None
    else if s[i] == '}' then Some((Obj(fields), i + 1))
    else if s[i] == ',' then ParseMembers(s, i + 1, fields)
    else None
  }

  function ParseItems(s: string, start: nat, items: seq<Json>): (r: Option<(Json, nat)>)
    requires start <= |s|
    ensures r.Some? ==> start < r.value.1 <= |s|
    decreases |s| - start, 2
  {
    match ParseValue(s, start)
    case None => None
    case Some((value, after)) =>
      var j := SkipSpace(s, after);
      if j == |s| then None
      else if s[j] == ']' then Some((Arr(items + [value]), j + 1))
      else if s[j] == ',' then ParseItems(s, j + 1, items + [value])
      else None
  }

  /** `JSON.parse` */
  function ParseJson(s: string): Option<Json> {
    match ParseValue(s, 0)
    case Some((value, next)) => if SkipSpace(s, next) == |s| then Some(value) else None
    case None => None
  }

  // ----- The cursor

  /** Where a page ends: the time and id of its last row. */
  datatype Key = Key(at: int, id: string)

  /** Dates as text: `toISOString`, and the parsing of `new Date(text)`. */
  datatype Dates = Dates(iso: int -> string, parse: string -> Option<int>)

  ghost predicate Lawful(dates: Dates) {
    forall at :: Plain(dates.iso(at)) && dates.parse(dates.iso(at)) == Some(at)
  }

  /** `JSON.stringify({ at, id })` */
  function Stringify(at: string, id: string): string {
    "{\"at\":\"" + at + "\",\"id\":\"" + id + "\"}"
  }

  lemma PlainIsAscii(at: string, id: string)
    requires Plain(at) && Plain(id)
    ensures Ascii(Stringify(at, id))
  {
    var s := Stringify(at, id);
    assert s == "{\"at\":\"" + (at + ("\",\"id\":\"" + (id + "\"}")));
    assert forall i :: 0 <= i < |at| ==> PlainChar(at[i]);
    assert forall i :: 0 <= i < |id| ==> PlainChar(id[i]);
  }

  function EncodeCursor(dates: Dates, last: Key): string
    requires Plain(dates.iso(last.at)) && Plain(last.id)
  {
    PlainIsAscii(dates.iso(last.at), last.id);
    Written(Sextets(Encoded(Stringify(dates.iso(last.at), last.id))))
  }

  /** No cursor, text that is not JSON, missing or non-text members and unreadable dates all mean the first page. */
  function DecodeCursor(dates: Dates, cursor: Option<string>): Option<Key> {
    if cursor.None? || cursor.value == "" then None
    else match ParseJson(Decoded(Bytes(Read(cursor.value))))
      case Some(Obj(fields)) =>
        if "at" in fields && fields["at"].Str? && "id" in fields && fields["id"].Str? then
          match dates.parse(fields["at"].text)
          case Some(at) => Some(Key(at, fields["id"].text))
          case None => None
        else None
      case _ => None
  }

  // ----- Round trip

  lemma {:induction false} PlainString(s: string, i: nat, text: string)
    requires Plain(text) && i + |text| < |s| && s[i..i + |text|] == text && s[i + |text|] == '"'
    ensures ParseString(s, i) == Some((text, i + |text| + 1))
    decreases |text|
  {
    if text != "" {
      assert s[i] == text[0] && PlainChar(text[0]);
      assert s[i + 1..i + |text|] == text[1..];
      PlainString(s, i + 1, text[1..]);
      assert [text[0]] + text[1..] == text;
    }
  }

  /** The text stands at `i`, in quotes. */
  predicate Quoted(s: string, i: nat, text: string) {
    i + |text| + 1 < |s| && s[i] == '"' && s[i + 1..i + 1 + |text|] == text && s[i + 1 + |text|] == '"'
  }

  lemma ParsesQuoted(s: string, i: nat, text: string)
    requires Plain(text) && Quoted(s, i, text)
    ensures ParseString(s, i + 1) == Some((text, i + |text| + 2))
    ensures ParseValue(s, i) == Some((Str(text), i + |text| + 2))
  {
    PlainString(s, i + 1, text);
  }

  lemma NamedParsed(s: string, colon: nat)
    requires colon < |s| && s[colon] == ':'
    ensures AfterName(s, colon) == ParseValue(s, colon + 1)
  {
    assert SkipSpace(s, colon) == colon;
  }

  lemma ParsesNamed(s: string, colon: nat, text: string)
    requires Plain(text) && colon < |s| && s[colon] == ':' && Quoted(s, colon + 1, text)
    ensures AfterName(s, colon) == Some((Str(text), colon + |text| + 3))
  {
    NamedParsed(s, colon);
    ParsesQuoted(s, colon + 1, text);
  }

  /** A member of the cursor's object. */
  lemma ParsesMember(s: string, i: nat, name: string, text: string, fields: map<string, Json>)
    requires Plain(name) && Quoted(s, i, name) && i + |name| + 2 < |s| && s[i + |name| + 2] == ':'
    requires Plain(text) && Quoted(s, i + |name| + 3, text)
    ensures ParseMembers(s, i, fields) == AfterMember(s, i + |name| + |text| + 5, fields[name := Str(text)])
  {
    ParsesQuoted(s, i, name);
    ParsesNamed(s, i + |name| + 2, text);
    MemberParsed(s, i, name, i + |name| + 2, Str(text), i + |name| + |text| + 5, fields);
  }

  lemma MemberParsed(s: string, i: nat, name: string, colon: nat, value: Json, end: nat, fields: map<string, Json>)
    requires i < |s| && s[i] == '"' && colon <= |s| && end <= |s|
    requires ParseString(s, i + 1) == Some((name, colon)) && AfterName(s, colon) == Some((value, end))
    ensures ParseMembers(s, i, fields) == AfterMember(s, end, fields[name := value])
  {
  }

  /** Where each part of the text stands. */
  predicate LaidOut(s: string, at: string, id: string) {
    var n, m := |at|, |id|;
    && |s| == n + m + 17
    && s[0] == '{' && Quoted(s, 1, "at") && s[5] == ':' && Quoted(s, 6, at) && s[8 + n] == ','
    && Quoted(s, 9 + n, "id") && s[13 + n] == ':' && Quoted(s, 14 + n, id) && s[16 + n + m] == '}'
  }

  lemma StringifyLaysOut(at: string, id: string)
    ensures LaidOut(Stringify(at, id), at, id)
  {
    var s, n, m := Stringify(at, id), |at|, |id|;
    var head, middle, tail := s[..7], s[7 + n..15 + n], s[15 + n + m..];
    assert head == "{\"at\":\"" && middle == "\",\"id\":\"" && tail == "\"}";
    assert s[2..4] == head[2..4] && s[10 + n..12 + n] == middle[3..5];
    assert s[7..7 + n] == at && s[15 + n..15 + n + m] == id;
    assert middle[0] == s[7 + n] && middle[1] == s[8 + n] && middle[2] == s[9 + n];
    assert middle[5] == s[12 + n] && middle[6] == s[13 + n] && middle[7] == s[14 + n];
    assert tail[0] == s[15 + n + m] && tail[1] == s[16 + n + m];
  }

  /** The second member and the closing brace. */
  lemma ParsesId(s: string, at: string, id: string, fields: map<string, Json>)
    requires Plain(at) && Plain(id) && LaidOut(s, at, id)
    ensures ParseMembers(s, |at| + 9, fields) == Some((Obj(fields["id" := Str(id)]), |s|))
  {
    ParsesMember(s, |at| + 9, "id", id, fields);
  }

  lemma AtComma(s: string, i: nat, fields: map<string, Json>)
    requires i < |s| && s[i] == ','
    ensures AfterMember(s, i, fields) == ParseMembers(s, i + 1, fields)
  {
  }

  lemma ParsesObject(s: string, at: string, id: string)
    requires Plain(at) && Plain(id) && LaidOut(s, at, id)
    ensures ParseMembers(s, 1, map[]) == Some((Obj(map["at" := Str(at), "id" := Str(id)]), |s|))
  {
    ParsesMember(s, 1, "at", at, map[]);
    AtComma(s, |at| + 8, map["at" := Str(at)]);
    ParsesId(s, at, id, map["at" := Str(at)]);
  }

  lemma ParsesWhole(s: string, at: string, id: string)
    requires Plain(at) && Plain(id) && LaidOut(s, at, id)
    ensures ParseJson(s) == Some(Obj(map["at" := Str(at), "id" := Str(id)]))
  {
    ParsesObject(s, at, id);
    assert SkipSpace(s, 0) == 0 && SkipSpace(s, 1) == 1;
  }

  lemma ParsesItself(at: string, id: string)
    requires Plain(at) && Plain(id)
    ensures ParseJson(Stringify(at, id)) == Some(Obj(map["at" := Str(at), "id" := Str(id)]))
  {
    StringifyLaysOut(at, id);
    ParsesWhole(Stringify(at, id), at, id);
  }

  /** Whatever row a page ends with, its cursor leads back to it. */
  lemma CursorRoundTrips(dates: Dates, key: Key)
    requires Lawful(dates) && Plain(key.id)
    ensures DecodeCursor(dates, Some(EncodeCursor(dates, key))) == Some(key)
  {
    var json := Stringify(dates.iso(key.at), key.id);
    PlainIsAscii(dates.iso(key.at), key.id);
    ReadWritten(Sextets(Encoded(json)));
    BytesOfSextets(Encoded(json));
    assert Decoded(Encoded(json)) == json;
    ParsesItself(dates.iso(key.at), key.id);
  }
}
