/** The HTTP request parser: examples/http/HttpContext.cpp and examples/http/HttpRequest.h, over chaonet's Buffer.
    The grammar is that of sections 3 and 5 of RFC 9112. */
module HttpSpec {
  import opened Buffers

  type Timestamp = int

  datatype Method = Invalid | Get | Post | Head | Put | Delete

  datatype Version = Unknown | Http10 | Http11

  datatype Request = Request(
    verb: Method, version: Version, path: string, query: string, receiveTime: Timestamp, headers: map<string, string>)

  datatype ParseState = ExpectRequestLine | ExpectHeaders | ExpectBody | GotAll

  datatype Context = Context(state: ParseState, request: Request)

  const FRESH := Request(Invalid, Unknown, "", "", 0, map[])
  const START := Context(ExpectRequestLine, FRESH)
  const CRLF: string := "\r\n"

  /** std::find: the offset of the first c, or the length. */
  function Find(s: string, c: char): (k: nat)
    ensures k <= |s| && (k < |s| ==> s[k] == c) && c !in s[..k]
  {
    if s == "" || s[0] == c then 0
    else
      var k := Find(s[1..], c);
      assert s[..k + 1] == [s[0]] + s[1..][..k];
      k + 1
  }

  function MethodOf(m: string): Method {
    if m == "GET" then Get
    else if m == "POST" then Post
    else if m == "HEAD" then Head
    else if m == "PUT" then Put
    else if m == "DELETE" then Delete
    else Invalid
  }

  function VersionOf(v: string): Version {
    if |v| == 8 && v[..7] == "HTTP/1." then
      if v[7] == '1' then Http11 else if v[7] == '0' then Http10 else Unknown
    else Unknown
  }

  function SetTarget(r: Request, target: string): Request {
    var question := Find(target, '?');
    if question < |target| then r.(path := target[..question], query := target[question..]) else r.(path := target)
  }

  /** The target and version of a request line whose method is known. */
  function ProcessTarget(r: Request, rest: string): (Request, bool) {
    var space := Find(rest, ' ');
    if space == |rest| then (r, false)
    else
      var r1, v := SetTarget(r, rest[..space]), VersionOf(rest[space + 1..]);
      if v == Unknown then (r1, false) else (r1.(version := v), true)
  }

  /** What the line leaves in the request, and whether it is accepted; a refused line may already have set some
      fields. */
  function ProcessRequestLine(r: Request, line: string): (Request, bool) {
    var space := Find(line, ' ');
    if space == |line| then (r, false)
    else
      var r1 := r.(verb := MethodOf(line[..space]));
      if r1.verb == Invalid then (r1, false) else ProcessTarget(r1, line[space + 1..])
  }

  predicate IsSpace(c: char) {
    c == ' ' || c == '\t' || c == '\n' || c == '\U{000B}' || c == '\U{000C}' || c == '\r'
  }

  function TrimLeft(s: string): string {
    if s != "" && IsSpace(s[0]) then TrimLeft(s[1..]) else s
  }

  function TrimRight(s: string): string {
    if s != "" && IsSpace(s[|s| - 1]) then TrimRight(s[..|s| - 1]) else s
  }

  function AddHeader(r: Request, line: string): Request
    requires ':' in line
  {
    var colon := Find(line, ':');
    assert line[..|line|] == line;
    r.(headers := r.headers[line[..colon] := TrimRight(TrimLeft(line[colon + 1..]))])
  }

  /** How a call of parseRequest ends: it returns ok and leaves rest in the buffer, or it loops for ever. */
  datatype Outcome = Returns(context: Context, rest: string, ok: bool) | Spins

  function ParseHeaders(r: Request, buf: string): Outcome
    decreases |buf|
  {
    match FindCRLF(buf)
    case None => Spins
    case Some(k) =>
      if ':' in buf[..k] then ParseHeaders(AddHeader(r, buf[..k]), buf[k + 2..])
      else Returns(Context(GotAll, r), buf[k + 2..], true)
  }

  function ParseRequest(c: Context, buf: string, time: Timestamp): Outcome {
    match c.state
    case ExpectRequestLine =>
      (match FindCRLF(buf)
       case None => Returns(c, buf, true)
       case Some(k) =>
         var (r, ok) := ProcessRequestLine(c.request, buf[..k]);
         if ok then ParseHeaders(r.(receiveTime := time), buf[k + 2..])
         else Returns(c.(request := r), buf, false))
    case ExpectHeaders => ParseHeaders(c.request, buf)
    case _ => Spins
  }

  // The request printer: request lines and field lines as RFC 9112 writes them.

  /** name ":" OWS value OWS */
  datatype Field = Field(name: string, before: string, value: string, after: string)

  datatype Message = Message(verb: Method, path: string, query: string, version: Version, fields: seq<Field>)

  predicate Blank(s: string) {
    forall i :: 0 <= i < |s| ==> s[i] == ' ' || s[i] == '\t'
  }

  /** Wider than section 5 of RFC 9112: a name need not be a token, only free of colons and CR. */
  predicate FieldOk(f: Field) {
    && ':' !in f.name && '\r' !in f.name
    && Blank(f.before) && Blank(f.after)
    && '\r' !in f.value
    && (f.value != "" ==> !IsSpace(f.value[0]) && !IsSpace(f.value[|f.value| - 1]))
  }

  /** Wider than section 3 of RFC 9112: any target free of spaces and CR. */
  predicate MessageOk(m: Message) {
    && m.verb != Invalid && m.version != Unknown
    && ' ' !in m.path && '?' !in m.path && '\r' !in m.path
    && ' ' !in m.query && '\r' !in m.query && (m.query != "" ==> m.query[0] == '?')
    && forall i :: 0 <= i < |m.fields| ==> FieldOk(m.fields[i])
  }

  function MethodString(m: Method): string {
    match m
    case Get => "GET"
    case Post => "POST"
    case Head => "HEAD"
    case Put => "PUT"
    case Delete => "DELETE"
    case Invalid => "UNKNOWN"
  }

  function VersionString(v: Version): string {
    match v
    case Http11 => "HTTP/1.1"
    case Http10 => "HTTP/1.0"
    case Unknown => ""
  }

  function RequestLine(m: Method, target: string, v: Version): string {
    MethodString(m) + [' '] + (target + [' '] + VersionString(v))
  }

  function FieldLine(f: Field): string {
    f.name + [':'] + (f.before + f.value + f.after)
  }

  function PrintFields(fields: seq<Field>): string {
    if fields == [] then "" else FieldLine(fields[0]) + CRLF + PrintFields(fields[1..])
  }

  function Print(m: Message): string {
    RequestLine(m.verb, m.path + m.query, m.version) + CRLF + (PrintFields(m.fields) + CRLF)
  }

  function PrintAll(ms: seq<Message>): string {
    if ms == [] then "" else Print(ms[0]) + PrintAll(ms[1..])
  }

  /** Later fields of the same name replace earlier ones. */
  function HeaderMap(headers: map<string, string>, fields: seq<Field>): map<string, string>
    decreases |fields|
  {
    if fields == [] then headers else HeaderMap(headers[fields[0].name := fields[0].value], fields[1..])
  }

  function Meaning(m: Message, time: Timestamp): Request {
    Request(m.verb, m.version, m.path, m.query, time, HeaderMap(map[], m.fields))
  }

  /** HttpServer's use: parse, take the request when it is complete, reset; n times over. */
  function Serve(c: Context, buf: string, times: seq<Timestamp>): (seq<Request>, string)
    decreases |times|
  {
    if times == [] then ([], buf)
    else
      match ParseRequest(c, buf, times[0])
      case Spins => ([], buf)
      case Returns(c', rest, ok) =>
        if ok && c'.state == GotAll then
          var (more, tail) := Serve(START, rest, times[1..]);
          ([c'.request] + more, tail)
        else ([], rest)
  }

  // Lines.

  lemma FindAt(a: string, c: char, b: string)
    requires c !in a
    ensures Find(a + [c] + b, c) == |a|
  {
    var s := a + [c] + b;
    var k := Find(s, c);
    assert s[|a|] == c;
    assert forall i :: 0 <= i < |a| ==> s[i] == a[i];
  }

  lemma FindNone(s: string, c: char)
    requires c !in s
    ensures Find(s, c) == |s|
  {}

  predicate IsLine(s: string) {
    FindCRLF(s) == None
  }

  lemma NoCRIsLine(s: string)
    requires '\r' !in s
    ensures IsLine(s)
  {}

  /** A line without a CRLF of its own ends at the CRLF that follows it, even if its last byte is a CR. */
  lemma LineEnds(line: string, rest: string)
    requires IsLine(line)
    ensures FindCRLF(line + CRLF + rest) == Some(|line|)
    ensures (line + CRLF + rest)[..|line|] == line && (line + CRLF + rest)[|line| + 2..] == rest
  {
    var s := line + CRLF + rest;
    assert IsCRLF(s, |line|);
    forall i | 0 <= i < |line| ensures !IsCRLF(s, i) {
      assert !IsCRLF(line, i);
      assert s[i] == line[i] && s[i + 1] == if i + 1 < |line| then line[i + 1] else '\r';
    }
    FirstCRLF(s, |line|);
  }

  lemma {:induction false} TrimLeftBlank(before: string, s: string)
    requires Blank(before) && s != "" && !IsSpace(s[0])
    ensures TrimLeft(before + s) == s
  {
    if before == "" {
      assert before + s == s;
    } else {
      TrimLeftBlank(before[1..], s);
      assert (before + s)[1..] == before[1..] + s;
    }
  }

  lemma {:induction false} TrimAllBlank(s: string)
    requires Blank(s)
    ensures TrimLeft(s) == ""
  {
    if s != "" {
      TrimAllBlank(s[1..]);
    }
  }

  lemma {:induction false} TrimRightBlank(s: string, after: string)
    requires Blank(after) && s != "" && !IsSpace(s[|s| - 1])
    ensures TrimRight(s + after) == s
    decreases |after|
  {
    if after == "" {
      assert s + after == s;
    } else {
      TrimRightBlank(s, after[..|after| - 1]);
      assert (s + after)[..|s + after| - 1] == s + after[..|after| - 1];
    }
  }

  lemma Trimmed(before: string, value: string, after: string)
    requires Blank(before) && Blank(after)
    requires value != "" ==> !IsSpace(value[0]) && !IsSpace(value[|value| - 1])
    ensures TrimRight(TrimLeft(before + value + after)) == value
  {
    if value != "" {
      TrimLeftBlank(before, value + after);
      assert before + value + after == before + (value + after);
      TrimRightBlank(value, after);
    } else {
      assert before + value + after == before + after;
      assert Blank(before + after);
      TrimAllBlank(before + after);
    }
  }

  lemma TargetSplits(r: Request, path: string, query: string)
    requires '?' !in path && (query != "" ==> query[0] == '?') && r.query == ""
    ensures SetTarget(r, path + query) == r.(path := path, query := query)
  {
    var target := path + query;
    if query == "" {
      assert target == path;
      FindNone(path, '?');
    } else {
      assert target == path + ['?'] + query[1..];
      FindAt(path, '?', query[1..]);
    }
  }

  lemma WordsParse(m: Method, v: Version)
    ensures m != Invalid ==> MethodOf(MethodString(m)) == m && ' ' !in MethodString(m) && '\r' !in MethodString(m)
    ensures v != Unknown ==> VersionOf(VersionString(v)) == v && '\r' !in VersionString(v)
  {
    assert v == Http11 ==> VersionString(v)[..7] == "HTTP/1.";
    assert v == Http10 ==> VersionString(v)[..7] == "HTTP/1.";
  }

  lemma TargetParses(r: Request, target: string, last: string)
    requires ' ' !in target && VersionOf(last) != Unknown
    ensures ProcessTarget(r, target + [' '] + last) == (SetTarget(r, target).(version := VersionOf(last)), true)
  {
    var rest := target + [' '] + last;
    FindAt(target, ' ', last);
    assert rest[..|target|] == target && rest[|target| + 1..] == last;
  }

  lemma MethodParses(r: Request, word: string, rest: string)
    requires ' ' !in word && MethodOf(word) != Invalid
    ensures ProcessRequestLine(r, word + [' '] + rest) == ProcessTarget(r.(verb := MethodOf(word)), rest)
  {
    var line := word + [' '] + rest;
    FindAt(word, ' ', rest);
    assert line[..|word|] == word && line[|word| + 1..] == rest;
  }

  lemma RequestLineParses(r: Request, m: Method, target: string, v: Version)
    requires m != Invalid && v != Unknown && ' ' !in target
    ensures ProcessRequestLine(r, RequestLine(m, target, v)) == (SetTarget(r.(verb := m), target).(version := v), true)
  {
    WordsParse(m, v);
    MethodParses(r, MethodString(m), target + [' '] + VersionString(v));
    TargetParses(r.(verb := m), target, VersionString(v));
  }

  lemma MethodWord(word: string)
    requires MethodOf(word) != Invalid
    ensures MethodString(MethodOf(word)) == word
  {}

  lemma VersionWord(word: string)
    requires VersionOf(word) != Unknown
    ensures VersionString(VersionOf(word)) == word
  {
    assert word == word[..7] + [word[7]];
  }

  lemma AcceptedTarget(r: Request, rest: string) returns (target: string, v: Version)
    requires ProcessTarget(r, rest).1
    ensures v != Unknown && ' ' !in target && rest == target + [' '] + VersionString(v)
  {
    var space := Find(rest, ' ');
    target, v := rest[..space], VersionOf(rest[space + 1..]);
    VersionWord(rest[space + 1..]);
  }

  lemma SplitsAt(s: string, c: char)
    requires Find(s, c) < |s|
    ensures s == s[..Find(s, c)] + [c] + s[Find(s, c) + 1..]
  {}

  lemma AcceptedMethod(r: Request, line: string) returns (m: Method, rest: string)
    requires ProcessRequestLine(r, line).1
    ensures m != Invalid && line == MethodString(m) + [' '] + rest && ProcessTarget(r.(verb := m), rest).1
  {
    var word := line[..Find(line, ' ')];
    SplitsAt(line, ' ');
    m, rest := MethodOf(word), line[Find(line, ' ') + 1..];
    MethodWord(word);
  }

  lemma AcceptedLine(r: Request, line: string) returns (m: Method, target: string, v: Version)
    requires ProcessRequestLine(r, line).1
    ensures m != Invalid && v != Unknown && ' ' !in target && line == RequestLine(m, target, v)
  {
    var rest: string;
    m, rest := AcceptedMethod(r, line);
    target, v := AcceptedTarget(r.(verb := m), rest);
  }

  /** A request line is accepted exactly when it is a known method, a target without spaces and HTTP/1.0 or HTTP/1.1,
      one space apart. */
  lemma AcceptedLines(r: Request, line: string)
    ensures ProcessRequestLine(r, line).1 <==>
            exists m, target, v :: m != Invalid && v != Unknown && ' ' !in target && line == RequestLine(m, target, v)
  {
    if ProcessRequestLine(r, line).1 {
      var m, target, v := AcceptedLine(r, line);
    }
    forall m, target, v | m != Invalid && v != Unknown && ' ' !in target && line == RequestLine(m, target, v)
      ensures ProcessRequestLine(r, line).1
    {
      RequestLineParses(r, m, target, v);
    }
  }

  lemma FieldParses(r: Request, f: Field)
    requires FieldOk(f)
    ensures ':' in FieldLine(f) && AddHeader(r, FieldLine(f)) == r.(headers := r.headers[f.name := f.value])
  {
    var line, text := FieldLine(f), f.before + f.value + f.after;
    assert line[|f.name|] == ':';
    FindAt(f.name, ':', text);
    assert line[..|f.name|] == f.name && line[|f.name| + 1..] == text;
    Trimmed(f.before, f.value, f.after);
  }

  lemma {:induction false} FieldsParse(r: Request, fields: seq<Field>, rest: string)
    requires forall i :: 0 <= i < |fields| ==> FieldOk(fields[i])
    ensures ParseHeaders(r, PrintFields(fields) + CRLF + rest)
         == Returns(Context(GotAll, r.(headers := HeaderMap(r.headers, fields))), rest, true)
    decreases |fields|
  {
    if fields == [] {
      LineEnds("", rest);
      assert PrintFields(fields) + CRLF + rest == "" + CRLF + rest;
    } else {
      var f, line := fields[0], FieldLine(fields[0]);
      var after := PrintFields(fields[1..]) + CRLF + rest;
      assert PrintFields(fields) + CRLF + rest == line + CRLF + after;
      NoCRIsLine(line);
      LineEnds(line, after);
      FieldParses(r, f);
      FieldsParse(r.(headers := r.headers[f.name := f.value]), fields[1..], rest);
    }
  }

  lemma OneParses(m: Message, rest: string, time: Timestamp)
    requires MessageOk(m)
    ensures ParseRequest(START, Print(m) + rest, time) == Returns(Context(GotAll, Meaning(m, time)), rest, true)
  {
    var line := RequestLine(m.verb, m.path + m.query, m.version);
    var fields := PrintFields(m.fields) + CRLF + rest;
    WordsParse(m.verb, m.version);
    assert Print(m) + rest == line + CRLF + fields;
    NoCRIsLine(line);
    LineEnds(line, fields);
    RequestLineParses(FRESH, m.verb, m.path + m.query, m.version);
    TargetSplits(FRESH.(verb := m.verb), m.path, m.query);
    var r := ProcessRequestLine(FRESH, line).0.(receiveTime := time);
    FieldsParse(r, m.fields, rest);
  }

  function Meanings(ms: seq<Message>, times: seq<Timestamp>): seq<Request>
    requires |times| == |ms|
  {
    if ms == [] then [] else [Meaning(ms[0], times[0])] + Meanings(ms[1..], times[1..])
  }

  /** Parsing undoes printing: from any number of complete requests followed by anything at all, repeated parsing and
      resetting recovers each request in order and leaves what follows them. */
  lemma {:induction false} ParseUndoesPrint(ms: seq<Message>, tail: string, times: seq<Timestamp>)
    requires |times| == |ms| && forall i :: 0 <= i < |ms| ==> MessageOk(ms[i])
    ensures Serve(START, PrintAll(ms) + tail, times) == (Meanings(ms, times), tail)
    decreases |ms|
  {
    if ms == [] {
      assert PrintAll(ms) + tail == tail;
    } else {
      var rest := PrintAll(ms[1..]) + tail;
      assert PrintAll(ms) + tail == Print(ms[0]) + rest;
      OneParses(ms[0], rest, times[0]);
      ParseUndoesPrint(ms[1..], tail, times[1..]);
    }
  }

  lemma {:induction false} NamesSent(headers: map<string, string>, fields: seq<Field>, name: string)
    ensures name in HeaderMap(headers, fields)
            <==> name in headers || exists i :: 0 <= i < |fields| && fields[i].name == name
    decreases |fields|
  {
    if fields != [] {
      NamesSent(headers[fields[0].name := fields[0].value], fields[1..], name);
      assert forall j :: 0 < j < |fields| ==> fields[j] == fields[1..][j - 1];
      assert forall j :: 0 <= j < |fields| - 1 ==> fields[1..][j] == fields[j + 1];
    }
  }

  predicate NotAgain(fields: seq<Field>, i: nat, name: string) {
    forall j :: i <= j < |fields| ==> fields[j].name != name
  }

  lemma {:induction false} OthersKeep(headers: map<string, string>, fields: seq<Field>, name: string)
    requires NotAgain(fields, 0, name) && name in headers
    ensures name in HeaderMap(headers, fields) && HeaderMap(headers, fields)[name] == headers[name]
    decreases |fields|
  {
    if fields != [] {
      assert fields[0].name != name;
      assert forall j :: 0 <= j < |fields| - 1 ==> fields[1..][j] == fields[j + 1];
      OthersKeep(headers[fields[0].name := fields[0].value], fields[1..], name);
    }
  }

  lemma {:induction false} LastValue(headers: map<string, string>, fields: seq<Field>, i: nat)
    requires i < |fields| && NotAgain(fields, i + 1, fields[i].name)
    ensures var name := fields[i].name;
            name in HeaderMap(headers, fields) && HeaderMap(headers, fields)[name] == fields[i].value
    decreases |fields|
  {
    var headers1 := headers[fields[0].name := fields[0].value];
    assert forall j :: 0 <= j < |fields| - 1 ==> fields[1..][j] == fields[j + 1];
    if i == 0 {
      OthersKeep(headers1, fields[1..], fields[0].name);
    } else {
      LastValue(headers1, fields[1..], i - 1);
    }
  }

  /** The header map of a request holds exactly the names sent, each with its last value. */
  lemma LastWins(m: Message, time: Timestamp, name: string)
    ensures var headers := Meaning(m, time).headers;
            && (name in headers <==> exists i :: 0 <= i < |m.fields| && m.fields[i].name == name)
            && forall i :: 0 <= i < |m.fields| && m.fields[i].name == name && NotAgain(m.fields, i + 1, name) ==>
                 name in headers && headers[name] == m.fields[i].value
  {
    NamesSent(map[], m.fields, name);
    forall i | 0 <= i < |m.fields| && m.fields[i].name == name && NotAgain(m.fields, i + 1, name)
      ensures name in HeaderMap(map[], m.fields) && HeaderMap(map[], m.fields)[name] == m.fields[i].value
    {
      LastValue(map[], m.fields, i);
    }
  }

  // When the parser returns.

  function Lines(lines: seq<string>): string {
    if lines == [] then "" else lines[0] + CRLF + Lines(lines[1..])
  }

  /** Header lines with a colon, then a first line without one, then anything. */
  predicate IsBlock(buf: string, lines: seq<string>, last: string, tail: string) {
    && (forall i :: 0 <= i < |lines| ==> IsLine(lines[i]) && ':' in lines[i])
    && IsLine(last) && ':' !in last
    && buf == Lines(lines) + (last + CRLF + tail)
  }

  lemma {:induction false} BlockReturns(r: Request, buf: string, lines: seq<string>, last: string, tail: string)
    requires IsBlock(buf, lines, last, tail)
    ensures ParseHeaders(r, buf).Returns? && ParseHeaders(r, buf).ok && ParseHeaders(r, buf).rest == tail
    ensures ParseHeaders(r, buf).context.state == GotAll
    decreases |lines|
  {
    if lines == [] {
      assert buf == last + CRLF + tail;
      LineEnds(last, tail);
    } else {
      var rest := Lines(lines[1..]) + (last + CRLF + tail);
      assert buf == lines[0] + CRLF + rest;
      LineEnds(lines[0], rest);
      BlockReturns(AddHeader(r, lines[0]), rest, lines[1..], last, tail);
    }
  }

  lemma FirstLine(buf: string, k: nat)
    requires FindCRLF(buf) == Some(k)
    ensures IsLine(buf[..k]) && buf == buf[..k] + CRLF + buf[k + 2..]
  {
    assert forall i :: IsCRLF(buf[..k], i) ==> IsCRLF(buf, i);
  }

  lemma BlockGrows(line: string, buf: string, lines: seq<string>, last: string, tail: string)
    requires IsBlock(buf, lines, last, tail) && IsLine(line) && ':' in line
    ensures IsBlock(line + CRLF + buf, [line] + lines, last, tail)
  {
    assert ([line] + lines)[1..] == lines;
    assert line + CRLF + buf == line + CRLF + Lines(lines) + (last + CRLF + tail);
  }

  lemma {:induction false} ReturnsIsBlock(r: Request, buf: string)
      returns (lines: seq<string>, last: string, tail: string)
    requires ParseHeaders(r, buf).Returns?
    ensures IsBlock(buf, lines, last, tail)
    decreases |buf|
  {
    var k := FindCRLF(buf).value;
    var line, rest := buf[..k], buf[k + 2..];
    FirstLine(buf, k);
    if ':' in line {
      lines, last, tail := ReturnsIsBlock(AddHeader(r, line), rest);
      BlockGrows(line, rest, lines, last, tail);
      lines := [line] + lines;
    } else {
      lines, last, tail := [], line, rest;
      assert buf == Lines([]) + (line + CRLF + rest);
    }
  }

  /** Exactly when the headers end: the buffer must already hold every header line and a line without a colon. */
  lemma HeadersEnd(r: Request, buf: string)
    ensures ParseHeaders(r, buf).Returns? <==> exists lines, last, tail :: IsBlock(buf, lines, last, tail)
  {
    if ParseHeaders(r, buf).Returns? {
      var lines, last, tail := ReturnsIsBlock(r, buf);
    }
    forall lines, last, tail | IsBlock(buf, lines, last, tail) ensures ParseHeaders(r, buf).Returns? {
      BlockReturns(r, buf, lines, last, tail);
    }
  }

  /** The local state of parseRequest's loop. */
  datatype Loop = Loop(context: Context, buf: string, ok: bool, hasMore: bool)

  function RequestLinePass(l: Loop, time: Timestamp): Loop {
    match FindCRLF(l.buf)
    case None => l.(hasMore := false)
    case Some(k) =>
      var (r, ok) := ProcessRequestLine(l.context.request, l.buf[..k]);
      if ok then Loop(Context(ExpectHeaders, r.(receiveTime := time)), l.buf[k + 2..], true, true)
      else Loop(l.context.(request := r), l.buf, false, false)
  }

  function HeaderPass(l: Loop): Loop {
    match FindCRLF(l.buf)
    case None => l
    case Some(k) =>
      var r, line, rest := l.context.request, l.buf[..k], l.buf[k + 2..];
      if ':' in line then Loop(l.context.(request := AddHeader(r, line)), rest, l.ok, l.hasMore)
      else Loop(Context(GotAll, r), rest, l.ok, false)
  }

  /** One pass of the loop body. */
  function Iterate(l: Loop, time: Timestamp): Loop {
    match l.context.state
    case ExpectRequestLine => RequestLinePass(l, time)
    case ExpectHeaders => HeaderPass(l)
    case _ => l
  }

  function Iterations(l: Loop, time: Timestamp, n: nat): Loop
    decreases n
  {
    if n == 0 || !l.hasMore then l else Iterations(Iterate(l, time), time, n - 1)
  }

  function Entry(c: Context, buf: string): Loop {
    Loop(c, buf, true, true)
  }

  function Exit(o: Outcome): Loop
    requires o.Returns?
  {
    Loop(o.context, o.rest, o.ok, false)
  }

  /** A pass either goes on towards the same outcome with fewer bytes or in place, or stops with it. */
  lemma PassKeepsOutcome(c: Context, buf: string, time: Timestamp)
    ensures var l', o := Iterate(Entry(c, buf), time), ParseRequest(c, buf, time);
            if l'.hasMore then
              && l' == Entry(l'.context, l'.buf) && ParseRequest(l'.context, l'.buf, time) == o
              && l'.context.state != ExpectRequestLine
              && (l'.buf == buf || |l'.buf| < |buf|)
              && (l'.buf == buf ==> o == Spins)
            else o.Returns? && l' == Exit(o)
  {}

  lemma {:induction false} LoopMeetsOutcome(c: Context, buf: string, time: Timestamp, n: nat)
    ensures var l, o := Iterations(Entry(c, buf), time, n), ParseRequest(c, buf, time);
            && (o.Spins? ==> l.hasMore)
            && (o.Returns? && (n > |buf| || !l.hasMore) ==> l == Exit(o))
    decreases n
  {
    if n > 0 {
      PassKeepsOutcome(c, buf, time);
      var l' := Iterate(Entry(c, buf), time);
      if l'.hasMore {
        LoopMeetsOutcome(l'.context, l'.buf, time, n - 1);
      }
    }
  }

  predicate KnownMethod(line: string) {
    ' ' in line && MethodOf(line[..Find(line, ' ')]) != Invalid
  }

  lemma KnownMethodIsSet(r: Request, line: string)
    requires r.verb == Invalid
    ensures ProcessRequestLine(r, line).0.verb != Invalid <==> KnownMethod(line)
  {
    assert line[..|line|] == line;
  }

  lemma {:induction false} HeadersGetAll(r: Request, buf: string)
    ensures ParseHeaders(r, buf).Returns? ==> ParseHeaders(r, buf).context.state == GotAll && ParseHeaders(r, buf).ok
    decreases |buf|
  {
    match FindCRLF(buf)
    case None =>
    case Some(k) =>
      var line, rest := buf[..k], buf[k + 2..];
      if ':' in line {
        HeadersGetAll(AddHeader(r, line), rest);
        assert ParseHeaders(r, buf) == ParseHeaders(AddHeader(r, line), rest);
      }
  }

  /** Bytes are taken only when the whole request is: a call that does not complete a fresh request leaves the buffer
      as it was, and leaves a method set exactly when it refused a line that begins with a known one. */
  lemma Refused(buf: string, time: Timestamp)
    requires ParseRequest(START, buf, time).Returns? && ParseRequest(START, buf, time).context.state != GotAll
    ensures var o := ParseRequest(START, buf, time);
            && o.rest == buf && o.context.state == ExpectRequestLine
            && (o.ok <==> FindCRLF(buf) == None) && (o.ok ==> o.context == START)
            && (!o.ok ==> (o.context.request.verb != Invalid <==> KnownMethod(buf[..FindCRLF(buf).value])))
  {
    match FindCRLF(buf)
    case None =>
    case Some(k) =>
      var (r, ok) := ProcessRequestLine(FRESH, buf[..k]);
      KnownMethodIsSet(FRESH, buf[..k]);
      if ok {
        HeadersGetAll(r.(receiveTime := time), buf[k + 2..]);
      }
  }

  /** The next pass of the loop calls setMethod, and its check that the request has no method yet fails. */
  predicate CheckFails(c: Context, buf: string) {
    && c.state == ExpectRequestLine && c.request.verb != Invalid
    && FindCRLF(buf).Some? && ' ' in buf[..FindCRLF(buf).value]
  }

  lemma SameFirstLine(buf: string, more: string)
    requires FindCRLF(buf).Some?
    ensures FindCRLF(buf + more) == FindCRLF(buf)
    ensures (buf + more)[..FindCRLF(buf).value] == buf[..FindCRLF(buf).value]
  {
    var k := FindCRLF(buf).value;
    assert forall i :: 0 <= i <= k + 1 ==> (buf + more)[i] == buf[i];
    forall i | 0 <= i < k ensures !IsCRLF(buf + more, i) {
      assert !IsCRLF(buf, i);
    }
    FirstCRLF(buf + more, k);
  }

  /** After a call that did not complete a fresh request, the next call, on whatever the buffer then holds, fails the
      check in setMethod exactly when the first call refused a line that begins with a known method. */
  lemma SecondCall(buf: string, more: string, time: Timestamp)
    requires ParseRequest(START, buf, time).Returns? && ParseRequest(START, buf, time).context.state != GotAll
    ensures var o := ParseRequest(START, buf, time);
            CheckFails(o.context, o.rest + more) <==> !o.ok && KnownMethod(buf[..FindCRLF(buf).value])
  {
    Refused(buf, time);
    if FindCRLF(buf).Some? {
      SameFirstLine(buf, more);
    }
  }

  lemma NoVersion()
    ensures KnownMethod("GET x") && !ProcessRequestLine(FRESH, "GET x").1
  {
    assert "GET" + [' '] + "x" == "GET x";
    FindAt("GET", ' ', "x");
    assert "GET x"[..3] == "GET";
    MethodParses(FRESH, "GET", "x");
    FindNone("x", ' ');
  }

  /** A request line without a version, and whatever follows it. */
  lemma SecondCallWitness(more: string, time: Timestamp)
    ensures var buf := "GET x" + CRLF; var o := ParseRequest(START, buf, time);
            o.Returns? && !o.ok && CheckFails(o.context, o.rest + more)
  {
    NoCRIsLine("GET x");
    LineEnds("GET x", "");
    assert "GET x" + CRLF + "" == "GET x" + CRLF;
    NoVersion();
    SecondCall("GET x" + CRLF, more, time);
  }

  /** A request line that has arrived without its headers: the call never returns. */
  lemma HeadersEndWitness(time: Timestamp)
    ensures ParseRequest(START, RequestLine(Get, "/", Http11) + CRLF, time) == Spins
  {
    var line := RequestLine(Get, "/", Http11);
    WordsParse(Get, Http11);
    NoCRIsLine(line);
    LineEnds(line, "");
    assert line + CRLF + "" == line + CRLF;
    RequestLineParses(FRESH, Get, "/", Http11);
  }
}

/** The request and the parsing context as objects. */
module HttpParser {
  import opened Buffers
  import opened HttpSpec

  class HttpRequest {
    var verb: Method
    var version: Version
    var path: string
    var query: string
    var receiveTime: Timestamp
    var headers: map<string, string>

    ghost function View(): Request
      reads this
    {
      Request(verb, version, path, query, receiveTime, headers)
    }

    constructor ()
      ensures View() == FRESH
    {
      verb, version, path, query, receiveTime, headers := Invalid, Unknown, "", "", 0, map[];
    }

    method SetMethod(m: string) returns (ok: bool)
      requires verb == Invalid
      modifies this`verb
      ensures verb == MethodOf(m) && ok == (verb != Invalid)
    {
      if m == "GET" {
        verb := Get;
      } else if m == "POST" {
        verb := Post;
      } else if m == "HEAD" {
        verb := Head;
      } else if m == "PUT" {
        verb := Put;
      } else if m == "DELETE" {
        verb := Delete;
      } else {
        verb := Invalid;
      }
      return verb != Invalid;
    }

    method AddHeader(line: string, colon: nat)
      requires colon < |line| && colon == Find(line, ':')
      modifies this`headers
      ensures ':' in line && View() == HttpSpec.AddHeader(old(View()), line)
    {
      var field := line[..colon];
      var start := colon + 1;
      while start < |line| && IsSpace(line[start])
        invariant colon < start <= |line|
        invariant TrimLeft(line[start..]) == TrimLeft(line[colon + 1..])
      {
        assert line[start..][1..] == line[start + 1..];
        start := start + 1;
      }
      var value := line[start..];
      while value != "" && IsSpace(value[|value| - 1])
        invariant TrimRight(value) == TrimRight(TrimLeft(line[colon + 1..]))
        decreases |value|
      {
        value := value[..|value| - 1];
      }
      headers := headers[field := value];
    }

    method Swap(that: HttpRequest)
      requires that != this
      modifies this, that
      ensures View() == old(that.View()) && that.View() == old(View())
    {
      verb, that.verb := that.verb, verb;
      version, that.version := that.version, version;
      path, that.path := that.path, path;
      query, that.query := that.query, query;
      receiveTime, that.receiveTime := that.receiveTime, receiveTime;
      headers, that.headers := that.headers, headers;
    }
  }

  class HttpContext {
    var state: ParseState
    const request: HttpRequest

    ghost function View(): Context
      reads this, request
    {
      Context(state, request.View())
    }

    constructor ()
      ensures View() == START && fresh(request)
    {
      state := ExpectRequestLine;
      request := new HttpRequest();
    }

    method Reset()
      modifies this, request
      ensures View() == START
    {
      state := ExpectRequestLine;
      var dummy := new HttpRequest();
      request.Swap(dummy);
    }

    method ProcessTarget(line: string, start: nat) returns (succeed: bool)
      requires start <= |line|
      modifies request`path, request`query, request`version
      ensures (request.View(), succeed) == HttpSpec.ProcessTarget(old(request.View()), line[start..])
    {
      succeed := false;
      var rest := line[start..];
      var space := Find(rest, ' ');
      if space != |rest| {
        var target := rest[..space];
        var question := Find(target, '?');
        if question != |target| {
          request.path := target[..question];
          request.query := target[question..];
        } else {
          request.path := target;
        }
        var last := rest[space + 1..];
        succeed := |last| == 8 && last[..7] == "HTTP/1.";
        if succeed {
          if last[7] == '1' {
            request.version := Http11;
          } else if last[7] == '0' {
            request.version := Http10;
          } else {
            succeed := false;
          }
        }
      }
    }

    method ProcessRequestLine(line: string) returns (succeed: bool)
      requires request.verb == Invalid
      modifies request
      ensures (request.View(), succeed) == HttpSpec.ProcessRequestLine(old(request.View()), line)
    {
      succeed := false;
      var space := Find(line, ' ');
      if space != |line| {
        var known := request.SetMethod(line[..space]);
        if known {
          succeed := ProcessTarget(line, space + 1);
        }
      }
    }

    method RequestLineStep(buf: Buffer, receiveTime: Timestamp) returns (ok: bool, hasMore: bool)
      requires buf.Valid() && state == ExpectRequestLine && request.verb == Invalid
      modifies this, request, buf`readerIndex
      ensures buf.Valid()
      ensures Loop(View(), buf.Contents(), ok, hasMore) ==
              RequestLinePass(old(Entry(View(), buf.Contents())), receiveTime)
    {
      ok, hasMore := true, true;
      var crlf := buf.SearchCRLF();
      if crlf.Some? {
        var bytes := buf.Peek();
        ok := ProcessRequestLine(bytes[..crlf.value]);
        if ok {
          request.receiveTime := receiveTime;
          buf.Retrieve(crlf.value + 2);
          state := ExpectHeaders;
        } else {
          hasMore := false;
        }
      } else {
        hasMore := false;
      }
    }

    method HeaderStep(buf: Buffer) returns (hasMore: bool)
      requires buf.Valid() && state == ExpectHeaders
      modifies this, request, buf`readerIndex
      ensures buf.Valid()
      ensures Loop(View(), buf.Contents(), true, hasMore) == HeaderPass(old(Entry(View(), buf.Contents())))
    {
      hasMore := true;
      var crlf := buf.SearchCRLF();
      if crlf.Some? {
        var bytes := buf.Peek();
        var line := bytes[..crlf.value];
        var colon := Find(line, ':');
        assert line[..|line|] == line;
        if colon != |line| {
          request.AddHeader(line, colon);
        } else {
          state := GotAll;
          hasMore := false;
        }
        buf.Retrieve(crlf.value + 2);
      }
    }

    /** Returns whenever the outcome does; setMethod's check asks for a fresh request at the request line. */
    method ParseRequest(buf: Buffer, receiveTime: Timestamp) returns (ok: bool)
      requires buf.Valid()
      requires state == ExpectRequestLine ==> request.verb == Invalid
      requires HttpSpec.ParseRequest(View(), buf.Contents(), receiveTime).Returns?
      modifies this, request, buf`readerIndex
      ensures buf.Valid()
      ensures Returns(View(), buf.Contents(), ok) == old(HttpSpec.ParseRequest(View(), buf.Contents(), receiveTime))
    {
      ghost var o := HttpSpec.ParseRequest(View(), buf.Contents(), receiveTime);
      ok := true;
      var hasMore := true;
      while hasMore
        invariant buf.Valid()
        invariant hasMore ==> ok && HttpSpec.ParseRequest(View(), buf.Contents(), receiveTime) == o
        invariant hasMore && state == ExpectRequestLine ==> request.verb == Invalid
        invariant !hasMore ==> Loop(View(), buf.Contents(), ok, false) == Exit(o)
        decreases hasMore, |buf.Contents()|
      {
        PassKeepsOutcome(View(), buf.Contents(), receiveTime);
        if state == ExpectRequestLine {
          ok, hasMore := RequestLineStep(buf, receiveTime);
        } else if state == ExpectHeaders {
          hasMore := HeaderStep(buf);
        }
      }
    }
  }
}
