/** What the HTTP request reader takes a stream of bytes for, told from the bytes alone. */
module HttpAcceptance {
  import opened Common
  import opened Codecs
  import opened HttpReader
  import opened HttpTheorems

  // --------------------------------------------------------------------- a request on the wire

  const CRLF: Bytes := [13, 10]

  datatype Field = Field(name: Bytes, value: Bytes)

  function Written(f: Field): Bytes {
    f.name + [58] + f.value
  }

  function WrittenAll(fields: seq<Field>): (lines: seq<Bytes>)
    ensures |lines| == |fields| && forall i :: 0 <= i < |fields| ==> lines[i] == Written(fields[i])
  {
    if fields == [] then [] else [Written(fields[0])] + WrittenAll(fields[1..])
  }

  /** The request line and the fields, each on its line, and an empty line. */
  function Head(verb: Bytes, path: Bytes, fields: seq<Field>): Bytes {
    Rejoin([RequestLine(verb, path)] + WrittenAll(fields), CRLF) + CRLF + CRLF
  }

  predicate TokenByte(b: Byte) {
    var c := b as char;
    'a' <= c <= 'z' || 'A' <= c <= 'Z' || '0' <= c <= '9' || c == '-'
  }

  /** A non-empty name of letters, digits and hyphens, and no line end in between. */
  predicate GoodField(f: Field) {
    f.name != [] && (forall i :: 0 <= i < |f.name| ==> TokenByte(f.name[i])) && OneLine(Written(f))
  }

  predicate GoodTarget(verb: Bytes, path: Bytes) {
    verb != [] && Spaceless(verb) && path != [] && Spaceless(path) && OneLine(RequestLine(verb, path))
  }

  function Upper(c: char): char {
    if 'a' <= c <= 'z' then (c as int - 32) as char else c
  }

  /** The name is the given word, ignoring ASCII case. */
  predicate Spelled(f: Field, word: string) {
    && |f.name| == |word|
    && forall i :: 0 <= i < |word| ==> f.name[i] as char == word[i] || f.name[i] as char == Upper(word[i])
  }

  predicate Present(fields: seq<Field>, word: string) {
    exists i :: 0 <= i < |fields| && Spelled(fields[i], word)
  }

  predicate AtMostOnce(fields: seq<Field>, word: string) {
    forall i, j :: 0 <= i < j < |fields| ==> !(Spelled(fields[i], word) && Spelled(fields[j], word))
  }

  /** A body of `n` bytes is declared. */
  predicate BodyOf(fields: seq<Field>, text: Text, n: nat) {
    && AtMostOnce(fields, "content-length")
    && (forall i :: 0 <= i < |fields| && Spelled(fields[i], "content-length") ==>
          ParseUsize(text.trim(fields[i].value)) == Some(n))
    && (!Present(fields, "content-length") ==> n == 0)
  }

  predicate MediaOf(fields: seq<Field>, text: Text, contentType: Option<Bytes>) {
    && AtMostOnce(fields, "content-type")
    && (forall i :: 0 <= i < |fields| && Spelled(fields[i], "content-type") ==>
          contentType == Some(text.trim(fields[i].value)))
    && (!Present(fields, "content-type") ==> contentType == None)
  }

  /** The fields a reader of plain requests can serve. */
  predicate Plain(fields: seq<Field>, text: Text, n: nat, contentType: Option<Bytes>) {
    && (forall i :: 0 <= i < |fields| ==> GoodField(fields[i]))
    && Present(fields, "host") && AtMostOnce(fields, "host")
    && !Present(fields, "transfer-encoding") && !Present(fields, "expect")
    && BodyOf(fields, text, n) && MediaOf(fields, text, contentType)
  }

  /** `head` is a well-formed request head with these parts. */
  predicate Says(head: Bytes, text: Text, verb: Bytes, path: Bytes, fields: seq<Field>, n: nat,
                 contentType: Option<Bytes>)
  {
    && text.valid(head) && GoodTarget(verb, path) && head == Head(verb, path, fields)
    && Plain(fields, text, n, contentType)
  }

  // ------------------------------------------------------------------------------ one field

  lemma NameBytes(b: Byte)
    ensures NameByte(b) <==> TokenByte(b)
  {
  }

  lemma {:induction false} SpelledIsNamed(f: Field, word: string)
    requires LowerName(word)
    ensures Spelled(f, word) <==> Named(f.name, word)
  {
    if |f.name| == |word| {
      forall i | 0 <= i < |word|
        ensures (f.name[i] as char == word[i] || f.name[i] as char == Upper(word[i]))
                <==> Lower(f.name[i]) == word[i] as int
      {
      }
    }
  }

  lemma {:induction false} FieldParts(f: Field)
    requires f.name != [] && forall i :: 0 <= i < |f.name| ==> TokenByte(f.name[i])
    ensures
      var line := Written(f);
      && Until(line, 58) == |f.name| && line[..|f.name|] == f.name && line[|f.name| + 1..] == f.value
      && line[0] != 32 && line[0] != 9
  {
    var line := Written(f);
    assert line[|f.name|] == 58;
    assert forall i :: 0 <= i < |f.name| ==> line[i] == f.name[i];
  }

  /** What the kind of a line says about the field on it. */
  predicate Fits(k: Kind, f: Field, text: Text) {
    && !k.Malformed?
    && (k.Host? <==> Spelled(f, "host"))
    && (k.Length? <==> Spelled(f, "content-length")) && (k.Length? ==> k.value == ParseUsize(text.trim(f.value)))
    && (k.ContentType? <==> Spelled(f, "content-type")) && (k.ContentType? ==> k.text == text.trim(f.value))
    && (k.Streaming? <==> Spelled(f, "transfer-encoding") || Spelled(f, "expect"))
  }

  lemma {:induction false} FieldKind(f: Field, text: Text)
    requires GoodField(f)
    ensures Fits(KindOf(Written(f), text), f, text)
  {
    FieldParts(f);
    forall i | 0 <= i < |f.name| ensures NameByte(f.name[i]) {
      NameBytes(f.name[i]);
    }
    SpelledIsNamed(f, "host");
    SpelledIsNamed(f, "content-length");
    SpelledIsNamed(f, "content-type");
    SpelledIsNamed(f, "transfer-encoding");
    SpelledIsNamed(f, "expect");
  }

  function FieldOf(line: Bytes): Field {
    var colon := Until(line, 58);
    Field(line[..colon], if colon < |line| then line[colon + 1..] else [])
  }

  lemma {:induction false} LineIsField(line: Bytes, text: Text)
    requires OneLine(line) && !KindOf(line, text).Malformed?
    ensures GoodField(FieldOf(line)) && Written(FieldOf(line)) == line
  {
    var f := FieldOf(line);
    forall i | 0 <= i < |f.name| ensures TokenByte(f.name[i]) {
      NameBytes(f.name[i]);
    }
    assert Written(f) == line;
  }

  // ------------------------------------------------------------------------------ all fields

  predicate FitAll(kinds: seq<Kind>, fields: seq<Field>, text: Text) {
    |kinds| == |fields| && forall i :: 0 <= i < |kinds| ==> Fits(kinds[i], fields[i], text)
  }

  predicate LengthsParse(fields: seq<Field>, text: Text) {
    forall i :: 0 <= i < |fields| && Spelled(fields[i], "content-length") ==>
      ParseUsize(text.trim(fields[i].value)).Some?
  }

  lemma {:induction false} NoneRefused(kinds: seq<Kind>, fields: seq<Field>, text: Text)
    requires FitAll(kinds, fields, text)
    ensures (forall i :: 0 <= i < |kinds| ==> !Refused(kinds[i])) <==>
            LengthsParse(fields, text) && !Present(fields, "transfer-encoding") && !Present(fields, "expect")
  {
    if forall i :: 0 <= i < |kinds| ==> !Refused(kinds[i]) {
      forall i | 0 <= i < |fields|
        ensures !Spelled(fields[i], "transfer-encoding") && !Spelled(fields[i], "expect")
        ensures Spelled(fields[i], "content-length") ==> ParseUsize(text.trim(fields[i].value)).Some?
      {
        assert !Refused(kinds[i]) && Fits(kinds[i], fields[i], text);
      }
    } else {
      var i :| 0 <= i < |kinds| && Refused(kinds[i]);
      assert Fits(kinds[i], fields[i], text);
    }
  }

  lemma {:induction false} OrderlyIff(kinds: seq<Kind>, fields: seq<Field>, text: Text)
    requires FitAll(kinds, fields, text)
    ensures Orderly(kinds) <==>
            && LengthsParse(fields, text) && !Present(fields, "transfer-encoding") && !Present(fields, "expect")
            && AtMostOnce(fields, "content-length") && AtMostOnce(fields, "content-type")
  {
    NoneRefused(kinds, fields, text);
  }

  lemma {:induction false} HostIff(kinds: seq<Kind>, fields: seq<Field>, text: Text)
    requires FitAll(kinds, fields, text)
    ensures Hosts(kinds) == 1 <==> Present(fields, "host") && AtMostOnce(fields, "host")
  {
    OneHost(kinds);
    if Hosts(kinds) == 1 {
      var h :| OnlyHost(kinds, h);
      assert Fits(kinds[h], fields[h], text);
    } else if Present(fields, "host") && AtMostOnce(fields, "host") {
      var h :| 0 <= h < |fields| && Spelled(fields[h], "host");
      forall i | 0 <= i < |kinds| ensures kinds[i].Host? <==> i == h {
        assert Fits(kinds[i], fields[i], text);
      }
      assert OnlyHost(kinds, h);
    }
  }

  lemma {:induction false} BodyIff(kinds: seq<Kind>, fields: seq<Field>, text: Text, n: nat)
    requires FitAll(kinds, fields, text) && Orderly(kinds)
    ensures BodyOf(fields, text, n) <==> n == if LengthOf(kinds).Some? then LengthOf(kinds).value else 0
  {
    OrderlyIff(kinds, fields, text);
    TheLength(kinds);
    if LengthOf(kinds).Some? {
      var j :| 0 <= j < |kinds| && kinds[j] == Length(LengthOf(kinds));
      assert Spelled(fields[j], "content-length");
    }
  }

  lemma {:induction false} MediaIff(kinds: seq<Kind>, fields: seq<Field>, text: Text, contentType: Option<Bytes>)
    requires FitAll(kinds, fields, text) && Orderly(kinds)
    ensures MediaOf(fields, text, contentType) <==> contentType == TypeOf(kinds)
  {
    OrderlyIff(kinds, fields, text);
    if TypeOf(kinds).Some? {
      var j :| 0 <= j < |kinds| && kinds[j] == ContentType(TypeOf(kinds).value);
      assert Spelled(fields[j], "content-type");
      assert forall i :: 0 <= i < |kinds| && kinds[i].ContentType? ==> i == j;
    }
  }

  /** The reader's own view of good fields is the plain one. */
  lemma {:induction false} PlainIff(kinds: seq<Kind>, fields: seq<Field>, text: Text, n: nat,
                                    contentType: Option<Bytes>)
    requires FitAll(kinds, fields, text) && forall i :: 0 <= i < |fields| ==> GoodField(fields[i])
    ensures Plain(fields, text, n, contentType) <==>
            && Orderly(kinds) && Hosts(kinds) == 1
            && n == (if LengthOf(kinds).Some? then LengthOf(kinds).value else 0) && contentType == TypeOf(kinds)
  {
    OrderlyIff(kinds, fields, text);
    HostIff(kinds, fields, text);
    if Orderly(kinds) {
      BodyIff(kinds, fields, text, n);
      MediaIff(kinds, fields, text, contentType);
    }
  }

  // ------------------------------------------------------------------------------ the head

  lemma {:induction false} OneLineEnds(line: Bytes, rest: Bytes)
    requires OneLine(line)
    ensures LineLength(line) == |line| && LineLength(line + CRLF + rest) == |line|
  {
    var s := line + CRLF + rest;
    if line != [] {
      assert OneLine(line[1..]) by {
        assert forall i :: 0 <= i < |line| - 1 ==> line[1..][i] == line[i + 1];
      }
      OneLineEnds(line[1..], rest);
      assert s[1..] == line[1..] + CRLF + rest;
      assert s[0] == line[0] && s[1] == if |line| > 1 then line[1] else 13;
    }
  }

  lemma {:induction false} FirstOneLine(line: Bytes, rest: Bytes)
    requires OneLine(line)
    ensures Lines(line) == [line] && Lines(line + CRLF + rest) == [line] + Lines(rest)
  {
    var s := line + CRLF + rest;
    OneLineEnds(line, rest);
    assert s[..|line|] == line && s[|line| + 2..] == rest;
  }

  /** Lines without line ends in them are what their text splits into. */
  lemma {:induction false} RejoinedLines(lines: seq<Bytes>)
    requires lines != [] && forall i :: 0 <= i < |lines| ==> OneLine(lines[i])
    ensures Lines(Rejoin(lines, CRLF)) == lines
  {
    if |lines| == 1 {
      FirstOneLine(lines[0], []);
    } else {
      RejoinedLines(lines[1..]);
      FirstOneLine(lines[0], Rejoin(lines[1..], CRLF));
      assert [lines[0]] + lines[1..] == lines;
    }
  }

  lemma {:induction false} BlankIsTwoLineEnds(t: Bytes)
    ensures t + CRLF + CRLF == t + BLANK_LINE
  {
  }

  /** The kinds of lines that fields were written on. */
  lemma {:induction false} WrittenKinds(fields: seq<Field>, text: Text)
    requires forall i :: 0 <= i < |fields| ==> GoodField(fields[i])
    ensures FitAll(Kinds(WrittenAll(fields), text), fields, text)
  {
    forall i | 0 <= i < |fields| ensures Fits(Kinds(WrittenAll(fields), text)[i], fields[i], text) {
      KindsAt(WrittenAll(fields), text, i);
      FieldKind(fields[i], text);
    }
  }

  lemma {:induction false} HeadSplits(t: Bytes, head: Bytes, verb: Bytes, path: Bytes, fields: seq<Field>)
    requires t == Rejoin([RequestLine(verb, path)] + WrittenAll(fields), CRLF) && head == Head(verb, path, fields)
    requires GoodTarget(verb, path) && forall i :: 0 <= i < |fields| ==> GoodField(fields[i])
    ensures head == t + BLANK_LINE && Lines(t) == [RequestLine(verb, path)] + WrittenAll(fields)
    ensures Words(RequestLine(verb, path)) == [verb, path, HTTP_1_1] && GoodRequestLine([verb, path, HTTP_1_1])
  {
    var lines := [RequestLine(verb, path)] + WrittenAll(fields);
    RequestLineIsGood(verb, path);
    RejoinedLines(lines);
    BlankIsTwoLineEnds(t);
  }

  /** What is answered to a well-formed head, once its parts are known. */
  function Answer(verb: Bytes, path: Bytes, n: nat, contentType: Option<Bytes>, k: nat, rest: Bytes): Outcome {
    if n > MAX_BODY_BYTES then Rejected(413)
    else if |rest| < n then Rejected(400)
    else Accepted(HttpRequest(verb, path, contentType, rest[..n]), k + n)
  }

  lemma {:induction false} BodyAnswers(words: seq<Bytes>, length: Option<nat>, contentType: Option<Bytes>, k: nat,
                                       rest: Bytes)
    requires GoodRequestLine(words)
    ensures BodyOutcome(words, length, contentType, k, rest)
         == Answer(words[0], words[1], if length.Some? then length.value else 0, contentType, k, rest)
  {
  }

  /** A well-formed head is taken for what it says. */
  lemma {:induction false} SaidHead(head: Bytes, rest: Bytes, text: Text, verb: Bytes, path: Bytes,
                                    fields: seq<Field>, n: nat, contentType: Option<Bytes>)
    requires Says(head, text, verb, path, fields, n, contentType)
    ensures HeadOutcome(head, rest, text) == Answer(verb, path, n, contentType, |head|, rest)
  {
    var line, lines := RequestLine(verb, path), WrittenAll(fields);
    var t, kinds := Rejoin([line] + lines, CRLF), Kinds(lines, text);
    HeadSplits(t, head, verb, path, fields);
    WrittenKinds(fields, text);
    PlainIff(kinds, fields, text, n, contentType);
    OrderlyHead(t, head, rest, text, line, lines, kinds);
    BodyAnswers(Words(line), LengthOf(kinds), TypeOf(kinds), |head|, rest);
  }

  function FieldsOf(lines: seq<Bytes>): (fields: seq<Field>)
    ensures |fields| == |lines| && forall i :: 0 <= i < |lines| ==> fields[i] == FieldOf(lines[i])
  {
    if lines == [] then [] else [FieldOf(lines[0])] + FieldsOf(lines[1..])
  }

  /** Lines the reader does not refuse are written fields. */
  lemma {:induction false} LinesAreFields(lines: seq<Bytes>, text: Text)
    requires forall i :: 0 <= i < |lines| ==> OneLine(lines[i])
    requires Orderly(Kinds(lines, text))
    ensures WrittenAll(FieldsOf(lines)) == lines
    ensures forall i :: 0 <= i < |lines| ==> GoodField(FieldsOf(lines)[i])
  {
    forall i | 0 <= i < |lines| ensures GoodField(FieldOf(lines[i])) && Written(FieldOf(lines[i])) == lines[i] {
      KindsAt(lines, text, i);
      assert !Refused(Kinds(lines, text)[i]);
      LineIsField(lines[i], text);
    }
  }

  lemma {:induction false} HeadParts(head: Bytes, rest: Bytes, text: Text, t: Bytes, kinds: seq<Kind>)
    requires HeadOutcome(head, rest, text) != Rejected(400)
    requires t == (if |head| >= 4 then head[..|head| - 4] else []) && kinds == Kinds(Lines(t)[1..], text)
    ensures text.valid(head) && head == t + BLANK_LINE
    ensures GoodRequestLine(Words(Lines(t)[0])) && Orderly(kinds) && Hosts(kinds) == 1
  {
    assert EndsHeaders(head);
    assert head == t + head[|head| - 4..];
  }

  lemma {:induction false} LinesAreHead(t: Bytes, head: Bytes, verb: Bytes, path: Bytes, lines: seq<Bytes>,
                                        fields: seq<Field>)
    requires lines != [] && Rejoin(lines, CRLF) == t && head == t + BLANK_LINE
    requires lines[0] == RequestLine(verb, path) && lines[1..] == WrittenAll(fields)
    ensures head == Head(verb, path, fields)
  {
    assert [lines[0]] + lines[1..] == lines;
    BlankIsTwoLineEnds(t);
  }

  /** The fields on orderly lines, and what they declare. */
  lemma {:induction false} FieldsArePlain(lines: seq<Bytes>, text: Text, kinds: seq<Kind>, fields: seq<Field>)
    returns (n: nat, contentType: Option<Bytes>)
    requires forall i :: 0 <= i < |lines| ==> OneLine(lines[i])
    requires kinds == Kinds(lines, text) && Orderly(kinds) && Hosts(kinds) == 1 && fields == FieldsOf(lines)
    ensures WrittenAll(fields) == lines && Plain(fields, text, n, contentType)
  {
    LinesAreFields(lines, text);
    WrittenKinds(fields, text);
    n, contentType := if LengthOf(kinds).Some? then LengthOf(kinds).value else 0, TypeOf(kinds);
    PlainIff(kinds, fields, text, n, contentType);
  }

  lemma {:induction false} GoodLineIsTarget(line: Bytes, verb: Bytes, path: Bytes)
    requires OneLine(line) && GoodRequestLine(Words(line)) && verb == Words(line)[0] && path == Words(line)[1]
    ensures GoodTarget(verb, path) && line == RequestLine(verb, path)
  {
    GoodLineIsRequestLine(line);
  }

  lemma {:induction false} LinesAreSaid(t: Bytes, head: Bytes, text: Text, lines: seq<Bytes>, kinds: seq<Kind>)
    returns (verb: Bytes, path: Bytes, fields: seq<Field>, n: nat, contentType: Option<Bytes>)
    requires text.valid(head) && head == t + BLANK_LINE && lines != [] && Rejoin(lines, CRLF) == t
    requires forall i :: 0 <= i < |lines| ==> OneLine(lines[i])
    requires GoodRequestLine(Words(lines[0]))
    requires kinds == Kinds(lines[1..], text) && Orderly(kinds) && Hosts(kinds) == 1
    ensures Says(head, text, verb, path, fields, n, contentType)
  {
    verb, path, fields := Words(lines[0])[0], Words(lines[0])[1], FieldsOf(lines[1..]);
    GoodLineIsTarget(lines[0], verb, path);
    n, contentType := FieldsArePlain(lines[1..], text, kinds, fields);
    LinesAreHead(t, head, verb, path, lines, fields);
  }

  /** Nothing but a well-formed head is taken for a request. */
  lemma {:induction false} HeadIsSaid(head: Bytes, rest: Bytes, text: Text)
    returns (verb: Bytes, path: Bytes, fields: seq<Field>, n: nat, contentType: Option<Bytes>)
    requires HeadOutcome(head, rest, text) != Rejected(400)
    ensures Says(head, text, verb, path, fields, n, contentType)
  {
    var t := if |head| >= 4 then head[..|head| - 4] else [];
    var kinds := Kinds(Lines(t)[1..], text);
    HeadParts(head, rest, text, t, kinds);
    LinesRejoin(t);
    verb, path, fields, n, contentType := LinesAreSaid(t, head, text, Lines(t), kinds);
  }

  // ------------------------------------------------------------------------------ theorems

  /** What the stream starts with when its headers are complete in time. */
  predicate Starts(s: Bytes, head: Bytes, rest: Bytes) {
    s == head + rest && ShortestHeaders(s, head) && |head| <= MAX_HEADER_BYTES + 1
  }

  /**
   An accepted request is what the bytes say: a request line with its verb and path, fields with good names, one
   Host, no Transfer-Encoding or Expect, at most one length and one type, and the body of that length.
   */
  lemma {:induction false} AcceptedIsSaid(s: Bytes, text: Text, q: HttpRequest, consumed: nat)
    returns (head: Bytes, rest: Bytes, fields: seq<Field>)
    requires RequestOf(s, text) == Accepted(q, consumed)
    ensures Starts(s, head, rest) && Says(head, text, q.verb, q.path, fields, |q.body|, q.contentType)
    ensures |q.body| <= MAX_BODY_BYTES && q.body <= rest && consumed == |head| + |q.body|
  {
    head, rest := AcceptedHead(s, text);
    var verb, path, n, contentType;
    verb, path, fields, n, contentType := HeadIsSaid(head, rest, text);
    SaidHead(head, rest, text, verb, path, fields, n, contentType);
  }

  lemma {:induction false} BodyIsPrefix(q: HttpRequest, k: nat, rest: Bytes)
    requires |q.body| <= MAX_BODY_BYTES && q.body <= rest
    ensures Answer(q.verb, q.path, |q.body|, q.contentType, k, rest) == Accepted(q, k + |q.body|)
  {
    assert rest[..|q.body|] == q.body;
  }

  /** Conversely, bytes that say so are accepted, with these parts. */
  lemma {:induction false} SaidIsAccepted(s: Bytes, text: Text, q: HttpRequest, head: Bytes, rest: Bytes,
                                          fields: seq<Field>)
    requires Starts(s, head, rest) && Says(head, text, q.verb, q.path, fields, |q.body|, q.contentType)
    requires |q.body| <= MAX_BODY_BYTES && q.body <= rest
    ensures RequestOf(s, text) == Accepted(q, |head| + |q.body|)
  {
    ShortestIsComplete(s, head, rest, text);
    SaidHead(head, rest, text, q.verb, q.path, fields, |q.body|, q.contentType);
    BodyIsPrefix(q, |head|, rest);
  }

  lemma {:induction false} HeadRefuses(head: Bytes, rest: Bytes, text: Text)
    ensures HeadOutcome(head, rest, text).Rejected? ==> HeadOutcome(head, rest, text).status in {400, 413}
  {
    if HeadOutcome(head, rest, text) != Rejected(400) {
      var verb, path, fields, n, contentType := HeadIsSaid(head, rest, text);
      SaidHead(head, rest, text, verb, path, fields, n, contentType);
    }
  }

  /** How the answer to a stream follows from where its headers end. */
  lemma {:induction false} StreamAnswers(s: Bytes, text: Text)
    ensures
      match HeaderEnd(s, MAX_HEADER_BYTES + 1)
      case Some(k) => RequestOf(s, text) == HeadOutcome(s[..k], s[k..], text)
      case None => RequestOf(s, text) == Rejected(if |s| <= MAX_HEADER_BYTES then 400 else 431)
  {
    var end := HeaderEnd(s, MAX_HEADER_BYTES + 1);
    if end.Some? {
      assert |s[..end.value]| == end.value;
    }
  }

  /**
   431 is answered exactly when no empty line ends within the first 8193 bytes of a stream longer than 8192, and
   every other refusal is a 400 or a 413.
   */
  lemma {:induction false} HeadersTooLargeIff(s: Bytes, text: Text)
    ensures RequestOf(s, text).Rejected? ==> RequestOf(s, text).status in {400, 413, 431}
    ensures RequestOf(s, text) == Rejected(431) <==>
            |s| > 8192 && forall j :: 0 <= j <= |s| && j <= 8193 ==> !EndsHeaders(s[..j])
  {
    StreamAnswers(s, text);
    var end := HeaderEnd(s, MAX_HEADER_BYTES + 1);
    if end.Some? {
      HeadRefuses(s[..end.value], s[end.value..], text);
    }
  }

  /** 413 is answered to a well-formed head that declares more than 4096 bytes ... */
  lemma {:induction false} BodyTooLarge(s: Bytes, text: Text, head: Bytes, rest: Bytes, verb: Bytes, path: Bytes,
                                        fields: seq<Field>, n: nat, contentType: Option<Bytes>)
    requires Starts(s, head, rest) && Says(head, text, verb, path, fields, n, contentType) && n > 4096
    ensures RequestOf(s, text) == Rejected(413)
  {
    ShortestIsComplete(s, head, rest, text);
    SaidHead(head, rest, text, verb, path, fields, n, contentType);
  }

  lemma {:induction false} TooLargeHead(s: Bytes, text: Text) returns (head: Bytes, rest: Bytes)
    requires RequestOf(s, text) == Rejected(413)
    ensures Starts(s, head, rest) && HeadOutcome(head, rest, text) == Rejected(413)
  {
    StreamAnswers(s, text);
    var k := HeaderEnd(s, MAX_HEADER_BYTES + 1).value;
    head, rest := s[..k], s[k..];
  }

  /** ... and to nothing else. */
  lemma {:induction false} TooLargeIsSaid(s: Bytes, text: Text)
    returns (head: Bytes, rest: Bytes, verb: Bytes, path: Bytes, fields: seq<Field>, n: nat,
             contentType: Option<Bytes>)
    requires RequestOf(s, text) == Rejected(413)
    ensures Starts(s, head, rest) && Says(head, text, verb, path, fields, n, contentType) && n > 4096
  {
    head, rest := TooLargeHead(s, text);
    verb, path, fields, n, contentType := HeadIsSaid(head, rest, text);
    SaidHead(head, rest, text, verb, path, fields, n, contentType);
  }
}
