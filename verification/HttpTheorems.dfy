/** What the HTTP request reader accepts, for every stream. */
module HttpTheorems {
  import opened Common
  import opened Codecs
  import opened HttpReader

  // ------------------------------------------------------------------ what is accepted

  lemma {:induction false} NoHosts(kinds: seq<Kind>)
    ensures Hosts(kinds) == 0 <==> forall i :: 0 <= i < |kinds| ==> !kinds[i].Host?
  {
    if kinds != [] {
      var front := kinds[..|kinds| - 1];
      NoHosts(front);
      assert forall i :: 0 <= i < |front| ==> front[i] == kinds[i];
    }
  }

  predicate OnlyHost(kinds: seq<Kind>, h: int) {
    0 <= h < |kinds| && forall i :: 0 <= i < |kinds| ==> (kinds[i].Host? <==> i == h)
  }

  /** One host header, at one place, whatever the number of headers. */
  lemma {:induction false} OneHost(kinds: seq<Kind>)
    ensures Hosts(kinds) == 1 <==> exists h :: OnlyHost(kinds, h)
  {
    if kinds != [] {
      var n, front := |kinds| - 1, kinds[..|kinds| - 1];
      OneHost(front);
      NoHosts(front);
      assert forall i :: 0 <= i < n ==> front[i] == kinds[i];
      if kinds[n].Host? {
        assert Hosts(kinds) == 1 ==> OnlyHost(kinds, n);
        assert forall h :: OnlyHost(kinds, h) ==> h == n;
      } else {
        assert forall h :: OnlyHost(kinds, h) <==> OnlyHost(front, h);
      }
    }
  }

  /** The header lines of a stream whose headers are complete. */
  function HeaderLines(head: Bytes, text: Text): seq<Kind>
    requires EndsHeaders(head)
  {
    Kinds(Lines(head[..|head| - 4])[1..], text)
  }

  lemma {:induction false} TheLength(kinds: seq<Kind>)
    requires Orderly(kinds)
    ensures forall i :: 0 <= i < |kinds| && kinds[i].Length? ==> kinds[i].value == LengthOf(kinds)
  {
    if LengthOf(kinds).Some? {
      var j :| 0 <= j < |kinds| && kinds[j] == Length(LengthOf(kinds));
    }
  }

  /** The headers ask for a body of n bytes. */
  predicate Declares(kinds: seq<Kind>, n: int) {
    && (forall i :: 0 <= i < |kinds| && kinds[i].Length? ==> kinds[i].value == Some(n))
    && ((forall i :: 0 <= i < |kinds| ==> !kinds[i].Length?) ==> n == 0)
  }

  /** No refused line, one Host at `h`, at most one length and one type, and a body of n bytes. */
  predicate Framed(kinds: seq<Kind>, h: int, n: int) {
    Orderly(kinds) && OnlyHost(kinds, h) && Declares(kinds, n)
  }

  lemma {:induction false} LengthDeclares(kinds: seq<Kind>)
    requires Orderly(kinds)
    ensures Declares(kinds, if LengthOf(kinds).Some? then LengthOf(kinds).value else 0)
  {
    TheLength(kinds);
    if LengthOf(kinds).Some? {
      var j :| 0 <= j < |kinds| && kinds[j] == Length(LengthOf(kinds));
      assert kinds[j].Length?;
    }
  }

  lemma {:induction false} BodyIsDeclared(words: seq<Bytes>, length: Option<nat>, contentType: Option<Bytes>, k: nat,
                                          rest: Bytes, q: HttpRequest, n: int)
    requires GoodRequestLine(words) && k + n >= 0
    requires BodyOutcome(words, length, contentType, k, rest) == Accepted(q, k + n)
    ensures n == (if length.Some? then length.value else 0) && n <= MAX_BODY_BYTES
    ensures 0 <= n <= |rest| && q.body == rest[..n]
  {
  }

  lemma {:induction false} HeadIsFramed(head: Bytes, rest: Bytes, text: Text, q: HttpRequest, n: int)
    returns (h: int)
    requires |head| + n >= 0 && HeadOutcome(head, rest, text) == Accepted(q, |head| + n)
    ensures EndsHeaders(head) && Framed(HeaderLines(head, text), h, n)
    ensures 0 <= n <= MAX_BODY_BYTES && n <= |rest| && q.body == rest[..n]
  {
    var words, kinds := Words(Lines(head[..|head| - 4])[0]), HeaderLines(head, text);
    BodyIsDeclared(words, LengthOf(kinds), TypeOf(kinds), |head|, rest, q, n);
    LengthDeclares(kinds);
    h := TheHost(kinds);
  }

  lemma {:induction false} TheHost(kinds: seq<Kind>) returns (h: int)
    requires Hosts(kinds) == 1
    ensures OnlyHost(kinds, h)
  {
    OneHost(kinds);
    h :| OnlyHost(kinds, h);
  }

  /** The stream of an accepted request is its headers and the rest. */
  lemma {:induction false} AcceptedHead(s: Bytes, text: Text) returns (head: Bytes, rest: Bytes)
    requires RequestOf(s, text).Accepted?
    ensures s == head + rest && |head| <= MAX_HEADER_BYTES + 1 && ShortestHeaders(s, head)
    ensures RequestOf(s, text) == HeadOutcome(head, rest, text)
  {
    var k := HeaderEnd(s, MAX_HEADER_BYTES + 1).value;
    head, rest := s[..k], s[k..];
  }

  /** `head` is the shortest prefix of the stream that ends in an empty line. */
  predicate ShortestHeaders(s: Bytes, head: Bytes) {
    head <= s && EndsHeaders(head) && forall j :: 0 <= j < |head| ==> !EndsHeaders(s[..j])
  }

  lemma {:induction false} ShortestIsComplete(s: Bytes, head: Bytes, rest: Bytes, text: Text)
    requires s == head + rest && ShortestHeaders(s, head) && |head| <= MAX_HEADER_BYTES + 1
    ensures RequestOf(s, text) == HeadOutcome(head, rest, text)
  {
    EndSkips(s, 0, |head|, MAX_HEADER_BYTES + 1);
    assert s[..|head|] == head && s[|head|..] == rest;
  }

  /**
   What acceptance means: the headers are the shortest prefix ending in an empty line, at most 8193 bytes; exactly
   one line is a Host; at most one each gives a length and a type; none asks for streaming; and the body is
   exactly the declared number of following bytes, at most 4096.
   */
  lemma {:induction false} AcceptedRequestIsFramed(s: Bytes, text: Text, q: HttpRequest, consumed: nat)
    returns (head: Bytes, rest: Bytes, h: int)
    requires RequestOf(s, text) == Accepted(q, consumed)
    ensures s == head + rest && |head| <= MAX_HEADER_BYTES + 1 && ShortestHeaders(s, head)
    ensures |head| <= consumed <= |head| + |rest| && consumed - |head| <= MAX_BODY_BYTES
    ensures q.body == rest[..consumed - |head|] && Framed(HeaderLines(head, text), h, consumed - |head|)
  {
    head, rest := AcceptedHead(s, text);
    h := HeadFrames(head, rest, text, q, consumed);
  }

  lemma {:induction false} HeadFrames(head: Bytes, rest: Bytes, text: Text, q: HttpRequest, consumed: nat)
    returns (h: int)
    requires HeadOutcome(head, rest, text) == Accepted(q, consumed)
    ensures EndsHeaders(head) && |head| <= consumed <= |head| + |rest| && consumed - |head| <= MAX_BODY_BYTES
    ensures q.body == rest[..consumed - |head|] && Framed(HeaderLines(head, text), h, consumed - |head|)
  {
    h := HeadIsFramed(head, rest, text, q, consumed - |head|);
  }

  lemma {:induction false} BodyIgnoresWhatFollows(words: seq<Bytes>, length: Option<nat>, contentType: Option<Bytes>,
                                                  k: nat, rest: Bytes, rest': Bytes, q: HttpRequest, n: nat)
    requires GoodRequestLine(words) && BodyOutcome(words, length, contentType, k, rest) == Accepted(q, k + n)
    requires n <= |rest| && n <= |rest'| && rest[..n] == rest'[..n]
    ensures BodyOutcome(words, length, contentType, k, rest') == Accepted(q, k + n)
  {
  }

  lemma {:induction false} HeadConsumes(head: Bytes, rest: Bytes, text: Text)
    requires HeadOutcome(head, rest, text).Accepted?
    ensures |head| <= HeadOutcome(head, rest, text).consumed <= |head| + |rest|
  {
  }

  lemma {:induction false} HeadThenBody(head: Bytes, rest: Bytes, rest': Bytes, text: Text)
    returns (words: seq<Bytes>, length: Option<nat>, contentType: Option<Bytes>)
    requires HeadOutcome(head, rest, text).Accepted?
    ensures GoodRequestLine(words)
    ensures HeadOutcome(head, rest, text) == BodyOutcome(words, length, contentType, |head|, rest)
    ensures HeadOutcome(head, rest', text) == BodyOutcome(words, length, contentType, |head|, rest')
  {
    var lines := Lines(head[..|head| - 4]);
    var kinds := Kinds(lines[1..], text);
    words, length, contentType := Words(lines[0]), LengthOf(kinds), TypeOf(kinds);
  }

  lemma {:induction false} HeadIgnoresWhatFollows(head: Bytes, rest: Bytes, rest': Bytes, text: Text,
                                                  q: HttpRequest, n: nat)
    requires HeadOutcome(head, rest, text) == Accepted(q, |head| + n)
    requires n <= |rest| && n <= |rest'| && rest[..n] == rest'[..n]
    ensures HeadOutcome(head, rest', text) == Accepted(q, |head| + n)
  {
    var words, length, contentType := HeadThenBody(head, rest, rest', text);
    BodyIgnoresWhatFollows(words, length, contentType, |head|, rest, rest', q, n);
  }

  lemma {:induction false} StreamIgnoresWhatFollows(s: Bytes, head: Bytes, rest: Bytes, t: Bytes, text: Text, n: nat)
    returns (rest': Bytes)
    requires s == head + rest && ShortestHeaders(s, head) && |head| <= MAX_HEADER_BYTES + 1
    requires n <= |rest| && head + rest[..n] <= t
    ensures n <= |rest'| && rest[..n] == rest'[..n] && RequestOf(t, text) == HeadOutcome(head, rest', text)
  {
    rest' := t[|head|..];
    assert t == head + rest';
    forall j | 0 <= j < |head| ensures !EndsHeaders(t[..j]) {
      assert t[..j] == head[..j] == s[..j];
    }
    ShortestIsComplete(t, head, rest', text);
  }

  /** An accepted request is decided by the bytes it consumes: nothing after them can change it. */
  lemma {:induction false} AcceptanceIgnoresWhatFollows(s: Bytes, t: Bytes, text: Text, q: HttpRequest, consumed: nat)
    requires RequestOf(s, text) == Accepted(q, consumed) && consumed <= |s| && s[..consumed] <= t
    ensures RequestOf(t, text) == Accepted(q, consumed)
  {
    var head, rest := AcceptedHead(s, text);
    HeadConsumes(head, rest, text);
    var n := consumed - |head|;
    assert s[..consumed] == head + rest[..n];
    var rest' := StreamIgnoresWhatFollows(s, head, rest, t, text, n);
    HeadIgnoresWhatFollows(head, rest, rest', text, q, n);
  }

  // --------------------------------------------------------------------- splitting

  function Rejoin(parts: seq<Bytes>, separator: Bytes): Bytes
    requires parts != []
  {
    if |parts| == 1 then parts[0] else parts[0] + separator + Rejoin(parts[1..], separator)
  }

  predicate OneLine(line: Bytes) {
    forall i :: 0 <= i < |line| - 1 ==> !(line[i] == 13 && line[i + 1] == 10)
  }

  lemma {:induction false} FirstLine(s: Bytes)
    ensures OneLine(s[..LineLength(s)])
  {
    if |s| >= 2 && !(s[0] == 13 && s[1] == 10) {
      FirstLine(s[1..]);
      var line, tail := s[..LineLength(s)], s[1..][..LineLength(s[1..])];
      assert forall i :: 1 <= i < |line| ==> line[i] == tail[i - 1];
    }
  }

  /** Splitting at line ends loses nothing, and no line holds a line end. */
  lemma {:induction false} LinesRejoin(s: Bytes)
    ensures Rejoin(Lines(s), [13, 10]) == s
    ensures forall i :: 0 <= i < |Lines(s)| ==> OneLine(Lines(s)[i])
    decreases |s|
  {
    var n := LineLength(s);
    FirstLine(s);
    if n < |s| {
      LinesRejoin(s[n + 2..]);
      assert Lines(s)[1..] == Lines(s[n + 2..]);
      assert s == s[..n] + [13, 10] + s[n + 2..];
    } else {
      assert s[..n] == s;
    }
  }

  predicate Spaceless(word: Bytes) {
    forall i :: 0 <= i < |word| ==> word[i] != 32
  }

  lemma {:induction false} WordsSplit(s: Bytes)
    ensures
      var n := Until(s, 32);
      && Spaceless(s[..n])
      && (if n == |s| then Words(s) == [s] && s[..n] == s
          else Words(s) == [s[..n]] + Words(s[n + 1..]) && s == s[..n] + [32] + s[n + 1..])
  {
  }

  /** Splitting at spaces loses nothing, and no word holds a space. */
  lemma {:induction false} WordsRejoin(s: Bytes)
    ensures Rejoin(Words(s), [32]) == s
    ensures forall i :: 0 <= i < |Words(s)| ==> Spaceless(Words(s)[i])
    decreases |s|
  {
    var n := Until(s, 32);
    WordsSplit(s);
    if n < |s| {
      var word, rest := s[..n], Words(s[n + 1..]);
      WordsRejoin(s[n + 1..]);
      assert ([word] + rest)[1..] == rest;
      assert Rejoin([word] + rest, [32]) == word + [32] + Rejoin(rest, [32]);
    }
  }

  lemma {:induction false} FirstWord(word: Bytes, rest: Bytes)
    requires Spaceless(word)
    ensures Words(word) == [word] && Words(word + [32] + rest) == [word] + Words(rest)
  {
    var s := word + [32] + rest;
    assert s[|word|] == 32;
    assert Until(s, 32) == |word|;
    assert s[..|word|] == word && s[|word| + 1..] == rest;
  }

  const HTTP_1_1: Bytes := [72, 84, 84, 80, 47, 49, 46, 49]

  lemma {:induction false} VersionBytes(b: Bytes)
    ensures AsString(b) == "HTTP/1.1" <==> b == HTTP_1_1
  {
    assert AsString(HTTP_1_1) == "HTTP/1.1";
    assert forall i :: 0 <= i < |b| ==> AsString(b)[i] as int == b[i];
  }

  function RequestLine(verb: Bytes, path: Bytes): Bytes {
    verb + [32] + (path + [32] + HTTP_1_1)
  }

  lemma {:induction false} RejoinThree(words: seq<Bytes>)
    requires |words| == 3
    ensures Rejoin(words, [32]) == words[0] + [32] + (words[1] + [32] + words[2])
  {
    var rest := words[1..];
    assert rest[0] == words[1] && rest[1..] == [words[2]];
    assert Rejoin(rest, [32]) == words[1] + [32] + Rejoin([words[2]], [32]);
  }

  lemma {:induction false} GoodLineIsRequestLine(line: Bytes)
    requires GoodRequestLine(Words(line))
    ensures
      var words := Words(line);
      Spaceless(words[0]) && Spaceless(words[1]) && line == RequestLine(words[0], words[1])
  {
    WordsRejoin(line);
    RejoinThree(Words(line));
    VersionBytes(Words(line)[2]);
  }

  lemma {:induction false} ThreeWords(a: Bytes, b: Bytes, c: Bytes)
    requires Spaceless(a) && Spaceless(b) && Spaceless(c)
    ensures Words(a + [32] + (b + [32] + c)) == [a, b, c]
  {
    FirstWord(a, b + [32] + c);
    FirstWord(b, c);
    FirstWord(c, []);
  }

  lemma {:induction false} RequestLineIsGood(verb: Bytes, path: Bytes)
    requires verb != [] && Spaceless(verb) && path != [] && Spaceless(path)
    ensures Words(RequestLine(verb, path)) == [verb, path, HTTP_1_1] && GoodRequestLine([verb, path, HTTP_1_1])
  {
    ThreeWords(verb, path, HTTP_1_1);
    VersionBytes(HTTP_1_1);
  }

  /** A request line is accepted exactly when it is a verb, a path and the version with single spaces between. */
  lemma {:induction false} RequestLineIff(line: Bytes, verb: Bytes, path: Bytes)
    ensures GoodRequestLine(Words(line)) && Words(line)[0] == verb && Words(line)[1] == path <==>
            verb != [] && Spaceless(verb) && path != [] && Spaceless(path) && line == RequestLine(verb, path)
  {
    if GoodRequestLine(Words(line)) {
      GoodLineIsRequestLine(line);
    }
    if verb != [] && Spaceless(verb) && path != [] && Spaceless(path) {
      RequestLineIsGood(verb, path);
    }
  }

  // ----------------------------------------------------------------- the content length

  /** Section 8.6 of RFC 9110 allows digits only. */
  predicate LengthGrammar(v: Bytes) {
    v != [] && AllDigits(AsString(v))
  }

  /** The reader accepts a length outside that grammar exactly when it is a plus sign before digits that fit. */
  lemma {:induction false} PlusSignIff(v: Bytes)
    ensures ParseUsize(v).Some? && !LengthGrammar(v) <==>
            && |v| > 1 && v[0] == 43
            && AllDigits(AsString(v[1..])) && Value(AsString(v[1..])) <= MAX_USIZE
    ensures LengthGrammar(v) ==>
            ParseUsize(v) == if Value(AsString(v)) <= MAX_USIZE then Some(Value(AsString(v))) else None
    ensures ParseUsize(v).Some? && !LengthGrammar(v) ==> ParseUsize(v) == Some(Value(AsString(v[1..])))
  {
    var s := AsString(v);
    if v != [] {
      assert s[1..] == AsString(v[1..]);
      assert s[0] as int == v[0];
    }
  }

  function Ascii(s: string): Bytes
    requires LowerName(s)
  {
    seq(|s|, i requires 0 <= i < |s| => s[i] as int)
  }

  predicate LowerName(s: string) {
    s != "" && forall i :: 0 <= i < |s| ==> 'a' <= s[i] <= 'z' || s[i] == '-'
  }

  /** A header line with a given name. */
  function Header(name: string, value: Bytes): Bytes
    requires LowerName(name)
  {
    Ascii(name) + [58] + value
  }

  lemma {:induction false} HeaderParts(name: string, value: Bytes)
    requires LowerName(name)
    ensures
      var line := Header(name, value);
      && Until(line, 58) == |name| && line[..|name|] == Ascii(name) && line[|name| + 1..] == value
      && Named(Ascii(name), name) && (forall i :: 0 <= i < |name| ==> NameByte(Ascii(name)[i])) && line[0] > 32
  {
    var line := Header(name, value);
    assert line[|name|] == 58;
    assert forall i :: 0 <= i < |name| ==> line[i] == name[i] as int;
  }

  lemma {:induction false} HostKind(value: Bytes, text: Text)
    ensures LowerName("host") && KindOf(Header("host", value), text) == Host
  {
    HeaderParts("host", value);
  }

  lemma {:induction false} LengthKind(value: Bytes, text: Text)
    ensures LowerName("content-length")
    ensures KindOf(Header("content-length", value), text) == Length(ParseUsize(text.trim(value)))
  {
    HeaderParts("content-length", value);
  }

  lemma {:induction false} FirstOfLines(line: Bytes, rest: Bytes)
    requires Unbroken(line)
    ensures Lines(line) == [line] && Lines(line + [13, 10] + rest) == [line] + Lines(rest)
  {
    var s := line + [13, 10] + rest;
    LineEnds(line, rest);
    assert s[..|line|] == line && s[|line| + 2..] == rest;
  }

  predicate Unbroken(line: Bytes) {
    forall i :: 0 <= i < |line| ==> line[i] != 13 && line[i] != 10
  }

  lemma {:induction false} LineEnds(line: Bytes, rest: Bytes)
    requires Unbroken(line)
    ensures LineLength(line) == |line| && LineLength(line + [13, 10] + rest) == |line|
  {
    var s := line + [13, 10] + rest;
    if line != [] {
      LineEnds(line[1..], rest);
      assert s[1..] == line[1..] + [13, 10] + rest;
      assert s[0] == line[0];
    }
  }

  function ThreeLines(a: Bytes, b: Bytes, c: Bytes): Bytes {
    a + [13, 10] + (b + [13, 10] + c)
  }

  lemma {:induction false} ThreeLinesSplit(a: Bytes, b: Bytes, c: Bytes)
    requires Unbroken(a) && Unbroken(b) && Unbroken(c)
    ensures Lines(ThreeLines(a, b, c)) == [a, b, c]
  {
    FirstOfLines(a, b + [13, 10] + c);
    FirstOfLines(b, c);
    FirstOfLines(c, []);
  }

  /** Text without an empty line, followed by one: the headers end there. */
  lemma {:induction false} HeadersEndAt(t: Bytes, body: Bytes)
    requires t != [] && t[|t| - 1] != 13 && t[|t| - 1] != 10 && |t| + 4 <= MAX_HEADER_BYTES
    requires forall i :: 0 <= i < |t| - 2 ==> !(t[i] == 13 && t[i + 2] == 13)
    ensures ReadHeadersOf(t + BLANK_LINE + body) == Complete(t + BLANK_LINE)
  {
    var s, k := t + BLANK_LINE + body, |t| + 4;
    forall j | 0 <= j < k ensures !EndsHeaders(s[..j]) {
      if j >= 4 {
        var last := s[..j][j - 4..];
        assert last[0] == s[j - 4] && last[1] == s[j - 3] && last[2] == s[j - 2];
      }
    }
    assert s[..k] == t + BLANK_LINE;
    assert (t + BLANK_LINE)[|t|..] == BLANK_LINE;
    EndSkips(s, 0, k, MAX_HEADER_BYTES + 1);
  }

  lemma {:induction false} ThreeLinesEnd(a: Bytes, b: Bytes, c: Bytes, body: Bytes)
    requires Unbroken(a) && Unbroken(b) && Unbroken(c) && b != [] && c != []
    requires |ThreeLines(a, b, c)| + 4 <= MAX_HEADER_BYTES
    ensures ReadHeadersOf(ThreeLines(a, b, c) + BLANK_LINE + body) == Complete(ThreeLines(a, b, c) + BLANK_LINE)
  {
    var t := ThreeLines(a, b, c);
    assert t[|t| - 1] == c[|c| - 1];
    forall i | 0 <= i < |t| - 2 ensures !(t[i] == 13 && t[i + 2] == 13) {
      assert t[i] == 13 ==> i == |a| || i == |a| + 2 + |b|;
      assert t[i + 2] == 13 ==> i + 2 == |a| || i + 2 == |a| + 2 + |b|;
    }
    HeadersEndAt(t, body);
  }

  lemma {:induction false} HostAndLength(n: nat)
    ensures
      var kinds := [Host, Length(Some(n))];
      Orderly(kinds) && Hosts(kinds) == 1 && LengthOf(kinds) == Some(n) && TypeOf(kinds) == None
  {
    var kinds := [Host, Length(Some(n))];
    assert kinds[..1] == [Host] && [Host][..0] == [];
    assert Hosts([Host]) == 1 && TypeOf([Host]) == None;
  }

  lemma {:induction false} TwoKinds(host: Bytes, length: Bytes, text: Text, n: nat)
    requires KindOf(host, text) == Host && KindOf(length, text) == Length(Some(n))
    ensures Kinds([host, length], text) == [Host, Length(Some(n))]
  {
    assert [host, length][1..] == [length] && [length][1..] == [];
    assert Kinds([length], text) == [Length(Some(n))];
  }

  lemma {:induction false} BodyAccepts(words: seq<Bytes>, k: nat, body: Bytes)
    requires GoodRequestLine(words) && |body| <= MAX_BODY_BYTES
    ensures BodyOutcome(words, Some(|body|), None, k, body)
         == Accepted(HttpRequest(words[0], words[1], None, body), k + |body|)
  {
    assert body[..|body|] == body;
  }

  /** A request with one Host line and one length line: what it comes to depends on the length it parses to. */
  lemma {:induction false} SimpleHead(t: Bytes, line: Bytes, host: Bytes, length: Bytes, body: Bytes, text: Text,
                                      head: Bytes)
    requires head == t + BLANK_LINE && text.valid(head) && |body| <= MAX_BODY_BYTES
    requires Lines(t) == [line, host, length] && GoodRequestLine(Words(line))
    requires KindOf(host, text) == Host && KindOf(length, text) == Length(Some(|body|))
    ensures HeadOutcome(head, body, text)
         == Accepted(HttpRequest(Words(line)[0], Words(line)[1], None, body), |head| + |body|)
  {
    var kinds := [Host, Length(Some(|body|))];
    TwoKinds(host, length, text, |body|);
    HostAndLength(|body|);
    assert [line, host, length] == [line] + [host, length];
    OrderlyHead(t, head, body, text, line, [host, length], kinds);
    BodyAccepts(Words(line), |head|, body);
  }

  lemma {:induction false} TextThenBlank(t: Bytes, head: Bytes)
    requires head == t + BLANK_LINE
    ensures EndsHeaders(head) && head[..|head| - 4] == t
  {
    assert head[|head| - 4..] == BLANK_LINE;
  }

  lemma {:induction false} OrderlyHead(t: Bytes, head: Bytes, rest: Bytes, text: Text, line: Bytes, fields: seq<Bytes>,
                                       kinds: seq<Kind>)
    requires head == t + BLANK_LINE && text.valid(head) && Lines(t) == [line] + fields
    requires kinds == Kinds(fields, text) && GoodRequestLine(Words(line)) && Orderly(kinds) && Hosts(kinds) == 1
    ensures HeadOutcome(head, rest, text) == BodyOutcome(Words(line), LengthOf(kinds), TypeOf(kinds), |head|, rest)
  {
    TextThenBlank(t, head);
    assert Lines(t)[1..] == fields;
  }

  /**
   The plus sign reaches accepted requests: for every verb, path, host and body, a length written as a plus sign and
   the decimal length of the body is accepted, and with that body.
   */
  lemma {:induction false} PlusSignIsAccepted(verb: Bytes, path: Bytes, host: Bytes, digits: Bytes, body: Bytes,
                                              text: Text, head: Bytes)
    requires verb != [] && Spaceless(verb) && path != [] && Spaceless(path)
    requires Unbroken(RequestLine(verb, path)) && Unbroken(host) && |body| <= MAX_BODY_BYTES
    requires digits != [] && AllDigits(AsString(digits)) && Value(AsString(digits)) == |body|
    requires LowerName("host") && LowerName("content-length")
    requires head == ThreeLines(RequestLine(verb, path), Header("host", host), Header("content-length", [43] + digits))
                     + BLANK_LINE
    requires |head| <= MAX_HEADER_BYTES && text.valid(head) && text.trim([43] + digits) == [43] + digits
    ensures RequestOf(head + body, text) == Accepted(HttpRequest(verb, path, None, body), |head| + |body|)
  {
    var a, b, c := RequestLine(verb, path), Header("host", host), Header("content-length", [43] + digits);
    HostKind(host, text);
    LengthKind([43] + digits, text);
    PlusParses(digits);
    HeaderUnbroken("host", host);
    DigitsUnbroken(digits);
    HeaderUnbroken("content-length", [43] + digits);
    ThreeLinesEnd(a, b, c, body);
    CompleteThenHead(head + body, head, text);
    ThreeLinesSplit(a, b, c);
    RequestLineIsGood(verb, path);
    SimpleHead(ThreeLines(a, b, c), a, b, c, body, text, head);
    assert (head + body)[|head|..] == body;
  }

  lemma {:induction false} PlusParses(digits: Bytes)
    requires digits != [] && AllDigits(AsString(digits)) && Value(AsString(digits)) <= MAX_USIZE
    ensures ParseUsize([43] + digits) == Some(Value(AsString(digits)))
  {
    var s := AsString([43] + digits);
    assert s[0] == '+' && s[1..] == AsString(digits);
  }

  lemma {:induction false} DigitsUnbroken(digits: Bytes)
    requires AllDigits(AsString(digits))
    ensures Unbroken([43] + digits)
  {
    assert forall i :: 0 <= i < |digits| ==> AsString(digits)[i] as int == digits[i];
  }

  lemma {:induction false} HeaderUnbroken(name: string, value: Bytes)
    requires LowerName(name) && Unbroken(value)
    ensures Unbroken(Header(name, value)) && Header(name, value) != []
  {
  }
}
