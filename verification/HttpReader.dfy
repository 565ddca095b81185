/** The bounded HTTP/1.1 request reader in front of the faucet. */
module HttpReader {
  import opened Common
  import opened Codecs

  const MAX_BODY_BYTES := 4096
  const MAX_HEADER_BYTES := 8192
  const MAX_U8 := 255

  type Bytes = seq<Byte>

  /** The text rules the standard library supplies: valid UTF-8, and trimming of Unicode white space. */
  datatype Text = Text(valid: Bytes -> bool, trim: Bytes -> Bytes)

  datatype HttpRequest = HttpRequest(verb: Bytes, path: Bytes, contentType: Option<Bytes>, body: Bytes)

  // ----------------------------------------------------------------- where headers end

  const BLANK_LINE: Bytes := [13, 10, 13, 10]

  predicate EndsHeaders(b: Bytes) {
    |b| >= 4 && b[|b| - 4..] == BLANK_LINE
  }

  /** The shortest prefix, of length k to `limit`, that ends in an empty line. */
  function EndFrom(s: Bytes, k: nat, limit: nat): (r: Option<nat>)
    ensures r.Some? ==> k <= r.value <= limit && r.value <= |s| && EndsHeaders(s[..r.value])
    ensures forall j :: k <= j <= |s| && j <= limit && (r.Some? ==> j < r.value) ==> !EndsHeaders(s[..j])
    decreases |s| + 1 - k
  {
    if k > |s| || k > limit then None
    else if EndsHeaders(s[..k]) then Some(k) else EndFrom(s, k + 1, limit)
  }

  function HeaderEnd(s: Bytes, limit: nat): Option<nat> {
    EndFrom(s, 0, limit)
  }

  datatype Headers = Complete(bytes: Bytes) | Incomplete | HeadersTooLarge

  function ReadHeadersOf(s: Bytes): Headers {
    var end := HeaderEnd(s, MAX_HEADER_BYTES + 1);
    if end.Some? then Complete(s[..end.value])
    else if |s| <= MAX_HEADER_BYTES then Incomplete
    else HeadersTooLarge
  }

  /** How much `drain_header_tail` discards. */
  function Drained(s: Bytes): (n: nat)
    ensures n <= |s| && n <= MAX_HEADER_BYTES
  {
    var end := HeaderEnd(s, MAX_HEADER_BYTES);
    if end.Some? then end.value else if |s| <= MAX_HEADER_BYTES then |s| else MAX_HEADER_BYTES
  }

  /** A prefix without an empty line can be skipped when looking for the first one. */
  lemma {:induction false} EndSkips(s: Bytes, k: nat, m: nat, limit: nat)
    requires k <= m <= |s| + 1 && m <= limit + 1
    requires forall j :: k <= j < m ==> !EndsHeaders(s[..j])
    ensures EndFrom(s, k, limit) == EndFrom(s, m, limit)
    decreases m - k
  {
    if k < m {
      EndSkips(s, k + 1, m, limit);
    }
  }

  /** `bytes`, a prefix of the stream, holds no empty line and neither does any shorter prefix. */
  predicate Unended(s: Bytes, bytes: Bytes) {
    bytes <= s && forall j :: 0 <= j <= |bytes| ==> !EndsHeaders(s[..j])
  }

  lemma {:induction false} UnendedGrows(s: Bytes, bytes: Bytes, b: Byte)
    requires Unended(s, bytes) && bytes + [b] <= s && !EndsHeaders(bytes + [b])
    ensures Unended(s, bytes + [b])
  {
    assert s[..|bytes| + 1] == bytes + [b];
  }

  lemma {:induction false} StreamEnds(s: Bytes)
    requires Unended(s, s) && |s| <= MAX_HEADER_BYTES
    ensures ReadHeadersOf(s) == Incomplete
  {
    EndSkips(s, 0, |s| + 1, MAX_HEADER_BYTES + 1);
  }

  lemma {:induction false} HeadersEnd(s: Bytes, bytes: Bytes, b: Byte)
    requires Unended(s, bytes) && bytes + [b] <= s && EndsHeaders(bytes + [b]) && |bytes| <= MAX_HEADER_BYTES
    ensures ReadHeadersOf(s) == Complete(bytes + [b])
  {
    assert s[..|bytes| + 1] == bytes + [b];
    EndSkips(s, 0, |bytes| + 1, MAX_HEADER_BYTES + 1);
  }

  lemma {:induction false} HeadersOverflow(s: Bytes, bytes: Bytes)
    requires Unended(s, bytes) && |bytes| == MAX_HEADER_BYTES + 1
    ensures ReadHeadersOf(s) == HeadersTooLarge
  {
    EndSkips(s, 0, |bytes| + 1, MAX_HEADER_BYTES + 1);
  }

  /** The window holds the last four bytes, or all of them at its end. */
  predicate EndsWith(seen: Bytes, window: Bytes) {
    |window| == 4 && forall i :: 0 <= i < 4 && 4 - |seen| <= i ==> window[i] == seen[|seen| - 4 + i]
  }

  lemma {:induction false} WindowSlides(seen: Bytes, window: Bytes, b: Byte, slid: Bytes)
    requires EndsWith(seen, window) && slid == [window[1], window[2], window[3]] + [b]
    ensures EndsWith(seen + [b], slid)
    ensures |seen| >= 3 ==> (EndsHeaders(seen + [b]) <==> slid == BLANK_LINE)
    ensures |seen| < 3 ==> !EndsHeaders(seen + [b])
  {
    var longer := seen + [b];
    if |seen| >= 3 {
      assert longer[|longer| - 4..] == slid;
    }
  }

  lemma {:induction false} DrainStops(s: Bytes, seen: Bytes, rest: Bytes)
    requires s == seen + rest && Unended(s, seen)
    requires |seen| == MAX_HEADER_BYTES || (rest == [] && |seen| < MAX_HEADER_BYTES)
    ensures rest == s[Drained(s)..]
  {
    EndSkips(s, 0, |seen| + 1, MAX_HEADER_BYTES);
    assert s[|seen|..] == rest;
  }

  lemma {:induction false} DrainEnds(s: Bytes, seen: Bytes, b: Byte, rest: Bytes)
    requires s == seen + [b] + rest && Unended(s, seen) && EndsHeaders(seen + [b]) && |seen| < MAX_HEADER_BYTES
    ensures rest == s[Drained(s)..]
  {
    assert s[..|seen| + 1] == seen + [b] && s[|seen| + 1..] == rest;
    EndSkips(s, 0, |seen| + 1, MAX_HEADER_BYTES);
  }

  // -------------------------------------------------------------------------- text pieces

  function AsString(b: Bytes): string {
    seq(|b|, i requires 0 <= i < |b| => b[i] as char)
  }

  /** The index of the first separator, or the length. */
  function LineLength(s: Bytes): (n: nat)
    ensures n <= |s|
    ensures n < |s| ==> n + 1 < |s| && s[n] == 13 && s[n + 1] == 10
  {
    if |s| < 2 then |s| else if s[0] == 13 && s[1] == 10 then 0 else 1 + LineLength(s[1..])
  }

  /** `split("\r\n")` */
  function Lines(s: Bytes): (lines: seq<Bytes>)
    ensures lines != []
    decreases |s|
  {
    var n := LineLength(s);
    if n == |s| then [s] else [s[..n]] + Lines(s[n + 2..])
  }

  function Until(s: Bytes, b: Byte): (n: nat)
    ensures n <= |s| && (n < |s| ==> s[n] == b)
    ensures forall i :: 0 <= i < n ==> s[i] != b
  {
    if s == [] || s[0] == b then 0 else 1 + Until(s[1..], b)
  }

  /** `split(' ')` */
  function Words(s: Bytes): (words: seq<Bytes>)
    ensures words != []
    decreases |s|
  {
    var n := Until(s, 32);
    if n == |s| then [s] else [s[..n]] + Words(s[n + 1..])
  }

  function Lower(b: Byte): Byte {
    if 65 <= b <= 90 then b + 32 else b
  }

  predicate Named(name: Bytes, expected: string)
    requires forall i :: 0 <= i < |expected| ==> expected[i] as int < 128
  {
    |name| == |expected| && forall i :: 0 <= i < |name| ==> Lower(name[i]) == expected[i] as int
  }

  predicate NameByte(b: Byte) {
    48 <= b <= 57 || 65 <= b <= 90 || 97 <= b <= 122 || b == 45
  }

  /** `parse::<usize>`: digits, optionally after one plus sign. */
  function ParseUsize(v: Bytes): Option<nat> {
    var s := AsString(v);
    var digits := if s != "" && s[0] == '+' then s[1..] else s;
    if digits != "" && AllDigits(digits) && Value(digits) <= MAX_USIZE then Some(Value(digits)) else None
  }

  // ------------------------------------------------------------------------ header lines

  datatype Kind = Malformed | Host | Length(value: Option<nat>) | ContentType(text: Bytes) | Streaming | Other

  function KindOf(line: Bytes, text: Text): Kind {
    var colon := Until(line, 58);
    if line != [] && (line[0] == 32 || line[0] == 9) then Malformed
    else if colon == |line| then Malformed
    else
      var name, value := line[..colon], text.trim(line[colon + 1..]);
      if name == [] || exists i :: 0 <= i < |name| && !NameByte(name[i]) then Malformed
      else if Named(name, "host") then Host
      else if Named(name, "content-length") then Length(ParseUsize(value))
      else if Named(name, "content-type") then ContentType(value)
      else if Named(name, "transfer-encoding") || Named(name, "expect") then Streaming
      else Other
  }

  function Kinds(lines: seq<Bytes>, text: Text): (kinds: seq<Kind>)
    ensures |kinds| == |lines|
  {
    if lines == [] then [] else [KindOf(lines[0], text)] + Kinds(lines[1..], text)
  }

  lemma {:induction false} KindsAt(lines: seq<Bytes>, text: Text, i: nat)
    requires i < |lines|
    ensures Kinds(lines, text)[i] == KindOf(lines[i], text)
  {
    if i > 0 {
      KindsAt(lines[1..], text, i - 1);
    }
  }

  function Hosts(kinds: seq<Kind>): nat {
    if kinds == [] then 0 else Hosts(kinds[..|kinds| - 1]) + if kinds[|kinds| - 1].Host? then 1 else 0
  }

  /** A line that ends the reading at once. */
  predicate Refused(k: Kind) {
    k.Malformed? || k.Streaming? || (k.Length? && k.value.None?)
  }

  /** No refused line, and at most one length and one type. */
  predicate Orderly(kinds: seq<Kind>) {
    && (forall i :: 0 <= i < |kinds| ==> !Refused(kinds[i]))
    && (forall i, j :: 0 <= i < j < |kinds| ==> !(kinds[i].Length? && kinds[j].Length?))
    && (forall i, j :: 0 <= i < j < |kinds| ==> !(kinds[i].ContentType? && kinds[j].ContentType?))
  }

  /** The declared body length: that of the length header, or nothing. */
  function LengthOf(kinds: seq<Kind>): (r: Option<nat>)
    requires forall i :: 0 <= i < |kinds| ==> !Refused(kinds[i])
    ensures r.Some? ==> Length(r) in kinds
    ensures r.None? ==> forall i :: 0 <= i < |kinds| ==> !kinds[i].Length?
  {
    if kinds == [] then None
    else if kinds[|kinds| - 1].Length? then
      assert !Refused(kinds[|kinds| - 1]);
      kinds[|kinds| - 1].value
    else LengthOf(kinds[..|kinds| - 1])
  }

  function TypeOf(kinds: seq<Kind>): (r: Option<Bytes>)
    ensures r.Some? ==> ContentType(r.value) in kinds
    ensures r.None? ==> forall i :: 0 <= i < |kinds| ==> !kinds[i].ContentType?
  {
    if kinds == [] then None
    else if kinds[|kinds| - 1].ContentType? then Some(kinds[|kinds| - 1].text)
    else TypeOf(kinds[..|kinds| - 1])
  }

  // -------------------------------------------------------------------------- the request

  datatype Outcome = Accepted(request: HttpRequest, consumed: nat) | Rejected(status: int)

  predicate GoodRequestLine(words: seq<Bytes>) {
    |words| == 3 && AsString(words[2]) == "HTTP/1.1" && words[0] != [] && words[1] != []
  }

  /** The body is the declared number of bytes right after the headers. */
  function BodyOutcome(words: seq<Bytes>, length: Option<nat>, contentType: Option<Bytes>, k: nat, rest: Bytes): Outcome
    requires GoodRequestLine(words)
  {
    var n := if length.Some? then length.value else 0;
    if n > MAX_BODY_BYTES then Rejected(413)
    else if |rest| < n then Rejected(400)
    else Accepted(HttpRequest(words[0], words[1], contentType, rest[..n]), k + n)
  }

  function HeadOutcome(head: Bytes, rest: Bytes, text: Text): Outcome {
    if !text.valid(head) || !EndsHeaders(head) then Rejected(400)
    else
      var lines := Lines(head[..|head| - 4]);
      var words, kinds := Words(lines[0]), Kinds(lines[1..], text);
      if !GoodRequestLine(words) || !Orderly(kinds) || Hosts(kinds) != 1 then Rejected(400)
      else BodyOutcome(words, LengthOf(kinds), TypeOf(kinds), |head|, rest)
  }

  /** What the reader leaves unread of the bytes after complete headers. */
  function HeadRest(head: Bytes, rest: Bytes, text: Text): Bytes {
    match HeadOutcome(head, rest, text)
    case Accepted(_, consumed) => if |head| <= consumed <= |head| + |rest| then rest[consumed - |head|..] else []
    case Rejected(_) => if AsksForMore(head, rest, text) then [] else rest
  }

  /** The headers are in order, but the peer ends before the body does. */
  predicate AsksForMore(head: Bytes, rest: Bytes, text: Text) {
    && text.valid(head) && EndsHeaders(head)
    && var lines := Lines(head[..|head| - 4]);
       var kinds := Kinds(lines[1..], text);
       && GoodRequestLine(Words(lines[0])) && Orderly(kinds) && Hosts(kinds) == 1
       && LengthOf(kinds).Some? && |rest| < LengthOf(kinds).value <= MAX_BODY_BYTES
  }

  /** What is left in the stream after `read_request`, accepted or not. */
  function Unread(s: Bytes, text: Text): Bytes {
    match ReadHeadersOf(s)
    case Incomplete => []
    case HeadersTooLarge =>
      if |s| <= MAX_HEADER_BYTES then [] else s[MAX_HEADER_BYTES + 1..][Drained(s[MAX_HEADER_BYTES + 1..])..]
    case Complete(head) => HeadRest(head, s[|head|..], text)
  }

  /** `read_request`, as a function of everything the stream will deliver. */
  function RequestOf(s: Bytes, text: Text): Outcome {
    match ReadHeadersOf(s)
    case HeadersTooLarge => Rejected(431)
    case Incomplete => Rejected(400)
    case Complete(head) => HeadOutcome(head, s[|head|..], text)
  }

  // --------------------------------------------------------------------------- the reader

  /** The four-byte window rotates left by one and takes the new byte at its end. */
  method Rotate(tail: array<Byte>, b: Byte)
    requires tail.Length == 4
    modifies tail
    ensures tail[..] == old([tail[1], tail[2], tail[3]]) + [b]
  {
    tail[0], tail[1], tail[2], tail[3] := tail[1], tail[2], tail[3], b;
  }

  class Connection {
    const text: Text
    /** What the peer will still deliver before closing or timing out. */
    var rest: Bytes

    constructor (stream: Bytes, rules: Text)
      ensures rest == stream && text == rules
    {
      rest := stream;
      text := rules;
    }

    method ReadByte() returns (b: Option<Byte>)
      modifies this`rest
      ensures old(rest) == [] ==> b == None && rest == []
      ensures old(rest) != [] ==> b == Some(old(rest)[0]) && rest == old(rest)[1..]
    {
      if rest == [] {
        return None;
      }
      b, rest := Some(rest[0]), rest[1..];
    }

    /** `drain_header_tail`, with its rotating four-byte window. */
    method DrainHeaderTail()
      modifies this`rest
      ensures rest == old(rest)[Drained(old(rest))..]
    {
      ghost var s, seen: Bytes := rest, [];
      var tail := new Byte[4](_ => 0);
      var index := 0;
      while index < MAX_HEADER_BYTES
        invariant tail.Length == 4 && fresh(tail)
        invariant index == |seen| <= MAX_HEADER_BYTES && s == seen + rest && Unended(s, seen)
        invariant EndsWith(seen, tail[..])
      {
        var byte := ReadByte();
        if byte.None? {
          DrainStops(s, seen, rest);
          return;
        }
        ghost var before, window := seen, tail[..];
        seen := seen + [byte.value];
        Rotate(tail, byte.value);
        assert s == seen + rest;
        WindowSlides(before, window, byte.value, tail[..]);
        if index >= 3 && tail[..] == BLANK_LINE {
          DrainEnds(s, before, byte.value, rest);
          return;
        }
        UnendedGrows(s, before, byte.value);
        index := index + 1;
      }
      DrainStops(s, seen, rest);
    }

    /** `read_headers` */
    method ReadHeaders() returns (r: Headers)
      modifies this`rest
      ensures r == ReadHeadersOf(old(rest))
      ensures r.Complete? ==> rest == old(rest)[|r.bytes|..]
      ensures r.Incomplete? ==> rest == []
      ensures r.HeadersTooLarge? ==>
                var tail := old(rest)[MAX_HEADER_BYTES + 1..];
                rest == tail[Drained(tail)..]
    {
      ghost var s := rest;
      var bytes: Bytes := [];
      while true
        invariant |bytes| <= MAX_HEADER_BYTES && s == bytes + rest
        invariant Unended(s, bytes)
        decreases MAX_HEADER_BYTES - |bytes|
      {
        var byte := ReadByte();
        if byte.None? {
          assert s == bytes;
          StreamEnds(s);
          return Incomplete;
        }
        ghost var before := bytes;
        bytes := bytes + [byte.value];
        assert s == bytes + rest;
        if EndsHeaders(bytes) {
          HeadersEnd(s, before, byte.value);
          return Complete(bytes);
        }
        UnendedGrows(s, before, byte.value);
        if |bytes| > MAX_HEADER_BYTES {
          HeadersOverflow(s, bytes);
          DrainHeaderTail();
          return HeadersTooLarge;
        }
      }
    }

    /** The header loop; the host counter is an eight-bit saturating one. */
    method ReadFields(lines: seq<Bytes>) returns (seen: Option<Seen>)
      ensures seen.Some? <==> Orderly(Kinds(lines, text))
      ensures seen.Some? ==>
                var kinds := Kinds(lines, text);
                && seen.value.length == LengthOf(kinds) && seen.value.contentType == TypeOf(kinds)
                && (seen.value.hosts == 1 <==> Hosts(kinds) == 1)
    {
      ghost var kinds := Kinds(lines, text);
      var length: Option<nat>, contentType: Option<Bytes>, hosts := None, None, 0;
      for i := 0 to |lines|
        invariant Orderly(kinds[..i])
        invariant length == LengthOf(kinds[..i]) && contentType == TypeOf(kinds[..i])
        invariant hosts == Saturated(Hosts(kinds[..i]))
      {
        var kind := KindOf(lines[i], text);
        KindsAt(lines, text, i);
        if Refused(kind) || (kind.Length? && length.Some?) || (kind.ContentType? && contentType.Some?) {
          Disorder(kinds, i);
          return None;
        }
        StaysOrderly(kinds, i);
        match kind {
          case Host => hosts := if hosts < MAX_U8 then hosts + 1 else MAX_U8;
          case Length(value) => length := value;
          case ContentType(value) => contentType := Some(value);
          case Other =>
        }
      }
      assert kinds[..|lines|] == kinds;
      seen := Some(Seen(length, contentType, hosts));
    }

    method ReadExact(n: nat) returns (body: Option<Bytes>)
      modifies this`rest
      ensures body == if n <= |old(rest)| then Some(old(rest)[..n]) else None
      ensures rest == if n <= |old(rest)| then old(rest)[n..] else []
    {
      if n <= |rest| {
        body, rest := Some(rest[..n]), rest[n..];
      } else {
        body, rest := None, [];
      }
    }

    method ReadBody(words: seq<Bytes>, seen: Seen, k: nat) returns (r: Outcome)
      requires GoodRequestLine(words)
      modifies this`rest
      ensures r == BodyOutcome(words, seen.length, seen.contentType, k, old(rest))
      ensures r.Rejected? ==>
                rest == if seen.length.Some? && |old(rest)| < seen.length.value <= MAX_BODY_BYTES then [] else old(rest)
      ensures r.Accepted? ==> k <= r.consumed <= k + |old(rest)| && rest == old(rest)[r.consumed - k..]
    {
      var n := if seen.length.Some? then seen.length.value else 0;
      if n > MAX_BODY_BYTES {
        return Rejected(413);
      }
      var body := ReadExact(n);
      if body.None? {
        return Rejected(400);
      }
      r := Accepted(HttpRequest(words[0], words[1], seen.contentType, body.value), k + n);
    }

    /** Parses complete headers and reads the body they declare. */
    method ReadAfterHeaders(head: Bytes) returns (r: Outcome)
      modifies this`rest
      ensures r == HeadOutcome(head, old(rest), text) && rest == HeadRest(head, old(rest), text)
      ensures r.Accepted? ==>
                |head| <= r.consumed <= |head| + |old(rest)| && rest == old(rest)[r.consumed - |head|..]
    {
      if !text.valid(head) || !EndsHeaders(head) {
        return Rejected(400);
      }
      var lines := Lines(head[..|head| - 4]);
      var words := Words(lines[0]);
      if !GoodRequestLine(words) {
        return Rejected(400);
      }
      var seen := ReadFields(lines[1..]);
      if seen.None? || seen.value.hosts != 1 {
        return Rejected(400);
      }
      r := ReadBody(words, seen.value, |head|);
    }

    /** `read_request` */
    method ReadRequest() returns (r: Outcome)
      modifies this`rest
      ensures r == RequestOf(old(rest), text) && rest == Unread(old(rest), text)
      ensures r.Accepted? ==> r.consumed <= |old(rest)| && rest == old(rest)[r.consumed..]
    {
      ghost var s := rest;
      var headers := ReadHeaders();
      if headers.Incomplete? {
        return Rejected(400);
      }
      if headers.HeadersTooLarge? {
        return Rejected(431);
      }
      r := ReadAfterHeaders(headers.bytes);
      CompleteThenHead(s, headers.bytes, text);
      if r.Accepted? {
        assert s[|headers.bytes|..][r.consumed - |headers.bytes|..] == s[r.consumed..];
      }
    }
  }

  lemma {:induction false} CompleteThenHead(s: Bytes, head: Bytes, text: Text)
    requires ReadHeadersOf(s) == Complete(head)
    ensures |head| <= |s| && RequestOf(s, text) == HeadOutcome(head, s[|head|..], text)
  {
  }

  datatype Seen = Seen(length: Option<nat>, contentType: Option<Bytes>, hosts: int)

  function Saturated(n: nat): int {
    if n < MAX_U8 then n else MAX_U8
  }

  lemma {:induction false} Disorder(kinds: seq<Kind>, i: nat)
    requires i < |kinds| && Orderly(kinds[..i])
    requires || Refused(kinds[i])
             || (kinds[i].Length? && LengthOf(kinds[..i]).Some?)
             || (kinds[i].ContentType? && TypeOf(kinds[..i]).Some?)
    ensures !Orderly(kinds)
  {
    var front := kinds[..i];
    if !Refused(kinds[i]) {
      if kinds[i].Length? {
        var j :| 0 <= j < |front| && front[j] == Length(LengthOf(front));
        assert kinds[j] == front[j];
      } else {
        var j :| 0 <= j < |front| && front[j] == ContentType(TypeOf(front).value);
        assert kinds[j] == front[j];
      }
    }
  }

  lemma {:induction false} StaysOrderly(kinds: seq<Kind>, i: nat)
    requires i < |kinds| && Orderly(kinds[..i]) && !Refused(kinds[i])
    requires kinds[i].Length? ==> LengthOf(kinds[..i]).None?
    requires kinds[i].ContentType? ==> TypeOf(kinds[..i]).None?
    ensures Orderly(kinds[..i + 1])
    ensures LengthOf(kinds[..i + 1]) == if kinds[i].Length? then kinds[i].value else LengthOf(kinds[..i])
    ensures TypeOf(kinds[..i + 1]) == if kinds[i].ContentType? then Some(kinds[i].text) else TypeOf(kinds[..i])
    ensures Hosts(kinds[..i + 1]) == Hosts(kinds[..i]) + if kinds[i].Host? then 1 else 0
  {
    var longer := kinds[..i + 1];
    assert longer[..i] == kinds[..i] && longer[i] == kinds[i];
  }
}
