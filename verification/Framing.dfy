/** Newline framing of the faucet's request stream under a fixed buffer bound. */
module Framing {
  import opened Common
  import opened Codecs

  const MAX_REQUEST_BYTES := 4096
  const NEWLINE: Byte := 10

  type Bytes = seq<Byte>

  datatype Frame = Empty | Line(text: Bytes) | TooLarge | InvalidUtf8

  /** The text rules the standard library supplies: valid UTF-8, and nothing but white space. */
  datatype Text = Text(valid: Bytes -> bool, blank: Bytes -> bool)

  // --------------------------------------------------------------------------- the split

  /** The length of the first piece: up to and including the first newline, or everything. */
  function PieceLength(s: Bytes): (n: nat)
    ensures n <= |s| && (s != [] ==> n > 0)
  {
    if s == [] then 0 else if s[0] == NEWLINE then 1 else 1 + PieceLength(s[1..])
  }

  /** The stream cut after each newline. */
  function Pieces(s: Bytes): seq<Bytes> {
    if s == [] then [] else [s[..PieceLength(s)]] + Pieces(s[PieceLength(s)..])
  }

  function Classify(piece: Bytes, text: Text): Frame {
    if |piece| > MAX_REQUEST_BYTES then TooLarge
    else if !text.valid(piece) then InvalidUtf8
    else if text.blank(piece) then Empty
    else Line(piece)
  }

  function ClassifyAll(pieces: seq<Bytes>, text: Text): seq<Frame> {
    seq(|pieces|, i requires 0 <= i < |pieces| => Classify(pieces[i], text))
  }

  function Frames(s: Bytes, text: Text): seq<Frame> {
    ClassifyAll(Pieces(s), text)
  }

  function Concat(pieces: seq<Bytes>): Bytes {
    if pieces == [] then [] else pieces[0] + Concat(pieces[1..])
  }

  /** A piece has a newline at its end or nowhere. */
  predicate IsPiece(p: Bytes) {
    p != [] && forall i :: 0 <= i < |p| - 1 ==> p[i] != NEWLINE
  }

  predicate Ended(p: Bytes) {
    p != [] && p[|p| - 1] == NEWLINE
  }

  /** `pieces` cuts `s` after each newline and nowhere else. */
  predicate IsSplit(pieces: seq<Bytes>, s: Bytes) {
    && Concat(pieces) == s
    && (forall i :: 0 <= i < |pieces| ==> IsPiece(pieces[i]))
    && (forall i :: 0 <= i < |pieces| - 1 ==> Ended(pieces[i]))
  }

  lemma {:induction false} FirstPiece(s: Bytes)
    requires s != []
    ensures IsPiece(s[..PieceLength(s)])
    ensures PieceLength(s) < |s| ==> Ended(s[..PieceLength(s)])
  {
    if s[0] != NEWLINE && |s| > 1 {
      FirstPiece(s[1..]);
      assert forall i :: 1 <= i < |s| ==> s[i] == s[1..][i - 1];
    }
  }

  /** The first piece is determined by where its newline is. */
  lemma {:induction false} PieceIsFirst(p: Bytes, rest: Bytes)
    requires IsPiece(p) && (rest != [] ==> Ended(p))
    ensures PieceLength(p + rest) == |p|
  {
    var s := p + rest;
    if p[0] != NEWLINE {
      assert s[1..] == p[1..] + rest;
      if |p| > 1 {
        PieceIsFirst(p[1..], rest);
      } else {
        assert s[1..] == [];
      }
    }
  }

  lemma {:induction false} PiecesAreSplit(s: Bytes)
    ensures IsSplit(Pieces(s), s)
  {
    if s != [] {
      var n := PieceLength(s);
      FirstPiece(s);
      PiecesAreSplit(s[n..]);
      assert Pieces(s)[1..] == Pieces(s[n..]);
      assert s == s[..n] + s[n..];
      if n < |s| {
        assert Pieces(s[n..]) != [];
      }
    }
  }

  lemma {:induction false} SplitIsUnique(pieces: seq<Bytes>, s: Bytes)
    requires IsSplit(pieces, s)
    ensures pieces == Pieces(s)
  {
    if pieces != [] {
      var p, rest := pieces[0], Concat(pieces[1..]);
      if |pieces| > 1 {
        assert Ended(p);
      } else {
        assert rest == [];
      }
      PieceIsFirst(p, rest);
      assert s == p + rest && s[|p|..] == rest && s[..|p|] == p;
      SplitIsUnique(pieces[1..], rest);
    }
  }

  /** Cutting after each newline is the one way to split the stream, and it loses no byte. */
  lemma SplitIff(pieces: seq<Bytes>, s: Bytes)
    ensures pieces == Pieces(s) <==> IsSplit(pieces, s)
  {
    PiecesAreSplit(s);
    if IsSplit(pieces, s) {
      SplitIsUnique(pieces, s);
    }
  }

  lemma {:induction false} ConcatUnfold(p: Bytes, rest: seq<Bytes>)
    ensures Concat([p] + rest) == p + Concat(rest)
  {
    assert ([p] + rest)[1..] == rest;
  }

  lemma {:induction false} ConcatAppend(a: seq<Bytes>, b: seq<Bytes>)
    ensures Concat(a + b) == Concat(a) + Concat(b)
  {
    if a == [] {
      assert a + b == b;
    } else {
      var p, rest := a[0], a[1..];
      ConcatAppend(rest, b);
      ConcatUnfold(p, rest + b);
      assert a + b == [p] + (rest + b);
      assert p + (Concat(rest) + Concat(b)) == (p + Concat(rest)) + Concat(b);
    }
  }

  lemma {:induction false} LastPieceEnded(a: Bytes)
    requires Ended(a)
    ensures Pieces(a) != [] && Ended(Pieces(a)[|Pieces(a)| - 1])
  {
    var n := PieceLength(a);
    FirstPiece(a);
    if n < |a| {
      LastPieceEnded(a[n..]);
      assert Pieces(a)[|Pieces(a)| - 1] == Pieces(a[n..])[|Pieces(a[n..])| - 1];
    } else {
      assert a[..n] == a && a[n..] == [];
    }
  }

  lemma {:induction false} SplitsJoin(p: seq<Bytes>, a: Bytes, q: seq<Bytes>, b: Bytes)
    requires IsSplit(p, a) && IsSplit(q, b) && p != [] && Ended(p[|p| - 1])
    ensures IsSplit(p + q, a + b)
  {
    ConcatAppend(p, q);
  }

  lemma {:induction false} PiecesResynchronise(a: Bytes, b: Bytes)
    requires Ended(a)
    ensures Pieces(a + b) == Pieces(a) + Pieces(b)
  {
    PiecesAreSplit(a);
    PiecesAreSplit(b);
    LastPieceEnded(a);
    SplitsJoin(Pieces(a), a, Pieces(b), b);
    SplitIsUnique(Pieces(a) + Pieces(b), a + b);
  }

  /** Resynchronisation: whatever stands before a newline has no effect on the frames after it. */
  lemma {:induction false} FramesResynchronise(a: Bytes, b: Bytes, text: Text)
    requires Ended(a)
    ensures Frames(a + b, text) == Frames(a, text) + Frames(b, text)
  {
    PiecesResynchronise(a, b);
    ClassifyJoin(Pieces(a), Pieces(b), text);
  }

  lemma {:induction false} ClassifyJoin(a: seq<Bytes>, b: seq<Bytes>, text: Text)
    ensures ClassifyAll(a + b, text) == ClassifyAll(a, text) + ClassifyAll(b, text)
  {
  }

  /** The one piece of a single piece. */
  lemma {:induction false} PieceAlone(p: Bytes)
    requires IsPiece(p)
    ensures Pieces(p) == [p]
  {
    var pieces := [p];
    assert pieces[1..] == [] && Concat(pieces) == p + [];
    SplitIsUnique(pieces, p);
  }

  lemma {:induction false} OneFrame(p: Bytes, b: Bytes, text: Text)
    requires IsPiece(p) && (b == [] || Ended(p))
    ensures Frames(p + b, text) == [Classify(p, text)] + Frames(b, text)
  {
    PieceAlone(p);
    assert Frames(p, text) == [Classify(p, text)];
    if b == [] {
      assert p + b == p && Frames(b, text) == [];
    } else {
      FramesResynchronise(p, b, text);
    }
  }

  lemma {:induction false} FramesAround(a: Bytes, p: Bytes, b: Bytes, text: Text)
    requires (a == [] || Ended(a)) && IsPiece(p) && (b == [] || Ended(p))
    ensures Frames(a + p + b, text) == Frames(a, text) + [Classify(p, text)] + Frames(b, text)
  {
    OneFrame(p, b, text);
    assert a + p + b == a + (p + b);
    if a == [] {
      assert a + (p + b) == p + b && Frames(a, text) == [];
    } else {
      FramesResynchronise(a, p + b, text);
    }
  }

  /**
   Wherever a piece stands in the stream, its frame is decided by its bytes alone: by its length first, then by
   whether it is UTF-8, then by whether it is blank.  A line carries exactly the bytes of its piece.
   */
  lemma {:induction false} FrameOfPiece(a: Bytes, p: Bytes, b: Bytes, text: Text) returns (f: Frame)
    requires a == [] || a[|a| - 1] == 10
    requires p != [] && (forall i :: 0 <= i < |p| - 1 ==> p[i] != 10) && (b == [] || p[|p| - 1] == 10)
    ensures Frames(a + p + b, text) == Frames(a, text) + [f] + Frames(b, text)
    ensures f == TooLarge <==> |p| > 4096
    ensures f == InvalidUtf8 <==> |p| <= 4096 && !text.valid(p)
    ensures f == Empty <==> |p| <= 4096 && text.valid(p) && text.blank(p)
    ensures forall t :: f == Line(t) <==> |p| <= 4096 && text.valid(p) && !text.blank(p) && t == p
  {
    f := Classify(p, text);
    FramesAround(a, p, b, text);
  }

  // -------------------------------------------------------------------------- the reader

  class FrameReader {
    const text: Text
    /** What the stream still holds. */
    var rest: Bytes

    constructor (stream: Bytes, rules: Text)
      ensures rest == stream && text == rules
    {
      rest := stream;
      text := rules;
    }

    /** `read_until` a newline through a reader limited to `limit` bytes. */
    method ReadUntil(limit: nat) returns (bytes: Bytes)
      modifies this`rest
      ensures |bytes| <= |old(rest)| && bytes == old(rest)[..|bytes|] && rest == old(rest)[|bytes|..]
      ensures |bytes| == if PieceLength(old(rest)) <= limit then PieceLength(old(rest)) else limit
    {
      bytes := [];
      while |bytes| < limit && rest != [] && !Ended(bytes)
        invariant |bytes| <= limit && |bytes| <= |old(rest)|
        invariant bytes == old(rest)[..|bytes|] && rest == old(rest)[|bytes|..]
        invariant Ended(bytes) ==> PieceLength(old(rest)) == |bytes|
        invariant !Ended(bytes) ==> PieceLength(old(rest)) == |bytes| + PieceLength(rest)
        decreases |rest|
      {
        bytes := bytes + [rest[0]];
        rest := rest[1..];
      }
    }

    /** `skip_until` a newline, without a bound. */
    method SkipUntil()
      modifies this`rest
      ensures rest == old(rest)[PieceLength(old(rest))..]
    {
      var last := 0;
      ghost var k := 0;
      while rest != [] && last != NEWLINE
        invariant 0 <= k <= |old(rest)| && rest == old(rest)[k..]
        invariant PieceLength(old(rest)) == if last == NEWLINE then k else k + PieceLength(rest)
        decreases |rest|
      {
        last := rest[0];
        rest := rest[1..];
        k := k + 1;
      }
    }

    /** `read_frame`; `buffered` is how many bytes the buffer held. */
    method ReadFrame() returns (frame: Option<Frame>, buffered: nat)
      modifies this`rest
      ensures buffered <= MAX_REQUEST_BYTES + 1
      ensures old(rest) == [] ==> frame == None && rest == []
      ensures old(rest) != [] ==>
                && frame == Some(Classify(old(rest)[..PieceLength(old(rest))], text))
                && rest == old(rest)[PieceLength(old(rest))..]
    {
      var bytes := ReadUntil(MAX_REQUEST_BYTES + 1);
      buffered := |bytes|;
      if |bytes| == 0 {
        return None, buffered;
      }
      if |bytes| > MAX_REQUEST_BYTES {
        if bytes[|bytes| - 1] != NEWLINE {
          OpenPieceContinues(old(rest), |bytes|);
          SkipUntil();
        } else {
          EndedPrefixIsPiece(old(rest), |bytes|);
        }
        return Some(TooLarge), buffered;
      }
      frame := if !text.valid(bytes) then Some(InvalidUtf8)
               else if text.blank(bytes) then Some(Empty)
               else Some(Line(bytes));
    }

    /** Reading until the stream ends yields exactly the classified pieces of the stream. */
    method ReadAll() returns (frames: seq<Frame>)
      modifies this`rest
      ensures frames == Frames(old(rest), text) && rest == []
    {
      frames := [];
      while rest != []
        invariant Frames(old(rest), text) == frames + Frames(rest, text)
        decreases |rest|
      {
        ghost var before := rest;
        var frame, _ := ReadFrame();
        FramesUnfold(before, text);
        frames := frames + [frame.value];
      }
    }

    /** `run`: every frame but the blank ones is answered, up to the first line that asks to shut down. */
    method Run(exits: Bytes -> bool) returns (answered: seq<Frame>)
      modifies this`rest
      ensures answered == Answered(Frames(old(rest), text), exits)
    {
      answered := [];
      while true
        invariant Answered(Frames(old(rest), text), exits) == answered + Answered(Frames(rest, text), exits)
        decreases |rest|
      {
        ghost var before := rest;
        var frame, _ := ReadFrame();
        if frame.None? {
          assert Frames(rest, text) == [] && answered + [] == answered;
          return;
        }
        ghost var later := Answered(Frames(rest, text), exits);
        FramesUnfold(before, text);
        AnsweredUnfold(frame.value, Frames(rest, text), exits);
        if frame.value.Empty? {
          assert [] + later == later;
          continue;
        }
        assert answered + ([frame.value] + later) == (answered + [frame.value]) + later;
        answered := answered + [frame.value];
        if frame.value.Line? && exits(frame.value.text) {
          assert [frame.value] + [] == [frame.value];
          return;
        }
      }
    }
  }

  /** The frames that get an answer: no blank one, and none after the first line that asks to shut down. */
  function Answered(frames: seq<Frame>, exits: Bytes -> bool): seq<Frame> {
    if frames == [] then []
    else if frames[0].Empty? then Answered(frames[1..], exits)
    else if frames[0].Line? && exits(frames[0].text) then [frames[0]]
    else [frames[0]] + Answered(frames[1..], exits)
  }

  lemma {:induction false} AnsweredUnfold(f: Frame, rest: seq<Frame>, exits: Bytes -> bool)
    ensures Answered([f] + rest, exits) ==
            (if f.Empty? then [] else [f]) + if f.Line? && exits(f.text) then [] else Answered(rest, exits)
  {
    assert ([f] + rest)[1..] == rest;
  }

  /** The frames that are not blank. */
  function NonBlank(frames: seq<Frame>): seq<Frame> {
    if frames == [] then []
    else NonBlank(frames[..|frames| - 1]) + if frames[|frames| - 1].Empty? then [] else [frames[|frames| - 1]]
  }

  predicate Exits(f: Frame, exits: Bytes -> bool) {
    f.Line? && exits(f.text)
  }

  lemma {:induction false} NonBlankFirst(f: Frame, rest: seq<Frame>)
    ensures NonBlank([f] + rest) == (if f.Empty? then [] else [f]) + NonBlank(rest)
  {
    var all := [f] + rest;
    if rest == [] {
      assert all == [f] && all[..0] == [];
    } else {
      NonBlankFirst(f, rest[..|rest| - 1]);
      assert all[..|all| - 1] == [f] + rest[..|rest| - 1];
    }
  }

  /** Answered are the non-blank frames up to and including the first line that asks to shut down. */
  lemma {:induction false} AnsweredIff(frames: seq<Frame>, exits: Bytes -> bool, k: nat)
    requires k <= |frames| && forall i :: 0 <= i < k ==> !Exits(frames[i], exits)
    requires k < |frames| ==> Exits(frames[k], exits)
    ensures Answered(frames, exits) == NonBlank(if k < |frames| then frames[..k + 1] else frames)
  {
    if frames != [] {
      var f, rest := frames[0], frames[1..];
      assert frames == [f] + rest;
      AnsweredUnfold(f, rest, exits);
      if k == 0 {
        assert frames[..1] == [f] + [];
        NonBlankFirst(f, []);
      } else {
        AnsweredIff(rest, exits, k - 1);
        var shown := if k < |frames| then rest[..k] else rest;
        assert (if k < |frames| then frames[..k + 1] else frames) == [f] + shown;
        NonBlankFirst(f, shown);
      }
    }
  }

  lemma {:induction false} FramesUnfold(s: Bytes, text: Text)
    requires s != []
    ensures Frames(s, text) == [Classify(s[..PieceLength(s)], text)] + Frames(s[PieceLength(s)..], text)
  {
    ClassifyJoin([s[..PieceLength(s)]], Pieces(s[PieceLength(s)..]), text);
  }

  /** Within the first piece, a prefix that does not end it leaves the rest of it unread. */
  lemma {:induction false} OpenPieceContinues(s: Bytes, k: nat)
    requires 0 < k <= PieceLength(s) && s[k - 1] != NEWLINE
    ensures PieceLength(s) == k + PieceLength(s[k..])
  {
    if k > 1 {
      OpenPieceContinues(s[1..], k - 1);
      assert s[1..][k - 1..] == s[k..];
    }
  }

  lemma {:induction false} EndedPrefixIsPiece(s: Bytes, k: nat)
    requires 0 < k <= PieceLength(s) && s[k - 1] == NEWLINE
    ensures PieceLength(s) == k
  {
    if k > 1 {
      EndedPrefixIsPiece(s[1..], k - 1);
    }
  }
}
