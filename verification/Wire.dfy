/**
 * End to end over one direction of the socket (packages/daemon/src/protocol.ts, server.ts, client.ts):
 * frames written, bytes the socket takes when it pleases, chunks that arrive cut anywhere between two
 * characters, lines delivered. Each side decodes a chunk on its own, so a cut inside a character is exactly
 * what the wire does not survive.
 */
module Wire {
  import opened Common
  import opened Text
  import opened Utf8
  import opened Framing

  /** What JSON.stringify makes of a frame: something, on one line, without white space around it. */
  predicate IsFrame(f: string) {
    f != "" && Trimmed(f) && '\n' !in f
  }

  function TextOf(frames: seq<string>): string {
    if frames == [] then "" else TextOf(frames[..|frames| - 1]) + (frames[|frames| - 1] + "\n")
  }

  datatype Wire = Wire(
    written: seq<string>, accepted: seq<Byte>, pending: seq<Byte>, arrived: nat, rest: string, delivered: seq<string>)

  const IDLE := Wire([], [], [], 0, "", [])

  /** `answer` is what the socket returns; an arrival brings up to n further accepted bytes. */
  datatype Event = Send(frame: string, answer: int) | Drain(answer: int) | Arrive(n: nat)

  function Chunk(w: Wire, n: nat): seq<Byte> {
    if w.arrived <= |w.accepted| then w.accepted[w.arrived..w.arrived + Taken(w.accepted[w.arrived..], n)] else []
  }

  /** BackpressureWriter.write */
  function Written(w: Wire, bytes: seq<Byte>, answer: int): Wire {
    if w.pending != [] then w.(pending := w.pending + bytes)
    else w.(accepted := w.accepted + bytes[..Taken(bytes, answer)], pending := bytes[Taken(bytes, answer)..])
  }

  function Step(w: Wire, e: Event): Wire {
    match e
    case Send(frame, answer) => Written(w, Encode(frame + "\n"), answer).(written := w.written + [frame])
    case Drain(answer) =>
      w.(accepted := w.accepted + w.pending[..Taken(w.pending, answer)], pending := w.pending[Taken(w.pending, answer)..])
    case Arrive(n) =>
      var text := w.rest + Decode(Chunk(w, n));
      w.(arrived := w.arrived + |Chunk(w, n)|, rest := Remainder(text), delivered := w.delivered + Delivered(text))
  }

  function Steps(w: Wire, es: seq<Event>): Wire
    decreases es
  {
    if es == [] then w else Steps(Step(w, es[0]), es[1..])
  }

  // ---- characters and bytes ----

  /** The bytes are those of whole characters. */
  predicate WholeCharacters(bytes: seq<Byte>) {
    Encode(Decode(bytes)) == bytes
  }

  lemma EncodeTwo(a: string, b: string)
    ensures Encode(a + b) == Encode(a) + Encode(b)
  {
    if a == "" {
      assert a + b == b;
    } else {
      assert (a + b)[1..] == a[1..] + b;
      EncodeTwo(a[1..], b);
    }
  }

  lemma {:induction false} DecodeAfter(a: string, rest: seq<Byte>)
    ensures Decode(Encode(a) + rest) == a + Decode(rest)
  {
    hide Decode, EncodeChar;
    if a == "" {
      assert Encode("") + rest == rest;
    } else {
      DecodeWhole(a[0], Encode(a[1..]) + rest);
      assert Encode(a) + rest == EncodeChar(a[0]) + (Encode(a[1..]) + rest);
      DecodeAfter(a[1..], rest);
      assert [a[0]] + (a[1..] + Decode(rest)) == a + Decode(rest);
    }
  }

  lemma PrefixOfEncoding(a: string, b: string)
    requires Encode(a) <= Encode(b)
    ensures a <= b
    ensures Encode(a) == Encode(b) ==> a == b
  {
    var rest := Encode(b)[|Encode(a)|..];
    assert Encode(b) == Encode(a) + rest;
    RoundTrip(a);
    RoundTrip(b);
    DecodeAfter(a, rest);
  }

  /** A continuation byte on its own is one replacement. */
  lemma StrayBytes(b: seq<Byte>, rest: seq<Byte>)
    requires forall i :: 0 <= i < |b| ==> 0x80 <= b[i] <= 0xBF
    ensures |Decode(b + rest)| == |b| + |Decode(rest)|
  {
    if b == [] {
      assert b + rest == rest;
    } else {
      var all := b + rest;
      assert all[0] == b[0] && Needed(all[0]) == 0 && Run(all, 1) == 0;
      assert all[1..] == b[1..] + rest;
      StrayBytes(b[1..], rest);
    }
  }

  lemma TailsAreStray(c: char, n: nat)
    requires 0 < n < Width(c)
    ensures forall i :: n <= i < Width(c) ==> 0x80 <= EncodeChar(c)[i] <= 0xBF
  {
    LeadAndFirst(c);
  }

  /** Decoding two chunks of a text one by one gives the text exactly when the cut falls between characters;
      otherwise there are too many characters. */
  lemma {:induction false} CutsExactly(s: string, n: nat)
    requires n <= |Encode(s)|
    ensures Decode(Encode(s)[..n]) + Decode(Encode(s)[n..]) == s <==> WholeCharacters(Encode(s)[..n])
    ensures !WholeCharacters(Encode(s)[..n]) ==> |Decode(Encode(s)[..n])| + |Decode(Encode(s)[n..])| > |s|
  {
    var a, b := Encode(s)[..n], Encode(s)[n..];
    assert Encode(s) == a + b;
    if WholeCharacters(a) {
      RoundTrip(s);
      DecodeAfter(Decode(a), b);
    } else {
      CutInside(s, n);
    }
  }

  lemma {:induction false} CutInside(s: string, n: nat)
    requires n <= |Encode(s)| && !WholeCharacters(Encode(s)[..n])
    ensures |Decode(Encode(s)[..n])| + |Decode(Encode(s)[n..])| > |s|
  {
    hide Decode, EncodeChar, Encode;
    NothingIsWhole();
    assert Encode(s)[..0] == [];
    var c, e, w := s[0], EncodeChar(s[0]), Width(s[0]);
    EncodeFirst(s);
    if n < w {
      DecodeSplit(c, n);
      TailsAreStray(c, n);
      assert Encode(s)[..n] == e[..n] && Encode(s)[n..] == e[n..] + Encode(s[1..]);
      StrayBytes(e[n..], Encode(s[1..]));
      RoundTrip(s[1..]);
    } else {
      var a := Encode(s[1..])[..n - w];
      assert Encode(s)[..n] == e + a && Encode(s)[n..] == Encode(s[1..])[n - w..];
      DecodeWhole(c, a);
      WholeAfter(c, a);
      CutInside(s[1..], n - w);
    }
  }

  lemma WholeAfter(c: char, a: seq<Byte>)
    ensures WholeCharacters(a) ==> WholeCharacters(EncodeChar(c) + a)
  {
    hide Decode, EncodeChar, Encode;
    DecodeWhole(c, a);
    EncodeFirst([c] + Decode(a));
    assert ([c] + Decode(a))[1..] == Decode(a);
  }

  lemma NothingIsWhole()
    ensures WholeCharacters([]) && Encode("") == []
  {
  }

  lemma EncodeFirst(s: string)
    requires s != ""
    ensures Encode(s) == EncodeChar(s[0]) + Encode(s[1..])
  {
  }

  // ---- frames ----

  lemma {:induction false} FramesAreDelivered(frames: seq<string>)
    requires forall i :: 0 <= i < |frames| ==> IsFrame(frames[i])
    ensures Delivered(TextOf(frames)) == frames && Remainder(TextOf(frames)) == ""
  {
    if frames == [] {
      OpenLine("");
    } else {
      hide Delivered, Remainder, Trim, Trimmed;
      var last := frames[|frames| - 1];
      FramesAreDelivered(frames[..|frames| - 1]);
      ChunksJoin(TextOf(frames[..|frames| - 1]), last + "\n");
      assert "" + (last + "\n") == last + "\n" + "";
      assert IsFrame(last);
      FirstLine(last, "");
      OpenLine("");
      TrimOfTrimmed(last);
      assert frames[..|frames| - 1] + [last] == frames;
    }
  }

  /** Whatever part of the text has arrived, what it delivers is a prefix of the frames. */
  lemma DeliveredIsAPrefix(frames: seq<string>, got: string)
    requires forall i :: 0 <= i < |frames| ==> IsFrame(frames[i])
    requires got <= TextOf(frames)
    ensures Delivered(got) <= frames
  {
    hide Delivered, Remainder;
    FramesAreDelivered(frames);
    var later := TextOf(frames)[|got|..];
    assert TextOf(frames) == got + later;
    ChunksJoin(got, later);
  }

  // ---- the whole wire ----

  /** Nothing is lost, doubled or reordered: accepted and pending bytes are the bytes written, and what came
      out is what the arrived bytes say. */
  ghost predicate Intact(w: Wire) {
    && (forall i :: 0 <= i < |w.written| ==> IsFrame(w.written[i]))
    && w.accepted + w.pending == Encode(TextOf(w.written))
    && w.arrived <= |w.accepted|
    && WholeCharacters(w.accepted[..w.arrived])
    && w.delivered == Delivered(Decode(w.accepted[..w.arrived]))
    && w.rest == Remainder(Decode(w.accepted[..w.arrived]))
  }

  /** The caller's part: frames are frames, and a chunk ends between two characters. */
  predicate Allowed(w: Wire, e: Event) {
    match e
    case Send(frame, _) => IsFrame(frame)
    case Drain(_) => true
    case Arrive(n) => WholeCharacters(Chunk(w, n))
  }

  predicate AllAllowed(w: Wire, es: seq<Event>)
    decreases es
  {
    es == [] || (Allowed(w, es[0]) && AllAllowed(Step(w, es[0]), es[1..]))
  }

  /** No write reorders or drops a byte. */
  lemma WrittenInOrder(w: Wire, bytes: seq<Byte>, answer: int)
    ensures var t := Written(w, bytes, answer);
      && t.accepted + t.pending == w.accepted + w.pending + bytes
      && w.accepted <= t.accepted
      && t.written == w.written && t.arrived == w.arrived && t.rest == w.rest && t.delivered == w.delivered
  {
    var k := Taken(bytes, answer);
    assert bytes[..k] + bytes[k..] == bytes;
    assert w.pending == [] ==> w.accepted + w.pending + bytes == w.accepted + bytes;
    assert w.accepted + (w.pending + bytes) == w.accepted + w.pending + bytes;
  }

  lemma TextOfMore(frames: seq<string>, frame: string)
    ensures TextOf(frames + [frame]) == TextOf(frames) + (frame + "\n")
  {
    assert (frames + [frame])[..|frames|] == frames;
  }

  lemma SendIsIntact(w: Wire, frame: string, answer: int)
    requires Intact(w) && IsFrame(frame)
    ensures Intact(Step(w, Send(frame, answer)))
  {
    hide Encode, Decode, Delivered, Remainder, WholeCharacters, IsFrame, Written, TextOf;
    var t := Step(w, Send(frame, answer));
    WrittenInOrder(w, Encode(frame + "\n"), answer);
    TextOfMore(w.written, frame);
    EncodeTwo(TextOf(w.written), frame + "\n");
    assert t.accepted[..w.arrived] == w.accepted[..w.arrived];
  }

  lemma DrainedInOrder(w: Wire, answer: int)
    ensures var t := Step(w, Drain(answer));
      && t.accepted + t.pending == w.accepted + w.pending
      && w.accepted <= t.accepted
      && t.written == w.written && t.arrived == w.arrived && t.rest == w.rest && t.delivered == w.delivered
  {
    var k := Taken(w.pending, answer);
    assert w.pending[..k] + w.pending[k..] == w.pending;
  }

  lemma DrainIsIntact(w: Wire, answer: int)
    requires Intact(w)
    ensures Intact(Step(w, Drain(answer)))
  {
    hide Encode, Decode, Delivered, Remainder, WholeCharacters, IsFrame, TextOf, Step;
    var t := Step(w, Drain(answer));
    DrainedInOrder(w, answer);
    assert t.accepted[..w.arrived] == w.accepted[..w.arrived];
  }

  lemma ArrivalIsIntact(w: Wire, n: nat)
    requires Intact(w) && WholeCharacters(Chunk(w, n))
    ensures Intact(Step(w, Arrive(n)))
  {
    hide Encode, Decode, Delivered, Remainder, IsFrame;
    var t := Step(w, Arrive(n));
    var before, chunk := w.accepted[..w.arrived], Chunk(w, n);
    assert t.accepted[..t.arrived] == before + chunk;
    DecodeAfter(Decode(before), chunk);
    EncodeTwo(Decode(before), Decode(chunk));
    ChunksJoin(Decode(before), Decode(chunk));
  }

  lemma {:induction false} RunsAreIntact(w: Wire, es: seq<Event>)
    requires Intact(w) && AllAllowed(w, es)
    ensures Intact(Steps(w, es))
    decreases es
  {
    if es != [] {
      hide Intact, Step;
      match es[0] {
        case Send(frame, answer) => SendIsIntact(w, frame, answer);
        case Drain(answer) => DrainIsIntact(w, answer);
        case Arrive(n) => ArrivalIsIntact(w, n);
      }
      RunsAreIntact(Step(w, es[0]), es[1..]);
    }
  }

  /** End to end, for every sequence of frames, every schedule of partial writes and drains, and every chunking
      between characters: the delivered lines are a prefix of the frames written, and all of them once
      everything is flushed and has arrived. */
  lemma {:induction false} EndToEnd(es: seq<Event>)
    requires AllAllowed(IDLE, es)
    ensures var w := Steps(IDLE, es);
      && w.accepted + w.pending == Encode(TextOf(w.written))
      && w.delivered <= w.written
      && (w.pending == [] && w.arrived == |w.accepted| ==> w.delivered == w.written && w.rest == "")
  {
    IdleIsIntact();
    RunsAreIntact(IDLE, es);
    var w := Steps(IDLE, es);
    hide Encode, Decode, Delivered, Remainder, IsFrame, Steps;
    var got := Decode(w.accepted[..w.arrived]);
    assert Encode(got) <= Encode(TextOf(w.written)) by {
      assert (w.accepted + w.pending)[..w.arrived] == w.accepted[..w.arrived];
    }
    PrefixOfEncoding(got, TextOf(w.written));
    DeliveredIsAPrefix(w.written, got);
    if w.pending == [] && w.arrived == |w.accepted| {
      assert w.accepted[..w.arrived] == w.accepted == w.accepted + w.pending;
      FramesAreDelivered(w.written);
    }
  }

  lemma IdleIsIntact()
    ensures Intact(IDLE)
  {
    NothingIsWhole();
    OpenLine("");
    assert Decode([]) == "";
  }

  /** Once everything is accepted, one arrival of the rest delivers every frame. */
  lemma LastArrival(w: Wire, n: nat)
    requires Intact(w) && w.pending == [] && n >= |w.accepted|
    ensures var t := Step(w, Arrive(n)); t.delivered == w.written && t.rest == ""
  {
    hide Encode, Decode, Delivered, Remainder, IsFrame;
    assert Chunk(w, n) == w.accepted[w.arrived..];
    LastChunkIsWhole(w, n);
    ArrivalIsIntact(w, n);
    var t := Step(w, Arrive(n));
    assert t.accepted[..t.arrived] == t.accepted == t.accepted + t.pending;
    PrefixOfEncoding(Decode(t.accepted), TextOf(t.written));
    FramesAreDelivered(t.written);
  }

  /** From any point of any run, a drain that takes everything and an arrival of all that is left get
      everything through. */
  lemma {:induction false} Flushes(w: Wire, es: seq<Event>)
    requires Intact(w) && AllAllowed(w, es)
    ensures var v := Steps(w, es);
      var t := Step(Step(v, Drain(|v.pending|)), Arrive(|v.accepted| + |v.pending|));
      t.delivered == v.written && t.rest == ""
  {
    hide *;
    RunsAreIntact(w, es);
    FlushesFrom(Steps(w, es));
  }

  lemma FlushesFrom(v: Wire)
    requires Intact(v)
    ensures var t := Step(Step(v, Drain(|v.pending|)), Arrive(|v.accepted| + |v.pending|));
      t.delivered == v.written && t.rest == ""
  {
    hide *;
    DrainAll(v);
    DrainIsIntact(v, |v.pending|);
    LastArrival(Step(v, Drain(|v.pending|)), |v.accepted| + |v.pending|);
  }

  lemma DrainAll(w: Wire)
    ensures var u := Step(w, Drain(|w.pending|));
      u.pending == [] && |u.accepted| == |w.accepted| + |w.pending| && u.written == w.written
  {
  }

  lemma LastChunkIsWhole(w: Wire, n: nat)
    requires Intact(w) && w.pending == [] && Chunk(w, n) == w.accepted[w.arrived..]
    ensures WholeCharacters(Chunk(w, n))
  {
    hide Encode, Decode, Delivered, Remainder, IsFrame, Chunk;
    var before, text := Decode(w.accepted[..w.arrived]), TextOf(w.written);
    assert w.accepted + w.pending == w.accepted;
    assert Encode(before) <= Encode(text);
    PrefixOfEncoding(before, text);
    var later := text[|before|..];
    assert text == before + later;
    EncodeTwo(before, later);
    assert w.accepted == Encode(before) + w.accepted[w.arrived..];
    assert w.accepted[w.arrived..] == Encode(later);
    RoundTrip(later);
  }
}
