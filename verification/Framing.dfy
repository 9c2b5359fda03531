/**
 * The wire (packages/daemon/src/protocol.ts): newline-terminated frames go out through a writer that
 * honours backpressure and come back through a splitter that is fed arbitrary chunks.
 */
module Framing {
  import opened Common
  import opened Text
  import opened Utf8

  // ---- splitting ----

  function TrimAll(parts: seq<string>): seq<string> {
    if parts == [] then []
    else (if Trim(parts[0]) == "" then [] else [Trim(parts[0])]) + TrimAll(parts[1..])
  }

  /** The lines a receiver hands on for all the text it got: the complete ones, trimmed, blank ones left out. */
  function Delivered(text: string): seq<string> {
    var parts := Split(text);
    TrimAll(parts[..|parts| - 1])
  }

  /** The line that is still open. */
  function Remainder(text: string): string {
    var parts := Split(text);
    parts[|parts| - 1]
  }

  lemma TrimAllTwo(a: seq<string>, b: seq<string>)
    ensures TrimAll(a + b) == TrimAll(a) + TrimAll(b)
  {
    if a == [] {
      assert a + b == b;
    } else {
      assert (a + b)[1..] == a[1..] + b;
      TrimAllTwo(a[1..], b);
    }
  }

  /** A complete first line is handed on, and the rest is as if it came alone. */
  lemma FirstLine(line: string, rest: string)
    requires '\n' !in line
    ensures Delivered(line + "\n" + rest) == (if Trim(line) == "" then [] else [Trim(line)]) + Delivered(rest)
    ensures Remainder(line + "\n" + rest) == Remainder(rest)
  {
    hide Trim;
    SplitTwo(line, rest);
    SplitOne(line);
    var parts := Split(rest);
    var all := [line] + parts;
    assert all[..|all| - 1] == [line] + parts[..|parts| - 1];
    TrimAllTwo([line], parts[..|parts| - 1]);
    assert TrimAll([line]) == (if Trim(line) == "" then [] else [Trim(line)]) + TrimAll([]);
  }

  lemma OpenLine(text: string)
    requires '\n' !in text
    ensures Delivered(text) == [] && Remainder(text) == text
  {
    SplitOne(text);
  }

  /** Chunking does not matter: what was delivered, plus what the open line and the next chunk deliver, is what
      both deliver together. */
  lemma {:induction false} ChunksJoin(a: string, b: string)
    ensures Delivered(a + b) == Delivered(a) + Delivered(Remainder(a) + b)
    ensures Remainder(a + b) == Remainder(Remainder(a) + b)
    ensures '\n' !in Remainder(a)
    decreases |a|
  {
    hide Delivered, Remainder, Trim;
    if '\n' in a {
      var i := FirstWhere(a, (c: char) => c == '\n');
      var line, rest := a[..i], a[i + 1..];
      assert a == line + "\n" + rest && a + b == line + "\n" + (rest + b);
      FirstLine(line, rest);
      FirstLine(line, rest + b);
      ChunksJoin(rest, b);
      var first := if Trim(line) == "" then [] else [Trim(line)];
      assert first + (Delivered(rest) + Delivered(Remainder(rest) + b)) == first + Delivered(rest) + Delivered(Remainder(rest) + b);
    } else {
      OpenLine(a);
    }
  }

  function Join(parts: seq<string>): string {
    if parts == [] then "" else parts[0] + Join(parts[1..])
  }

  lemma JoinMore(parts: seq<string>, part: string)
    ensures Join(parts + [part]) == Join(parts) + part
  {
    if parts == [] {
      assert Join([part]) == part + Join([]);
    } else {
      assert (parts + [part])[1..] == parts[1..] + [part];
      JoinMore(parts[1..], part);
    }
  }

  /** The first newline of the buffer completes the open line. */
  lemma TakeLine(held: string, buffered: string, i: nat)
    requires i < |buffered| && buffered[i] == '\n' && '\n' !in held && '\n' !in buffered[..i]
    ensures var line := Trim(held + buffered[..i]);
      && Delivered(held + buffered) == (if line == "" then [] else [line]) + Delivered(buffered[i + 1..])
      && Remainder(held + buffered) == Remainder(buffered[i + 1..])
  {
    hide Delivered, Remainder, Trim;
    assert held + buffered == (held + buffered[..i]) + "\n" + buffered[i + 1..];
    FirstLine(held + buffered[..i], buffered[i + 1..]);
  }

  /** Incremental NDJSON splitter. */
  class LineBuffer {
    var buffered: string
    var fragments: seq<string>

    ghost function Rest(): string
      reads this
    {
      Join(fragments) + buffered
    }

    /** Between two pushes the open line has no newline and sits in the fragments. */
    ghost predicate Valid()
      reads this
    {
      buffered == "" && '\n' !in Join(fragments)
    }

    constructor ()
      ensures Valid() && Rest() == ""
    {
      buffered, fragments := "", [];
    }

    /** push, collecting what it passes to onLine */
    method Push(chunk: string) returns (lines: seq<string>)
      requires Valid()
      modifies this
      ensures Valid()
      ensures lines == Delivered(old(Rest()) + chunk)
      ensures Rest() == Remainder(old(Rest()) + chunk)
    {
      hide Delivered, Remainder;
      ghost var text := Rest() + chunk;
      buffered := buffered + chunk;
      lines := [];
      assert Rest() == text;
      var more := true;
      while more
        invariant '\n' !in Join(fragments)
        invariant !more ==> buffered == ""
        invariant Delivered(text) == lines + Delivered(Rest())
        invariant Remainder(text) == Remainder(Rest())
        decreases more, |buffered|
      {
        var line;
        more, line := Next();
        if line != "" { lines := lines + [line]; }
      }
      OpenLine(Rest());
    }

    /** One turn of the loop: complete a line, or keep what is left for later. */
    method Next() returns (found: bool, line: string)
      requires '\n' !in Join(fragments)
      modifies this
      ensures '\n' !in Join(fragments)
      ensures found ==> |buffered| < old(|buffered|)
      ensures !found ==> buffered == "" && line == ""
      ensures Delivered(old(Rest())) == (if line == "" then [] else [line]) + Delivered(Rest())
      ensures Remainder(old(Rest())) == Remainder(Rest())
    {
      hide Delivered, Remainder, Trim, Join;
      var i := FirstWhere(buffered, (c: char) => c == '\n');
      ghost var held := Join(fragments);
      assert '\n' !in buffered[..i];
      if i == |buffered| {
        assert buffered[..i] == buffered;
        JoinMore(fragments, buffered);
        assert held + "" == held;
        if buffered != "" { fragments := fragments + [buffered]; }
        buffered := "";
        assert Rest() == Join(fragments) == old(Rest());
        return false, "";
      }
      var fragment := buffered[..i];
      JoinMore(fragments, fragment);
      TakeLine(held, buffered, i);
      NothingJoined();
      assert fragments == [] ==> held + fragment == fragment;
      line := if |fragments| > 0 then Trim(Join(fragments + [fragment])) else Trim(fragment);
      fragments := [];
      buffered := buffered[i + 1..];
      assert Rest() == buffered;
      found := true;
    }
  }

  lemma NothingJoined()
    ensures Join([]) == ""
  {
  }

  // ---- writing ----

  /** What the socket takes of some bytes when it answers n, which is negative once it is closed. */
  function Taken(bytes: seq<Byte>, n: int): (k: nat)
    ensures k <= |bytes|
  {
    if n < 0 then 0 else if n < |bytes| then n else |bytes|
  }

  /** Outbound writes honouring backpressure. `accepted` is what the socket took, in order. */
  class BackpressureWriter {
    var pending: Option<seq<Byte>>
    var accepted: seq<Byte>

    ghost function Pending(): seq<Byte>
      reads this
    {
      pending.GetOr([])
    }

    ghost predicate Valid()
      reads this
    {
      pending.Some? ==> pending.value != []
    }

    constructor ()
      ensures Valid() && Pending() == [] && accepted == []
    {
      pending, accepted := None, [];
    }

    /** write; `answer` is what the socket would return, were it called */
    method Write(data: string, answer: int)
      requires Valid()
      modifies this
      ensures Valid()
      ensures accepted + Pending() == old(accepted) + old(Pending()) + Encode(data)
      ensures accepted == if old(Pending()) != [] then old(accepted) else old(accepted) + Encode(data)[..Taken(Encode(data), answer)]
    {
      var bytes := Encode(data);
      if pending.Some? {
        pending := Some(pending.value + bytes);
        return;
      }
      var written := Taken(bytes, answer);
      accepted := accepted + bytes[..written];
      if written < |bytes| { pending := Some(bytes[written..]); }
      assert bytes[..written] + bytes[written..] == bytes;
    }

    method Drain(answer: int)
      requires Valid()
      modifies this
      ensures Valid()
      ensures accepted + Pending() == old(accepted) + old(Pending())
      ensures accepted == old(accepted) + old(Pending())[..Taken(old(Pending()), answer)]
    {
      if pending.None? { return; }
      var tail := pending.value;
      pending := None;
      var written := Taken(tail, answer);
      accepted := accepted + tail[..written];
      if written < |tail| { pending := Some(tail[written..]); }
      assert tail[..written] + tail[written..] == tail;
    }
  }
}
