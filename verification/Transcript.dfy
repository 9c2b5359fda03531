/**
 * The transcript a Thread agent keeps (packages/daemon/src/thread-agent.ts): user inputs that are
 * refused when they do not fit, and agent text that is cut to the remaining byte budget instead.
 */
module Transcript {
  import opened Common
  import opened Utf8

  const MESSAGE_LIMIT := 320_000
  const TRANSCRIPT_LIMIT := 2 * 1024 * 1024

  /** K is the type of message identities; owner is the submission the message belongs to. */
  datatype Message<K> = Message(id: K, owner: Id, user: bool, text: string, complete: bool)

  /** A text event from a harness, already resolved to the message it concerns. */
  datatype Update<K> = Update(id: K, owner: Id, text: string, replace: bool)

  datatype Edit<!K> =
    | Input(id: K, owner: Id, prompt: string, quote: string)
    | Output(update: Update<K>)
    | Finalize(owner: Id, counts: K -> bool)

  function Used<K>(ms: seq<Message<K>>): nat {
    if ms == [] then 0 else ByteLength(ms[0].text) + Used(ms[1..])
  }

  function Max0(n: int): nat {
    if n < 0 then 0 else n
  }

  function Min(a: int, b: int): int {
    if a < b then a else b
  }

  /** The byte checks an input must pass before it is accepted. */
  predicate InputFits<K>(ms: seq<Message<K>>, prompt: string, quote: string) {
    && ByteLength(prompt) <= MESSAGE_LIMIT
    && ByteLength(quote) <= MESSAGE_LIMIT
    && Used(ms) + ByteLength(prompt) <= TRANSCRIPT_LIMIT
  }

  function AppendInput<K>(ms: seq<Message<K>>, id: K, owner: Id, prompt: string): seq<Message<K>> {
    ms + [Message(id, owner, true, prompt, true)]
  }

  /** Index of the first message with this identity, or the length. */
  function IndexOf<K(==)>(ms: seq<Message<K>>, id: K): (n: nat)
    ensures n <= |ms|
    ensures n < |ms| ==> ms[n].id == id
    ensures forall i :: 0 <= i < n ==> ms[i].id != id
  {
    FirstWhere(ms, (m: Message<K>) => m.id == id)
  }

  /** New text of one message while the whole transcript uses `used` bytes. */
  function Written(text: string, used: nat, update: string, replace: bool): string {
    if replace then
      Cut(update, Max0(Min(MESSAGE_LIMIT, TRANSCRIPT_LIMIT - used + ByteLength(text))))
    else
      text + Cut(update, Max0(Min(MESSAGE_LIMIT - ByteLength(text), TRANSCRIPT_LIMIT - used)))
  }

  /** The transcript with a slot for the update's message. */
  function Opened<K(==)>(ms: seq<Message<K>>, u: Update<K>): (r: seq<Message<K>>)
    ensures |ms| <= |r| && r[..|ms|] == ms
    ensures IndexOf(r, u.id) < |r|
    ensures IndexOf(r, u.id) == IndexOf(ms, u.id)
  {
    if IndexOf(ms, u.id) < |ms| then ms
    else
      var r := ms + [Message(u.id, u.owner, false, "", false)];
      assert r[|ms|].id == u.id;
      r
  }

  function ApplyUpdate<K(==)>(ms: seq<Message<K>>, u: Update<K>): (r: seq<Message<K>>)
    ensures |ms| <= |r|
  {
    var o := Opened(ms, u);
    var n := IndexOf(o, u.id);
    if o[n].complete then o
    else o[n := o[n].(text := Written(o[n].text, Used(o), u.text, u.replace))]
  }

  /** Only agent messages of this turn, and of this attempt when the turn is a retry. */
  predicate Finalizes<K>(m: Message<K>, owner: Id, counts: K -> bool) {
    !m.user && m.owner == owner && counts(m.id)
  }

  function FinalizeOwner<K>(ms: seq<Message<K>>, owner: Id, counts: K -> bool): (r: seq<Message<K>>)
    ensures |r| == |ms|
    ensures forall i :: 0 <= i < |ms| ==>
      r[i] == if Finalizes(ms[i], owner, counts) then ms[i].(complete := true) else ms[i]
  {
    if ms == [] then []
    else [if Finalizes(ms[0], owner, counts) then ms[0].(complete := true) else ms[0]]
         + FinalizeOwner(ms[1..], owner, counts)
  }

  function Apply<K(==)>(ms: seq<Message<K>>, e: Edit<K>): seq<Message<K>> {
    match e
    case Input(id, owner, prompt, quote) =>
      if InputFits(ms, prompt, quote) then AppendInput(ms, id, owner, prompt) else ms
    case Output(u) => ApplyUpdate(ms, u)
    case Finalize(owner, counts) => FinalizeOwner(ms, owner, counts)
  }

  function ApplyAll<K(==)>(ms: seq<Message<K>>, es: seq<Edit<K>>): seq<Message<K>>
    decreases |es|
  {
    if es == [] then ms else ApplyAll(Apply(ms, es[0]), es[1..])
  }

  /** The bound that holds although a cut character decodes to a three-byte replacement. */
  ghost predicate Bounded<K>(ms: seq<Message<K>>) {
    && (forall i :: 0 <= i < |ms| ==> ByteLength(ms[i].text) <= MESSAGE_LIMIT + 2)
    && Used(ms) <= TRANSCRIPT_LIMIT + 2
  }

  lemma UsedConcat<K>(a: seq<Message<K>>, b: seq<Message<K>>)
    ensures Used(a + b) == Used(a) + Used(b)
  {
    if a == [] {
      assert a + b == b;
    } else {
      assert (a + b)[1..] == a[1..] + b;
      UsedConcat(a[1..], b);
    }
  }

  lemma {:induction false} UsedUpdated<K>(ms: seq<Message<K>>, n: nat, m: Message<K>)
    requires n < |ms|
    ensures Used(ms[n := m]) == Used(ms) - ByteLength(ms[n].text) + ByteLength(m.text)
  {
    assert ms == ms[..n] + ([ms[n]] + ms[n + 1..]);
    assert ms[n := m] == ms[..n] + ([m] + ms[n + 1..]);
    UsedConcat(ms[..n], [ms[n]] + ms[n + 1..]);
    UsedConcat(ms[..n], [m] + ms[n + 1..]);
  }

  lemma UsedOfFinalized<K>(ms: seq<Message<K>>, owner: Id, counts: K -> bool)
    ensures Used(FinalizeOwner(ms, owner, counts)) == Used(ms)
  {
  }

  lemma OpenedKeepsUse<K>(ms: seq<Message<K>>, u: Update<K>)
    ensures Used(Opened(ms, u)) == Used(ms)
  {
    if IndexOf(ms, u.id) == |ms| {
      UsedConcat(ms, [Message(u.id, u.owner, false, "", false)]);
    }
  }

  lemma WrittenIsBounded(text: string, used: nat, update: string, replace: bool)
    requires ByteLength(text) <= used <= TRANSCRIPT_LIMIT + 2
    requires ByteLength(text) <= MESSAGE_LIMIT + 2
    ensures ByteLength(Written(text, used, update, replace)) <= MESSAGE_LIMIT + 2
    ensures used - ByteLength(text) + ByteLength(Written(text, used, update, replace)) <= TRANSCRIPT_LIMIT + 2
  {
    var keep := Max0(Min(MESSAGE_LIMIT - ByteLength(text), TRANSCRIPT_LIMIT - used));
    ByteLengthConcat(text, Cut(update, keep));
  }

  lemma UsedAtLeast<K>(ms: seq<Message<K>>, n: nat)
    requires n < |ms|
    ensures ByteLength(ms[n].text) <= Used(ms)
  {
    if n > 0 { UsedAtLeast(ms[1..], n - 1); }
  }

  lemma ApplyKeepsBounded<K>(ms: seq<Message<K>>, e: Edit<K>)
    requires Bounded(ms)
    ensures Bounded(Apply(ms, e))
  {
    match e
    case Input(id, owner, prompt, quote) =>
      UsedConcat(ms, [Message(id, owner, true, prompt, true)]);
    case Finalize(owner, counts) =>
      UsedOfFinalized(ms, owner, counts);
    case Output(u) =>
      var o := Opened(ms, u);
      var n := IndexOf(o, u.id);
      OpenedKeepsUse(ms, u);
      UsedAtLeast(o, n);
      WrittenIsBounded(o[n].text, Used(o), u.text, u.replace);
      UsedUpdated(o, n, o[n].(text := Written(o[n].text, Used(o), u.text, u.replace)));
  }

  /** Over any run of inputs, appends, replacements and finalizations, no message passes 320,002
      bytes and the transcript never passes 2 MiB + 2. */
  lemma {:induction false} EveryRunIsBounded<K>(ms: seq<Message<K>>, es: seq<Edit<K>>)
    requires Bounded(ms)
    ensures Bounded(ApplyAll(ms, es))
    decreases |es|
  {
    if es != [] {
      ApplyKeepsBounded(ms, es[0]);
      EveryRunIsBounded(Apply(ms, es[0]), es[1..]);
    }
  }

  function Ascii(n: nat): (s: string)
    ensures |s| == n && ByteLength(s) == n
  {
    if n == 0 then "" else ['a'] + Ascii(n - 1)
  }

  /** Neither bound can be lowered to the documented limit: a two-byte character meeting a one-byte
      budget costs two bytes more than the budget. */
  lemma MessageBoundIsReached()
    ensures ByteLength(Written(Ascii(MESSAGE_LIMIT - 1), MESSAGE_LIMIT - 1, ['\U{00E9}'], false)) == MESSAGE_LIMIT + 2
    ensures var used := TRANSCRIPT_LIMIT - 1;
            used + ByteLength(Written("", used, ['\U{00E9}'], false)) == TRANSCRIPT_LIMIT + 2
  {
    assert Cut(['\U{00E9}'], 1) == [REPLACEMENT];
    ByteLengthConcat(Ascii(MESSAGE_LIMIT - 1), [REPLACEMENT]);
    ByteLengthConcat("", [REPLACEMENT]);
  }

  /** While everything fits, cutting never shows: an append appends and a replacement replaces. */
  lemma WithinBudgetNothingIsCut(text: string, used: nat, update: string, replace: bool)
    requires ByteLength(text) <= used
    requires replace ==> ByteLength(update) <= MESSAGE_LIMIT && used - ByteLength(text) + ByteLength(update) <= TRANSCRIPT_LIMIT
    requires !replace ==> ByteLength(text) + ByteLength(update) <= MESSAGE_LIMIT && used + ByteLength(update) <= TRANSCRIPT_LIMIT
    ensures Written(text, used, update, replace) == if replace then update else text + update
  {
  }

  /** The byte cut that the code performs on buffers is the character cut used here. */
  lemma {:induction false} WrittenIsTheByteCut(text: string, used: nat, update: string, replace: bool)
    ensures var limit := if replace then Max0(Min(MESSAGE_LIMIT, TRANSCRIPT_LIMIT - used + ByteLength(text)))
                         else Max0(Min(MESSAGE_LIMIT - ByteLength(text), TRANSCRIPT_LIMIT - used));
            var bytes := Encode(update);
            var kept := Decode(bytes[..if limit < |bytes| then limit else |bytes|]);
            Written(text, used, update, replace) == if replace then kept else text + kept
  {
    var limit := if replace then Max0(Min(MESSAGE_LIMIT, TRANSCRIPT_LIMIT - used + ByteLength(text)))
                 else Max0(Min(MESSAGE_LIMIT - ByteLength(text), TRANSCRIPT_LIMIT - used));
    var bytes := Encode(update);
    var n := if limit < |bytes| then limit else |bytes|;
    DecodeOfCutEncoding(update, n);
  }

  // ---- the loops of the source ----

  /** messages.reduce(...) */
  method UsedBytes<K>(ms: seq<Message<K>>) returns (total: nat)
    ensures total == Used(ms)
  {
    total := 0;
    var i := 0;
    while i < |ms|
      invariant 0 <= i <= |ms|
      invariant total == Used(ms[..i])
    {
      assert ms[..i + 1] == ms[..i] + [ms[i]];
      UsedConcat(ms[..i], [ms[i]]);
      total := total + ByteLength(ms[i].text);
      i := i + 1;
    }
    assert ms[..i] == ms;
  }

  /** messages.find(...) */
  method FindMessage<K(==)>(ms: seq<Message<K>>, id: K) returns (n: nat)
    ensures n == IndexOf(ms, id)
  {
    n := 0;
    while n < |ms| && ms[n].id != id
      invariant n <= |ms|
      invariant forall i :: 0 <= i < n ==> ms[i].id != id
    {
      n := n + 1;
    }
  }

  /** finalizeAgentMessages(...) */
  method FinalizeLoop<K>(ms: seq<Message<K>>, owner: Id, counts: K -> bool) returns (r: seq<Message<K>>)
    ensures r == FinalizeOwner(ms, owner, counts)
  {
    ghost var want := FinalizeOwner(ms, owner, counts);
    r := ms;
    var i := 0;
    while i < |ms|
      invariant 0 <= i <= |ms| == |r|
      invariant forall j :: 0 <= j < i ==> r[j] == want[j]
      invariant forall j :: i <= j < |ms| ==> r[j] == ms[j]
    {
      if Finalizes(r[i], owner, counts) {
        r := r[i := r[i].(complete := true)];
      }
      i := i + 1;
    }
  }
}
