/** Following the arguments of a streamed tool call (crates/kernel/src/agent/stream_collector.rs:12-178). */
module DeltaTracker {
  import opened Messages

  const INTERVAL: nat := 4096
  const SNIPPET: nat := 80

  /** The length of a character in UTF-8. */
  function ByteLen(c: char): nat {
    var code := c as int;
    if code < 0x80 then 1 else if code < 0x800 then 2 else if code < 0x1_0000 then 3 else 4
  }

  function Bytes(s: string): (n: nat)
    ensures |s| <= n <= 4 * |s|
  {
    if s == [] then 0 else ByteLen(s[0]) + Bytes(s[1..])
  }

  /** How many of its characters lie beyond a code. */
  function Beyond(s: string, code: int): nat {
    if s == [] then 0 else (if s[0] as int >= code then 1 else 0) + Beyond(s[1..], code)
  }

  /** A byte for each character, and one more for each that lies beyond the one, two and three byte codes. */
  lemma {:induction false} BytesAre(s: string)
    ensures Bytes(s) == |s| + Beyond(s, 0x80) + Beyond(s, 0x800) + Beyond(s, 0x1_0000)
  {
    if s != [] { BytesAre(s[1..]); }
  }

  lemma {:induction false} BytesAppend(a: string, b: string)
    ensures Bytes(a + b) == Bytes(a) + Bytes(b)
  {
    if a == [] {
      assert a + b == b;
    } else {
      BytesAppend(a[1..], b);
      assert (a + b)[1..] == a[1..] + b;
    }
  }

  function FirstChars(s: string, n: nat): string { if |s| <= n then s else s[..n] }

  function LastChars(s: string, n: nat): string { if |s| <= n then s else s[|s| - n..] }

  lemma {:induction false} FirstAppend(a: string, b: string, n: nat)
    ensures var start := FirstChars(a, n);
            FirstChars(a + b, n) == if |start| < n then start + FirstChars(b, n - |start|) else start
  {
  }

  lemma {:induction false} LastAppend(a: string, b: string, n: nat)
    ensures LastChars(a + b, n) == LastChars(LastChars(a, n) + b, n)
  {
  }

  /** Estimated tokens. */
  function Tokens(s: string): nat { Bytes(s) / 4 }

  datatype Tracker = Tracker(id: string, name: string, bytes: nat, head: string, tail: string, nextThreshold: nat)

  datatype Summary = Summary(id: string, name: string, tokens: nat, head: string, tail: string)

  /** The snippets and the size kept are those of the arguments received. */
  predicate Describes(t: Tracker, received: string) {
    t.bytes == Bytes(received) && t.head == FirstChars(received, SNIPPET) && t.tail == LastChars(received, SNIPPET)
  }

  /** A name may arrive after the first arguments. */
  function KnownName(before: string, name: string): string {
    if before == "" then name else before
  }

  class StreamCollector {
    var tracker: Option<Tracker>
    /** The arguments of the current call received so far, and the summaries returned for it. */
    ghost var received: string
    ghost var summaries: nat

    constructor ()
      ensures Valid() && tracker.None?
    {
      tracker, received, summaries := None, "", 0;
    }

    ghost predicate Valid() reads this {
      tracker.Some? ==>
        && Describes(tracker.value, received)
        && tracker.value.nextThreshold == (Tokens(received) / INTERVAL + 1) * INTERVAL
        && summaries <= Tokens(received) / INTERVAL
    }

    /** The arguments of call id received before. */
    ghost function Prior(id: string): string reads this {
      if tracker.Some? && tracker.value.id == id then received else ""
    }

    ghost function PriorSummaries(id: string): nat reads this {
      if tracker.Some? && tracker.value.id == id then summaries else 0
    }

    /** The incremental tracker agrees with a look at all the arguments, and a summary is returned
        exactly when their estimate reaches another multiple of the interval. */
    method HandleToolCallDelta(id: string, name: string, delta: string) returns (summary: Option<Summary>)
      requires Valid()
      modifies this
      ensures Valid() && tracker.Some? && tracker.value.id == id && received == old(Prior(id)) + delta
      ensures tracker.value.name ==
                KnownName(if old(tracker).Some? &&
                old(tracker).value.id == id then old(tracker).value.name else "", name)
      ensures summary.Some? <==> Bytes(received) / 4 / 4096 > Bytes(old(Prior(id))) / 4 / 4096
      ensures summary.Some? ==>
                var n := if |received| < 80 then |received| else 80;
                summary.value == Summary(id, tracker.value.name, Bytes(received) / 4, received[..n],
                                         received[|received| - n..])
      ensures summaries == old(PriorSummaries(id)) + if summary.Some? then 1 else 0
      ensures summaries <= Bytes(received) / 4 / 4096
    {
      ghost var prior := Prior(id);
      if tracker.None? || tracker.value.id != id {
        tracker := Some(Tracker(id, name, 0, "", "", INTERVAL));
        received, summaries := "", 0;
      }
      var t := Absorb(tracker.value, name, delta, received);
      BytesAppend(received, delta);
      received := received + delta;
      var tokens := t.bytes / 4;
      Crossing(Tokens(prior), tokens);
      if tokens < t.nextThreshold {
        tracker := Some(t);
        return None;
      }
      t := t.(nextThreshold := tokens / INTERVAL * INTERVAL + INTERVAL);
      tracker := Some(t);
      summaries := summaries + 1;
      summary := Some(Summary(id, t.name, tokens, t.head, t.tail));
    }

    static method Absorb(before: Tracker, name: string, delta: string, ghost received: string) returns (t: Tracker)
      requires Describes(before, received)
      ensures Describes(t, received + delta)
      ensures t.id == before.id && t.name == KnownName(before.name, name) && t.nextThreshold == before.nextThreshold
    {
      BytesAppend(received, delta);
      FirstAppend(received, delta, SNIPPET);
      LastAppend(received, delta, SNIPPET);
      t := before;
      if t.name == "" && name != "" {
        t := t.(name := name);
      }
      t := t.(bytes := t.bytes + Bytes(delta));
      if |t.head| < SNIPPET {
        t := t.(head := t.head + FirstChars(delta, SNIPPET - |t.head|));
      }
      t := t.(tail := t.tail + delta);
      if |t.tail| > SNIPPET {
        t := t.(tail := t.tail[|t.tail| - SNIPPET..]);
      }
    }
  }

  lemma {:induction false} Crossing(before: nat, now: nat)
    requires before <= now
    ensures now < (before / INTERVAL + 1) * INTERVAL <==> now / INTERVAL == before / INTERVAL
    ensures now / INTERVAL >= before / INTERVAL
  {
  }
}
