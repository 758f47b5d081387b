/**
 * The acknowledgement ledger of one stream connection.
 *
 * `unacked` is what the server keeps: it grows by JPEG bytes only, but every
 * acknowledgement is taken off it, saturating at zero. `inFlight` is the truth:
 * everything queued and not yet acknowledged.
 */
module Ledger {
  import opened Bytes

  datatype Entry =
    | Copied(n: nat)   // queued, not counted by the server
    | Counted(n: nat)  // queued by reference and counted
    | Acked(n: nat)

  datatype Books = Books(inFlight: nat, unacked: nat)

  function Less(a: nat, n: nat): nat {
    if a > n then a - n else 0
  }

  function Post(b: Books, e: Entry): Books {
    match e
    case Copied(n) => b.(inFlight := b.inFlight + n)
    case Counted(n) => Books(b.inFlight + n, b.unacked + n)
    case Acked(n) => Books(Less(b.inFlight, n), Less(b.unacked, n))
  }

  /** The books after `es`, opened with `base` bytes in flight and none counted. */
  function Run(base: nat, es: seq<Entry>): Books {
    if es == [] then Books(base, 0) else Post(Run(base, es[..|es| - 1]), es[|es| - 1])
  }

  function CopiedIn(es: seq<Entry>): nat {
    if es == [] then 0 else
      CopiedIn(es[..|es| - 1]) + (match es[|es| - 1] case Copied(n) => n case _ => 0)
  }

  function CountedIn(es: seq<Entry>): nat {
    if es == [] then 0 else
      CountedIn(es[..|es| - 1]) + (match es[|es| - 1] case Counted(n) => n case _ => 0)
  }

  /** What the acknowledgement callbacks have reported. */
  function AckedIn(es: seq<Entry>): nat {
    if es == [] then 0 else
      AckedIn(es[..|es| - 1]) + (match es[|es| - 1] case Acked(n) => n case _ => 0)
  }

  /** Nothing is acknowledged before it has been queued. */
  ghost predicate Fair(base: nat, es: seq<Entry>) {
    es != [] ==>
      && Fair(base, es[..|es| - 1])
      && (es[|es| - 1].Acked? ==> es[|es| - 1].n <= Run(base, es[..|es| - 1]).inFlight)
  }

  function Slack(base: nat, es: seq<Entry>): int {
    Run(base, es).inFlight - Run(base, es).unacked
  }

  /** What would still be in flight had the connection stood still since moment `i`. */
  function Owed(base: nat, es: seq<Entry>, i: nat): nat
    requires i <= |es|
  {
    Run(base, es[..i]).inFlight + CopiedIn(es[i..])
  }

  lemma RunPost(base: nat, es: seq<Entry>, e: Entry)
    ensures Run(base, es + [e]) == Post(Run(base, es), e)
    ensures CopiedIn(es + [e]) == CopiedIn(es) + (if e.Copied? then e.n else 0)
    ensures CountedIn(es + [e]) == CountedIn(es) + (if e.Counted? then e.n else 0)
    ensures AckedIn(es + [e]) == AckedIn(es) + (if e.Acked? then e.n else 0)
    ensures Fair(base, es + [e]) <==> Fair(base, es) && (e.Acked? ==> e.n <= Run(base, es).inFlight)
  {
    assert (es + [e])[..|es|] == es;
  }

  /** The server never counts more than is in flight, and every moment so far bounds the gap. */
  lemma {:induction false} SlackAtMost(base: nat, es: seq<Entry>, i: nat)
    requires i <= |es|
    ensures 0 <= Slack(base, es) <= Owed(base, es, i)
  {
    if es == [] {
    } else {
      var init, last := es[..|es| - 1], es[|es| - 1];
      if i == |es| {
        assert es[..i] == es && es[i..] == [];
        SlackAtMost(base, init, |init|);
      } else {
        SlackAtMost(base, init, i);
        assert init[..i] == es[..i];
        assert es[i..][..|es| - i - 1] == init[i..];
      }
    }
  }

  /** Some moment attains the bound, so the gap is exactly the least of the amounts owed. */
  lemma {:induction false} SlackAttained(base: nat, es: seq<Entry>) returns (i: nat)
    ensures i <= |es| && Slack(base, es) == Owed(base, es, i)
  {
    if es == [] {
      i := 0;
    } else {
      var init, last := es[..|es| - 1], es[|es| - 1];
      i := SlackAttained(base, init);
      SlackAtMost(base, init, |init|);
      if last.Acked? && Run(base, init).unacked < last.n {
        i := |es|;
        assert es[..i] == es && es[i..] == [];
      } else {
        assert init[..i] == es[..i];
        assert es[i..][..|es| - i - 1] == init[i..];
      }
    }
  }

  /** Nothing queued is lost: it is in flight or has been reported acknowledged. */
  lemma {:induction false} NothingLost(base: nat, es: seq<Entry>)
    requires Fair(base, es)
    ensures Run(base, es).inFlight + AckedIn(es) == base + CopiedIn(es) + CountedIn(es)
  {
    if es != [] {
      NothingLost(base, es[..|es| - 1]);
    }
  }

  /**
   * Exactly when at most `k` bytes are left in flight, in terms of what the callbacks have
   * reported: when all that was queued but the last `k` has been. The counter being zero
   * says less than that; see `DrainedTooEarly`.
   */
  lemma DrainedLeavesAtMost(base: nat, es: seq<Entry>, k: nat)
    requires Fair(base, es)
    ensures Run(base, es).inFlight <= k <==> AckedIn(es) + k >= base + CopiedIn(es) + CountedIn(es)
  {
    NothingLost(base, es);
  }

  /** A drained ledger leaves no more than what was in flight at the start and copied since. */
  lemma DrainedBound(base: nat, es: seq<Entry>)
    requires Run(base, es).unacked == 0
    ensures Run(base, es).inFlight <= base + CopiedIn(es)
  {
    SlackAtMost(base, es, 0);
    assert es[..0] == [] && es[0..] == es;
  }

  lemma FullyAckedDrains(base: nat, es: seq<Entry>)
    ensures Run(base, es).inFlight == 0 ==> Run(base, es).unacked == 0
  {
    SlackAtMost(base, es, |es|);
  }

  // ------------------------------ A drain that ends too early ------------------------------

  function Sum(ns: seq<nat>): nat {
    if ns == [] then 0 else Sum(ns[..|ns| - 1]) + ns[|ns| - 1]
  }

  function Counts(ns: seq<nat>): seq<Entry> {
    seq(|ns|, i requires 0 <= i < |ns| => Counted(ns[i]))
  }

  function Acks(ns: seq<nat>): seq<Entry> {
    seq(|ns|, i requires 0 <= i < |ns| => Acked(ns[i]))
  }

  lemma {:induction false} RunCounts(base: nat, es: seq<Entry>, ns: seq<nat>)
    ensures var b := Run(base, es);
      Run(base, es + Counts(ns)) == Books(b.inFlight + Sum(ns), b.unacked + Sum(ns))
  {
    if ns == [] {
      assert es + Counts(ns) == es;
    } else {
      var init := ns[..|ns| - 1];
      RunCounts(base, es, init);
      assert es + Counts(ns) == (es + Counts(init)) + [Counted(ns[|ns| - 1])];
      RunPost(base, es + Counts(init), Counted(ns[|ns| - 1]));
    }
  }

  lemma {:induction false} RunAcks(base: nat, es: seq<Entry>, ns: seq<nat>)
    requires Sum(ns) <= Run(base, es).unacked <= Run(base, es).inFlight
    ensures var b := Run(base, es);
      Run(base, es + Acks(ns)) == Books(b.inFlight - Sum(ns), b.unacked - Sum(ns))
  {
    if ns == [] {
      assert es + Acks(ns) == es;
    } else {
      var init := ns[..|ns| - 1];
      RunAcks(base, es, init);
      assert es + Acks(ns) == (es + Acks(init)) + [Acked(ns[|ns| - 1])];
      RunPost(base, es + Acks(init), Acked(ns[|ns| - 1]));
    }
  }

  /** A header of `h` bytes, a JPEG in any chunks, the CRLF, and acknowledgements in any pieces. */
  function FrameEpoch(h: nat, chunks: seq<nat>, acks: seq<nat>): seq<Entry> {
    [Copied(h)] + Counts(chunks) + [Copied(2)] + Acks(acks)
  }

  /**
   * Acknowledgements that add up to the JPEG alone bring the counter to zero, and they take
   * the header into account first: `h` bytes too many are still in flight.
   */
  lemma DrainedTooEarly(h: nat, chunks: seq<nat>, acks: seq<nat>)
    requires Sum(chunks) == Sum(acks)
    ensures Run(0, FrameEpoch(h, chunks, acks)) == Books(h + 2, 0)
  {
    var head := [] + [Copied(h)];
    RunPost(0, [], Copied(h));
    RunCounts(0, head, chunks);
    RunPost(0, head + Counts(chunks), Copied(2));
    RunAcks(0, head + Counts(chunks) + [Copied(2)], acks);
    assert head == [Copied(h)];
  }
}
