/** Hash-chained event records, `services/_shared/hashchain.py`. The hash is a parameter: a function of
    the payload, without its chain fields, and the previous hash. */
module HashChain {
  datatype Option<T> = None | Some(value: T)

  type Hash = string

  const GENESIS: Hash := "0000000000000000000000000000000000000000000000000000000000000000"

  datatype Event<P> = Event(payload: P, prevHash: Option<Hash>, eventHash: Option<Hash>)

  datatype Finding = BrokenLink(index: nat) | HashMismatch(index: nat)

  /** The hash recomputed for a record, a missing link reading as the empty string. */
  function Recomputed<P>(h: (P, Hash) -> Hash, e: Event<P>): Hash {
    h(e.payload, if e.prevHash.Some? then e.prevHash.value else "")
  }

  function FindingsAt<P(==)>(h: (P, Hash) -> Hash, e: Event<P>, last: Option<Hash>, index: nat): seq<Finding> {
    (if e.prevHash != Some(if last.None? then GENESIS else last.value) then [BrokenLink(index)] else []) +
    (if e.eventHash != Some(Recomputed(h, e)) then [HashMismatch(index)] else [])
  }

  function LastHash<P>(events: seq<Event<P>>): Option<Hash> {
    if events == [] then None else events[|events| - 1].eventHash
  }

  function Findings<P(==)>(h: (P, Hash) -> Hash, events: seq<Event<P>>): seq<Finding> {
    if events == [] then []
    else
      var n := |events| - 1;
      Findings(h, events[..n]) + FindingsAt(h, events[n], LastHash(events[..n]), n)
  }

  /** Verification reports nothing. */
  predicate Clean<P(==)>(h: (P, Hash) -> Hash, events: seq<Event<P>>) {
    Findings(h, events) == []
  }

  method VerifyEventChain<P(==)>(h: (P, Hash) -> Hash, events: seq<Event<P>>) returns (errors: seq<Finding>)
    ensures errors == Findings(h, events)
  {
    errors := [];
    var lastHash: Option<Hash> := None;
    for index := 0 to |events|
      invariant errors == Findings(h, events[..index]) && lastHash == LastHash(events[..index])
    {
      assert events[..index + 1][..index] == events[..index];
      var event := events[index];
      var expected := if lastHash.None? then GENESIS else lastHash.value;
      ghost var before := errors;
      if event.prevHash != Some(expected) {
        errors := errors + [BrokenLink(index)];
      }
      var recomputed := h(event.payload, if event.prevHash.Some? then event.prevHash.value else "");
      if event.eventHash != Some(recomputed) {
        errors := errors + [HashMismatch(index)];
      }
      assert errors == before + FindingsAt(h, event, lastHash, index);
      lastHash := event.eventHash;
    }
    assert events[..|events|] == events;
  }

  /** Different records have different hashes, and none hashes to the genesis value. */
  ghost predicate Ideal<P(!new)>(h: (P, Hash) -> Hash) {
    && (forall p, x, q, y :: h(p, x) == h(q, y) ==> p == q && x == y)
    && (forall p, x :: h(p, x) != GENESIS)
  }

  /** The record that continues a chain. */
  function Next<P>(h: (P, Hash) -> Hash, events: seq<Event<P>>, payload: P): Event<P> {
    var prev := match LastHash(events) case None => GENESIS case Some(x) => x;
    Event(payload, Some(prev), Some(h(payload, prev)))
  }

  lemma {:induction false} CleanStep<P>(h: (P, Hash) -> Hash, events: seq<Event<P>>)
    requires events != []
    ensures var n := |events| - 1;
      Clean(h, events) <==> Clean(h, events[..n]) && events[n] == Next(h, events[..n], events[n].payload)
  {
    var n := |events| - 1;
    var at := FindingsAt(h, events[n], LastHash(events[..n]), n);
    assert Findings(h, events) == Findings(h, events[..n]) + at;
    assert at == [] <==> events[n] == Next(h, events[..n], events[n].payload);
  }

  /** Record `i` links to the one before, the first to genesis, and carries the hash of its own payload
      and link. */
  predicate LinkedAt<P(==)>(h: (P, Hash) -> Hash, events: seq<Event<P>>, i: nat)
    requires i < |events|
  {
    events[i] == Next(h, events[..i], events[i].payload)
  }

  lemma {:induction false} LinkedInPrefix<P>(h: (P, Hash) -> Hash, events: seq<Event<P>>, n: nat, i: nat)
    requires i < n <= |events|
    ensures LinkedAt(h, events[..n], i) <==> LinkedAt(h, events, i)
  {
    assert events[..n][..i] == events[..i];
  }

  lemma {:induction false} CleanLast<P>(h: (P, Hash) -> Hash, events: seq<Event<P>>)
    requires events != []
    ensures Clean(h, events) <==> Clean(h, events[..|events| - 1]) && LinkedAt(h, events, |events| - 1)
  {
    CleanStep(h, events);
    hide Clean;
  }

  lemma {:induction false} CleanNothing<P>(h: (P, Hash) -> Hash)
    ensures Clean<P>(h, [])
  {
  }

  /** Verification reports nothing if and only if every record is linked. */
  lemma {:induction false} CleanIff<P>(h: (P, Hash) -> Hash, events: seq<Event<P>>)
    ensures Clean(h, events) <==> forall i :: 0 <= i < |events| ==> LinkedAt(h, events, i)
    decreases |events|
  {
    hide Clean, LinkedAt;
    if events == [] {
      CleanNothing(h);
    } else {
      var n := |events| - 1;
      CleanLast(h, events);
      CleanIff(h, events[..n]);
      forall i | 0 <= i < n ensures LinkedAt(h, events[..n], i) <==> LinkedAt(h, events, i) {
        LinkedInPrefix(h, events, n, i);
      }
    }
  }

  lemma {:induction false} AppendKeepsClean<P>(h: (P, Hash) -> Hash, events: seq<Event<P>>, payload: P)
    requires Clean(h, events)
    ensures Clean(h, events + [Next(h, events, payload)])
  {
    var all := events + [Next(h, events, payload)];
    assert all[..|all| - 1] == events;
    CleanStep(h, all);
  }

  lemma {:induction false} CleanHashed<P(!new)>(h: (P, Hash) -> Hash, events: seq<Event<P>>)
    requires Clean(h, events) && events != []
    ensures LastHash(events).Some? && (Ideal(h) ==> LastHash(events).value != GENESIS)
  {
    CleanStep(h, events);
  }

  /** Tamper evidence: two chains that verify clean and end in the same hash are the same, record for
      record, however long. */
  lemma {:induction false} SameHeadSameChain<P(!new)>(h: (P, Hash) -> Hash, a: seq<Event<P>>, b: seq<Event<P>>)
    requires Ideal(h) && Clean(h, a) && Clean(h, b) && a != [] && b != [] && LastHash(a) == LastHash(b)
    ensures a == b
    decreases |a|
  {
    var n, m := |a| - 1, |b| - 1;
    CleanStep(h, a);
    CleanStep(h, b);
    var x, y := a[n], b[m];
    assert x.payload == y.payload && x.prevHash == y.prevHash by {
      assert h(x.payload, x.prevHash.value) == h(y.payload, y.prevHash.value);
    }
    if n > 0 { CleanHashed(h, a[..n]); }
    if m > 0 { CleanHashed(h, b[..m]); }
    assert a == a[..n] + [x] && b == b[..m] + [y];
    if n > 0 && m > 0 {
      SameHeadSameChain(h, a[..n], b[..m]);
    }
  }

  // ---------------------------------------------------------------------------
  // What is reported after tampering
  // ---------------------------------------------------------------------------

  lemma {:induction false} CleanPrefix<P>(h: (P, Hash) -> Hash, events: seq<Event<P>>, n: nat)
    requires Clean(h, events) && n <= |events|
    ensures Clean(h, events[..n])
  {
    CleanIff(h, events);
    CleanIff(h, events[..n]);
    hide Clean, LinkedAt;
    forall i | 0 <= i < n ensures LinkedAt(h, events[..n], i) {
      LinkedInPrefix(h, events, n, i);
    }
  }

  lemma {:induction false} ExpectedLink<P(!new)>(h: (P, Hash) -> Hash, events: seq<Event<P>>, i: nat)
    requires Clean(h, events) && i < |events|
    ensures var last := LastHash(events[..i]);
      events[i].prevHash == Some(if last.None? then GENESIS else last.value)
    ensures events[i].eventHash.Some? && (Ideal(h) ==> events[i].eventHash.value != GENESIS)
    ensures events[i].eventHash == Some(Recomputed(h, events[i]))
  {
    CleanIff(h, events);
    assert LinkedAt(h, events, i);
  }

  lemma {:induction false} FindingsStep<P>(h: (P, Hash) -> Hash, events: seq<Event<P>>, n: nat)
    requires n < |events|
    ensures Findings(h, events[..n + 1]) == Findings(h, events[..n]) + FindingsAt(h, events[n], LastHash(events[..n]), n)
  {
    assert events[..n + 1][..n] == events[..n];
  }

  /** A record that follows a record with the hash of the one it followed in a clean chain. */
  lemma {:induction false} SameFollower<P(!new)>(h: (P, Hash) -> Hash, events: seq<Event<P>>, before: Event<P>, i: nat, index: nat)
    requires Clean(h, events) && 0 < i < |events| && before.eventHash == events[i - 1].eventHash
    ensures FindingsAt(h, events[i], before.eventHash, index) == []
  {
    ExpectedLink(h, events, i);
    assert LastHash(events[..i]) == events[i - 1].eventHash;
    hide Clean;
  }

  /** From record `from + 1` on `tampered` has the records of a clean chain, each after the one it followed there,
      so nothing more is reported. */
  lemma {:induction false} NothingAfter<P(!new)>(h: (P, Hash) -> Hash, events: seq<Event<P>>, tampered: seq<Event<P>>, shift: nat, from: nat, n: nat)
    requires Clean(h, events) && from < n <= |tampered| && |tampered| + shift <= |events|
    requires forall k :: from < k < |tampered| ==> tampered[k] == events[k + shift]
    requires from + 1 < |tampered| ==> tampered[from].eventHash == events[from + shift].eventHash
    ensures Findings(h, tampered[..n]) == Findings(h, tampered[..from + 1])
    decreases n
  {
    hide Findings, FindingsAt, Clean;
    if n > from + 1 {
      var k := n - 1;
      NothingAfter(h, events, tampered, shift, from, k);
      assert tampered[k] == events[k + shift];
      assert tampered[k - 1].eventHash == events[k + shift - 1].eventHash;
      SameFollower(h, events, tampered[k - 1], k + shift, k);
      FindingsStep(h, tampered, k);
      assert LastHash(tampered[..k]) == tampered[k - 1].eventHash;
    }
  }

  /** The two kinds of report on record `i`, and a broken link at the record after it. */
  function Reports(link: bool, hash: bool, next: bool, i: nat): seq<Finding> {
    (if link then [BrokenLink(i)] else []) + (if hash then [HashMismatch(i)] else []) + (if next then [BrokenLink(i + 1)] else [])
  }

  lemma {:induction false} OverwriteHere<P(!new)>(h: (P, Hash) -> Hash, events: seq<Event<P>>, i: nat, e: Event<P>)
    requires Clean(h, events) && i < |events|
    ensures Findings(h, events[i := e][..i + 1]) ==
      Reports(e.prevHash != events[i].prevHash, e.eventHash != Some(Recomputed(h, e)), false, i)
  {
    var t := events[i := e];
    CleanPrefix(h, events, i);
    ExpectedLink(h, events, i);
    FindingsStep(h, t, i);
    assert t[..i] == events[..i];
    hide Findings, LastHash, Recomputed;
  }

  /** The record after one whose hash may have changed. */
  lemma {:induction false} NextRecord<P(!new)>(h: (P, Hash) -> Hash, e: Event<P>, x: Event<P>, before: Event<P>, index: nat)
    requires x.eventHash == Some(Recomputed(h, x)) && x.prevHash == before.eventHash
    requires before.eventHash.Some? && before.eventHash.value != GENESIS
    ensures FindingsAt(h, x, e.eventHash, index) == if e.eventHash != before.eventHash then [BrokenLink(index)] else []
  {
  }

  lemma {:induction false} OverwriteNext<P(!new)>(h: (P, Hash) -> Hash, events: seq<Event<P>>, i: nat, e: Event<P>)
    requires Ideal(h) && Clean(h, events) && i + 1 < |events|
    ensures var t := events[i := e];
      Findings(h, t[..i + 2]) == Findings(h, t[..i + 1]) + (if e.eventHash != events[i].eventHash then [BrokenLink(i + 1)] else [])
  {
    var t := events[i := e];
    ExpectedLink(h, events, i);
    ExpectedLink(h, events, i + 1);
    assert LastHash(t[..i + 1]) == e.eventHash && LastHash(events[..i + 1]) == events[i].eventHash;
    hide Ideal, Findings, Recomputed, Clean, LastHash;
    FindingsStep(h, t, i + 1);
    NextRecord(h, e, events[i + 1], events[i], i + 1);
  }

  lemma {:induction false} ReportsNext(link: bool, hash: bool, next: bool, i: nat)
    ensures Reports(link, hash, next, i) == Reports(link, hash, false, i) + (if next then [BrokenLink(i + 1)] else [])
  {
  }

  /** One record of a clean chain overwritten by any other: a broken link is reported there exactly if its link
      was changed, a mismatch exactly if its hash is not the one recomputed, a broken link at the next record
      exactly if its hash was changed, and nothing else. */
  lemma {:induction false} OverwriteIsReported<P(!new)>(h: (P, Hash) -> Hash, events: seq<Event<P>>, i: nat, e: Event<P>)
    requires Ideal(h) && Clean(h, events) && i < |events|
    ensures Findings(h, events[i := e]) ==
      Reports(e.prevHash != events[i].prevHash, e.eventHash != Some(Recomputed(h, e)),
              i + 1 < |events| && e.eventHash != events[i].eventHash, i)
  {
    hide *;
    OverwriteHere(h, events, i, e);
    OverwriteRest(h, events, i, e);
    if i + 1 < |events| {
      OverwriteNext(h, events, i, e);
      ReportsNext(e.prevHash != events[i].prevHash, e.eventHash != Some(Recomputed(h, e)), e.eventHash != events[i].eventHash, i);
    }
  }

  lemma {:induction false} OverwriteRest<P(!new)>(h: (P, Hash) -> Hash, events: seq<Event<P>>, i: nat, e: Event<P>)
    requires Clean(h, events) && i < |events|
    ensures var t := events[i := e];
      Findings(h, t) == if i + 1 < |events| then Findings(h, t[..i + 2]) else Findings(h, t[..i + 1])
  {
    hide *;
    var t := events[i := e];
    assert t[..|t|] == t;
    if i + 1 < |events| { NothingAfter(h, events, t, 0, i + 1, |t|); }
  }

  /** A changed payload is reported at its own record and nowhere else; with its hash recomputed it is reported at the
      next record, so that only the last record can be replaced unnoticed. */
  lemma {:induction false} PayloadTampering<P(!new)>(h: (P, Hash) -> Hash, events: seq<Event<P>>, i: nat, payload: P)
    requires Ideal(h) && Clean(h, events) && i < |events| && payload != events[i].payload
    ensures var e := events[i].(payload := payload);
      && Findings(h, events[i := e]) == [HashMismatch(i)]
      && Findings(h, events[i := e.(eventHash := Some(Recomputed(h, e)))]) == (if i + 1 < |events| then [BrokenLink(i + 1)] else [])
  {
    var e := events[i].(payload := payload);
    ExpectedLink(h, events, i);
    OverwriteIsReported(h, events, i, e);
    OverwriteIsReported(h, events, i, e.(eventHash := Some(Recomputed(h, e))));
    hide Findings, Clean;
    assert Recomputed(h, e) != Recomputed(h, events[i]);
  }

  /** No record of a clean chain repeats the hash before it. */
  lemma {:induction false} HashesMove<P(!new)>(h: (P, Hash) -> Hash, events: seq<Event<P>>, i: nat)
    requires Ideal(h) && Clean(h, events) && i < |events|
    ensures events[i].eventHash != events[i].prevHash
  {
    ExpectedLink(h, events, i);
    if i > 0 && events[i].eventHash == events[i].prevHash {
      ExpectedLink(h, events, i - 1);
      CleanPrefix(h, events, i);
      CleanPrefix(h, events, i + 1);
      assert LastHash(events[..i + 1]) == events[i].eventHash && LastHash(events[..i]) == events[i - 1].eventHash;
      hide Clean, Ideal, Recomputed, LastHash;
      SameHeadSameChain(h, events[..i], events[..i + 1]);
      assert false;
    }
  }

  lemma {:induction false} RemovedHere<P(!new)>(h: (P, Hash) -> Hash, events: seq<Event<P>>, i: nat)
    requires Ideal(h) && Clean(h, events) && i + 1 < |events|
    ensures Findings(h, (events[..i] + events[i + 1..])[..i + 1]) == [BrokenLink(i)]
  {
    var t := events[..i] + events[i + 1..];
    HashesMove(h, events, i);
    ExpectedLink(h, events, i);
    ExpectedLink(h, events, i + 1);
    CleanPrefix(h, events, i);
    assert LastHash(events[..i + 1]) == events[i].eventHash && t[..i] == events[..i] && t[i] == events[i + 1];
    FindingsStep(h, t, i);
    hide Findings, Ideal, Recomputed, LastHash;
  }

  /** A record removed from a clean chain, unless it is the last, is reported as one broken link where it was. */
  lemma {:induction false} RemovalIsReported<P(!new)>(h: (P, Hash) -> Hash, events: seq<Event<P>>, i: nat)
    requires Ideal(h) && Clean(h, events) && i < |events|
    ensures Findings(h, events[..i] + events[i + 1..]) == if i + 1 < |events| then [BrokenLink(i)] else []
  {
    var t := events[..i] + events[i + 1..];
    if i + 1 < |events| {
      hide *;
      RemovedHere(h, events, i);
      assert t[..|t|] == t;
      NothingAfter(h, events, t, 1, i, |t|);
    } else {
      CleanPrefix(h, events, i);
      assert t == events[..i];
    }
  }
}
