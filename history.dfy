/** The log of committed readings, newest first, capped at twenty entries. */
module History {
  import opened Drums

  const CAPACITY: nat := 20

  /** One committed reading: the 1-based lug number, the frequency, the drum's
      display name and the head (the capture time is not modelled). */
  datatype Entry = Entry(lug: nat, freq: real, drum: string, head: Head)

  /** The first `n` elements of `s`, or all of it when it is shorter
      (JavaScript's `slice(0, n)`). */
  function Take<T>(s: seq<T>, n: nat): (r: seq<T>)
    ensures |r| == if |s| < n then |s| else n
    ensures forall i :: 0 <= i < |r| ==> r[i] == s[i]
  {
    if |s| <= n then s else s[..n]
  }

  /** `[entry, ...prev.slice(0, 19)]`: the new entry goes first and the
      previous entries keep their order, the oldest dropped at capacity. */
  function Push(h: seq<Entry>, e: Entry): (r: seq<Entry>)
    ensures |r| <= CAPACITY
    ensures |h| < CAPACITY ==> |r| == |h| + 1
    ensures |h| >= CAPACITY ==> |r| == CAPACITY
    ensures r[0] == e
    ensures forall i :: 1 <= i < |r| ==> r[i] == h[i - 1]
  {
    [e] + Take(h, CAPACITY - 1)
  }

  /** The history after committing `es` in order, starting from `h`. */
  function PushAll(h: seq<Entry>, es: seq<Entry>): seq<Entry>
    decreases |es|
  {
    if es == [] then h else PushAll(Push(h, es[0]), es[1..])
  }

  /** Entries given in commit order, listed the way the log shows them: the
      last committed first. */
  function NewestFirst(es: seq<Entry>): seq<Entry>
  {
    if es == [] then [] else NewestFirst(es[1..]) + [es[0]]
  }

  /** Position `i` of the newest-first listing is the `i`-th entry counted
      back from the last one committed. */
  lemma {:induction false} NewestFirstAt(es: seq<Entry>, i: nat)
    requires i < |es|
    ensures |NewestFirst(es)| == |es|
    ensures NewestFirst(es)[i] == es[|es| - 1 - i]
  {
    if i < |es| - 1 {
      NewestFirstAt(es[1..], i);
    } else {
      NewestFirstLength(es[1..]);
    }
  }

  lemma {:induction false} NewestFirstLength(es: seq<Entry>)
    ensures |NewestFirst(es)| == |es|
  {
    if es != [] {
      NewestFirstLength(es[1..]);
    }
  }

  /** A record is the twenty newest of the new entry and the old log. */
  lemma PushIsTake(h: seq<Entry>, e: Entry)
    ensures Push(h, e) == Take([e] + h, CAPACITY)
  {
    var r, s := Push(h, e), Take([e] + h, CAPACITY);
    assert |r| == |s|;
    forall i | 0 <= i < |r| ensures r[i] == s[i] {
      if i > 0 {
        assert s[i] == ([e] + h)[i] == h[i - 1];
      }
    }
  }

  lemma TakeOfTake<T>(a: seq<T>, b: seq<T>, n: nat)
    ensures Take(a + Take(b, n), n) == Take(a + b, n)
  {
  }

  /** Committing any sequence of entries leaves the twenty newest of all
      entries, newest first: the committed ones in reverse, then the old log. */
  lemma {:induction false} PushAllNewestFirst(h: seq<Entry>, es: seq<Entry>)
    requires |h| <= CAPACITY
    ensures PushAll(h, es) == Take(NewestFirst(es) + h, CAPACITY)
    decreases |es|
  {
    if es != [] {
      var h' := Push(h, es[0]);
      PushIsTake(h, es[0]);
      PushAllNewestFirst(h', es[1..]);
      TakeOfTake(NewestFirst(es[1..]), [es[0]] + h, CAPACITY);
      assert NewestFirst(es) == NewestFirst(es[1..]) + [es[0]];
      assert NewestFirst(es[1..]) + ([es[0]] + h) == NewestFirst(es) + h;
    }
  }

  /** However many entries are committed, the log never exceeds twenty; with
      twenty or more committed it holds exactly the twenty latest, the
      latest first. */
  lemma {:induction false} PushAllKeepsLatest(h: seq<Entry>, es: seq<Entry>)
    requires |h| <= CAPACITY
    ensures |PushAll(h, es)| == if |es| + |h| < CAPACITY then |es| + |h| else CAPACITY
    ensures forall i :: 0 <= i < |es| && i < CAPACITY ==> PushAll(h, es)[i] == es[|es| - 1 - i]
  {
    PushAllNewestFirst(h, es);
    NewestFirstLength(es);
    forall i | 0 <= i < |es| && i < CAPACITY
      ensures PushAll(h, es)[i] == es[|es| - 1 - i]
    {
      NewestFirstAt(es, i);
    }
  }
}
