/** The statistics derived from one reading set: the recorded values, their
    count, average, spread and whether the head is evenly tuned. */
module Stats {
  import opened Hertz

  /** One slot per lug, `None` where no reading was recorded. */
  type Slots = seq<Option<real>>

  /** The head counts as evenly tuned when the spread is below this. */
  const EVEN_SPREAD: real := 5.0

  /** The recorded values (`Object.values(...).filter(v => v !== null)`):
      each value occurs as often as some slot holds it. */
  function Defined(slots: Slots): (r: seq<real>)
    ensures |r| <= |slots|
    ensures forall x :: x in r <==> Some(x) in slots
    ensures forall x :: multiset(r)[x] == multiset(slots)[Some(x)]
  {
    if slots == [] then []
    else
      assert slots == [slots[0]] + slots[1..];
      assert multiset(slots) == multiset{slots[0]} + multiset(slots[1..]);
      if slots[0].Some? then
        var r := [slots[0].value] + Defined(slots[1..]);
        assert multiset(r) == multiset{slots[0].value} + multiset(Defined(slots[1..]));
        r
      else Defined(slots[1..])
  }

  /** The count of recorded values is the number of slots that are not null. */
  lemma {:induction false} DefinedCount(slots: Slots)
    ensures |Defined(slots)| == |slots| - multiset(slots)[None]
  {
    if slots != [] {
      DefinedCount(slots[1..]);
      assert slots == [slots[0]] + slots[1..];
      assert multiset(slots) == multiset{slots[0]} + multiset(slots[1..]);
    }
  }

  /** The sum of the readings, added from the front. */
  function Sum(s: seq<real>): real
  {
    if s == [] then 0.0 else s[0] + Sum(s[1..])
  }

  /** `reduce((a, b) => a + b, 0)` adds the oldest reading first and the last
      one at the end; with exact arithmetic that is the same sum. */
  lemma {:induction false} SumIsLeftFold(s: seq<real>)
    requires s != []
    ensures Sum(s) == Sum(s[..|s| - 1]) + s[|s| - 1]
    decreases |s|
  {
    if |s| > 1 {
      var n := |s| - 1;
      SumIsLeftFold(s[1..]);
      assert s[1..][..n - 1] == s[..n][1..];
      assert s[1..][n - 1] == s[n];
    } else {
      assert s[..0] == [] && s[1..] == [];
    }
  }

  /** `Math.max(...s)` */
  function Max(s: seq<real>): real
    requires |s| > 0
  {
    if |s| == 1 then s[0]
    else
      var t := Max(s[1..]);
      if s[0] > t then s[0] else t
  }

  /** `Math.min(...s)` */
  function Min(s: seq<real>): real
    requires |s| > 0
  {
    if |s| == 1 then s[0]
    else
      var t := Min(s[1..]);
      if s[0] < t then s[0] else t
  }

  /** The maximum is one of the values and no value exceeds it. */
  lemma {:induction false} MaxIsGreatest(s: seq<real>)
    requires |s| > 0
    ensures Max(s) in s
    ensures forall x :: x in s ==> x <= Max(s)
  {
    if |s| > 1 {
      assert s == [s[0]] + s[1..];
      MaxIsGreatest(s[1..]);
    }
  }

  /** The minimum is one of the values and no value is below it. */
  lemma {:induction false} MinIsLeast(s: seq<real>)
    requires |s| > 0
    ensures Min(s) in s
    ensures forall x :: x in s ==> Min(s) <= x
  {
    if |s| > 1 {
      assert s == [s[0]] + s[1..];
      MinIsLeast(s[1..]);
    }
  }

  /** Writing a value into slot `i` changes the sum of the recorded values by
      the new value minus the old one, and adds one recorded value exactly
      when the slot was empty. */
  lemma {:induction false} DefinedUpdate(slots: Slots, i: nat, v: real)
    requires i < |slots|
    ensures |Defined(slots[i := Some(v)])| == |Defined(slots)| + (if slots[i].None? then 1 else 0)
    ensures Sum(Defined(slots[i := Some(v)])) == Sum(Defined(slots)) + v - (if slots[i].Some? then slots[i].value else 0.0)
  {
    var t := slots[i := Some(v)];
    if i == 0 {
      assert t[1..] == slots[1..];
    } else {
      assert t[1..] == slots[1..][i - 1 := Some(v)];
      DefinedUpdate(slots[1..], i - 1, v);
    }
  }

  /** Every value between `lo` and `hi` puts the sum between `n * lo` and `n * hi`. */
  lemma {:induction false} SumBounds(s: seq<real>, lo: real, hi: real)
    requires forall i :: 0 <= i < |s| ==> lo <= s[i] <= hi
    ensures |s| as real * lo <= Sum(s) <= |s| as real * hi
  {
    if s != [] {
      SumBounds(s[1..], lo, hi);
      var n := |s[1..]| as real;
      assert |s| as real == n + 1.0;
      assert (n + 1.0) * lo == n * lo + lo && (n + 1.0) * hi == n * hi + hi;
    }
  }

  lemma QuotientBounds(total: real, n: real, lo: real, hi: real)
    requires n > 0.0 && n * lo <= total <= n * hi
    ensures lo <= total / n <= hi
    ensures total / n * n == total
  {
    var q := total / n;
    assert q * n == total;
    assert (q - lo) * n == total - n * lo;
    assert (hi - q) * n == n * hi - total;
  }

  /** The values of a non-empty sequence sum to between the count times the
      smallest value and the count times the largest. */
  lemma SumWithinExtremes(s: seq<real>)
    requires |s| > 0
    ensures |s| as real * Min(s) <= Sum(s) <= |s| as real * Max(s)
  {
    MaxIsGreatest(s);
    MinIsLeast(s);
    forall i | 0 <= i < |s| ensures Min(s) <= s[i] <= Max(s) {
      assert s[i] in s;
    }
    SumBounds(s, Min(s), Max(s));
  }

  /** The sum over the count of a non-empty sequence lies between its
      smallest and largest values. */
  lemma MeanBounds(s: seq<real>)
    requires |s| > 0
    ensures Min(s) <= Sum(s) / |s| as real <= Max(s)
    ensures Sum(s) / |s| as real * |s| as real == Sum(s)
  {
    SumWithinExtremes(s);
    QuotientBounds(Sum(s), |s| as real, Min(s), Max(s));
  }

  /** `avgFreq`: the mean of the recorded values, 0 when there are none. */
  function Average(s: seq<real>): (a: real)
    ensures |s| == 0 ==> a == 0.0
    ensures |s| > 0 ==> a * |s| as real == Sum(s)
    ensures |s| > 0 ==> Min(s) <= a <= Max(s)
  {
    if |s| > 0 then
      MeanBounds(s);
      Sum(s) / |s| as real
    else 0.0
  }

  /** `maxDiff`: largest minus smallest recorded value once there are two or
      more, 0 otherwise. It is the largest difference between two recorded values. */
  function Spread(s: seq<real>): (d: real)
    ensures d >= 0.0
    ensures |s| <= 1 ==> d == 0.0
    ensures forall x, y :: x in s && y in s ==> x - y <= d
    ensures |s| > 1 ==> exists x, y :: x in s && y in s && x - y == d
  {
    if |s| > 1 then
      MaxIsGreatest(s);
      MinIsLeast(s);
      Max(s) - Min(s)
    else 0.0
  }

  /** `isEven`: the head is even exactly when every two recorded values are
      less than 5 Hz apart. */
  predicate IsEven(s: seq<real>)
    ensures IsEven(s) <==> forall x, y :: x in s && y in s ==> x - y < EVEN_SPREAD
  {
    Spread(s) < EVEN_SPREAD
  }

  /** The evenness threshold is strict: readings 4.99 Hz apart are even,
      readings 5 Hz apart are not. */
  lemma EvenEdges(t: real)
    ensures IsEven([t, t + 4.99])
    ensures !IsEven([t, t + 5.0])
    ensures IsEven([t])
  {
    var e, u := [t, t + 4.99], [t, t + 5.0];
    assert e[1..] == [t + 4.99] && u[1..] == [t + 5.0];
    assert Max(e) == t + 4.99 && Min(e) == t;
    assert Max(u) == t + 5.0 && Min(u) == t;
  }

  /** No slot is null exactly when every slot holds a reading. */
  lemma NoNullIffFull(slots: Slots)
    ensures multiset(slots)[None] == 0 <==> forall i :: 0 <= i < |slots| ==> slots[i].Some?
  {
    if multiset(slots)[None] != 0 {
      assert None in slots;
    }
  }

  /** Eight readings 276, 274, 280, 270, 277, 273, 278 and 272 Hz average
      275 Hz and spread over 10 Hz, so the head is not even. */
  lemma SnareReadings()
    ensures var fs := [276.0, 274.0, 280.0, 270.0, 277.0, 273.0, 278.0, 272.0];
            Average(fs) == 275.0 && Spread(fs) == 10.0 && !IsEven(fs)
  {
    var fs := [276.0, 274.0, 280.0, 270.0, 277.0, 273.0, 278.0, 272.0];
    assert Sum(fs) == 2200.0;
    assert Max(fs) == 280.0;
    assert Min(fs) == 270.0;
  }

  /** Two recorded values of the set are exactly the spread apart. */
  lemma SpreadAttained(slots: Slots)
    ensures |Defined(slots)| > 1 ==>
            exists x, y :: Some(x) in slots && Some(y) in slots && x - y == Spread(Defined(slots))
  {
    var values := Defined(slots);
    if |values| > 1 {
      var x, y :| x in values && y in values && x - y == Spread(values);
      assert Some(x) in slots && Some(y) in slots;
    }
  }

  datatype Summary = Summary(count: nat, average: real, spread: real, even: bool)

  /** The statistics block, recomputed from the slots alone. */
  function Statistics(slots: Slots): (r: Summary)
    ensures r.count == |Defined(slots)| == |slots| - multiset(slots)[None]
    ensures r.count == 0 ==> r.average == 0.0 && r.spread == 0.0 && r.even
    ensures r.count > 0 ==> Min(Defined(slots)) <= r.average <= Max(Defined(slots))
    ensures r.count > 0 ==> r.average == Sum(Defined(slots)) / r.count as real
    ensures r.spread >= 0.0
    ensures r.count <= 1 ==> r.spread == 0.0
    ensures forall x, y :: Some(x) in slots && Some(y) in slots ==> x - y <= r.spread
    ensures r.count > 1 ==> exists x, y :: Some(x) in slots && Some(y) in slots && x - y == r.spread
    ensures r.even <==> forall x, y :: Some(x) in slots && Some(y) in slots ==> x - y < EVEN_SPREAD
  {
    var values := Defined(slots);
    DefinedCount(slots);
    var average := Average(values);
    var spread := Spread(values);
    SpreadAttained(slots);
    Summary(|values|, average, spread, IsEven(values))
  }

  /** The statistics of a set depend only on its recorded values. */
  lemma StatisticsOfValues(slots: Slots, values: seq<real>)
    requires Defined(slots) == values
    ensures Statistics(slots) == Summary(|values|, Average(values), Spread(values), IsEven(values))
  {
  }

  /** A set whose slots are all null has no recorded values. */
  lemma {:induction false} NoneDefined(slots: Slots)
    requires forall i :: 0 <= i < |slots| ==> slots[i].None?
    ensures Defined(slots) == []
  {
    if slots != [] {
      NoneDefined(slots[1..]);
    }
  }

  /** A set whose slots are all filled has one recorded value per slot, in slot order. */
  lemma {:induction false} AllDefined(slots: Slots, fs: seq<real>)
    requires |slots| == |fs|
    requires forall i :: 0 <= i < |slots| ==> slots[i] == Some(fs[i])
    ensures Defined(slots) == fs
  {
    if slots != [] {
      AllDefined(slots[1..], fs[1..]);
    }
  }
}
