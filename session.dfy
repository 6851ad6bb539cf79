/** The tuning session: per (drum, head) reading sets created on first use,
    the active lug, the live frequency, the target frequency and the history
    log, with the operations the component's handlers and effects perform. */
module Session {
  import opened Hertz
  import opened Drums
  import opened History
  import opened Stats
  import Deviation

  /** Which reading set is meant: one per drum and head. */
  datatype Key = Key(drum: DrumId, head: Head)

  /** A fresh reading set: `n` slots, all null. */
  function Blank(n: nat): Slots
  {
    seq(n, _ => None)
  }

  /** The `initial` object built slot by slot by the init effect and by clear. */
  method EmptySlots(n: nat) returns (s: Slots)
    ensures |s| == n
    ensures forall i :: 0 <= i < n ==> s[i] == None
    ensures s == Blank(n)
  {
    s := [];
    var i := 0;
    while i < n
      invariant i <= n
      invariant |s| == i
      invariant forall j :: 0 <= j < i ==> s[j] == None
    {
      s := s + [None];
      i := i + 1;
    }
  }

  /** A fresh reading set has no readings. */
  lemma BlankIsEmpty(n: nat)
    ensures Statistics(Blank(n)).count == 0
    ensures Defined(Blank(n)) == []
  {
    NoneDefined(Blank(n));
  }

  /** The lazy initialisation: the set for `k` is created blank with `n`
      slots when it is missing; an existing set for `k` and every other
      key's set stay as they were. */
  function Activated(m: map<Key, Slots>, k: Key, n: nat): (r: map<Key, Slots>)
    ensures r.Keys == m.Keys + {k}
    ensures forall k' :: k' in m ==> r[k'] == m[k']
    ensures k !in m ==> r[k] == Blank(n)
  {
    if k in m then m else m[k := Blank(n)]
  }

  /** Switching to another key and back restores the first key's readings
      verbatim: activating a key that already has a set changes nothing. */
  lemma SwitchBackRestores(m: map<Key, Slots>, a: Key, b: Key, na: nat, nb: nat)
    requires a in m
    ensures Activated(Activated(m, b, nb), a, na) == Activated(m, b, nb)
    ensures Activated(Activated(m, b, nb), a, na)[a] == m[a]
  {
  }

  /** The lug after `lug`, wrapping to the first; the active lug is always
      one of the drum's lugs. */
  function Next(lug: nat, lugs: nat): (r: nat)
    requires lug < lugs
    ensures r < lugs
  {
    if lug + 1 < lugs then lug + 1 else 0
  }

  /** The advance is the component's `(prev + 1) % lugs`. */
  lemma NextIsModulo(lug: nat, lugs: nat)
    requires lug < lugs
    ensures Next(lug, lugs) == (lug + 1) % lugs
  {
    if lug + 1 == lugs {
      assert (lug + 1) % lugs == lugs % lugs == 0;
    }
  }

  /** The active set after recording `fs` in order, starting at lug `lug`
      and advancing as each record does. It stands for records of truthy live
      frequencies only: the record guard is not applied, so a 0 in `fs` is
      written where the component would do nothing. */
  function RecordRun(slots: Slots, lug: nat, fs: seq<real>): (r: Slots)
    requires lug < |slots|
    ensures |r| == |slots|
    decreases |fs|
  {
    if fs == [] then slots
    else RecordRun(slots[lug := Some(fs[0])], Next(lug, |slots|), fs[1..])
  }

  /** Recording only values that passed the pitch filter keeps every reading
      of the set within the filter's bounds. */
  lemma {:induction false} RecordRunKeepsFiltered(slots: Slots, lug: nat, fs: seq<real>)
    requires lug < |slots|
    requires AllAudible(slots)
    requires forall i :: 0 <= i < |fs| ==> Audible(fs[i])
    ensures AllAudible(RecordRun(slots, lug, fs))
    decreases |fs|
  {
    if fs != [] {
      var s' := slots[lug := Some(fs[0])];
      assert AllAudible(s');
      RecordRunKeepsFiltered(s', Next(lug, |slots|), fs[1..]);
    }
  }

  /** The active lug after `k` records starting at `lug`. */
  function LugAfter(lug: nat, lugs: nat, k: nat): nat
    requires lug < lugs
    decreases k
  {
    if k == 0 then lug else LugAfter(Next(lug, lugs), lugs, k - 1)
  }

  /** Records starting at lug `k` that do not wrap fill lugs `k`, `k + 1`, ...
      with the recorded values in order and leave every other slot alone. */
  lemma {:induction false} RecordRunFills(slots: Slots, k: nat, fs: seq<real>)
    requires k < |slots| && k + |fs| <= |slots|
    ensures forall i :: 0 <= i < |slots| ==>
              RecordRun(slots, k, fs)[i] == if k <= i < k + |fs| then Some(fs[i - k]) else slots[i]
    decreases |fs|
  {
    if fs != [] {
      var s' := slots[k := Some(fs[0])];
      if k + 1 < |slots| {
        RecordRunFills(s', k + 1, fs[1..]);
      } else {
        assert fs[1..] == [];
      }
    }
  }

  /** Records that do not wrap advance the active lug by one each, and the
      record at the last lug wraps to the first. */
  lemma {:induction false} LugAfterAdvances(lug: nat, lugs: nat, k: nat)
    requires lug < lugs && lug + k <= lugs
    ensures LugAfter(lug, lugs, k) == if lug + k < lugs then lug + k else 0
    decreases k
  {
    if k > 0 {
      if lug + 1 < lugs {
        assert LugAfter(lug, lugs, k) == LugAfter(lug + 1, lugs, k - 1);
        LugAfterAdvances(lug + 1, lugs, k - 1);
      } else {
        assert k == 1 && Next(lug, lugs) == 0;
        assert LugAfter(lug, lugs, 1) == LugAfter(0, lugs, 0);
      }
    }
  }

  /** Helper for the sweep below: one record per lug from the first fills every slot in order. */
  lemma SweepFills(slots: Slots, fs: seq<real>)
    requires |fs| == |slots| > 0
    ensures Defined(RecordRun(slots, 0, fs)) == fs
  {
    var r := RecordRun(slots, 0, fs);
    RecordRunFills(slots, 0, fs);
    forall i | 0 <= i < |slots| ensures r[i] == Some(fs[i]) {
      assert 0 <= i < 0 + |fs|;
    }
    AllDefined(r, fs);
  }

  /** Starting at the first lug, one record per lug visits every lug once:
      afterwards every slot holds its reading, in lug order, the count equals
      the lug count, and the active lug is back at the first. */
  lemma SweepFillsAllLugs(slots: Slots, fs: seq<real>)
    requires |fs| == |slots| > 0
    ensures Defined(RecordRun(slots, 0, fs)) == fs
    ensures Statistics(RecordRun(slots, 0, fs)).count == |slots|
    ensures LugAfter(0, |slots|, |fs|) == 0
  {
    var r := RecordRun(slots, 0, fs);
    SweepFills(slots, fs);
    assert Statistics(r).count == |Defined(r)|;
    LugAfterAdvances(0, |slots|, |fs|);
  }

  /** The statistics after such a sweep are those of the recorded values. */
  lemma SweepStatistics(slots: Slots, fs: seq<real>)
    requires |fs| == |slots| > 0
    ensures Statistics(RecordRun(slots, 0, fs)) == Summary(|fs|, Average(fs), Spread(fs), IsEven(fs))
  {
    SweepFills(slots, fs);
    StatisticsOfValues(RecordRun(slots, 0, fs), fs);
  }

  /** An eight-lug snare, batter head: the target defaults to 275 Hz. */
  lemma SnareTarget()
    ensures DRUMS[0].id == Snare && DRUMS[0].lugs == 8
    ensures MidFreq(DRUMS[0], Batter) == 275.0
  {
    assert RangeOf(DRUMS[0], Batter) == Band(220.0, 330.0);
  }

  /** On that snare, from any set, one record per lug of 276, 274, 280, 270,
      277, 273, 278 and 272 Hz gives eight readings averaging 275 Hz with a
      10 Hz spread, which is not even. */
  lemma SnareSweep(slots: Slots)
    requires |slots| == DRUMS[0].lugs
    ensures Statistics(RecordRun(slots, 0, [276.0, 274.0, 280.0, 270.0, 277.0, 273.0, 278.0, 272.0]))
            == Summary(8, 275.0, 10.0, false)
  {
    var fs := [276.0, 274.0, 280.0, 270.0, 277.0, 273.0, 278.0, 272.0];
    SweepStatistics(slots, fs);
    SnareReadings();
  }

  /** The set for key `k` has as many slots as its drum has lugs. */
  ghost predicate Fits(k: Key, s: Slots)
  {
    forall d :: d in DRUMS && d.id == k.drum ==> |s| == d.lugs
  }

  /** Every recorded value came through the pitch filter. */
  ghost predicate AllAudible(s: Slots)
  {
    forall i :: 0 <= i < |s| && s[i].Some? ==> Audible(s[i].value)
  }

  /** Lazily creating the set of a catalogued drum's key keeps every set
      sized to its drum and every reading filtered. */
  lemma ActivatedFits(m: map<Key, Slots>, k: Key, d: Drum)
    requires d in DRUMS && d.id == k.drum
    requires forall k' :: k' in m ==> Fits(k', m[k']) && AllAudible(m[k'])
    ensures forall k' :: k' in Activated(m, k, d.lugs) ==>
              Fits(k', Activated(m, k, d.lugs)[k']) && AllAudible(Activated(m, k, d.lugs)[k'])
  {
    CatalogueWellFormed();
  }

  /** The state of the tuner component that the session logic reads and writes. */
  class Tuner {
    var drum: Drum
    var head: Head
    var readings: map<Key, Slots>
    var activeLug: Option<nat>
    var currentFreq: Option<real>
    var targetFreq: Option<real>
    var history: seq<Entry>

    function CurrentKey(): Key
      reads this
    {
      Key(drum.id, head)
    }

    ghost predicate Valid()
      reads this
    {
      && drum in DRUMS
      && CurrentKey() in readings
      && (forall k :: k in readings ==> Fits(k, readings[k]) && AllAudible(readings[k]))
      && (activeLug.Some? ==> activeLug.value < drum.lugs)
      && (currentFreq.Some? ==> Audible(currentFreq.value))
      && targetFreq.Some? && RangeOf(drum, head).lo <= targetFreq.value <= RangeOf(drum, head).hi
      && |history| <= CAPACITY
    }

    /** The active reading set; it has exactly one slot per lug. */
    function ActiveSlots(): (s: Slots)
      reads this
      requires Valid()
      ensures |s| == drum.lugs
      ensures forall i :: 0 <= i < |s| && s[i].Some? ==> Audible(s[i].value)
    {
      readings[CurrentKey()]
    }

    /** The statistics of the active set; the count never exceeds the lug
        count and reaches it exactly when every lug has a reading. */
    function ActiveStatistics(): (r: Summary)
      reads this
      requires Valid()
      ensures r == Statistics(ActiveSlots())
      ensures r.count <= drum.lugs
      ensures r.count == drum.lugs <==> forall i :: 0 <= i < drum.lugs ==> ActiveSlots()[i].Some?
    {
      NoNullIffFull(ActiveSlots());
      Statistics(ActiveSlots())
    }

    /** The colour of the live reading. The target is always set and inside
        the active range, so the colour is neutral exactly when nothing is
        heard, and otherwise the band of its distance to the target. */
    function LiveTone(): (t: Deviation.Tone)
      reads this
      requires Valid()
      ensures t == Deviation.Muted <==> currentFreq.None?
      ensures currentFreq.Some? ==>
                (t == Deviation.Success <==> Deviation.Abs(currentFreq.value - targetFreq.value) < Deviation.ON_TARGET_HZ)
    {
      Deviation.Color(currentFreq, targetFreq)
    }

    /** The state after mounting: the first drum, the batter head, one blank
        set for that key and the target at the midpoint of its range. */
    constructor ()
      ensures Valid()
      ensures drum == DRUMS[0] && head == Batter
      ensures readings == map[Key(DRUMS[0].id, Batter) := Blank(DRUMS[0].lugs)]
      ensures activeLug == None && currentFreq == None && history == []
      ensures targetFreq == Some(MidFreq(DRUMS[0], Batter))
    {
      var initial := EmptySlots(DRUMS[0].lugs);
      drum := DRUMS[0];
      head := Batter;
      readings := map[Key(DRUMS[0].id, Batter) := initial];
      activeLug := None;
      currentFreq := None;
      targetFreq := Some(MidFreq(DRUMS[0], Batter));
      history := [];
      new;
      CatalogueWellFormed();
    }

    /** The init effect: create the active key's set when it is missing. */
    method LazyInit()
      modifies this`readings
      ensures readings == Activated(old(readings), CurrentKey(), drum.lugs)
    {
      var key := CurrentKey();
      if key !in readings {
        var initial := EmptySlots(drum.lugs);
        readings := readings[key := initial];
      }
    }

    /** Picking a drum: no active lug, the new key's set created if missing,
        and the target reset only if the midpoint changed. */
    method SelectDrum(d: Drum)
      requires Valid() && d in DRUMS
      modifies this`drum, this`activeLug, this`readings, this`targetFreq
      ensures Valid()
      ensures drum == d && activeLug == None
      ensures readings == Activated(old(readings), Key(d.id, head), d.lugs)
      ensures targetFreq == if MidFreq(d, head) == old(MidFreq(drum, head)) then old(targetFreq)
                            else Some(MidFreq(d, head))
      ensures d != old(drum) ==> targetFreq == Some(MidFreq(d, head))
    {
      var oldDrum, oldMid := drum, MidFreq(drum, head);
      MidpointsDistinct(d, head, oldDrum, head);
      ActivatedFits(readings, Key(d.id, head), d);
      drum := d;
      activeLug := None;
      LazyInit();
      var mid := MidFreq(drum, head);
      if mid != oldMid {
        targetFreq := Some(mid);
      }
    }

    /** Picking a head: as for a drum, with the other head's range. */
    method SelectHead(h: Head)
      requires Valid()
      modifies this`head, this`activeLug, this`readings, this`targetFreq
      ensures Valid()
      ensures head == h && activeLug == None
      ensures readings == Activated(old(readings), Key(drum.id, h), drum.lugs)
      ensures targetFreq == if MidFreq(drum, h) == old(MidFreq(drum, head)) then old(targetFreq)
                            else Some(MidFreq(drum, h))
      ensures h != old(head) ==> targetFreq == Some(MidFreq(drum, h))
    {
      var oldHead, oldMid := head, MidFreq(drum, head);
      MidpointsDistinct(drum, h, drum, oldHead);
      ActivatedFits(readings, Key(drum.id, h), drum);
      head := h;
      activeLug := None;
      LazyInit();
      var mid := MidFreq(drum, head);
      if mid != oldMid {
        targetFreq := Some(mid);
      }
    }

    /** Clicking lug `i` of the diagram makes it the active lug. */
    method SelectLug(i: nat)
      requires Valid() && i < drum.lugs
      modifies this`activeLug
      ensures Valid()
      ensures activeLug == Some(i)
    {
      activeLug := Some(i);
    }

    /** The target slider, whose ends are the active head's range. */
    method SetTarget(v: real)
      requires Valid()
      requires RangeOf(drum, head).lo <= v <= RangeOf(drum, head).hi
      modifies this`targetFreq
      ensures Valid()
      ensures targetFreq == Some(v)
    {
      targetFreq := Some(v);
    }

    /** One estimate from the listening loop: kept, rounded to 0.1 Hz, only
        when strictly between 30 and 1000 Hz; otherwise the last one stays. */
    method Detect(freq: real)
      requires Valid()
      modifies this`currentFreq
      ensures Valid()
      ensures currentFreq == if MIN_HZ < freq < MAX_HZ then Some(RoundTenth(freq)) else old(currentFreq)
    {
      if freq > MIN_HZ && freq < MAX_HZ {
        currentFreq := Some(RoundTenth(freq));
      }
    }

    /** Stopping the listening loop forgets the live frequency. */
    method StopListening()
      requires Valid()
      modifies this`currentFreq
      ensures Valid()
      ensures currentFreq == None
    {
      currentFreq := None;
    }

    /** `recordLug`: with an active lug and a truthy live frequency, write the
        frequency into that slot of the active set, log it first in the
        history, and advance to the next lug; otherwise change nothing. */
    method RecordLug()
      requires Valid()
      modifies this`readings, this`history, this`activeLug
      ensures Valid()
      ensures !(old(activeLug).Some? && Truthy(currentFreq)) ==>
                readings == old(readings) && history == old(history) && activeLug == old(activeLug)
      ensures old(activeLug).Some? && Truthy(currentFreq) ==>
                var lug := old(activeLug).value;
                var f := currentFreq.value;
                && readings == old(readings)[CurrentKey() := old(ActiveSlots())[lug := Some(f)]]
                && history == Push(old(history), Entry(lug + 1, f, drum.name, head))
                && activeLug == Some(Next(lug, drum.lugs))
    {
      if activeLug.Some? && Truthy(currentFreq) {
        var lug := activeLug.value;
        var f := currentFreq.value;
        var key := CurrentKey();
        readings := readings[key := readings[key][lug := Some(f)]];
        history := Push(history, Entry(lug + 1, f, drum.name, head));
        activeLug := Some(Next(lug, drum.lugs));
      }
    }

    /** `clearReadings`: the active set becomes blank and no lug is active;
        the history and every other key's set are untouched. */
    method ClearReadings()
      requires Valid()
      modifies this`readings, this`activeLug
      ensures Valid()
      ensures readings == old(readings)[CurrentKey() := Blank(drum.lugs)]
      ensures activeLug == None
      ensures ActiveStatistics().count == 0
    {
      var initial := EmptySlots(drum.lugs);
      readings := readings[CurrentKey() := initial];
      activeLug := None;
      CatalogueWellFormed();
      BlankIsEmpty(drum.lugs);
    }
  }
}
