/** The static drum catalogue: one entry per drum, each with a lug count and
    a frequency range per head. */
module Drums {
  import opened Hertz

  /** The two heads of a drum: the struck one and the resonant one. */
  datatype Head = Batter | Resonant

  datatype DrumId = Snare | Bass | RackTom | FloorTom | HiHat

  /** A frequency range `[lo, hi]` in hertz. */
  datatype Band = Band(lo: real, hi: real)

  /** A catalogue entry; colours, artwork, sizes and tips are presentation. */
  datatype Drum = Drum(id: DrumId, name: string, lugs: nat, topRange: Band, bottomRange: Band)

  const DRUMS: seq<Drum> := [
    Drum(Snare, "Snare", 8, Band(220.0, 330.0), Band(280.0, 420.0)),
    Drum(Bass, "Bass Drum", 8, Band(55.0, 90.0), Band(60.0, 100.0)),
    Drum(RackTom, "Rack Tom", 6, Band(140.0, 240.0), Band(160.0, 280.0)),
    Drum(FloorTom, "Floor Tom", 8, Band(80.0, 160.0), Band(90.0, 180.0)),
    Drum(HiHat, "Hi-Hat", 6, Band(300.0, 500.0), Band(330.0, 550.0))
  ]

  /** The range of the active head: the top range for the batter head, the
      bottom range otherwise. For a catalogued drum it is a proper range lying
      strictly inside the window the pitch detector reports. */
  function RangeOf(d: Drum, h: Head): (b: Band)
    ensures d in DRUMS ==> MIN_HZ < b.lo < b.hi < MAX_HZ
  {
    if h == Batter then d.topRange else d.bottomRange
  }

  /** The default target: the midpoint of the active head's range. */
  function MidFreq(d: Drum, h: Head): (m: real)
    ensures m - RangeOf(d, h).lo == RangeOf(d, h).hi - m
    ensures RangeOf(d, h).lo <= RangeOf(d, h).hi ==> RangeOf(d, h).lo <= m <= RangeOf(d, h).hi
  {
    (RangeOf(d, h).lo + RangeOf(d, h).hi) / 2.0
  }

  /** Every catalogue entry has lugs and two proper ranges, and ids are unique,
      so an id determines the entry. */
  lemma CatalogueWellFormed()
    ensures |DRUMS| > 0
    ensures forall d :: d in DRUMS ==> d.lugs > 0
    ensures forall d, h :: d in DRUMS ==> RangeOf(d, h).lo < MidFreq(d, h) < RangeOf(d, h).hi
    ensures forall d, e :: d in DRUMS && e in DRUMS && d.id == e.id ==> d == e
  {
  }

  /** No two (drum, head) pairs share a default target, so the target is
      reset whenever the drum or the head changes. */
  lemma MidpointsDistinct(d: Drum, h: Head, e: Drum, g: Head)
    requires d in DRUMS && e in DRUMS
    ensures MidFreq(d, h) == MidFreq(e, g) <==> d == e && h == g
  {
  }
}
