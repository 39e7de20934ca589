/**
 * The feed normaliser: a GeoJSON FeatureCollection from the USGS summary feed
 * becomes the monitor's earthquake records (script.js:95-106).
 *
 * A position in GeoJSON is `[longitude, latitude, depth]` (section 3.1.1 of
 * RFC 7946; the USGS feed puts the depth in km third); a record stores
 * `[latitude, longitude]`.
 */
module Records {
  import opened Wrappers

  /** `feature.properties`: every member may be absent except the time stamp. */
  datatype RawProperties = RawProperties(
    mag: Option<real>,
    place: Option<string>,
    time: int,
    url: Option<string>,
    title: Option<string>)

  /**
   * One member of the `features` array. `properties` is None when the object
   * has no `properties` member; `coordinates` is None when it has no
   * `geometry` or the geometry has no `coordinates` array. Either makes the
   * mapping callback throw a TypeError.
   */
  datatype RawFeature = RawFeature(
    id: string,
    properties: Option<RawProperties>,
    coordinates: Option<seq<real>>)

  /**
   * An earthquake record. `lat` and `lon` are `coordinates[0]` and
   * `coordinates[1]` of the record; either is None (`undefined`) when the raw
   * position is too short.
   */
  datatype Quake = Quake(
    id: string,
    magnitude: real,
    location: string,
    time: int,
    depth: real,
    lat: Option<real>,
    lon: Option<real>,
    url: Option<string>,
    title: Option<string>,
    isNew: bool)

  const UnknownLocation: string := "Unknown location"

  /** `c[i]` on a JavaScript array: `undefined` past the end. */
  function At(c: seq<real>, i: nat): (r: Option<real>)
    ensures r.Some? <==> i < |c|
    ensures r.Some? ==> r.value == c[i]
  {
    if i < |c| then Some(c[i]) else None
  }

  /** `x || 0` on a number that may be undefined (0 is falsy and maps to itself). */
  function OrZero(x: Option<real>): (r: real)
    ensures x.None? ==> r == 0.0
    ensures x.Some? ==> r == x.value
  {
    x.GetOr(0.0)
  }

  /** `place || 'Unknown location'`: absent and empty are both falsy. */
  function PlaceOrDefault(place: Option<string>): (r: string)
    ensures r != []
    ensures place.Some? && place.value != [] ==> r == place.value
    ensures place.None? || place.value == [] ==> r == UnknownLocation
  {
    if place.Some? && place.value != [] then place.value else UnknownLocation
  }

  /**
   * The mapping callback of script.js:96-106 for one feature, evaluated
   * against the seen-set `seen`. None when the callback throws.
   */
  function Normalize(f: RawFeature, seen: set<string>): (r: Option<Quake>)
    ensures r.Some? <==> WellFormed(f)
    ensures r.Some? ==> NormalizedFrom(r.value, f, seen)
  {
    if f.properties.None? || f.coordinates.None? then None
    else
      var p, c := f.properties.value, f.coordinates.value;
      Some(Quake(
        id := f.id,
        magnitude := OrZero(p.mag),
        location := PlaceOrDefault(p.place),
        time := p.time,
        depth := OrZero(At(c, 2)),
        lat := At(c, 1),
        lon := At(c, 0),
        url := p.url,
        title := p.title,
        isNew := f.id !in seen))
  }

  /** The mapping callback succeeds on feature `f`. */
  predicate WellFormed(f: RawFeature) {
    f.properties.Some? && f.coordinates.Some?
  }

  /** Record `q` is what the callback makes of `f` against `seen`. */
  ghost predicate NormalizedFrom(q: Quake, f: RawFeature, seen: set<string>)
    requires WellFormed(f)
  {
    var p, c := f.properties.value, f.coordinates.value;
    && q.id == f.id
    && q.magnitude == (if p.mag.Some? then p.mag.value else 0.0)
    && q.location == (if p.place.Some? && p.place.value != [] then p.place.value else UnknownLocation)
    && q.time == p.time
    && q.depth == (if |c| > 2 then c[2] else 0.0)
    && q.lat == (if |c| > 1 then Some(c[1]) else None)
    && q.lon == (if |c| > 0 then Some(c[0]) else None)
    && q.url == p.url && q.title == p.title
    && (q.isNew <==> f.id !in seen)
  }

  /**
   * `data.features.map(callback)`: every feature is mapped against the same
   * seen-set, and the result is None as soon as one callback throws.
   */
  function NormalizeAll(fs: seq<RawFeature>, seen: set<string>): (r: Option<seq<Quake>>)
    ensures r.Some? <==> forall i :: 0 <= i < |fs| ==> WellFormed(fs[i])
    ensures r.Some? ==> |r.value| == |fs|
  {
    if fs == [] then Some([])
    else
      match Normalize(fs[0], seen)
      case None => None
      case Some(q) =>
        match NormalizeAll(fs[1..], seen)
        case None => None
        case Some(qs) => Some([q] + qs)
  }

  /** Each record is built from the feature at the same position. */
  lemma {:induction false} NormalizeAllSpec(fs: seq<RawFeature>, seen: set<string>)
    requires NormalizeAll(fs, seen).Some?
    ensures forall i :: 0 <= i < |fs| ==> NormalizedFrom(NormalizeAll(fs, seen).value[i], fs[i], seen)
    decreases |fs|
  {
    if fs != [] {
      NormalizeAllSpec(fs[1..], seen);
      var r, rest := NormalizeAll(fs, seen).value, NormalizeAll(fs[1..], seen).value;
      assert r == [r[0]] + rest;
      forall i | 1 <= i < |fs|
        ensures r[i] == rest[i - 1] && fs[i] == fs[1..][i - 1]
      {
      }
    }
  }

  /** The identifiers of a batch of records. */
  function Ids(qs: seq<Quake>): (r: set<string>)
    ensures forall q :: q in qs ==> q.id in r
    ensures forall id :: id in r ==> exists q :: q in qs && q.id == id
  {
    set q | q in qs :: q.id
  }

  /** The identifiers of a batch grow by one record's at a time. */
  lemma IdsSnoc(qs: seq<Quake>, q: Quake)
    ensures Ids(qs + [q]) == Ids(qs) + {q.id}
  {
    assert forall x :: x in qs + [q] <==> x in qs || x == q;
  }

  /** Records with their novelty flag cleared. */
  function Seen(qs: seq<Quake>): (r: seq<Quake>)
    ensures |r| == |qs|
    ensures forall i :: 0 <= i < |qs| ==> r[i] == qs[i].(isNew := false)
  {
    seq(|qs|, i requires 0 <= i < |qs| => qs[i].(isNew := false))
  }

  /**
   * Novelty: a record is new exactly when its identifier was not yet seen,
   * and the seen-set does not influence anything but the `isNew` flags.
   */
  lemma {:induction false} NoveltyOnlyFlags(fs: seq<RawFeature>, seen: set<string>, seen': set<string>)
    requires NormalizeAll(fs, seen).Some?
    ensures NormalizeAll(fs, seen').Some?
    ensures forall i :: 0 <= i < |fs| ==>
      NormalizeAll(fs, seen').value[i] == NormalizeAll(fs, seen).value[i].(isNew := fs[i].id !in seen')
  {
    var qs, qs' := NormalizeAll(fs, seen).value, NormalizeAll(fs, seen').value;
    NormalizeAllSpec(fs, seen);
    NormalizeAllSpec(fs, seen');
    forall i | 0 <= i < |fs|
      ensures qs'[i] == qs[i].(isNew := fs[i].id !in seen')
    {
      assert NormalizedFrom(qs[i], fs[i], seen);
      assert NormalizedFrom(qs'[i], fs[i], seen');
    }
  }

  /**
   * Reprocessing a batch after its identifiers were added to the seen-set
   * marks nothing new: the records are the same with `isNew` cleared.
   */
  lemma {:induction false} ReprocessMarksNothingNew(fs: seq<RawFeature>, seen: set<string>)
    requires NormalizeAll(fs, seen).Some?
    ensures NormalizeAll(fs, seen + Ids(NormalizeAll(fs, seen).value))
         == Some(Seen(NormalizeAll(fs, seen).value))
  {
    var qs := NormalizeAll(fs, seen).value;
    var seen' := seen + Ids(qs);
    NoveltyOnlyFlags(fs, seen, seen');
    NormalizeAllSpec(fs, seen);
    var qs' := NormalizeAll(fs, seen').value;
    forall i | 0 <= i < |fs|
      ensures qs'[i] == Seen(qs)[i]
    {
      assert qs[i] in qs;
      assert fs[i].id == qs[i].id;
    }
    assert qs' == Seen(qs);
  }

  /** Exactly the records whose identifiers lie outside `seen` are flagged new. */
  lemma {:induction false} NewIffUnseen(fs: seq<RawFeature>, seen: set<string>, q: Quake)
    requires NormalizeAll(fs, seen).Some?
    requires q in NormalizeAll(fs, seen).value
    ensures q.isNew <==> q.id !in seen
  {
    var qs := NormalizeAll(fs, seen).value;
    var i :| 0 <= i < |qs| && qs[i] == q;
    NormalizeAllSpec(fs, seen);
    assert NormalizedFrom(qs[i], fs[i], seen);
  }
}
