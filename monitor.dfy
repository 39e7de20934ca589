/**
 * The `EarthquakeMonitor` object (script.js:1-681) without its DOM, Leaflet
 * and network glue: the fields the methods update, the feed processing, the
 * filter/sort/render cycle, the marker reconciliation, the notification
 * toggle and the auto-update handle.
 *
 * The Leaflet map is abstract: `mapLayer` is the multiset of markers drawn on
 * it, `hasMap` says whether `this.map` was created. The list container is
 * abstract too: `listView` is what was last rendered into it.
 */
module Monitor {
  import opened Wrappers
  import opened Records
  import opened Styling
  import opened Selection
  import opened Notify

  /** A circle marker as `createEarthquakeMarker` builds it (script.js:245-268). */
  datatype Marker = Marker(id: string, lat: Option<real>, lon: Option<real>, style: MarkerStyle)

  function MarkerFor(q: Quake): (m: Marker)
    ensures m.id == q.id && m.lat == q.lat && m.lon == q.lon
    ensures m.style == BucketStyle(BucketOf(q.magnitude))
  {
    ClassAndStyleAgree(q.magnitude);
    Marker(q.id, q.lat, q.lon, StyleFor(q.magnitude))
  }

  /** One marker per record, in order: what the push loop of `updateMapMarkers` builds. */
  function MarkersFor(s: seq<Quake>): seq<Marker> {
    seq(|s|, i requires 0 <= i < |s| => MarkerFor(s[i]))
  }

  lemma MarkersForSnoc(s: seq<Quake>, j: int)
    requires 0 <= j < |s|
    ensures MarkersFor(s[..j + 1]) == MarkersFor(s[..j]) + [MarkerFor(s[j])]
  {
    assert s[..j + 1] == s[..j] + [s[j]];
  }

  /** One list entry of `getEarthquakeItemHTML`: its `data-id`, badge class and `new` class. */
  datatype Item = Item(id: string, magnitudeClass: string, isNew: bool)

  /** What the list container shows. */
  datatype ListView =
    | NotRendered          // the page's initial markup
    | EmptyState           // `getEmptyStateHTML`
    | Listed(items: seq<Item>)
    | ErrorState           // `showErrorState`

  function ItemFor(q: Quake): (it: Item)
    ensures it.id == q.id && it.isNew == q.isNew
    ensures it.magnitudeClass == ClassName(BucketOf(q.magnitude))
  {
    ClassAndStyleAgree(q.magnitude);
    Item(q.id, MagnitudeClass(q.magnitude), q.isNew)
  }

  /** `renderEarthquakes` (script.js:373-397): the empty state, or one entry per record. */
  function ListFor(s: seq<Quake>): (v: ListView)
    ensures v.EmptyState? <==> s == []
    ensures v.Listed? <==> s != []
    ensures v.Listed? ==> |v.items| == |s|
    ensures v.Listed? ==> forall i :: 0 <= i < |s| ==> v.items[i] == ItemFor(s[i])
  {
    if |s| == 0 then EmptyState
    else Listed(seq(|s|, i requires 0 <= i < |s| => ItemFor(s[i])))
  }

  /**
   * The list badge and the map marker of any rendered record come from the
   * same magnitude bucket.
   */
  lemma BadgeAndMarkerAgree(s: seq<Quake>, i: int)
    requires 0 <= i < |s|
    ensures ListFor(s).items[i].magnitudeClass == ClassName(BucketOf(s[i].magnitude))
    ensures MarkersFor(s)[i].style == BucketStyle(BucketOf(s[i].magnitude))
  {
    ClassAndStyleAgree(s[i].magnitude);
  }

  /**
   * `filteredEarthquakes.find(eq => eq.id === earthquakeId)` in
   * `showEarthquakeOnMap` (script.js:423): the first record with that id.
   */
  function FindById(s: seq<Quake>, id: string): (r: Option<Quake>)
    ensures r.None? <==> forall i :: 0 <= i < |s| ==> s[i].id != id
    ensures r.Some? ==>
      exists i :: 0 <= i < |s| && s[i] == r.value && s[i].id == id && forall j :: 0 <= j < i ==> s[j].id != id
  {
    if s == [] then None
    else if s[0].id == id then Some(s[0])
    else
      var r := FindById(s[1..], id);
      assert r.Some? ==> exists i :: 1 <= i < |s| && s[i] == r.value && s[i].id == id && forall j :: 1 <= j < i ==> s[j].id != id by {
        if r.Some? {
          var k :| 0 <= k < |s[1..]| && s[1..][k] == r.value && s[1..][k].id == id
                   && forall j :: 0 <= j < k ==> s[1..][j].id != id;
          assert forall j :: 1 <= j < k + 1 ==> s[j].id == s[1..][j - 1].id;
        }
      }
      r
  }

  /**
   * The sort step of `applyFilters` (script.js:351-368): the records are
   * copied into an array, which is sorted in place with the comparator of
   * order `o`.
   */
  method SortedCopy(o: SortOrder, s: seq<Quake>) returns (r: seq<Quake>)
    ensures r == SortByKey(KeyOf(o), s)
  {
    var a := new Quake[|s|](i requires 0 <= i < |s| => s[i]);
    assert a[..] == s;
    SortInPlace(o, a);
    r := a[..];
  }

  /** The response `fetch` resolves to, or its rejection. */
  datatype FetchResult = NetworkError | Response(status: int, body: Body)

  /** What `response.json()` yields: a parse failure, or a value whose `features` member may be missing. */
  datatype Body = Unparsable | Json(features: Option<seq<RawFeature>>)

  /** `response.ok`. */
  predicate IsOk(status: int) {
    200 <= status <= 299
  }

  /** The feature array the processing step receives, if the fetch got that far. */
  function Delivered(response: FetchResult): (f: Option<seq<RawFeature>>)
    ensures f.Some? ==> response.Response? && IsOk(response.status) && response.body.Json?
    ensures response.Response? && IsOk(response.status) && response.body.Json? ==> f == response.body.features
  {
    if response.Response? && IsOk(response.status) && response.body.Json? then response.body.features
    else None
  }

  /** The status line `loadEarthquakeData` ends with. */
  datatype Status = Loaded(count: nat) | Failed

  class EarthquakeMonitor {
    var earthquakes: seq<Quake>
    var filteredEarthquakes: seq<Quake>
    var lastUpdateTime: Option<int>
    var notificationsEnabled: bool
    var seenEarthquakes: set<string>
    var updateInterval: Option<nat>
    var hasMap: bool
    var mapMarkers: seq<Marker>
    var mapLayer: multiset<Marker>
    var mapVisible: bool
    var listView: ListView
    /** The filter controls' values at the last `applyFilters`. */
    ghost var criteria: Criteria

    /**
     * The filtered list is the selection of the current batch under the last
     * criteria applied, the map shows exactly one marker per filtered record,
     * and a rendered list shows exactly the filtered records.
     */
    ghost predicate Valid()
      reads this
    {
      && filteredEarthquakes == Select(earthquakes, criteria)
      && (hasMap ==> mapMarkers == MarkersFor(filteredEarthquakes))
      && MapTracked()
      && (listView.EmptyState? || listView.Listed? ==> listView == ListFor(filteredEarthquakes))
    }

    /** The map holds exactly the remembered markers, and none without a map. */
    ghost predicate MapTracked()
      reads this
    {
      && mapLayer == multiset(mapMarkers)
      && (!hasMap ==> mapMarkers == [])
    }

    /**
     * The constructor and the synchronous part of `init` (script.js:2-31):
     * the stored notification preference is restored, the map is created
     * when `withMap` holds, and the auto-update interval `handle` is
     * started. The first load completes later, as a `LoadEarthquakeData`.
     */
    constructor (supported: bool, stored: Option<string>, permission: Permission, withMap: bool, handle: nat)
      ensures Valid()
      ensures earthquakes == [] && filteredEarthquakes == [] && seenEarthquakes == {}
      ensures lastUpdateTime == None && mapVisible && listView == NotRendered
      ensures notificationsEnabled == (supported && RestoresEnabled(stored, permission))
      ensures hasMap == withMap && mapMarkers == [] && mapLayer == multiset{}
      ensures updateInterval == Some(handle)
    {
      earthquakes := [];
      filteredEarthquakes := [];
      lastUpdateTime := None;
      notificationsEnabled := false;
      seenEarthquakes := {};
      updateInterval := None;
      hasMap := withMap;
      mapMarkers := [];
      mapLayer := multiset{};
      mapVisible := true;
      listView := NotRendered;
      criteria := Criteria(0.0, "all", "", "time-desc");
      new;
      var _ := CheckNotificationPermission(supported, stored, permission);
      var _ := StartAutoUpdate(handle);
    }

    /**
     * `checkNotificationPermission` (script.js:569-583): turns notifications
     * on when "true" is stored and permission is granted, never off, and
     * answers the button state it shows.
     */
    method CheckNotificationPermission(supported: bool, stored: Option<string>, permission: Permission)
      returns (button: ButtonState)
      modifies this`notificationsEnabled
      ensures button == InitialButton(supported, stored, permission)
      ensures notificationsEnabled == (old(notificationsEnabled) || (supported && RestoresEnabled(stored, permission)))
    {
      if !supported {
        return NotSupportedButton;
      }
      if RestoresEnabled(stored, permission) {
        notificationsEnabled := true;
        button := EnabledButton;
      } else {
        button := if permission == Denied then DeniedButton else DisabledButton;
      }
    }

    /**
     * `toggleNotifications` (script.js:543-567). `requested` is the answer of
     * the permission prompt. Answers the outcome, the button state shown
     * (None when only an alert box appears) and the string stored in
     * localStorage, which restores the new setting at the next start.
     */
    method ToggleNotifications(supported: bool, permission: Permission, requested: Permission)
      returns (outcome: ToggleOutcome, button: Option<ButtonState>, stored: Option<string>)
      modifies this`notificationsEnabled
      ensures outcome == ToggleDecision(supported, permission, requested)
      ensures notificationsEnabled == (if outcome == Toggled then !old(notificationsEnabled) else old(notificationsEnabled))
      ensures outcome == Toggled ==>
        && stored == Some(PreferenceString(notificationsEnabled))
        && button == Some(if notificationsEnabled then EnabledButton else DisabledButton)
      ensures outcome == RequestRefused ==> stored == None && button == Some(DeniedButton)
      ensures outcome == NotSupportedAlert || outcome == BlockedAlert ==> stored == None && button == None
      ensures stored.Some? ==> (RestoresEnabled(stored, Granted) <==> notificationsEnabled)
    {
      outcome := ToggleDecision(supported, permission, requested);
      if outcome != Toggled {
        button := if outcome == RequestRefused then Some(DeniedButton) else None;
        stored := None;
        return;
      }
      notificationsEnabled := !notificationsEnabled;
      button := Some(if notificationsEnabled then EnabledButton else DisabledButton);
      stored := Some(PreferenceString(notificationsEnabled));
      PreferenceRoundTrip(notificationsEnabled);
    }

    /**
     * `toggleMap` (script.js:187-219): flips the visibility; answers whether
     * a marker refresh was scheduled, which happens when the map is shown.
     */
    method ToggleMap() returns (refreshScheduled: bool)
      modifies this`mapVisible
      ensures mapVisible == !old(mapVisible)
      ensures refreshScheduled == mapVisible
    {
      mapVisible := !mapVisible;
      refreshScheduled := mapVisible;
    }

    /**
     * `updateMapMarkers` (script.js:221-242): with a map, every marker of
     * the previous round is removed from it and one new marker per filtered
     * record is drawn and remembered, in order; without a map nothing
     * changes.
     */
    method UpdateMapMarkers()
      modifies this`mapMarkers, this`mapLayer
      ensures hasMap ==> mapMarkers == MarkersFor(filteredEarthquakes)
      ensures hasMap ==> mapLayer == old(mapLayer) - multiset(old(mapMarkers)) + multiset(mapMarkers)
      ensures !hasMap ==> mapMarkers == old(mapMarkers) && mapLayer == old(mapLayer)
    {
      if !hasMap {
        return;
      }
      ClearMarkers();
      DrawMarkers();
    }

    /** The remove loop of `updateMapMarkers` (script.js:225-228), then the reset of the array. */
    method ClearMarkers()
      modifies this`mapMarkers, this`mapLayer
      ensures mapMarkers == []
      ensures mapLayer == old(mapLayer) - multiset(old(mapMarkers))
    {
      var i := 0;
      while i < |mapMarkers|
        invariant 0 <= i <= |mapMarkers|
        invariant mapMarkers == old(mapMarkers)
        invariant mapLayer == old(mapLayer) - multiset(mapMarkers[..i])
      {
        assert mapMarkers[..i + 1] == mapMarkers[..i] + [mapMarkers[i]];
        mapLayer := mapLayer - multiset{mapMarkers[i]};
        i := i + 1;
      }
      assert mapMarkers[..i] == mapMarkers;
      mapMarkers := [];
    }

    /** The push loop of `updateMapMarkers` (script.js:231-235): one marker per filtered record. */
    method DrawMarkers()
      requires mapMarkers == []
      modifies this`mapMarkers, this`mapLayer
      ensures mapMarkers == MarkersFor(filteredEarthquakes)
      ensures mapLayer == old(mapLayer) + multiset(mapMarkers)
    {
      var j := 0;
      while j < |filteredEarthquakes|
        invariant 0 <= j <= |filteredEarthquakes|
        invariant mapMarkers == MarkersFor(filteredEarthquakes[..j])
        invariant mapLayer == old(mapLayer) + multiset(mapMarkers)
      {
        var marker := MarkerFor(filteredEarthquakes[j]);
        MarkersForSnoc(filteredEarthquakes, j);
        mapLayer := mapLayer + multiset{marker};
        mapMarkers := mapMarkers + [marker];
        j := j + 1;
      }
      assert filteredEarthquakes[..j] == filteredEarthquakes;
    }

    /** `renderEarthquakes` (script.js:373-397): the list, then the markers. */
    method RenderEarthquakes()
      modifies this`listView, this`mapMarkers, this`mapLayer
      ensures listView == ListFor(filteredEarthquakes)
      ensures hasMap ==> mapMarkers == MarkersFor(filteredEarthquakes)
      ensures hasMap ==> mapLayer == old(mapLayer) - multiset(old(mapMarkers)) + multiset(mapMarkers)
      ensures !hasMap ==> mapMarkers == old(mapMarkers) && mapLayer == old(mapLayer)
    {
      listView := ListFor(filteredEarthquakes);
      UpdateMapMarkers();
    }

    /**
     * `applyFilters` (script.js:315-371) with the control values `c`: the
     * matching records, sorted in place by the chosen comparator, become the
     * filtered list, which is rendered.
     */
    method ApplyFilters(c: Criteria)
      requires MapTracked()
      modifies this`filteredEarthquakes, this`criteria, this`listView, this`mapMarkers, this`mapLayer
      ensures Valid()
      ensures criteria == c
      ensures filteredEarthquakes == Select(earthquakes, c)
      ensures listView == ListFor(filteredEarthquakes)
    {
      var kept := Filter(earthquakes, c);
      filteredEarthquakes := SortedCopy(ParseSortKey(c.sortKey), kept);
      criteria := c;
      assert mapLayer - multiset(mapMarkers) == multiset{};
      RenderEarthquakes();
    }

    /** The `forEach` of script.js:114 adding every id of the batch to the seen-set. */
    method MarkSeen(qs: seq<Quake>)
      modifies this`seenEarthquakes
      ensures seenEarthquakes == old(seenEarthquakes) + Ids(qs)
    {
      var i := 0;
      while i < |qs|
        invariant 0 <= i <= |qs|
        invariant seenEarthquakes == old(seenEarthquakes) + Ids(qs[..i])
      {
        IdsSnoc(qs[..i], qs[i]);
        assert qs[..i + 1] == qs[..i] + [qs[i]];
        seenEarthquakes := seenEarthquakes + {qs[i].id};
        i := i + 1;
      }
      assert qs[..i] == qs;
    }

    /**
     * `processEarthquakeData` (script.js:95-118) on a parsed body whose
     * `features` member is `payload`. Every record is built before any field
     * changes, so a missing `features` member or a malformed feature leaves
     * the monitor as it was. Otherwise the new batch replaces the old one,
     * its ids join the seen-set, the filters are applied with `c`, and the
     * notifications raised are answered.
     */
    method ProcessEarthquakeData(payload: Option<seq<RawFeature>>, c: Criteria, permission: Permission)
      returns (ok: bool, alerts: seq<Alert>)
      requires MapTracked()
      modifies this`earthquakes, this`seenEarthquakes,
        this`filteredEarthquakes, this`criteria, this`listView, this`mapMarkers, this`mapLayer
      ensures ok ==> Valid()
      ensures ok <==> payload.Some? && NormalizeAll(payload.value, old(seenEarthquakes)).Some?
      ensures !ok ==> unchanged(this) && alerts == []
      ensures ok ==> earthquakes == NormalizeAll(payload.value, old(seenEarthquakes)).value
      ensures ok ==> seenEarthquakes == old(seenEarthquakes) + Ids(earthquakes)
      ensures ok ==> alerts == NotificationsFor(notificationsEnabled, |old(earthquakes)|, permission, earthquakes)
      ensures ok ==> criteria == c && listView == ListFor(filteredEarthquakes)
    {
      if payload.None? {
        return false, [];
      }
      var batch := NormalizeAll(payload.value, seenEarthquakes);
      if batch.None? {
        return false, [];
      }
      var qs := batch.value;
      alerts := NotificationsFor(notificationsEnabled, |earthquakes|, permission, qs);
      AcceptBatch(qs, c);
      ok := true;
    }

    /** The assignments of script.js:114-117, once the whole batch is built. */
    method AcceptBatch(qs: seq<Quake>, c: Criteria)
      requires MapTracked()
      modifies this`earthquakes, this`seenEarthquakes,
        this`filteredEarthquakes, this`criteria, this`listView, this`mapMarkers, this`mapLayer
      ensures Valid()
      ensures earthquakes == qs
      ensures seenEarthquakes == old(seenEarthquakes) + Ids(qs)
      ensures criteria == c && listView == ListFor(filteredEarthquakes)
    {
      MarkSeen(qs);
      earthquakes := qs;
      ApplyFilters(c);
    }

    /**
     * `loadEarthquakeData` (script.js:71-93) for the time-range control value
     * `selection`, with the fetch outcome `response` and the clock reading
     * `now` as inputs. Answers the URL requested (None for `undefined`), the
     * final status and the notifications raised. A network error, a non-2xx
     * status, an unparsable body or a failed processing step shows the
     * error state and changes nothing else.
     */
    method LoadEarthquakeData(selection: string, response: FetchResult, c: Criteria, permission: Permission, now: int)
      returns (url: Option<string>, status: Status, alerts: seq<Alert>)
      requires Valid()
      modifies this`earthquakes, this`seenEarthquakes, this`lastUpdateTime,
        this`filteredEarthquakes, this`criteria, this`listView, this`mapMarkers, this`mapLayer
      ensures Valid()
      ensures url == FeedUrl(selection)
      ensures status.Loaded? <==>
        Delivered(response).Some? && NormalizeAll(Delivered(response).value, old(seenEarthquakes)).Some?
      ensures status.Loaded? ==>
        && earthquakes == NormalizeAll(Delivered(response).value, old(seenEarthquakes)).value
        && status.count == |earthquakes|
        && seenEarthquakes == old(seenEarthquakes) + Ids(earthquakes)
        && alerts == NotificationsFor(notificationsEnabled, |old(earthquakes)|, permission, earthquakes)
        && criteria == c && listView == ListFor(filteredEarthquakes)
        && lastUpdateTime == Some(now)
      ensures status.Failed? ==>
        && alerts == [] && listView == ErrorState
        && earthquakes == old(earthquakes) && seenEarthquakes == old(seenEarthquakes)
        && filteredEarthquakes == old(filteredEarthquakes) && criteria == old(criteria)
        && mapMarkers == old(mapMarkers) && mapLayer == old(mapLayer)
        && lastUpdateTime == old(lastUpdateTime)
    {
      url := FeedUrl(selection);
      var features := Delivered(response);
      if features.None? {
        status, alerts := Failed, [];
        ShowErrorState();
        return;
      }
      var ok;
      ok, alerts := ProcessEarthquakeData(features, c, permission);
      if !ok {
        status := Failed;
        ShowErrorState();
        return;
      }
      status := Loaded(|earthquakes|);
      UpdateLastUpdatedTime(now);
    }

    /** `updateLastUpdatedTime` (script.js:524-528) with the clock reading `now`. */
    method UpdateLastUpdatedTime(now: int)
      modifies this`lastUpdateTime
      ensures lastUpdateTime == Some(now)
    {
      lastUpdateTime := Some(now);
    }

    /** `showErrorState` (script.js:530-541): the list shows the failure message. */
    method ShowErrorState()
      modifies this`listView
      ensures listView == ErrorState
    {
      listView := ErrorState;
    }

    /**
     * `showEarthquakeOnMap` (script.js:422-436): the filtered record to centre
     * on, if there is one and a map exists, switching to the map view first
     * when it is hidden. Also answers whether that switch scheduled a marker
     * refresh, as `ToggleMap` does.
     */
    method ShowEarthquakeOnMap(id: string) returns (target: Option<Quake>, refreshScheduled: bool)
      modifies this`mapVisible
      ensures target == (if hasMap then FindById(filteredEarthquakes, id) else None)
      ensures target.Some? ==> target.value in filteredEarthquakes && target.value.id == id
      ensures mapVisible == (target.Some? || old(mapVisible))
      ensures refreshScheduled <==> target.Some? && !old(mapVisible)
    {
      refreshScheduled := false;
      var found := FindById(filteredEarthquakes, id);
      if found.None? || !hasMap {
        return None, false;
      }
      if !mapVisible {
        refreshScheduled := ToggleMap();
      }
      target := found;
    }

    /**
     * `startAutoUpdate` (script.js:669-674): the new interval handle replaces
     * the stored one without clearing it; the replaced handle, still
     * running, is answered.
     */
    method StartAutoUpdate(handle: nat) returns (replaced: Option<nat>)
      modifies this`updateInterval
      ensures updateInterval == Some(handle)
      ensures replaced == old(updateInterval)
    {
      replaced := updateInterval;
      updateInterval := Some(handle);
    }

    /**
     * `stopAutoUpdate` (script.js:676-681): a truthy handle is cleared and
     * forgotten; answers the handle cleared.
     */
    method StopAutoUpdate() returns (cleared: Option<nat>)
      modifies this`updateInterval
      ensures old(updateInterval).Some? && old(updateInterval).value != 0 ==>
        cleared == old(updateInterval) && updateInterval == None
      ensures !(old(updateInterval).Some? && old(updateInterval).value != 0) ==>
        cleared == None && updateInterval == old(updateInterval)
    {
      if updateInterval.Some? && updateInterval.value != 0 {
        cleared := updateInterval;
        updateInterval := None;
      } else {
        cleared := None;
      }
    }
  }

  /**
   * Feeding the same payload twice raises no notification the second time:
   * every record of the second batch was seen in the first.
   */
  lemma ReprocessRaisesNoAlerts(fs: seq<RawFeature>, seen: set<string>, enabled: bool, previous: nat, permission: Permission)
    requires NormalizeAll(fs, seen).Some?
    ensures NormalizeAll(fs, seen + Ids(NormalizeAll(fs, seen).value)).Some?
    ensures NotificationsFor(enabled, previous, permission,
                             NormalizeAll(fs, seen + Ids(NormalizeAll(fs, seen).value)).value) == []
  {
    var qs := NormalizeAll(fs, seen).value;
    ReprocessMarksNothingNew(fs, seen);
    NothingNewNothingWorthy(Seen(qs));
  }

  /**
   * Every notification raised for a batch names a record whose id was not
   * in the seen-set before the batch and whose magnitude is at least 4.5.
   */
  lemma AlertsOnlyForUnseen(fs: seq<RawFeature>, seen: set<string>, enabled: bool, previous: nat, permission: Permission)
    requires NormalizeAll(fs, seen).Some?
    ensures forall a :: a in NotificationsFor(enabled, previous, permission, NormalizeAll(fs, seen).value) ==>
      exists q :: q in NormalizeAll(fs, seen).value && q.id !in seen && q.magnitude >= SignificantThreshold
                  && a.tag == "earthquake-" + q.id
  {
    var qs := NormalizeAll(fs, seen).value;
    var alerts := NotificationsFor(enabled, previous, permission, qs);
    if alerts != [] {
      NotificationsForSpec(enabled, previous, permission, qs);
      var w := NotificationWorthy(qs);
      forall a | a in alerts
        ensures exists q :: q in qs && q.id !in seen && q.magnitude >= SignificantThreshold
                            && a.tag == "earthquake-" + q.id
      {
        var i :| 0 <= i < |alerts| && alerts[i] == a;
        var q := w[i];
        assert Worthy(q);
        assert multiset(w)[q] > 0;
        assert q in qs;
        NewIffUnseen(fs, seen, q);
      }
    }
  }
}
