/**
 * Desktop notifications for significant new earthquakes
 * (`checkForNotificationWorthy`, `showNotification`) and the decisions of
 * the notification toggle and its stored preference.
 */
module Notify {
  import opened Wrappers
  import opened Records
  import Selection

  const SignificantThreshold: real := 4.5
  const PersistentThreshold: real := 5.0
  const AutoCloseMs: nat := 10000

  /** `Notification.permission`, or the answer of `Notification.requestPermission()`. */
  datatype Permission = Default | Granted | Denied

  /** A record deserves a notification: significant and new. */
  predicate Worthy(q: Quake) {
    q.magnitude >= SignificantThreshold && q.isNew
  }

  /** `newEarthquakes.filter(...)` in `checkForNotificationWorthy` (script.js:305-308). */
  function NotificationWorthy(s: seq<Quake>): (r: seq<Quake>)
    ensures forall q :: multiset(r)[q] == if Worthy(q) then multiset(s)[q] else 0
    ensures forall i :: 0 <= i < |r| ==> Worthy(r[i])
  {
    if s == [] then []
    else
      assert s == [s[0]] + s[1..];
      (if Worthy(s[0]) then [s[0]] else []) + NotificationWorthy(s[1..])
  }

  /** The candidates keep their feed order. */
  lemma {:induction false} NotificationWorthyInOrder(s: seq<Quake>)
    ensures Selection.IsSubsequence(NotificationWorthy(s), s)
    decreases |s|
  {
    if s != [] {
      var rest := NotificationWorthy(s[1..]);
      NotificationWorthyInOrder(s[1..]);
      if Worthy(s[0]) {
        assert NotificationWorthy(s) == [s[0]] + rest;
        assert ([s[0]] + rest)[1..] == rest;
      } else {
        assert NotificationWorthy(s) == rest;
        Selection.SubsequenceSkip(rest, s);
      }
    }
  }

  /**
   * A notification as `showNotification` builds it: its tag, whether it
   * waits to be dismissed, and the delay after which it closes itself.
   */
  datatype Alert = Alert(tag: string, requireInteraction: bool, autoCloseAfter: Option<nat>)

  /**
   * `showNotification` (script.js:631-666): nothing unless notifications are
   * on and permission is granted; a notification for magnitude 5 and above
   * stays until dismissed, any other closes after ten seconds.
   */
  function ShowNotification(enabled: bool, permission: Permission, q: Quake): (r: Option<Alert>)
    ensures r.Some? <==> enabled && permission == Granted
    ensures r.Some? ==> r.value.tag == "earthquake-" + q.id
    ensures r.Some? ==> (r.value.requireInteraction <==> q.magnitude >= PersistentThreshold)
    ensures r.Some? ==> (r.value.autoCloseAfter.Some? <==> !r.value.requireInteraction)
    ensures r.Some? && r.value.autoCloseAfter.Some? ==> r.value.autoCloseAfter.value == AutoCloseMs
  {
    if !enabled || permission != Granted then None
    else
      Some(Alert(
        tag := "earthquake-" + q.id,
        requireInteraction := q.magnitude >= 5.0,
        autoCloseAfter := if q.magnitude < 5.0 then Some(AutoCloseMs) else None))
  }

  /** The notifications `showNotification` raises for `qs`, one call per record in order. */
  function ShowAll(enabled: bool, permission: Permission, qs: seq<Quake>): (r: seq<Alert>)
    ensures |r| <= |qs|
    ensures r != [] ==> enabled && permission == Granted
  {
    if qs == [] then []
    else
      match ShowNotification(enabled, permission, qs[0])
      case None => ShowAll(enabled, permission, qs[1..])
      case Some(a) => [a] + ShowAll(enabled, permission, qs[1..])
  }

  /**
   * `checkForNotificationWorthy` (script.js:304-313): a notification for
   * every worthy record, in feed order.
   */
  function CheckForNotificationWorthy(enabled: bool, permission: Permission, s: seq<Quake>): (r: seq<Alert>)
    ensures |r| <= |NotificationWorthy(s)|
    ensures r != [] ==> enabled && permission == Granted
  {
    ShowAll(enabled, permission, NotificationWorthy(s))
  }

  /**
   * With notifications on and permission granted there is exactly one
   * notification per worthy record, in the same order, tagged with its
   * identifier and persistent exactly when its magnitude is at least 5;
   * otherwise there is none.
   */
  lemma {:induction false} ShowAllSpec(enabled: bool, permission: Permission, qs: seq<Quake>)
    ensures !(enabled && permission == Granted) ==> ShowAll(enabled, permission, qs) == []
    ensures enabled && permission == Granted ==>
      && |ShowAll(enabled, permission, qs)| == |qs|
      && forall i :: 0 <= i < |qs| ==>
           && ShowAll(enabled, permission, qs)[i].tag == "earthquake-" + qs[i].id
           && (ShowAll(enabled, permission, qs)[i].requireInteraction <==> qs[i].magnitude >= PersistentThreshold)
           && ((ShowAll(enabled, permission, qs)[i].autoCloseAfter == Some(AutoCloseMs))
                 <==> (qs[i].magnitude < PersistentThreshold))
    decreases |qs|
  {
    if qs != [] {
      ShowAllSpec(enabled, permission, qs[1..]);
      if enabled && permission == Granted {
        var rest := ShowAll(enabled, permission, qs[1..]);
        var a := ShowNotification(enabled, permission, qs[0]).value;
        assert ShowAll(enabled, permission, qs) == [a] + rest;
        forall i | 0 < i < |qs|
          ensures ([a] + rest)[i] == rest[i - 1] && qs[i] == qs[1..][i - 1]
        {
        }
      }
    }
  }

  /**
   * The gate of script.js:109-111 around `checkForNotificationWorthy`.
   * `previous` is the length of the batch the monitor held before this one,
   * so the first batch after start-up (or after an empty one) raises nothing.
   */
  function NotificationsFor(enabled: bool, previous: nat, permission: Permission, batch: seq<Quake>): (r: seq<Alert>)
    ensures r != [] ==> enabled && previous > 0 && permission == Granted
  {
    ShowAllSpec(enabled, permission, NotificationWorthy(batch));
    if enabled && previous > 0 then CheckForNotificationWorthy(enabled, permission, batch) else []
  }

  /**
   * Past the gate there is one notification per worthy record of the batch,
   * in feed order, tagged with its identifier and persistent exactly from
   * magnitude 5.
   */
  lemma NotificationsForSpec(enabled: bool, previous: nat, permission: Permission, batch: seq<Quake>)
    requires enabled && previous > 0 && permission == Granted
    ensures |NotificationsFor(enabled, previous, permission, batch)| == |NotificationWorthy(batch)|
    ensures forall i :: 0 <= i < |NotificationWorthy(batch)| ==>
      && NotificationsFor(enabled, previous, permission, batch)[i].tag == "earthquake-" + NotificationWorthy(batch)[i].id
      && (NotificationsFor(enabled, previous, permission, batch)[i].requireInteraction <==>
          NotificationWorthy(batch)[i].magnitude >= PersistentThreshold)
  {
    ShowAllSpec(enabled, permission, NotificationWorthy(batch));
  }

  /** A batch with no new record has nothing worth a notification. */
  lemma NothingNewNothingWorthy(s: seq<Quake>)
    requires forall i :: 0 <= i < |s| ==> !s[i].isNew
    ensures NotificationWorthy(s) == []
  {
    assert forall q :: q in multiset(s) ==> !Worthy(q);
    assert multiset(NotificationWorthy(s)) == multiset{};
  }

  /** The localStorage key of the preference (script.js:566, 576). */
  const PreferenceKey: string := "earthquakeNotifications"

  /** `enabled.toString()`, the value stored under `PreferenceKey`. */
  function PreferenceString(enabled: bool): (s: string)
    ensures s == "true" <==> enabled
  {
    if enabled then "true" else "false"
  }

  /**
   * The test of `checkNotificationPermission` (script.js:577): a stored
   * "true" with permission granted turns notifications on.
   */
  predicate RestoresEnabled(stored: Option<string>, permission: Permission) {
    stored == Some("true") && permission == Granted
  }

  /** A stored preference restores the state it was saved from, while permission is granted. */
  lemma PreferenceRoundTrip(enabled: bool)
    ensures RestoresEnabled(Some(PreferenceString(enabled)), Granted) == enabled
    ensures !RestoresEnabled(Some(PreferenceString(enabled)), Denied)
  {
  }

  /** What a click on the notification toggle leads to (script.js:543-567). */
  datatype ToggleOutcome =
    | NotSupportedAlert   // no Notification API: an alert box, nothing changes
    | BlockedAlert        // permission denied: an alert box, nothing changes
    | RequestRefused      // the permission prompt was not granted: button shows "denied"
    | Toggled             // notificationsEnabled flips and is stored

  /**
   * The decision of `toggleNotifications`. `requested` is what
   * `Notification.requestPermission()` answers; it is asked only while
   * permission is still `Default`.
   */
  function ToggleDecision(supported: bool, permission: Permission, requested: Permission): (o: ToggleOutcome)
    ensures o == Toggled <==>
      supported && (permission == Granted || (permission == Default && requested == Granted))
    ensures o == BlockedAlert <==> supported && permission == Denied
    ensures o == NotSupportedAlert <==> !supported
    ensures o == RequestRefused <==> supported && permission == Default && requested != Granted
  {
    if !supported then NotSupportedAlert
    else
      match permission
      case Denied => BlockedAlert
      case Default => if requested != Granted then RequestRefused else Toggled
      case Granted => Toggled
  }

  /** The notification button's look (`updateNotificationButtonState`). */
  datatype ButtonState = EnabledButton | DisabledButton | DeniedButton | NotSupportedButton

  /** The button state `checkNotificationPermission` sets (script.js:569-583). */
  function InitialButton(supported: bool, stored: Option<string>, permission: Permission): (b: ButtonState)
    ensures b == EnabledButton <==> supported && RestoresEnabled(stored, permission)
    ensures b == DeniedButton <==> supported && permission == Denied
    ensures b == NotSupportedButton <==> !supported
  {
    if !supported then NotSupportedButton
    else if RestoresEnabled(stored, permission) then EnabledButton
    else if permission == Denied then DeniedButton
    else DisabledButton
  }
}
