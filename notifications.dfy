/**
 * The daily notification de-duplicator (src/services/NotificationService.ts).
 * Two stored day markers suppress repeats: the mood reminder goes out at most
 * once per day, and the digest at most once per day and only from 17:00 on.
 * The clock (today's `toDateString()` and the local hour), the permission state
 * and the random headline index are inputs; storage is two optional strings.
 */
module Notifications {
  import opened Wrappers

  /** `Notification.permission`. */
  datatype Permission = Granted | Denied | Default

  datatype Notice = Notice(title: string, body: string)

  const MoodReminder := Notice("How are you feeling? \U{1F9D8}",
                               "Take a moment to log your mood and financial mindset today.")

  /** The headline pool of `getDailyNewsletter` (src/lib/newsContent.ts). */
  const Headlines: seq<string> := [
    "Market hits all-time high as tech stocks rally.",
    "Crypto regulation talks heat up in global summit.",
    "Inflation rates show signs of cooling down.",
    "New green energy incentives announced for investors.",
    "Major merger announced in the banking sector."
  ]

  /** `getDailyNewsletter()`, with `pick` standing for `Math.floor(Math.random() * 5)`. */
  function DailyNewsletter(pick: nat): (r: Notice)
    requires pick < |Headlines|
    ensures r.title == "Daily Finance Digest \U{1F4C8}"
    ensures r.body == "Today's Highlight: " + Headlines[pick] + " Check your dashboard for more insights!"
  {
    Notice("Daily Finance Digest \U{1F4C8}",
           "Today's Highlight: " + Headlines[pick] + " Check your dashboard for more insights!")
  }

  /** The two `localStorage` keys; `None` is a key that was never set. */
  datatype Markers = Markers(lastMoodCheck: Option<string>, lastNewsletter: Option<string>)

  /** What one check decides: the markers afterwards and which notices go out. */
  datatype Decision = Decision(markers: Markers, mood: bool, digest: bool)

  /** The decision `checkAndSendNotifications` takes on the given inputs. */
  function Decide(m: Markers, permission: Permission, today: string, hour: nat): (d: Decision)
    ensures permission != Granted ==> d == Decision(m, false, false)
    ensures d.mood <==> permission == Granted && m.lastMoodCheck != Some(today)
    ensures d.digest <==> permission == Granted && hour >= 17 && m.lastNewsletter != Some(today)
    ensures d.markers.lastMoodCheck == if d.mood then Some(today) else m.lastMoodCheck
    ensures d.markers.lastNewsletter == if d.digest then Some(today) else m.lastNewsletter
  {
    if permission != Granted then Decision(m, false, false)
    else
      var mood := m.lastMoodCheck != Some(today);
      var digest := hour >= 17 && m.lastNewsletter != Some(today);
      Decision(Markers(if mood then Some(today) else m.lastMoodCheck,
                       if digest then Some(today) else m.lastNewsletter),
               mood, digest)
  }

  /** The notices one decision shows, mood reminder first. */
  function Shown(d: Decision, digestNotice: Notice): (r: seq<Notice>)
    ensures |r| == (if d.mood then 1 else 0) + (if d.digest then 1 else 0) && |r| <= 2
    ensures d.mood ==> r[0] == MoodReminder
    ensures d.digest ==> r[|r| - 1] == digestNotice
  {
    (if d.mood then [MoodReminder] else []) + (if d.digest then [digestNotice] else [])
  }

  /** A second check on the same day and at the same hour sends nothing and changes nothing. */
  lemma {:induction false} SecondCheckIsQuiet(m: Markers, permission: Permission, today: string, hour: nat)
    ensures var d1 := Decide(m, permission, today, hour);
            var d2 := Decide(d1.markers, permission, today, hour);
            !d2.mood && !d2.digest && d2.markers == d1.markers
  {
    var d1 := Decide(m, permission, today, hour);
    if permission == Granted {
      assert d1.markers.lastMoodCheck == Some(today);
      assert hour >= 17 ==> d1.markers.lastNewsletter == Some(today);
    }
  }

  /** After a granted check the mood marker is today, whatever it was before. */
  lemma MoodMarkerIsToday(m: Markers, today: string, hour: nat)
    ensures Decide(m, Granted, today, hour).markers.lastMoodCheck == Some(today)
  {
  }

  /**
   * The two markers are decided independently: the mood half depends only on
   * the mood marker, and the digest half only on the digest marker and the hour.
   */
  lemma MarkersIndependent(m1: Markers, m2: Markers, permission: Permission, today: string, hour: nat)
    ensures m1.lastMoodCheck == m2.lastMoodCheck ==>
              Decide(m1, permission, today, hour).mood == Decide(m2, permission, today, hour).mood
              && Decide(m1, permission, today, hour).markers.lastMoodCheck
                 == Decide(m2, permission, today, hour).markers.lastMoodCheck
    ensures m1.lastNewsletter == m2.lastNewsletter ==>
              Decide(m1, permission, today, hour).digest == Decide(m2, permission, today, hour).digest
              && Decide(m1, permission, today, hour).markers.lastNewsletter
                 == Decide(m2, permission, today, hour).markers.lastNewsletter
  {
  }

  /** The service: the two stored markers and the notices shown so far. */
  class NotificationService {
    var lastMoodCheck: Option<string>
    var lastNewsletter: Option<string>
    var shown: seq<Notice>

    constructor (stored: Markers)
      ensures lastMoodCheck == stored.lastMoodCheck && lastNewsletter == stored.lastNewsletter
      ensures shown == []
    {
      lastMoodCheck, lastNewsletter := stored.lastMoodCheck, stored.lastNewsletter;
      shown := [];
    }

    function StoredMarkers(): Markers
      reads this
    {
      Markers(lastMoodCheck, lastNewsletter)
    }

    /** `sendNotification`: shows the notice only when permission is granted. */
    method SendNotification(permission: Permission, n: Notice)
      modifies this`shown
      ensures shown == if permission == Granted then old(shown) + [n] else old(shown)
    {
      if permission == Granted {
        shown := shown + [n];
      }
    }

    /** `checkAndSendNotifications`, run once with the given clock and permission. */
    method CheckAndSendNotifications(permission: Permission, today: string, hour: nat, pick: nat)
      requires pick < |Headlines|
      modifies this
      ensures var d := Decide(old(StoredMarkers()), permission, today, hour);
              StoredMarkers() == d.markers && shown == old(shown) + Shown(d, DailyNewsletter(pick))
    {
      if permission != Granted {
        return;
      }
      var moodMarker := lastMoodCheck;
      var newsMarker := lastNewsletter;
      if moodMarker != Some(today) {
        SendNotification(permission, MoodReminder);
        lastMoodCheck := Some(today);
      }
      if hour >= 17 && newsMarker != Some(today) {
        var news := DailyNewsletter(pick);
        SendNotification(permission, news);
        lastNewsletter := Some(today);
      }
    }
  }
}
