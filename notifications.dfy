/** The notifications page (src/pages/Notifications.tsx): the general and
    health-alert lists with their read/severity styling, the severity badge,
    and the flag that opens the emergency care finder. */
module Notifications {
  import opened Badge

  /** getSeverityColor: critical and warning have their own badge variants;
      every other severity falls to the default one. */
  function SeverityColor(severity: string): (v: Variant)
    ensures v == Destructive <==> severity == "critical"
    ensures v == Secondary <==> severity == "warning"
    ensures v == Default <==> severity != "critical" && severity != "warning"
    ensures v != Outline
  {
    if severity == "critical" then Destructive
    else if severity == "warning" then Secondary
    else Default
  }

  datatype GeneralNotification = GeneralNotification(id: int, kind: string, title: string, time: string, read: bool)

  datatype AlertNotification = AlertNotification(
    id: int,
    kind: string,
    title: string,
    time: string,
    severity: string,
    actionRequired: bool)

  const GeneralNotifications: seq<GeneralNotification> := [
    GeneralNotification(1, "profile", "Profile Updated", "2 hours ago", false),
    GeneralNotification(2, "device", "Apple Watch Connected", "1 day ago", true),
    GeneralNotification(3, "device", "iPhone Sync Complete", "2 days ago", true),
    GeneralNotification(4, "security", "Security Update", "3 days ago", true)
  ]

  const AlertNotifications: seq<AlertNotification> := [
    AlertNotification(1, "critical", "Critical Heart Rate Alert", "30 minutes ago", "critical", true),
    AlertNotification(2, "warning", "Low Activity Warning", "1 hour ago", "warning", false),
    AlertNotification(3, "info", "Daily Goal Achieved", "4 hours ago", "info", false)
  ]

  /** How a general notification is drawn: the primary border and the
      unread dot. */
  datatype GeneralView = GeneralView(primaryBorder: bool, unreadDot: bool)

  /** Both marks are shown exactly for an unread notification. */
  function ViewGeneral(n: GeneralNotification): (v: GeneralView)
    ensures v.primaryBorder <==> !n.read
    ensures v.unreadDot <==> !n.read
  {
    GeneralView(!n.read, !n.read)
  }

  /** How a health alert is drawn: the destructive border, icon background
      and icon colour, the severity badge and the Find Emergency Care
      button. */
  datatype AlertView = AlertView(
    destructiveBorder: bool,
    destructiveIconBackground: bool,
    destructiveIcon: bool,
    badge: Variant,
    findCareButton: bool)

  /** The destructive styling follows severity "critical" alone; the button
      follows actionRequired alone. */
  function ViewAlert(a: AlertNotification): (v: AlertView)
    ensures v.destructiveBorder <==> a.severity == "critical"
    ensures v.destructiveIconBackground <==> a.severity == "critical"
    ensures v.destructiveIcon <==> a.severity == "critical"
    ensures v.badge == Destructive <==> a.severity == "critical"
    ensures v.badge == SeverityColor(a.severity)
    ensures v.findCareButton <==> a.actionRequired
  {
    var critical := a.severity == "critical";
    AlertView(critical, critical, critical, SeverityColor(a.severity), a.actionRequired)
  }

  /** Styling and badge of a critical alert always agree. */
  lemma CriticalStylingMatchesBadge(a: AlertNotification)
    ensures ViewAlert(a).destructiveBorder <==> ViewAlert(a).badge == Destructive
  {
  }

  /** How many notifications of a list are unread. */
  function UnreadCount(ns: seq<GeneralNotification>): (n: nat)
    ensures n <= |ns|
    ensures n == 0 <==> forall i :: 0 <= i < |ns| ==> ns[i].read
  {
    if |ns| == 0 then 0
    else (if ns[0].read then 0 else 1) + UnreadCount(ns[1..])
  }

  /** Of the page's general notifications only the first, "Profile
      Updated", is unread. */
  lemma {:induction false} OneUnreadGeneral()
    ensures UnreadCount(GeneralNotifications) == 1
    ensures !GeneralNotifications[0].read
    ensures forall i :: 1 <= i < |GeneralNotifications| ==> GeneralNotifications[i].read
  {
    var ns := GeneralNotifications;
    assert UnreadCount(ns[1..]) == 0;
  }

  /** Of the page's alerts only the critical one offers the Find Emergency
      Care button, and it is the one drawn in the destructive style. */
  lemma AlertButtonsOnCritical()
    ensures forall i :: 0 <= i < |AlertNotifications| ==>
      (ViewAlert(AlertNotifications[i]).findCareButton <==> i == 0)
    ensures forall i :: 0 <= i < |AlertNotifications| ==>
      (ViewAlert(AlertNotifications[i]).destructiveBorder <==> i == 0)
    ensures ViewAlert(AlertNotifications[1]).badge == Secondary
    ensures ViewAlert(AlertNotifications[2]).badge == Default
  {
  }

  /** The page's state: whether the emergency care finder is shown. */
  class NotificationsPage {
    var showEmergencyFinder: bool

    constructor ()
      ensures !showEmergencyFinder
    {
      showEmergencyFinder := false;
    }

    /** The Access Emergency Care Network button opens the finder. */
    method AccessEmergencyCare()
      modifies this
      ensures showEmergencyFinder
    {
      showEmergencyFinder := true;
    }

    /** The Find Emergency Care button, drawn only on an alert that
      requires action, opens the finder too. */
    method FindEmergencyCare(a: AlertNotification)
      requires ViewAlert(a).findCareButton
      modifies this
      ensures showEmergencyFinder
    {
      showEmergencyFinder := true;
    }
  }
}
