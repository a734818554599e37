/** The admin's dashboard: the notification feed's colour and icon per notification type,
    and the unread marker. */
module AdminDashboard {
  import opened Common
  import opened Records
  import MockData

  /** The types with their own colour and icon. */
  const KnownKinds: set<string> := {"success", "warning", "error"}

  /** `getNotificationColor`: three types have their own colour, all others are info. */
  function NotificationColor(kind: string): (c: Color)
    ensures kind == "success" <==> c == Success
    ensures kind == "warning" <==> c == Warning
    ensures kind == "error" <==> c == Error
    ensures c == Info <==> kind !in KnownKinds
  {
    match kind
    case "success" => Success
    case "warning" => Warning
    case "error" => Error
    case _ => Info
  }

  /** `getNotificationIcon`. */
  function NotificationIcon(kind: string): (icon: string)
    ensures kind == "success" <==> icon == "checkmark-circle"
    ensures kind == "warning" <==> icon == "warning"
    ensures kind == "error" <==> icon == "close-circle"
    ensures icon == "information-circle" <==> kind !in KnownKinds
  {
    match kind
    case "success" => "checkmark-circle"
    case "warning" => "warning"
    case "error" => "close-circle"
    case _ => "information-circle"
  }

  /** The colour and the icon fall back on their defaults for exactly the same types, and
      distinct types get distinct icons unless both fall back. */
  lemma DefaultsCoincide(k1: string, k2: string)
    ensures NotificationColor(k1) == Info <==> NotificationIcon(k1) == "information-circle"
    ensures NotificationIcon(k1) == NotificationIcon(k2) <==> k1 == k2 || (k1 !in KnownKinds && k2 !in KnownKinds)
    ensures NotificationColor(k1) == NotificationColor(k2) <==> NotificationIcon(k1) == NotificationIcon(k2)
  {
  }

  /** The unread marker is shown for unread notifications only. */
  function UnreadDotShown(n: Notification): (shown: bool)
    ensures shown <==> !n.read
  {
    !n.read
  }

  /** The shipped feed: an unread success notice and a read 'info' one, drawn with the default
      colour and icon. */
  lemma ShippedFeed()
    ensures UnreadDotShown(MockData.Notifications[0]) && !UnreadDotShown(MockData.Notifications[1])
    ensures NotificationColor(MockData.Notifications[0].kind) == Success
    ensures NotificationColor(MockData.Notifications[1].kind) == Info
    ensures NotificationIcon(MockData.Notifications[1].kind) == "information-circle"
  {
  }
}
