/**
 * src/components/pages/Settings.jsx: the integrations list, whose status a
 * user connects, disconnects or syncs (sync completes in a second, delayed
 * step), and the notification preferences, each a flag the user flips.
 */
module Settings {
  import opened Results
  import Tables

  /** An integration; `type` is `kind` here, and `lastSync` is in milliseconds or absent (`null`). */
  datatype Integration = Integration(Id: int, name: string, kind: string, status: string,
                                     lastSync: Option<int>, icon: string)

  function IntegrationKey(i: Integration): int { i.Id }

  datatype Notifications = Notifications(email: bool, slack: bool, weekly: bool, alerts: bool)

  datatype Preferences = Preferences(attributionWindow: int, defaultModel: string, timezone: string,
                                     currency: string, notifications: Notifications)

  const INITIAL_INTEGRATIONS := [
    Integration(1, "Google Ads", "advertising", "connected", Some(1705314600000), "Search"),
    Integration(2, "Facebook Ads", "advertising", "connected", Some(1705314300000), "Users"),
    Integration(3, "Google Analytics", "analytics", "connected", Some(1705314000000), "BarChart"),
    Integration(4, "Shopify", "ecommerce", "disconnected", None, "ShoppingCart"),
    Integration(5, "LinkedIn Ads", "advertising", "error", Some(1705244400000), "Briefcase")
  ]

  const INITIAL_PREFERENCES := Preferences(30, "last-touch", "UTC", "USD", Notifications(true, false, true, true))

  /** `getStatusBadge`: the badge variant for a status. */
  function StatusBadge(status: string): (variant: string)
    ensures variant == "success" <==> status == "connected"
    ensures variant == "danger" <==> status == "error"
    ensures variant == "warning" <==> status == "syncing"
    ensures variant == "default" <==> status != "connected" && status != "error" && status != "syncing"
  {
    if status == "connected" then "success"
    else if status == "disconnected" then "default"
    else if status == "error" then "danger"
    else if status == "syncing" then "warning"
    else "default"
  }

  datatype Action = Sync | Disconnect | Connect

  /** The buttons on an integration's card. */
  function OfferedActions(status: string): (actions: seq<Action>)
    ensures Connect in actions <==> status != "connected"
    ensures Sync in actions <==> status == "connected"
    ensures Disconnect in actions <==> status == "connected"
  {
    if status == "connected" then [Sync, Disconnect] else [Connect]
  }

  function Connected(i: Integration, now: int): Integration {
    i.(status := "connected", lastSync := Some(now))
  }

  function Disconnected(i: Integration): Integration {
    i.(status := "disconnected", lastSync := None)
  }

  function SyncStarted(i: Integration, now: int): Integration {
    i.(status := "syncing", lastSync := Some(now))
  }

  function SyncCompleted(i: Integration): Integration {
    i.(status := "connected")
  }

  /**
   * Connecting offers Sync and Disconnect, disconnecting offers Connect;
   * a sync in progress offers Connect and shows a warning badge; a completed
   * sync is a connection made at the moment the sync started.
   */
  lemma StatusFlips(i: Integration, now: int)
    ensures OfferedActions(Connected(i, now).status) == [Sync, Disconnect]
    ensures OfferedActions(Disconnected(i).status) == [Connect] && Disconnected(i).lastSync.None?
    ensures StatusBadge(SyncStarted(i, now).status) == "warning"
    ensures OfferedActions(SyncStarted(i, now).status) == [Connect]
    ensures SyncCompleted(SyncStarted(i, now)) == Connected(i, now)
    ensures StatusBadge(SyncCompleted(SyncStarted(i, now)).status) == "success"
  {
  }

  /** Both steps of a sync, with nothing in between, connect the integration as of the first step. */
  lemma SyncTwoSteps(integrations: seq<Integration>, id: int, now: int)
    ensures Tables.UpdateWhere(Tables.UpdateWhere(integrations, IntegrationKey, id, (i: Integration) => SyncStarted(i, now)),
                               IntegrationKey, id, SyncCompleted)
         == Tables.UpdateWhere(integrations, IntegrationKey, id, (i: Integration) => Connected(i, now))
  {
    var started := Tables.UpdateWhere(integrations, IntegrationKey, id, (i: Integration) => SyncStarted(i, now));
    forall k | 0 <= k < |integrations| ensures started[k].Id == integrations[k].Id {
    }
  }

  datatype Flag = Email | Slack | Weekly | Alerts

  function FlagOf(n: Notifications, flag: Flag): bool {
    match flag
    case Email => n.email
    case Slack => n.slack
    case Weekly => n.weekly
    case Alerts => n.alerts
  }

  /** A switch on the notifications tab: `{ ...settings.notifications, flag: !flag }`. */
  function ToggleFlag(n: Notifications, flag: Flag): (m: Notifications)
    ensures FlagOf(m, flag) == !FlagOf(n, flag)
    ensures forall g :: g != flag ==> FlagOf(m, g) == FlagOf(n, g)
  {
    match flag
    case Email => n.(email := !n.email)
    case Slack => n.(slack := !n.slack)
    case Weekly => n.(weekly := !n.weekly)
    case Alerts => n.(alerts := !n.alerts)
  }

  /** Flipping a switch twice restores the preferences. */
  lemma ToggleFlagTwice(n: Notifications, flag: Flag)
    ensures ToggleFlag(ToggleFlag(n, flag), flag) == n
  {
  }

  class SettingsPage {
    var integrations: seq<Integration>
    var settings: Preferences

    constructor()
      ensures integrations == INITIAL_INTEGRATIONS && settings == INITIAL_PREFERENCES
    {
      integrations := INITIAL_INTEGRATIONS;
      settings := INITIAL_PREFERENCES;
    }

    /** `handleConnect`: the integrations with the id are connected as of `now`. */
    method HandleConnect(integrationId: int, now: int)
      modifies this
      ensures integrations == Tables.UpdateWhere(old(integrations), IntegrationKey, integrationId,
                                                  (i: Integration) => Connected(i, now))
      ensures settings == old(settings)
    {
      integrations := Tables.UpdateWhere(integrations, IntegrationKey, integrationId, (i: Integration) => Connected(i, now));
    }

    /** `handleDisconnect`: the integrations with the id are disconnected, their last sync cleared. */
    method HandleDisconnect(integrationId: int)
      modifies this
      ensures integrations == Tables.UpdateWhere(old(integrations), IntegrationKey, integrationId, Disconnected)
      ensures settings == old(settings)
    {
      integrations := Tables.UpdateWhere(integrations, IntegrationKey, integrationId, Disconnected);
    }

    /** The first step of `handleSync`: the integrations with the id are syncing as of `now`. */
    method HandleSync(integrationId: int, now: int)
      modifies this
      ensures integrations == Tables.UpdateWhere(old(integrations), IntegrationKey, integrationId,
                                                  (i: Integration) => SyncStarted(i, now))
      ensures settings == old(settings)
    {
      integrations := Tables.UpdateWhere(integrations, IntegrationKey, integrationId, (i: Integration) => SyncStarted(i, now));
    }

    /**
     * The delayed second step of `handleSync`, applied to the list as it is
     * then: the integrations with the id are connected, their last sync kept.
     */
    method CompleteSync(integrationId: int)
      modifies this
      ensures integrations == Tables.UpdateWhere(old(integrations), IntegrationKey, integrationId, SyncCompleted)
      ensures settings == old(settings)
    {
      integrations := Tables.UpdateWhere(integrations, IntegrationKey, integrationId, SyncCompleted);
    }

    /** A notification switch: only that flag changes. */
    method ToggleNotification(flag: Flag)
      modifies this
      ensures settings == old(settings).(notifications := ToggleFlag(old(settings).notifications, flag))
      ensures integrations == old(integrations)
    {
      settings := settings.(notifications := ToggleFlag(settings.notifications, flag));
    }
  }
}
