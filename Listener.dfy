/** The join and quit event handlers: a join resumes the countdown and
    starts a sidebar, a quit pauses the countdown. */
module Listener {
  import opened Countdown
  import opened Plugin
  import opened Sidebar

  /** onPlayerJoin: resumeTracking, then startSidebar. */
  method OnPlayerJoin(plugin: TimeTaxPlugin, uuid: Uuid, now: int) returns (sidebar: SidebarUpdater)
    requires plugin.Valid() && plugin.clock <= now
    modifies plugin
    ensures plugin.Valid() && plugin.clock == now
    ensures plugin.State() == Resume(old(plugin.State()), uuid, now)
    ensures fresh(sidebar) && sidebar.Valid() && sidebar.uuid == uuid
    ensures sidebar.View() == Panel(Loading, Fetching)
  {
    plugin.ResumeTracking(uuid, now);
    sidebar := new SidebarUpdater(uuid);
  }

  /** onPlayerQuit: pauseTracking; its stopSidebar call is not modelled. */
  method OnPlayerQuit(plugin: TimeTaxPlugin, uuid: Uuid, now: int)
    requires plugin.Valid() && plugin.clock <= now
    modifies plugin
    ensures plugin.Valid() && plugin.clock == now
    ensures plugin.State() == Pause(old(plugin.State()), uuid, now)
  {
    plugin.PauseTracking(uuid, now);
  }
}
