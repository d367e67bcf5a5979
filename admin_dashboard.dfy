/** The admin shell: five state cells, the handlers that update them, the
    `switch` that picks the panel shown for the current view, and the avatar
    initials. */
module Admin {
  import opened Common
  import Pickup
  import ZoneManagement

  // ---------------------------------------------------------------------------
  // State and handlers

  /** The five state cells of the shell. Views are free strings: navigation
      passes any nav item's `view` through unchecked. */
  datatype AdminState = AdminState(
    currentAdminView: string,
    zoneToUpdateId: Option<Id>,
    zoneToDeleteId: Option<Id>,
    isMobileSidebarOpen: bool,
    isDesktopSidebarCollapsed: bool)

  /** The state the shell mounts with. */
  function InitialState(): AdminState
  {
    AdminState("adminDashboard", None, None, false, false)
  }

  /** The callbacks that change the state: the named handlers, the inline
      `onBack` lambdas of the forms, the desktop toggle and the mobile sheet's
      open/close notification. */
  datatype Handler =
    | Navigation(view: string)
    | CreateWorker
    | UpdateWorker
    | WorkerSuccess
    | WorkerBack
    | CreateZone
    | UpdateZone(zoneId: Option<Id>)
    | DeleteZone(zoneId: Option<Id>)
    | ZoneSuccess
    | ZoneBack
    | ToggleDesktopSidebar
    | MobileSidebarChange(open: bool)

  /** One handler run as a single atomic update of the cells it sets. */
  function Step(s: AdminState, h: Handler): AdminState
  {
    match h
    case Navigation(view) =>
      s.(currentAdminView := view, isMobileSidebarOpen := false,
         zoneToUpdateId := None, zoneToDeleteId := None)
    case CreateWorker => s.(currentAdminView := "createWorker")
    case UpdateWorker => s.(currentAdminView := "updateWorker")
    case WorkerSuccess => s.(currentAdminView := "workerManagement")
    case WorkerBack => s.(currentAdminView := "workerManagement")
    case CreateZone => s.(currentAdminView := "createZone")
    case UpdateZone(id) => s.(zoneToUpdateId := id, currentAdminView := "updateZone")
    case DeleteZone(id) => s.(zoneToDeleteId := id, currentAdminView := "deleteZone")
    case ZoneSuccess => s.(currentAdminView := "zoneManagement")
    case ZoneBack => s.(currentAdminView := "zoneManagement")
    case ToggleDesktopSidebar => s.(isDesktopSidebarCollapsed := !s.isDesktopSidebarCollapsed)
    case MobileSidebarChange(open) => s.(isMobileSidebarOpen := open)
  }

  /** A sequence of handlers run one after the other. */
  function Run(s: AdminState, hs: seq<Handler>): AdminState
  {
    if hs == [] then s else Step(Run(s, hs[..|hs| - 1]), hs[|hs| - 1])
  }

  // ---------------------------------------------------------------------------
  // Dispatch

  /** The panel the `switch` renders. */
  datatype Panel =
    | WorkerManagementPanel
    | CreateWorkerPanel
    | UpdateWorkerPanel
    | ZoneManagementPanel
    | CreateZonePanel
    | UpdateZonePanel(initialZoneId: Option<Id>)
    | DeleteZonePanel(initialZoneId: Option<Id>)
    | WelcomePanel

  /** The seven views that have a case of their own; every other view, including
      "adminDashboard", reaches the default welcome content. */
  const PanelViews: set<string> :=
    {"workerManagement", "createWorker", "updateWorker", "zoneManagement",
     "createZone", "updateZone", "deleteZone"}

  /** `switch (currentAdminView)`, with the ids handed to the update and delete forms. */
  function Dispatch(view: string, updateId: Option<Id>, deleteId: Option<Id>): (p: Panel)
    ensures p.WelcomePanel? <==> view !in PanelViews
    ensures p.UpdateZonePanel? ==> p.initialZoneId == updateId
    ensures p.DeleteZonePanel? ==> p.initialZoneId == deleteId
  {
    if view == "workerManagement" then WorkerManagementPanel
    else if view == "createWorker" then CreateWorkerPanel
    else if view == "updateWorker" then UpdateWorkerPanel
    else if view == "zoneManagement" then ZoneManagementPanel
    else if view == "createZone" then CreateZonePanel
    else if view == "updateZone" then UpdateZonePanel(updateId)
    else if view == "deleteZone" then DeleteZonePanel(deleteId)
    else WelcomePanel
  }

  /** The case label that selects a panel. */
  function ViewOf(p: Panel): string
  {
    match p
    case WorkerManagementPanel => "workerManagement"
    case CreateWorkerPanel => "createWorker"
    case UpdateWorkerPanel => "updateWorker"
    case ZoneManagementPanel => "zoneManagement"
    case CreateZonePanel => "createZone"
    case UpdateZonePanel(_) => "updateZone"
    case DeleteZonePanel(_) => "deleteZone"
    case WelcomePanel => "adminDashboard"
  }

  /** Every case label selects its own panel and every panel is selected by its own label. */
  lemma DispatchRoundTrip(view: string, updateId: Option<Id>, deleteId: Option<Id>, p: Panel)
    ensures view in PanelViews ==> ViewOf(Dispatch(view, updateId, deleteId)) == view
    ensures (p.UpdateZonePanel? ==> p.initialZoneId == updateId)
         && (p.DeleteZonePanel? ==> p.initialZoneId == deleteId)
        ==> Dispatch(ViewOf(p), updateId, deleteId) == p
  {
  }

  /** What the main area shows for a state. */
  function Content(s: AdminState): Panel
  {
    Dispatch(s.currentAdminView, s.zoneToUpdateId, s.zoneToDeleteId)
  }

  /** The shell mounts on the welcome content with no zone selected and both sidebars in
      their default position. */
  lemma InitialContent()
    ensures Content(InitialState()) == WelcomePanel
    ensures InitialState().zoneToUpdateId.None? && InitialState().zoneToDeleteId.None?
    ensures !InitialState().isMobileSidebarOpen && !InitialState().isDesktopSidebarCollapsed
  {
  }

  /** A navigation entry of both sidebars. */
  datatype NavItem = NavItem(name: string, view: string)

  /** The `navItems` list both sidebars render, in order. */
  function NavItems(): seq<NavItem>
  {
    [
      NavItem("Dashboard", "adminDashboard"),
      NavItem("Worker", "workerManagement"),
      NavItem("Zone", "zoneManagement"),
      NavItem("Route", "routeManagement"),
      NavItem("Vehicle", "vehicleManagement"),
      NavItem("Assignment", "assignmentManagement")
    ]
  }

  /** Only the Worker and Zone entries open a panel of their own; Dashboard, Route,
      Vehicle and Assignment all show the default welcome content. */
  lemma NavigationTargets(s: AdminState)
    ensures forall i :: 0 <= i < |NavItems()| ==>
      (Content(Step(s, Navigation(NavItems()[i].view))) == WelcomePanel
       <==> NavItems()[i].name in {"Dashboard", "Route", "Vehicle", "Assignment"})
    ensures Content(Step(s, Navigation(NavItems()[1].view))) == WorkerManagementPanel
    ensures Content(Step(s, Navigation(NavItems()[2].view))) == ZoneManagementPanel
  {
  }

  /** The update and delete forms receive exactly the zone id the shell holds. */
  lemma FormsReceiveHeldIds(s: AdminState)
    ensures Content(s).UpdateZonePanel? ==> Content(s).initialZoneId == s.zoneToUpdateId
    ensures Content(s).DeleteZonePanel? ==> Content(s).initialZoneId == s.zoneToDeleteId
  {
  }

  // ---------------------------------------------------------------------------
  // Properties of the handlers

  /** Only the desktop toggle writes the collapse flag, and it flips it. */
  lemma CollapseFlagWriters(s: AdminState, h: Handler)
    ensures Step(s, h).isDesktopSidebarCollapsed
         == (s.isDesktopSidebarCollapsed != h.ToggleDesktopSidebar?)
  {
  }

  /** Toggling the desktop sidebar twice restores the whole state. */
  lemma ToggleTwice(s: AdminState)
    ensures Step(Step(s, ToggleDesktopSidebar), ToggleDesktopSidebar) == s
  {
  }

  /** After any run of handlers the sidebar is collapsed exactly when it started
      collapsed xor the toggle was pressed an odd number of times. */
  lemma {:induction false} CollapseAfterRun(s: AdminState, hs: seq<Handler>)
    ensures Run(s, hs).isDesktopSidebarCollapsed
         == (s.isDesktopSidebarCollapsed != (Count(hs, (h: Handler) => h.ToggleDesktopSidebar?) % 2 == 1))
  {
    if hs != [] {
      CollapseAfterRun(s, hs[..|hs| - 1]);
      CollapseFlagWriters(Run(s, hs[..|hs| - 1]), hs[|hs| - 1]);
    }
  }

  /** Success handlers, `onBack` lambdas and the create/update-worker handlers change
      only the view: a zone id set earlier stays in place. */
  lemma ViewOnlyHandlers(s: AdminState, h: Handler)
    requires h in {CreateWorker, UpdateWorker, WorkerSuccess, WorkerBack, CreateZone, ZoneSuccess, ZoneBack}
    ensures Step(s, h) == s.(currentAdminView := Step(s, h).currentAdminView)
    ensures h in {WorkerSuccess, WorkerBack} ==> Step(s, h).currentAdminView == "workerManagement"
    ensures h in {ZoneSuccess, ZoneBack} ==> Step(s, h).currentAdminView == "zoneManagement"
  {
  }

  /** A zone id chosen for update (or delete) survives every handler except navigation
      and a new choice of the same kind. */
  lemma {:induction false} IdsSurviveUntilNavigation(s: AdminState, hs: seq<Handler>)
    requires forall i :: 0 <= i < |hs| ==> !hs[i].Navigation?
    ensures (forall i :: 0 <= i < |hs| ==> !hs[i].UpdateZone?)
        ==> Run(s, hs).zoneToUpdateId == s.zoneToUpdateId
    ensures (forall i :: 0 <= i < |hs| ==> !hs[i].DeleteZone?)
        ==> Run(s, hs).zoneToDeleteId == s.zoneToDeleteId
  {
    if hs != [] {
      IdsSurviveUntilNavigation(s, hs[..|hs| - 1]);
    }
  }

  /** Once navigation has run, no zone id is held until an update or delete button sets one. */
  lemma {:induction false} NavigationClearsIds(s: AdminState, view: string, hs: seq<Handler>)
    requires forall i :: 0 <= i < |hs| ==> !hs[i].Navigation? && !hs[i].UpdateZone? && !hs[i].DeleteZone?
    ensures Run(s, [Navigation(view)] + hs).zoneToUpdateId.None?
    ensures Run(s, [Navigation(view)] + hs).zoneToDeleteId.None?
  {
    if hs == [] {
      assert Run(s, [Navigation(view)]) == Step(Run(s, []), Navigation(view));
    } else {
      var hs' := hs[..|hs| - 1];
      assert ([Navigation(view)] + hs)[..|hs|] == [Navigation(view)] + hs';
      NavigationClearsIds(s, view, hs');
    }
  }

  // ---------------------------------------------------------------------------
  // Zone panel buttons

  /** How the shell wires the zone panel's callbacks to its handlers. */
  function ZoneHandler(req: ZoneManagement.ZoneRequest): Handler
  {
    match req
    case CreateZoneRequested => CreateZone
    case UpdateZoneRequested(id) => UpdateZone(id)
    case DeleteZoneRequested(id) => DeleteZone(id)
  }

  /** A row's edit or delete button opens the matching form on that row's zone. */
  lemma RowButtonsOpenFormOnZone(s: AdminState, zone: Pickup.Zone)
    ensures Content(Step(s, ZoneHandler(ZoneManagement.RowButtons(zone)[0])))
         == UpdateZonePanel(Some(zone.id))
    ensures Content(Step(s, ZoneHandler(ZoneManagement.RowButtons(zone)[1])))
         == DeleteZonePanel(Some(zone.id))
  {
  }

  /** The general buttons open the create form and the update and delete forms with no zone chosen. */
  lemma GeneralButtonsOpenBlankForms(s: AdminState)
    ensures Content(Step(s, ZoneHandler(ZoneManagement.ActionButtons()[0]))) == CreateZonePanel
    ensures Content(Step(s, ZoneHandler(ZoneManagement.ActionButtons()[1]))) == UpdateZonePanel(None)
    ensures Content(Step(s, ZoneHandler(ZoneManagement.ActionButtons()[2]))) == DeleteZonePanel(None)
  {
  }

  // ---------------------------------------------------------------------------
  // Avatar initials: user?.name?.split(' ').map(n => n[0]).join('') || 'U'

  /** `s.split(' ')`: the pieces between single spaces, empty pieces included. */
  function SplitOnSpace(s: string): (parts: seq<string>)
    ensures |parts| >= 1
    ensures forall i :: 0 <= i < |parts| ==> ' ' !in parts[i]
  {
    if s == [] then [[]]
    else
      var rest := SplitOnSpace(s[1..]);
      if s[0] == ' ' then [[]] + rest
      else [[s[0]] + rest[0]] + rest[1..]
  }

  /** `parts.join(' ')`. */
  function JoinWithSpace(parts: seq<string>): string
    requires |parts| >= 1
  {
    if |parts| == 1 then parts[0] else parts[0] + " " + JoinWithSpace(parts[1..])
  }

  /** Splitting on spaces loses nothing: joining the pieces back gives the name. */
  lemma {:induction false} SplitJoin(s: string)
    ensures JoinWithSpace(SplitOnSpace(s)) == s
  {
    if s != [] {
      var rest := SplitOnSpace(s[1..]);
      SplitJoin(s[1..]);
      if s[0] == ' ' {
        assert ([[]] + rest)[1..] == rest;
      } else {
        var parts := SplitOnSpace(s);
        assert parts[1..] == rest[1..];
        assert s == [s[0]] + s[1..];
      }
    }
  }

  /** `.map(n => n[0]).join('')`: the first character of each piece; an empty
      piece gives `undefined`, which `join` writes as nothing. */
  function FirstChars(parts: seq<string>): string
  {
    if parts == [] then []
    else (if parts[0] == [] then [] else [parts[0][0]]) + FirstChars(parts[1..])
  }

  /** Independent reading of the same thing: every non-space character that starts
      the string (`atStart`) or follows a space. */
  function WordStarts(s: string, atStart: bool): (r: string)
    ensures ' ' !in r
    ensures |r| <= |s|
  {
    if s == [] then []
    else (if atStart && s[0] != ' ' then [s[0]] else []) + WordStarts(s[1..], s[0] == ' ')
  }

  /** The split/map/join pipeline picks exactly the characters that start words. */
  lemma {:induction false} FirstCharsAreWordStarts(s: string)
    ensures FirstChars(SplitOnSpace(s)) == WordStarts(s, true)
    ensures FirstChars(SplitOnSpace(s)[1..]) == WordStarts(s, false)
  {
    if s != [] {
      var rest := SplitOnSpace(s[1..]);
      FirstCharsAreWordStarts(s[1..]);
      if s[0] == ' ' {
        assert ([[]] + rest)[1..] == rest;
      } else {
        var parts := SplitOnSpace(s);
        assert parts[1..] == rest[1..];
      }
    }
  }

  /** Scanning from a word start finds nothing exactly when the string is all spaces. */
  lemma {:induction false} NoWordStarts(s: string)
    ensures WordStarts(s, true) == [] <==> forall i :: 0 <= i < |s| ==> s[i] == ' '
  {
    if s != [] {
      NoWordStarts(s[1..]);
      assert forall i :: 1 <= i < |s| ==> s[i] == s[1..][i - 1];
    }
  }

  /** The avatar text for the signed-in user's name, if any. */
  function Initials(name: Option<string>): (r: string)
    ensures r != [] && ' ' !in r
    ensures name.None? ==> r == "U"
    ensures name.Some? && (forall i :: 0 <= i < |name.value| ==> name.value[i] == ' ') ==> r == "U"
    ensures name.Some? && (exists i :: 0 <= i < |name.value| && name.value[i] != ' ')
        ==> r == WordStarts(name.value, true)
  {
    match name
    case None => "U"
    case Some(n) =>
      FirstCharsAreWordStarts(n);
      NoWordStarts(n);
      var joined := FirstChars(SplitOnSpace(n));
      if joined == [] then "U" else joined
  }

  // ---------------------------------------------------------------------------
  // The shell's state cells

  class AdminDashboard {
    var isMobileSidebarOpen: bool
    var isDesktopSidebarCollapsed: bool
    var currentAdminView: string
    var zoneToUpdateId: Option<Id>
    var zoneToDeleteId: Option<Id>

    /** The cells as one value. */
    function State(): AdminState
      reads this
    {
      AdminState(currentAdminView, zoneToUpdateId, zoneToDeleteId,
                 isMobileSidebarOpen, isDesktopSidebarCollapsed)
    }

    constructor ()
      ensures State() == InitialState()
      ensures currentAdminView == "adminDashboard"
      ensures zoneToUpdateId == None && zoneToDeleteId == None
      ensures !isMobileSidebarOpen && !isDesktopSidebarCollapsed
    {
      isMobileSidebarOpen := false;
      isDesktopSidebarCollapsed := false;
      currentAdminView := "adminDashboard";
      zoneToUpdateId := None;
      zoneToDeleteId := None;
    }

    /** `handleNavigation(module)`. */
    method HandleNavigation(view: string)
      modifies this
      ensures State() == Step(old(State()), Navigation(view))
      ensures currentAdminView == view && !isMobileSidebarOpen
      ensures zoneToUpdateId == None && zoneToDeleteId == None
      ensures isDesktopSidebarCollapsed == old(isDesktopSidebarCollapsed)
    {
      currentAdminView := view;
      isMobileSidebarOpen := false;
      zoneToUpdateId := None;
      zoneToDeleteId := None;
    }

    /** `handleCreateWorker`. */
    method HandleCreateWorker()
      modifies this
      ensures State() == Step(old(State()), CreateWorker)
      ensures State() == old(State()).(currentAdminView := "createWorker")
    {
      currentAdminView := "createWorker";
    }

    /** `handleUpdateWorker`. */
    method HandleUpdateWorker()
      modifies this
      ensures State() == Step(old(State()), UpdateWorker)
      ensures State() == old(State()).(currentAdminView := "updateWorker")
    {
      currentAdminView := "updateWorker";
    }

    /** `handleWorkerSuccess`. */
    method HandleWorkerSuccess()
      modifies this
      ensures State() == Step(old(State()), WorkerSuccess)
      ensures State() == old(State()).(currentAdminView := "workerManagement")
    {
      currentAdminView := "workerManagement";
    }

    /** The `onBack` lambda of the create- and update-worker forms. */
    method BackToWorkers()
      modifies this
      ensures State() == Step(old(State()), WorkerBack)
      ensures State() == old(State()).(currentAdminView := "workerManagement")
    {
      currentAdminView := "workerManagement";
    }

    /** `handleCreateZone`. */
    method HandleCreateZone()
      modifies this
      ensures State() == Step(old(State()), CreateZone)
      ensures State() == old(State()).(currentAdminView := "createZone")
    {
      currentAdminView := "createZone";
    }

    /** `handleUpdateZone(zoneId = null)`. */
    method HandleUpdateZone(zoneId: Option<Id>)
      modifies this
      ensures State() == Step(old(State()), UpdateZone(zoneId))
      ensures State() == old(State()).(zoneToUpdateId := zoneId, currentAdminView := "updateZone")
    {
      zoneToUpdateId := zoneId;
      currentAdminView := "updateZone";
    }

    /** `handleDeleteZone(zoneId = null)`. */
    method HandleDeleteZone(zoneId: Option<Id>)
      modifies this
      ensures State() == Step(old(State()), DeleteZone(zoneId))
      ensures State() == old(State()).(zoneToDeleteId := zoneId, currentAdminView := "deleteZone")
    {
      zoneToDeleteId := zoneId;
      currentAdminView := "deleteZone";
    }

    /** `handleZoneSuccess`. */
    method HandleZoneSuccess()
      modifies this
      ensures State() == Step(old(State()), ZoneSuccess)
      ensures State() == old(State()).(currentAdminView := "zoneManagement")
    {
      currentAdminView := "zoneManagement";
    }

    /** The `onBack` lambda of the create-, update- and delete-zone forms. */
    method BackToZones()
      modifies this
      ensures State() == Step(old(State()), ZoneBack)
      ensures State() == old(State()).(currentAdminView := "zoneManagement")
    {
      currentAdminView := "zoneManagement";
    }

    /** The desktop menu button. */
    method ToggleDesktopSidebar()
      modifies this
      ensures State() == Step(old(State()), Handler.ToggleDesktopSidebar)
      ensures State() == old(State()).(isDesktopSidebarCollapsed := !old(isDesktopSidebarCollapsed))
    {
      isDesktopSidebarCollapsed := !isDesktopSidebarCollapsed;
    }

    /** `setIsMobileSidebarOpen`, as the mobile sheet calls it when it opens or closes. */
    method SetMobileSidebarOpen(open: bool)
      modifies this
      ensures State() == Step(old(State()), MobileSidebarChange(open))
      ensures State() == old(State()).(isMobileSidebarOpen := open)
    {
      isMobileSidebarOpen := open;
    }
  }
}
