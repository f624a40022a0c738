/** The application shell: hash-based routing between the three views,
    the mobile sidebar, and the choice of the page to render. */
module Root {
  import opened Js
  import opened Types

  /** The hash-change handler's decision: drop the first `#` (wherever it
      is), then match case-sensitively; anything unrecognised, including
      the empty string, selects the dashboard. */
  function ParseHash(hash: string): (v: AppView)
    ensures v == Audit <==> RemoveFirst(hash, '#') == "audit"
    ensures v == Chat <==> RemoveFirst(hash, '#') == "chat"
  {
    var route := RemoveFirst(hash, '#');
    if route == "audit" then Audit
    else if route == "chat" then Chat
    else Dashboard
  }

  /** A character that the `hash` setter keeps as it is: printable ASCII
      outside the fragment percent-encode set of the URL standard. */
  predicate KeptInFragment(c: char) {
    '!' <= c <= '~' && c != '"' && c != '<' && c != '>' && c != '`'
  }

  /** A fragment that the `hash` setter stores without encoding. */
  predicate IsKeptFragment(s: string) {
    forall i :: 0 <= i < |s| ==> KeptInFragment(s[i])
  }

  /** What `window.location.hash` reports: empty, or `#` followed by the
      fragment. */
  predicate IsReportedHash(h: string) {
    h == [] || h[0] == '#'
  }

  /** What `window.location.hash` reads after `window.location.hash = s`:
      one leading `#` of `s` is dropped, and a non-empty fragment is
      reported behind a `#`; an empty fragment reads as empty. */
  function HashAfterAssigning(s: string): (h: string)
    requires IsKeptFragment(s)
    ensures IsReportedHash(h)
    ensures var fragment := if s != [] && s[0] == '#' then s[1..] else s;
      (fragment == [] ==> h == []) && (fragment != [] ==> h == "#" + fragment)
  {
    var fragment := if s != [] && s[0] == '#' then s[1..] else s;
    if fragment == [] then [] else "#" + fragment
  }

  /** The fragment that `navigate` writes: the view's name in lower case. */
  function RouteOf(v: AppView): string {
    ToLower(ViewName(v))
  }

  /** The three routes spelled out. */
  lemma RouteNames()
    ensures RouteOf(Dashboard) == "dashboard"
    ensures RouteOf(Audit) == "audit"
    ensures RouteOf(Chat) == "chat"
  {
    var d, a, c := RouteOf(Dashboard), RouteOf(Audit), RouteOf(Chat);
    assert forall i :: 0 <= i < |d| ==> d[i] == "dashboard"[i];
    assert forall i :: 0 <= i < |a| ==> a[i] == "audit"[i];
    assert forall i :: 0 <= i < |c| ==> c[i] == "chat"[i];
  }

  /** A leading `#` is the one that `replace` removes. */
  lemma RemoveLeadingHash(route: string)
    ensures RemoveFirst("#" + route, '#') == route
  {
    assert ("#" + route)[1..] == route;
  }

  /** Every route is made of characters the `hash` setter keeps. */
  lemma RoutesKeptInFragment(v: AppView)
    ensures IsKeptFragment(RouteOf(v))
  {
    var name := ViewName(v);
    forall i | 0 <= i < |RouteOf(v)|
      ensures KeptInFragment(RouteOf(v)[i])
    {
      assert RouteOf(v)[i] == LowerChar(name[i]);
    }
  }

  /** Parsing the hash written by `navigate(v)` gives back `v`. */
  lemma NavigateRoundTrip(v: AppView)
    requires IsKeptFragment(RouteOf(v))
    ensures ParseHash(HashAfterAssigning(RouteOf(v))) == v
  {
    RouteNames();
    RemoveLeadingHash(RouteOf(v));
  }

  /** Only the first `#` is removed and matching is case-sensitive. */
  lemma ParseHashExamples()
    ensures ParseHash("") == Dashboard
    ensures ParseHash("#dashboard") == Dashboard
    ensures ParseHash("#AUDIT") == Dashboard
    ensures ParseHash("##audit") == Dashboard
    ensures ParseHash("#audit") == Audit
    ensures ParseHash("#chat") == Chat
  {
    RemoveLeadingHash("dashboard");
    RemoveLeadingHash("AUDIT");
    assert "AUDIT"[0] != "audit"[0];
    RemoveLeadingHash("#audit");
    assert "#audit"[0] != "audit"[0];
    RemoveLeadingHash("audit");
    RemoveLeadingHash("chat");
  }

  /** On a hash as the browser reports it, the `#` that `replace` removes
      is the leading one: the audit view is chosen for `#audit` alone and
      the chat view for `#chat` alone. */
  lemma ParseReportedHash(h: string)
    requires IsReportedHash(h)
    ensures ParseHash(h) == Audit <==> h == "#audit"
    ensures ParseHash(h) == Chat <==> h == "#chat"
  {
    if h != [] {
      assert h == "#" + h[1..];
      RemoveLeadingHash(h[1..]);
    }
  }

  /** A second `#` stays in the route, which then matches nothing. */
  lemma ParseHashInnerHash()
    ensures ParseHash("#au#dit") == Dashboard
  {
    RemoveLeadingHash("au#dit");
    assert |"au#dit"| != |"audit"|;
  }

  datatype Page = DashboardPage | AuditPage | ChatPage

  /** The three conditional elements of the main area, in order. */
  function RenderedPages(current: AppView): (pages: seq<Page>)
    ensures |pages| == 1
    ensures pages[0] == DashboardPage <==> current == Dashboard
    ensures pages[0] == AuditPage <==> current == Audit
    ensures pages[0] == ChatPage <==> current == Chat
  {
    (if current == Dashboard then [DashboardPage] else [])
    + (if current == Audit then [AuditPage] else [])
    + (if current == Chat then [ChatPage] else [])
  }

  class App {
    var currentView: AppView
    var isSidebarOpen: bool
    /** `window.location.hash` as the browser reports it. */
    var locationHash: string

    /** The hash has the form the browser reports. */
    predicate Valid()
      reads this
    {
      IsReportedHash(locationHash)
    }

    /** The hash and the view agree, as they do once the mount effect has
        run. */
    predicate InSync()
      reads this
    {
      ParseHash(locationHash) == currentView
    }

    /** First render: the dashboard, with the sidebar closed. */
    constructor (initialHash: string)
      requires IsReportedHash(initialHash)
      ensures Valid()
      ensures currentView == Dashboard && !isSidebarOpen
      ensures locationHash == initialHash
    {
      currentView := Dashboard;
      isSidebarOpen := false;
      locationHash := initialHash;
    }

    /** `handleHashChange`: run once by the mount effect and again on every
        `hashchange` event. */
    method HandleHashChange()
      requires Valid()
      modifies this`currentView
      ensures Valid()
      ensures currentView == ParseHash(locationHash)
      ensures InSync()
    {
      currentView := ParseHash(locationHash);
    }

    /** The browser changes the fragment and dispatches `hashchange`. */
    method HashChanged(newHash: string)
      requires Valid() && IsReportedHash(newHash)
      modifies this`locationHash, this`currentView
      ensures Valid()
      ensures locationHash == newHash && currentView == ParseHash(newHash)
      ensures InSync()
    {
      locationHash := newHash;
      HandleHashChange();
    }

    /** `navigate(view)`: show the view, record it in the hash, close the
        sidebar. The `hashchange` event that follows finds them in sync. */
    method Navigate(view: AppView)
      requires Valid()
      modifies this
      ensures Valid()
      ensures currentView == view && !isSidebarOpen
      ensures locationHash == HashAfterAssigning(RouteOf(view))
      ensures InSync()
    {
      RoutesKeptInFragment(view);
      NavigateRoundTrip(view);
      currentView := view;
      locationHash := HashAfterAssigning(RouteOf(view));
      isSidebarOpen := false;
    }

    /** The menu button in the mobile header. */
    method OpenSidebar()
      modifies this`isSidebarOpen
      ensures isSidebarOpen
    {
      isSidebarOpen := true;
    }

    /** The dimmed overlay and the close button in the sidebar. */
    method CloseSidebar()
      modifies this`isSidebarOpen
      ensures !isSidebarOpen
    {
      isSidebarOpen := false;
    }
  }
}
