// The application shell (App.tsx): the active-page state, the page it
// renders, and the navigation bar it passes that state to.
module App {
  import opened Types
  import opened Navbar

  /** The page component the shell mounts under the navigation bar. */
  datatype View = HomeView | NewsView | ReportView | ChatView | ResourcesView

  /**
   * renderPage: one component per page. The source's `default` branch also
   * mounts the home page; no Page value reaches it, so the match is total.
   */
  function RenderPage(p: Page): (v: View)
    ensures v == HomeView <==> p == Home
    ensures v == NewsView <==> p == News
    ensures v == ReportView <==> p == Page.Report
    ensures v == ChatView <==> p == Chat
    ensures v == ResourcesView <==> p == Resources
  {
    match p
    case Home => HomeView
    case News => NewsView
    case Report => ReportView
    case Chat => ChatView
    case Resources => ResourcesView
  }

  /** What the shell shows: the navigation bar's buttons and the mounted page. */
  datatype Screen = Screen(buttons: seq<NavButton>, main: View)

  class Shell {
    var activePage: Page

    /** The shell starts on the home page. */
    constructor ()
      ensures activePage == Home
    {
      activePage := Home;
    }

    /**
     * The navigation bar receives the current page, and the main area renders
     * it. The screen is consistent: exactly one button is highlighted, and
     * the highlighted button's page is the one mounted in the main area.
     */
    function Render(): (s: Screen)
      reads this
      ensures s.main == RenderPage(activePage)
      ensures s.buttons == Buttons(activePage)
      ensures CountHighlighted(s.buttons) == 1
      ensures forall i :: 0 <= i < |s.buttons| && s.buttons[i].highlighted ==>
                RenderPage(s.buttons[i].page) == s.main
    {
      ExactlyOneHighlighted(activePage);
      Screen(Buttons(activePage), RenderPage(activePage))
    }

    /** setActivePage, as the navigation bar calls it on a click. */
    method Navigate(click: NavClick)
      modifies this
      ensures activePage == ClickTarget(click)
    {
      activePage := ClickTarget(click);
    }
  }
}
