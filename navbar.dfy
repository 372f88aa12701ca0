// The navigation bar (components/Navbar.tsx): one button per navigation link,
// the highlight of the active page, and the page each click selects.
module Navbar {
  import opened Types
  import opened Constants

  /** A rendered link button: the page it selects, its caption and whether it is highlighted. */
  datatype NavButton = NavButton(page: Page, text: string, highlighted: bool)

  /** What the user can click: the logo, or one of the rendered buttons. */
  datatype NavClick = LogoClicked | ButtonClicked(button: NavButton)

  /** NAV_LINKS.map(...): one button per link, in link order, highlighted when its page is active. */
  function ButtonsFor(links: seq<NavLink>, activePage: Page): (bs: seq<NavButton>)
    ensures |bs| == |links|
    ensures forall i :: 0 <= i < |bs| ==>
              bs[i].page == links[i].name && bs[i].text == PageName(links[i].name)
    ensures forall i :: 0 <= i < |bs| ==> (bs[i].highlighted <==> links[i].name == activePage)
  {
    if links == [] then []
    else
      var name := links[0].name;
      [NavButton(name, PageName(name), activePage == name)] + ButtonsFor(links[1..], activePage)
  }

  /** The buttons the bar shows for the given active page. */
  function Buttons(activePage: Page): (bs: seq<NavButton>)
    ensures |bs| == |AllPages|
    ensures forall i :: 0 <= i < |bs| ==> bs[i].page == AllPages[i] && bs[i].text == PageName(AllPages[i])
    ensures forall i :: 0 <= i < |bs| ==> (bs[i].highlighted <==> AllPages[i] == activePage)
  {
    NavLinksOrder();
    ButtonsFor(NavLinks, activePage)
  }

  /** The page a click asks the shell to show: Home for the logo, the button's own page otherwise. */
  function ClickTarget(click: NavClick): (p: Page)
    ensures click.LogoClicked? ==> p == Home
    ensures click.ButtonClicked? ==> p == click.button.page
  {
    match click
    case LogoClicked => Home
    case ButtonClicked(b) => b.page
  }

  function CountHighlighted(bs: seq<NavButton>): nat
  {
    if bs == [] then 0
    else (if bs[0].highlighted then 1 else 0) + CountHighlighted(bs[1..])
  }

  predicate DistinctNames(links: seq<NavLink>)
  {
    forall i, j :: 0 <= i < j < |links| ==> links[i].name != links[j].name
  }

  /** Distinct names stay distinct in the tail, and the head's name does not occur there. */
  lemma DistinctTail(links: seq<NavLink>)
    requires links != [] && DistinctNames(links)
    ensures DistinctNames(links[1..])
    ensures links[0].name !in NavNames(links[1..])
  {
  }

  /** With distinct names, exactly one button is highlighted when the active page has a link, none otherwise. */
  lemma {:induction false} HighlightCount(links: seq<NavLink>, activePage: Page)
    requires DistinctNames(links)
    ensures CountHighlighted(ButtonsFor(links, activePage))
         == if activePage in NavNames(links) then 1 else 0
  {
    if links != [] {
      var bs := ButtonsFor(links, activePage);
      assert bs[1..] == ButtonsFor(links[1..], activePage);
      DistinctTail(links);
      HighlightCount(links[1..], activePage);
      assert NavNames(links) == [links[0].name] + NavNames(links[1..]);
    }
  }

  /** Whatever page is active, the bar highlights exactly one button. */
  lemma ExactlyOneHighlighted(activePage: Page)
    ensures CountHighlighted(Buttons(activePage)) == 1
  {
    NavLinksDistinctAndComplete();
    HighlightCount(NavLinks, activePage);
  }

  /** Clicking button i makes button i, and no other, the highlighted one. */
  lemma ClickHighlightsClicked(activePage: Page, i: nat)
    requires i < |NavLinks|
    ensures var after := Buttons(ClickTarget(ButtonClicked(Buttons(activePage)[i])));
            after[i].highlighted && forall j :: 0 <= j < |after| && j != i ==> !after[j].highlighted
  {
    NavLinksDistinctAndComplete();
  }

  /** Clicking the logo highlights the Home button, which is the first one. */
  lemma LogoHighlightsHome(activePage: Page)
    ensures var after := Buttons(ClickTarget(LogoClicked));
            after[0].page == Home && after[0].highlighted
            && forall j :: 0 < j < |after| ==> !after[j].highlighted
  {
    NavLinksDistinctAndComplete();
  }
}
