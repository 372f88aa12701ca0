// The two constant tables of the application (constants.ts): the navigation
// links and the resource catalogue.
module Constants {
  import opened Types
  import opened Text

  /** One navigation link; the source gives a link nothing but its page. */
  datatype NavLink = NavLink(name: Page)

  const NavLinks: seq<NavLink> := [
    NavLink(Home),
    NavLink(News),
    NavLink(Page.Report),
    NavLink(Chat),
    NavLink(Resources)
  ]

  /** The FBI's Internet Crime Complaint Center. */
  const Ic3 := Resource(
      "Cybercrime Reporting Portal (USA)",
      "Official US government website for reporting cybercrime incidents to the FBI.",
      "https://www.ic3.gov/",
      Helpline)

  /** The UK National Cyber Security Centre. */
  const Ncsc := Resource(
      "National Cyber Security Centre (UK)",
      "The UK's authority on cyber security. Report incidents and get guidance.",
      "https://www.ncsc.gov.uk/",
      Helpline)

  /** India's national cybercrime reporting portal. */
  const IndiaPortal := Resource(
      "Cyber Crime Reporting Portal (India)",
      "Official Indian government website for reporting all types of cybercrime incidents.",
      "https://cybercrime.gov.in/",
      Helpline)

  /** The OWASP Top Ten awareness document. */
  const OwaspTopTen := Resource(
      "OWASP Top Ten",
      "A standard awareness document for developers and web application security.",
      "https://owasp.org/www-project-top-ten/",
      Guide)

  /** The NIST Cybersecurity Framework. */
  const NistFramework := Resource(
      "NIST Cybersecurity Framework",
      "A set of standards, guidelines, and best practices to manage cybersecurity-related risk.",
      "https://www.nist.gov/cyberframework",
      Guide)

  /** The Have I Been Pwned breach lookup. */
  const HaveIBeenPwned := Resource(
      "Have I Been Pwned?",
      "Check if your email or phone is in a data breach.",
      "https://haveibeenpwned.com/",
      Helpline)

  /** The SANS reading room. */
  const SansReadingRoom := Resource(
      "SANS Institute Reading Room",
      "A large collection of information security research papers and articles.",
      "https://www.sans.org/reading-room/",
      Guide)

  /** RESOURCES_DATA, in table order. */
  const ResourcesData: seq<Resource> := [Ic3, Ncsc, IndiaPortal, OwaspTopTen, NistFramework, HaveIBeenPwned, SansReadingRoom]

  /** The link names, in table order. */
  function NavNames(links: seq<NavLink>): (r: seq<Page>)
    ensures |r| == |links|
    ensures forall i :: 0 <= i < |links| ==> r[i] == links[i].name
  {
    seq(|links|, i requires 0 <= i < |links| => links[i].name)
  }

  /** The navigation links are Home, News, Report, Chat, Resources in that order. */
  lemma NavLinksOrder()
    ensures NavNames(NavLinks) == AllPages
  {
  }

  /** The link names are pairwise distinct and every page has a link. */
  lemma NavLinksDistinctAndComplete()
    ensures forall i, j :: 0 <= i < j < |NavLinks| ==> NavLinks[i].name != NavLinks[j].name
    ensures forall p: Page :: p in NavNames(NavLinks)
  {
    PageHasFiveValues();
    NavLinksOrder();
  }

  /** The catalogue has seven entries, and every entry is a helpline or a guide. */
  lemma ResourcesDataShape()
    ensures |ResourcesData| == 7
    ensures forall r :: r in ResourcesData ==> r.category == Helpline || r.category == Guide
  {
  }

  /** Entry i of the catalogue links to an https URL. */
  lemma LinkIsHttps(i: nat)
    requires i < |ResourcesData|
    ensures StartsWith(ResourcesData[i].link, "https://")
  {
    var r := ResourcesData[i];
    if i == 0 {
      assert r == Ic3;
    } else if i == 1 {
      assert r == Ncsc;
    } else if i == 2 {
      assert r == IndiaPortal;
    } else if i == 3 {
      assert r == OwaspTopTen;
    } else if i == 4 {
      assert r == NistFramework;
    } else if i == 5 {
      assert r == HaveIBeenPwned;
    } else if i == 6 {
      assert r == SansReadingRoom;
    }
  }

  /** Every resource link is an https URL. */
  lemma ResourceLinksAreHttps()
    ensures forall i :: 0 <= i < |ResourcesData| ==> StartsWith(ResourcesData[i].link, "https://")
  {
    forall i | 0 <= i < |ResourcesData| {
      LinkIsHttps(i);
    }
  }

  /** No two resources share a title. */
  lemma ResourceTitlesDistinct()
    ensures forall i, j :: 0 <= i < j < |ResourcesData| ==> ResourcesData[i].title != ResourcesData[j].title
  {
  }
}
