// The record and enumeration types shared by every page (types.ts).
// Each string-literal union of the source is a closed enumeration here.
module Types {

  /** The value of a nullable or possibly-undefined field. */
  datatype Option<+T> = None | Some(value: T)

  /** The five pages the shell can show. */
  datatype Page = Home | News | Report | Chat | Resources

  /** process.env.API_KEY is truthy: defined and not the empty string. */
  predicate KeyPresent(apiKey: Option<string>)
  {
    apiKey.Some? && apiKey.value != []
  }

  /** Every Page value, in declaration order. */
  const AllPages: seq<Page> := [Home, News, Page.Report, Chat, Resources]

  /** The string the source uses for each page; the navigation bar prints it. */
  function PageName(p: Page): string
  {
    match p
    case Home => "Home"
    case News => "News"
    case Report => "Report"
    case Chat => "Chat"
    case Resources => "Resources"
  }

  datatype Severity = Low | Medium | High | Critical

  datatype NewsArticle = NewsArticle(
    title: string,
    summary: string,
    category: string,
    date: string,
    severity: Severity)

  /** The only status a report can have. */
  datatype ReportStatus = Submitted

  datatype Report = Report(
    id: string,
    incidentType: string,
    date: string,
    description: string,
    status: ReportStatus)

  datatype Role = User | Model

  datatype ChatMessage = ChatMessage(role: Role, text: string)

  datatype Category = Helpline | Guide

  datatype Resource = Resource(
    title: string,
    description: string,
    link: string,
    category: Category)

  /** Page has exactly five values, and AllPages lists each of them once. */
  lemma PageHasFiveValues()
    ensures |AllPages| == 5
    ensures forall p: Page :: p in AllPages
    ensures forall i, j :: 0 <= i < j < |AllPages| ==> AllPages[i] != AllPages[j]
  {
    forall p: Page ensures p in AllPages {
      match p
      case Home => assert AllPages[0] == p;
      case News => assert AllPages[1] == p;
      case Report => assert AllPages[2] == p;
      case Chat => assert AllPages[3] == p;
      case Resources => assert AllPages[4] == p;
    }
  }

  /** Distinct pages have distinct names, so a name identifies its page. */
  lemma PageNameInjective(p: Page, q: Page)
    ensures PageName(p) == PageName(q) <==> p == q
  {
    if p != q {
      assert PageName(p)[0] != PageName(q)[0] || |PageName(p)| != |PageName(q)|;
    }
  }
}
