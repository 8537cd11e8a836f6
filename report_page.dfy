/** The report page of app/report/page.tsx: the pagination of the PDF
    export, the colour lookups of the score, the short report id, and the
    gate that decides whether the report is shown. */
module ReportPage {
  import opened Wrappers
  import opened Types

  /** A4 in millimetres. */
  const ImgWidth: real := 210.0
  const PageHeight: real := 297.0

  /** The image height in millimetres for a canvas of the given pixel size,
      keeping its aspect ratio at the page width. */
  function ImgHeight(canvasHeight: nat, canvasWidth: nat): (h: real)
    requires canvasWidth > 0
    ensures h * canvasWidth as real == canvasHeight as real * ImgWidth
    ensures h >= 0.0
  {
    (canvasHeight as real * ImgWidth) / canvasWidth as real
  }

  /** The number of PDF pages an image of height `h` is spread across. */
  function PageCount(h: real): (n: nat)
    ensures n >= 1
    ensures h >= 0.0 ==> (n - 1) as real * PageHeight <= h < n as real * PageHeight
  {
    if h < 0.0 then 1 else (h / PageHeight).Floor + 1
  }

  /** The export loop: the first page draws the image at offset 0, and while
      the height left is not negative another page is added and the image
      drawn shifted up by one more page. The result lists the vertical
      offset of the image on each page. */
  method Paginate(imgHeight: real) returns (offsets: seq<real>)
    ensures |offsets| == PageCount(imgHeight)
    ensures forall k :: 0 <= k < |offsets| ==> offsets[k] == -PageHeight * k as real
  {
    var heightLeft := imgHeight;
    var position := 0.0;
    offsets := [position];
    heightLeft := heightLeft - PageHeight;
    while heightLeft >= 0.0
      invariant |offsets| >= 1
      invariant heightLeft == imgHeight - PageHeight * |offsets| as real
      invariant forall k :: 0 <= k < |offsets| ==> offsets[k] == -PageHeight * k as real
      invariant (|offsets| - 1) as real * PageHeight <= imgHeight || |offsets| == 1
      decreases heightLeft.Floor + 1
    {
      position := heightLeft - imgHeight;
      offsets := offsets + [position];
      heightLeft := heightLeft - PageHeight;
    }
  }

  /** An image exactly k pages tall gets a trailing (blank) extra page. */
  lemma ExactMultipleGetsExtraPage(k: nat)
    ensures PageCount(PageHeight * k as real) == k + 1
  {
    var h := PageHeight * k as real;
    assert h / PageHeight == k as real;
  }

  /** Taller images never need fewer pages. */
  lemma PageCountMonotone(h1: real, h2: real)
    requires 0.0 <= h1 <= h2
    ensures PageCount(h1) <= PageCount(h2)
  {
    assert h1 / PageHeight <= h2 / PageHeight;
  }

  /** `getScoreColor`. */
  function ScoreColor(color: string): (cls: string)
    ensures color == "green" ==> cls == "text-green-600"
    ensures color == "yellow" ==> cls == "text-yellow-600"
    ensures color == "orange" ==> cls == "text-orange-600"
    ensures color == "red" ==> cls == "text-red-600"
    ensures color !in {"green", "yellow", "orange", "red"} ==> cls == "text-gray-600"
  {
    var colors := map["green" := "text-green-600", "yellow" := "text-yellow-600",
                      "orange" := "text-orange-600", "red" := "text-red-600"];
    if color in colors then colors[color] else "text-gray-600"
  }

  /** `getScoreBgColor`. */
  function ScoreBgColor(color: string): (cls: string)
    ensures color == "green" ==> cls == "bg-green-100 dark:bg-green-950"
    ensures color == "yellow" ==> cls == "bg-yellow-100 dark:bg-yellow-950"
    ensures color == "orange" ==> cls == "bg-orange-100 dark:bg-orange-950"
    ensures color == "red" ==> cls == "bg-red-100 dark:bg-red-950"
    ensures color !in {"green", "yellow", "orange", "red"} ==> cls == "bg-gray-100 dark:bg-gray-950"
  {
    var colors := map["green" := "bg-green-100 dark:bg-green-950", "yellow" := "bg-yellow-100 dark:bg-yellow-950",
                      "orange" := "bg-orange-100 dark:bg-orange-950", "red" := "bg-red-100 dark:bg-red-950"];
    if color in colors then colors[color] else "bg-gray-100 dark:bg-gray-950"
  }

  /** `getScoreBadgeVariant`. */
  function ScoreBadgeVariant(color: string): (variant: string)
    ensures variant == "default" <==> color == "green"
    ensures variant == "secondary" <==> color != "green"
  {
    if color == "green" then "default" else "secondary"
  }

  /** `reportId.slice(0, 8)`. */
  function ShortReportId(reportId: string): (s: string)
    ensures |s| == if |reportId| < 8 then |reportId| else 8
    ensures s == reportId[..|s|]
  {
    if |reportId| < 8 then reportId else reportId[..8]
  }

  /** What the page renders. */
  datatype View = Loading | Blank | ShowReport(report: CrbReport)

  /** The render gate: the skeleton while loading, then the report only for
      a paid user whose report has been loaded. */
  function Render(loading: bool, userData: Option<User>, report: Option<CrbReport>): (v: View)
    ensures v == Loading <==> loading
    ensures v.ShowReport? <==> !loading && userData.Some? && userData.value.paymentMade && report.Some?
    ensures v.ShowReport? ==> v.report == report.value
  {
    if loading then Loading
    else if userData.None? || !userData.value.paymentMade || report.None? then Blank
    else ShowReport(report.value)
  }

  /** `if (data.crbReportId)`: the id is present and not the empty string. */
  predicate NamesReport(u: User) {
    u.crbReportId.Some? && u.crbReportId.value != ""
  }

  /** The page state set by the user document listener. */
  class ReportPage {
    var userData: Option<User>
    var report: Option<CrbReport>
    var loading: bool

    constructor ()
      ensures userData == None && report == None && loading
    {
      userData, report, loading := None, None, true;
    }

    function View(): View
      reads this
    {
      Render(loading, userData, report)
    }

    /** One snapshot of users/<uid>: `doc` is the document if it exists,
        `fetched` the outcome of loading the report it names: `Ok(None)` when
        the report document does not exist, `Err` when the read throws. An
        unpaid user is sent to /dashboard and the page stays on its skeleton;
        otherwise loading ends, and a report that was read replaces the one
        held, even when it came back missing. */
    method OnSnapshot(doc: Option<User>, fetched: Result<Option<CrbReport>, string>) returns (redirect: Option<string>)
      modifies this
      ensures doc.Some? ==> userData == doc
      ensures doc.None? ==> userData == old(userData)
      ensures redirect.Some? <==> doc.Some? && !doc.value.paymentMade
      ensures redirect.Some? ==> redirect.value == "/dashboard" && loading == old(loading) && report == old(report)
      ensures redirect.None? ==> !loading
      ensures redirect.None? && doc.Some? && NamesReport(doc.value) && fetched.Ok? ==> report == fetched.value
      ensures !(doc.Some? && NamesReport(doc.value) && fetched.Ok?) ==> report == old(report)
    {
      if doc.Some? {
        var data := doc.value;
        userData := Some(data);
        if !data.paymentMade {
          return Some("/dashboard");
        }
        if data.crbReportId.Some? && data.crbReportId.value != "" {
          match fetched {
            case Ok(reportData) =>
              report := reportData;
            case Err(_) =>
          }
        }
      }
      loading := false;
      return None;
    }
  }

  /** After an unpaid user's snapshot the report is not shown, whatever the
      page held before. */
  lemma UnpaidNeverShown(loading: bool, u: User, report: Option<CrbReport>)
    requires !u.paymentMade
    ensures !Render(loading, Some(u), report).ShowReport?
  {
  }
}
