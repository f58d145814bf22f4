/**
 * The page of the daily report PDF as the list of strings drawn on it, each
 * at an (x, y) position in points from the bottom-left corner of a letter
 * page (612 x 792). Fonts, string formatting and the PDF bytes are not
 * modelled: each string is described by the value it shows.
 */
module Layout {
  import opened Records
  import opened Reports

  /** What a drawn string says. */
  datatype Text =
    | Title                                                  // "SMART STORE DAILY REPORT"
    | ReportFor(date: Date)                                  // "Report for: <date>"
    | SummaryHeading                                         // "Summary"
    | ItemsSoldLine(totalItemsSold: int)                     // "Total Items Sold: <n>"
    | ProfitLine(totalProfit: int)                           // "Total Profit: Rs.<p>"
    | TopSellingHeading                                      // "Top Selling Products:"
    | LeastSellingHeading                                    // "Least Selling Products:"
    | PerformanceHeading                                     // "Top Performance Products:"
    | UnitsLine(name: string, units: int)                    // "<name>: <units> units sold"
    | PerformanceLine(name: string, units: int, revenue: int) // "<name>: <units> units sold, Rs.<revenue> revenue"

  datatype Draw = Draw(x: int, y: int, text: Text)

  /** The fixed lines at the top of the page, down to the first section heading. */
  function Header(date: Date, totalItemsSold: int, totalProfit: int): seq<Draw>
  {
    [ Draw(200, 750, Title), Draw(200, 730, ReportFor(date)),
      Draw(100, 700, SummaryHeading), Draw(100, 680, ItemsSoldLine(totalItemsSold)),
      Draw(100, 660, ProfitLine(totalProfit)), Draw(100, 620, TopSellingHeading) ]
  }

  /** Each string on the page is drawn lower than every string drawn before it. */
  predicate Descending(page: seq<Draw>)
  {
    forall i, j :: 0 <= i < j < |page| ==> page[i].y > page[j].y
  }

  /** The "<name>: <units> units sold" lines of a ranking, in its order. */
  function UnitsLines(rows: seq<Ranked>): (r: seq<Text>)
    ensures |r| == |rows|
    ensures forall k :: 0 <= k < |rows| ==> r[k] == UnitsLine(rows[k].name, rows[k].total)
  {
    seq(|rows|, k requires 0 <= k < |rows| => UnitsLine(rows[k].name, rows[k].total))
  }

  /** The top_performance lines, in its order. */
  function PerformanceLines(rows: seq<Performance>): (r: seq<Text>)
    ensures |r| == |rows|
    ensures forall k :: 0 <= k < |rows| ==> r[k] == PerformanceLine(rows[k].name, rows[k].unitsSold, rows[k].revenue)
  {
    seq(|rows|, k requires 0 <= k < |rows| => PerformanceLine(rows[k].name, rows[k].unitsSold, rows[k].revenue))
  }

  /** Texts drawn at x = 100 one line height (20) apart, the first at y. */
  function Rows(y: int, texts: seq<Text>): (r: seq<Draw>)
    ensures |r| == |texts|
    ensures forall k :: 0 <= k < |texts| ==> r[k] == Draw(100, y - 20 * k, texts[k])
  {
    seq(|texts|, k requires 0 <= k < |texts| => Draw(100, y - 20 * k, texts[k]))
  }

  /**
   * One of generate_pdf's row loops: draw each text at x = 100 and the
   * running y, then move y down one line height.
   */
  method DrawRows(page: seq<Draw>, y: int, texts: seq<Text>) returns (page': seq<Draw>, y': int)
    requires Descending(page)
    requires forall i :: 0 <= i < |page| ==> page[i].y >= y + 20
    ensures page' == page + Rows(y, texts)
    ensures y' == y - 20 * |texts|
    ensures Descending(page')
    ensures forall i :: 0 <= i < |page'| ==> page'[i].y >= y' + 20
  {
    page', y' := page, y;
    for k := 0 to |texts|
      invariant page' == page + Rows(y, texts[..k])
      invariant y' == y - 20 * k
      invariant Descending(page')
      invariant forall i :: 0 <= i < |page'| ==> page'[i].y >= y' + 20
    {
      assert Rows(y, texts[..k + 1]) == Rows(y, texts[..k]) + [Draw(100, y', texts[k])];
      page' := page' + [Draw(100, y', texts[k])];
      y' := y' - 20;
    }
    assert texts[..|texts|] == texts;
  }

  /**
   * The page generate_pdf draws: the heading lines, then each section's rows
   * in the order given, one line height (20) apart; each later section
   * heading sits 20 below the running position and its rows start 40 below it.
   */
  function Page(date: Date, totalItemsSold: int, totalProfit: int,
                topSelling: seq<Ranked>, leastSelling: seq<Ranked>, topPerformance: seq<Performance>): seq<Draw>
  {
    var a, b := |topSelling|, |leastSelling|;
    Header(date, totalItemsSold, totalProfit)
    + Rows(600, UnitsLines(topSelling))
    + [Draw(100, 580 - 20 * a, LeastSellingHeading)]
    + Rows(560 - 20 * a, UnitsLines(leastSelling))
    + [Draw(100, 540 - 20 * (a + b), PerformanceHeading)]
    + Rows(520 - 20 * (a + b), PerformanceLines(topPerformance))
  }

  /** generate_pdf: walk y down the page, drawing the headings and the rows of the three rankings. */
  method Render(date: Date, totalItemsSold: int, totalProfit: int,
                topSelling: seq<Ranked>, leastSelling: seq<Ranked>, topPerformance: seq<Performance>)
    returns (page: seq<Draw>)
    ensures page == Page(date, totalItemsSold, totalProfit, topSelling, leastSelling, topPerformance)
    ensures Descending(page)
    ensures forall i :: 0 <= i < |page| ==>
      540 - 20 * (|topSelling| + |leastSelling| + |topPerformance|) <= page[i].y <= 750
  {
    var a, b := |topSelling|, |leastSelling|;
    var header := Header(date, totalItemsSold, totalProfit);
    var y := 600;
    page, y := DrawRows(header, y, UnitsLines(topSelling));
    page := page + [Draw(100, y - 20, LeastSellingHeading)];
    y := y - 40;
    page, y := DrawRows(page, y, UnitsLines(leastSelling));
    page := page + [Draw(100, y - 20, PerformanceHeading)];
    y := y - 40;
    page, y := DrawRows(page, y, PerformanceLines(topPerformance));
    assert page[0] == header[0];
  }

  /** The page holds the six heading lines, two more headings and one line per row. */
  lemma PageHeader(date: Date, totalItemsSold: int, totalProfit: int,
                   topSelling: seq<Ranked>, leastSelling: seq<Ranked>, topPerformance: seq<Performance>)
    ensures var page := Page(date, totalItemsSold, totalProfit, topSelling, leastSelling, topPerformance);
      && |page| == 8 + |topSelling| + |leastSelling| + |topPerformance|
      && page[..6] == [ Draw(200, 750, Title), Draw(200, 730, ReportFor(date)),
                        Draw(100, 700, SummaryHeading), Draw(100, 680, ItemsSoldLine(totalItemsSold)),
                        Draw(100, 660, ProfitLine(totalProfit)), Draw(100, 620, TopSellingHeading) ]
  {
  }

  /** Top-selling row k is drawn at y = 600 - 20k, in the order given. */
  lemma PageTopSelling(date: Date, totalItemsSold: int, totalProfit: int,
                       topSelling: seq<Ranked>, leastSelling: seq<Ranked>, topPerformance: seq<Performance>, k: nat)
    requires k < |topSelling|
    ensures Page(date, totalItemsSold, totalProfit, topSelling, leastSelling, topPerformance)[6 + k]
            == Draw(100, 600 - 20 * k, UnitsLine(topSelling[k].name, topSelling[k].total))
  {
  }

  /**
   * The least-selling heading sits 20 below the last top-selling row's
   * position, and least-selling row k 40 + 20k below it.
   */
  lemma PageLeastSelling(date: Date, totalItemsSold: int, totalProfit: int,
                         topSelling: seq<Ranked>, leastSelling: seq<Ranked>, topPerformance: seq<Performance>, k: nat)
    requires k < |leastSelling|
    ensures var page := Page(date, totalItemsSold, totalProfit, topSelling, leastSelling, topPerformance);
      var a := |topSelling|;
      && page[6 + a] == Draw(100, 580 - 20 * a, LeastSellingHeading)
      && page[7 + a + k] == Draw(100, 560 - 20 * (a + k), UnitsLine(leastSelling[k].name, leastSelling[k].total))
  {
  }

  /**
   * The top-performance heading sits 20 below the running position after the
   * least-selling rows, and top-performance row k 40 + 20k below it.
   */
  lemma PageTopPerformance(date: Date, totalItemsSold: int, totalProfit: int,
                           topSelling: seq<Ranked>, leastSelling: seq<Ranked>, topPerformance: seq<Performance>, k: nat)
    requires k < |topPerformance|
    ensures var page := Page(date, totalItemsSold, totalProfit, topSelling, leastSelling, topPerformance);
      var a, b := |topSelling|, |leastSelling|;
      && page[7 + a + b] == Draw(100, 540 - 20 * (a + b), PerformanceHeading)
      && page[8 + a + b + k]
         == Draw(100, 520 - 20 * (a + b + k),
                 PerformanceLine(topPerformance[k].name, topPerformance[k].unitsSold, topPerformance[k].revenue))
  {
  }

  /**
   * The report view's PDF: the page drawn for the report of date d, as the
   * view computes it. The queries give at most five rows per section, so
   * every string lands on the page and no page break is needed.
   */
  method RenderSummary(ledger: seq<Sale>, inv: Inventory, d: Date) returns (page: seq<Draw>)
    ensures var r := Summarize(ledger, inv, d);
      page == Page(r.date, r.totalItemsSold, r.totalProfit, r.topSelling, r.leastSelling, r.topPerformance)
    ensures Descending(page)
    ensures 8 <= |page| <= 23
    ensures forall i :: 0 <= i < |page| ==> 240 <= page[i].y <= 750
  {
    var report := Summarize(ledger, inv, d);
    page := Render(report.date, report.totalItemsSold, report.totalProfit,
                   report.topSelling, report.leastSelling, report.topPerformance);
  }
}
