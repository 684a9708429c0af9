/** The reports page: the three reports loaded on mount, the custom-range
    report, the PDF export's query and file name, and what a report's
    content shows. Requests are not sent: their replies are inputs. Days are
    day numbers (see Calendar), all in UTC. */
module ReportsPage {
  import opened Wrappers
  import opened Strings
  import opened Lists
  import opened Urls
  import opened Api
  import opened Calendar

  datatype ReportType = Daily | Weekly | Monthly | Custom

  /** The `type` string of a report. */
  function TypeName(kind: ReportType): (r: string)
    ensures r != "" && NoneOf(r, {'-'})
  {
    match kind
    case Daily => "daily"
    case Weekly => "weekly"
    case Monthly => "monthly"
    case Custom => "custom"
  }

  /** The report type a `type` string names (None: no report has it). */
  function TypeOfName(name: string): (r: Option<ReportType>)
    ensures r.Some? ==> TypeName(r.value) == name
  {
    if name == "daily" then Some(Daily)
    else if name == "weekly" then Some(Weekly)
    else if name == "monthly" then Some(Monthly)
    else if name == "custom" then Some(Custom)
    else None
  }

  /** Every report type is named by its own `type` string. */
  lemma TypeOfNameOfType(kind: ReportType)
    ensures TypeOfName(TypeName(kind)) == Some(kind)
  {
  }

  /** The page's `data`: the four report bodies (JSON null until loaded) and
      the best sellers shown with them. */
  datatype ReportData = ReportData(daily: Json, weekly: Json, monthly: Json, custom: Json, bestSellers: Json)

  const InitialData: ReportData := ReportData(JNull, JNull, JNull, JNull, JArray([]))

  /** A request with `.catch(e => ({ data: null }))`: a failed request reads
      as null. */
  function ReplyData(reply: Option<Json>): (r: Json)
    ensures reply.None? ==> r == JNull
    ensures reply.Some? ==> r == reply.value
  {
    reply.GetOr(JNull)
  }

  /** `dailyRes.data?.bestSellers || []`: the daily report's best sellers
      when that member is there and truthy, else an empty list. The result
      is always truthy. */
  function BestSellersOf(daily: Json): (r: Json)
    ensures JsonTruthy(r)
    ensures r == JArray([]) || Member(daily, "bestSellers") == Some(r)
    ensures (match Member(daily, "bestSellers")
             case Some(b) => JsonTruthy(b) ==> r == b
             case None => r == JArray([]))
  {
    match Member(daily, "bestSellers")
    case Some(b) => if JsonTruthy(b) then b else JArray([])
    case None => JArray([])
  }

  /** A failed daily request leaves no best sellers. */
  lemma FailedDailyHasNoBestSellers()
    ensures BestSellersOf(ReplyData(None)) == JArray([])
  {
  }

  /** The data the mount-time load sets: the three replies, custom back to
      null, and the best sellers of the daily reply. */
  function LoadedData(daily: Option<Json>, weekly: Option<Json>, monthly: Option<Json>): (r: ReportData)
    ensures r.custom == JNull
    ensures r.bestSellers == BestSellersOf(r.daily)
  {
    var d := ReplyData(daily);
    ReportData(d, ReplyData(weekly), ReplyData(monthly), JNull, BestSellersOf(d))
  }

  /** The date strings the page takes from the clock on one day: `today`
      (`toISOString` cut at 'T'), the week's `monday`, and `currentMonth`
      (`today.slice(0, 7)`). */
  datatype ClockDates = ClockDates(today: string, monday: string, month: string)

  /** The clock dates of day `z`. */
  function DatesOf(z: int): (r: ClockDates)
    ensures r.month <= r.today && |r.month| <= 7
  {
    var today := IsoDate(z);
    ClockDates(today, IsoDate(MondayOf(z)), MonthKey(today))
  }

  /** On a day with a four-digit year, `today` reads back as that day,
      `monday` as the latest Monday not after it, and `currentMonth` is
      `YYYY-MM`, whose first day is `day - 1` days back. */
  lemma DatesOfDay(z: int)
    requires FourDigitYear(z) && FourDigitYear(MondayOf(z))
    ensures ParseIsoDate(DatesOf(z).today) == Some(z)
    ensures ParseIsoDate(DatesOf(z).monday) == Some(MondayOf(z))
    ensures Weekday(MondayOf(z)) == 1 && z - 6 <= MondayOf(z) <= z
    ensures forall k :: MondayOf(z) < k <= z ==> Weekday(k) != 1
    ensures DatesOf(z).month == Pad(CivilFromDays(z).year, 4) + "-" + Pad(CivilFromDays(z).month, 2)
    ensures ParseIsoDate(DatesOf(z).month + "-01") == Some(z - CivilFromDays(z).day + 1)
  {
    ParseIsoDateOfIsoDate(z);
    ParseIsoDateOfIsoDate(MondayOf(z));
    MondayOfIsLatestMonday(z);
    MonthKeyOfIsoDate(z);
  }

  /** The three mount-time requests. */
  function LoadRequests(dates: ClockDates): (r: seq<string>)
    ensures |r| == 3
    ensures r[0] == "/reports/daily?date=" + dates.today
    ensures r[1] == "/reports/weekly?startDate=" + dates.monday
    ensures r[2] == "/reports/monthly?month=" + dates.month
  {
    ["/reports/daily?date=" + dates.today,
     "/reports/weekly?startDate=" + dates.monday,
     "/reports/monthly?month=" + dates.month]
  }

  /** The verdict on a custom range before any request is made. */
  datatype RangeCheck = MissingDate | StartAfterEnd | RangeOk

  const MissingDateAlert: string := "Silakan pilih tanggal mulai dan tanggal akhir"
  const StartAfterEndAlert: string := "Tanggal mulai harus sebelum tanggal akhir"
  const CustomFailedAlert: string := "Gagal mengambil laporan. Silakan coba lagi."
  const DownloadFailedAlert: string := "Gagal mengunduh PDF. Silakan coba lagi."

  /** The two guards of `fetchCustomReport`: either date empty, then
      `new Date(startDate) > new Date(endDate)`. A date that does not read
      as one is NaN, and NaN is never greater, so such a range passes. */
  function CheckRange(startDate: string, endDate: string): (r: RangeCheck)
    ensures r == MissingDate <==> startDate == "" || endDate == ""
    ensures r == StartAfterEnd <==>
      (startDate != "" && endDate != "" &&
       ParseIsoDate(startDate).Some? && ParseIsoDate(endDate).Some? &&
       ParseIsoDate(startDate).value > ParseIsoDate(endDate).value)
  {
    if startDate == "" || endDate == "" then MissingDate
    else match (ParseIsoDate(startDate), ParseIsoDate(endDate))
      case (Some(a), Some(b)) => if a > b then StartAfterEnd else RangeOk
      case _ => RangeOk
  }

  /** A one-day range is accepted. */
  lemma SameDayAccepted(date: string)
    requires date != ""
    ensures CheckRange(date, date) == RangeOk
  {
  }

  /** On written dates, a range is refused exactly when its start is after
      its end. */
  lemma RangeOfDays(a: int, b: int)
    requires FourDigitYear(a) && FourDigitYear(b)
    ensures CheckRange(IsoDate(a), IsoDate(b)) == StartAfterEnd <==> a > b
    ensures CheckRange(IsoDate(a), IsoDate(b)) == RangeOk <==> a <= b
  {
    IsoDateOrder(a, b);
  }

  /** The export's query parameters: `type`, plus `date` (daily),
      `startDate` (weekly: that week's Monday), `month` (monthly), or
      `startDate` and `endDate` (custom: the chosen range). */
  function PdfParams(kind: ReportType, dates: ClockDates, startDate: string, endDate: string): (r: map<string, string>)
    ensures "type" in r && r["type"] == TypeName(kind)
    ensures "endDate" in r <==> kind == Custom
    ensures "startDate" in r <==> kind == Weekly || kind == Custom
  {
    match kind
    case Daily => map["type" := "daily", "date" := dates.today]
    case Weekly => map["type" := "weekly", "startDate" := dates.monday]
    case Monthly => map["type" := "monthly", "month" := dates.month]
    case Custom => map["type" := "custom", "startDate" := startDate, "endDate" := endDate]
  }

  /** Each report type sends exactly its own keys, `type` names it, and the
      dates are the clock's (the custom range for a custom report). */
  lemma PdfParamsKeys(kind: ReportType, dates: ClockDates, startDate: string, endDate: string)
    ensures PdfParams(kind, dates, startDate, endDate)["type"] == TypeName(kind)
    ensures kind == Daily ==> PdfParams(kind, dates, startDate, endDate) == map["type" := "daily", "date" := dates.today]
    ensures kind == Daily ==> PdfParams(kind, dates, startDate, endDate).Keys == {"type", "date"}
    ensures kind == Weekly ==> PdfParams(kind, dates, startDate, endDate).Keys == {"type", "startDate"}
    ensures kind == Weekly ==> PdfParams(kind, dates, startDate, endDate)["startDate"] == dates.monday
    ensures kind == Monthly ==> PdfParams(kind, dates, startDate, endDate).Keys == {"type", "month"}
    ensures kind == Monthly ==> PdfParams(kind, dates, startDate, endDate)["month"] == dates.month
    ensures kind == Custom ==> PdfParams(kind, dates, startDate, endDate).Keys == {"type", "startDate", "endDate"}
    ensures kind == Custom ==> PdfParams(kind, dates, startDate, endDate)["startDate"] == startDate
    ensures kind == Custom ==> PdfParams(kind, dates, startDate, endDate)["endDate"] == endDate
  {
    match kind
    case Daily =>
    case Weekly =>
    case Monthly =>
    case Custom =>
  }

  /** `laporan-<type>-<today>.pdf`: the date is always today's, whatever
      period the report covers. */
  function PdfFilename(kind: ReportType, today: string): (r: string)
    ensures StartsWith(r, "laporan-")
  {
    FilenamePieces(TypeName(kind), today);
    "laporan-" + TypeName(kind) + "-" + today + ".pdf"
  }

  /** Reads a file name back into its report type and day. */
  function ParsePdfFilename(f: string): Option<(ReportType, int)> {
    if |f| < 12 || f[..8] != "laporan-" || f[|f| - 4..] != ".pdf" then None
    else
      var (name, rest) := SplitAt(f[8..|f| - 4], {'-'});
      if rest == "" then None
      else match (TypeOfName(name), ParseIsoDate(rest[1..]))
        case (Some(kind), Some(z)) => Some((kind, z))
        case _ => None
  }

  /** The pieces of `laporan-<name>-<date>.pdf`. */
  lemma FilenamePieces(name: string, date: string)
    ensures var f := "laporan-" + name + "-" + date + ".pdf";
      |f| >= 12 && f[..8] == "laporan-" && f[|f| - 4..] == ".pdf" &&
      f[8..|f| - 4] == name + ("-" + date)
  {
    var mid := name + ("-" + date);
    var f := "laporan-" + name + "-" + date + ".pdf";
    assert f == "laporan-" + mid + ".pdf";
    assert f[8..|f| - 4] == mid;
  }

  /** The file name tells which report was exported and on which day. */
  lemma ParsePdfFilenameOf(kind: ReportType, today: int)
    requires FourDigitYear(today)
    ensures ParsePdfFilename(PdfFilename(kind, IsoDate(today))) == Some((kind, today))
  {
    FilenamePieces(TypeName(kind), IsoDate(today));
    SplitAtConcat(TypeName(kind), "-" + IsoDate(today), {'-'});
    assert ("-" + IsoDate(today))[1..] == IsoDate(today);
    ParseIsoDateOfIsoDate(today);
    TypeOfNameOfType(kind);
  }

  /** A report is there to show and export when its body is truthy. */
  predicate Available(data: ReportData, kind: ReportType)
    ensures Available(data, kind) ==> ReportOf(data, kind) != JNull
    ensures data == InitialData ==> !Available(data, kind)
  {
    JsonTruthy(ReportOf(data, kind))
  }

  /** The report body of one type. */
  function ReportOf(data: ReportData, kind: ReportType): Json {
    match kind
    case Daily => data.daily
    case Weekly => data.weekly
    case Monthly => data.monthly
    case Custom => data.custom
  }

  /** A failed request leaves its report unavailable, and the custom report
      is never available right after the load. */
  lemma FailedLoadUnavailable(daily: Option<Json>, weekly: Option<Json>, monthly: Option<Json>)
    ensures daily.None? ==> !Available(LoadedData(daily, weekly, monthly), Daily)
    ensures weekly.None? ==> !Available(LoadedData(daily, weekly, monthly), Weekly)
    ensures monthly.None? ==> !Available(LoadedData(daily, weekly, monthly), Monthly)
    ensures !Available(LoadedData(daily, weekly, monthly), Custom)
  {
  }

  /** A report body as the content view reads it: its `summary` (None:
      missing), the payment-method totals as the entries `Object.entries`
      yields, in order (None: missing or falsy), the best-seller list as
      `?.slice` meets it, and the transaction list (None: missing or
      falsy). */
  datatype Report = Report(
    summary: Option<Json>,
    revenueByPaymentMethod: Option<seq<(string, Json)>>,
    bestSellers: Listing,
    transactions: Option<seq<Json>>)

  /** `bestSellers` as optional chaining sees it: missing or null, so
      `?.slice(0, 5)` is skipped; a list; or a falsy value that is not null
      (0, false or ""), which `?.` does not skip and whose `.slice(0, 5).map`
      throws. */
  datatype Listing = Skipped | Items(items: seq<Json>) | FalsyScalar

  const Colors: seq<string> := ["#7c7fff", "#0ea5e9", "#10B981", "#F59E0B", "#F43F5E"]

  /** One slice of the payment-method chart. */
  datatype Slice = Slice(name: string, value: Json, color: string)

  /** What `ReportContent` shows: the chart's slices, up to five best
      sellers and up to ten transactions. */
  datatype Content = Content(slices: seq<Slice>, topProducts: seq<Json>, transactions: seq<Json>)

  /** One slice per entry, coloured `COLORS[index % 5]`. */
  function PaymentSlices(entries: seq<(string, Json)>): (r: seq<Slice>)
    ensures |r| == |entries|
    ensures forall i :: 0 <= i < |r| ==> r[i].name == entries[i].0 && r[i].value == entries[i].1
    ensures forall i :: 0 <= i < |r| ==> r[i].color == Colors[i % 5] && r[i].color in Colors
  {
    seq(|entries|, i requires 0 <= i < |entries| => Slice(entries[i].0, entries[i].1, Colors[i % |Colors|]))
  }

  /** The colours cycle through all five before repeating: slices five apart
      share a colour, closer ones never do. */
  lemma SliceColorsCycle(entries: seq<(string, Json)>, i: nat, j: nat)
    requires i < j < |entries|
    ensures PaymentSlices(entries)[i].color == PaymentSlices(entries)[j].color <==> (j - i) % 5 == 0
  {
    var r := PaymentSlices(entries);
    assert r[i].color == Colors[i % 5] && r[j].color == Colors[j % 5];
    assert (j - i) % 5 == 0 <==> i % 5 == j % 5;
  }

  /** What the content view renders: the empty state, the content, or
      nothing because rendering throws a `TypeError`. */
  datatype Rendered = EmptyState | Shown(content: Content) | RenderThrows

  /** Rendering reads `summary.totalRevenue`, and `productName` and
      `transactionNumber` of every best seller and transaction it lists, and
      maps over the sliced best sellers, so it throws when `summary` is
      missing or null, when `bestSellers` is a falsy value other than null,
      or when a listed item is null. */
  predicate Renders(report: Report, top: seq<Json>, txns: seq<Json>) {
    report.summary.Some? && report.summary.value != JNull && !report.bestSellers.FalsyScalar? &&
    (forall i :: 0 <= i < |top| ==> top[i] != JNull) &&
    (forall i :: 0 <= i < |txns| ==> txns[i] != JNull)
  }

  /** `ReportContent({ data })`: the empty state when there is no report;
      otherwise the slices of the payment entries (none without them), the
      first five best sellers and the first ten transactions (none without a
      list), unless reading the summary, slicing the best sellers or reading a
      listed item throws. */
  function ReportContent(data: Option<Report>): (r: Rendered)
    ensures data.None? <==> r.EmptyState?
    ensures data.Some? && (data.value.summary.None? || data.value.summary == Some(JNull)) ==> r.RenderThrows?
    ensures data.Some? && data.value.bestSellers.FalsyScalar? ==> r.RenderThrows?
    ensures r.Shown? ==> data.Some? && data.value.summary.Some? && data.value.summary.value != JNull
    ensures r.Shown? ==> |r.content.topProducts| <= 5 && |r.content.transactions| <= 10
    ensures r.Shown? ==> forall i :: 0 <= i < |r.content.topProducts| ==> r.content.topProducts[i] != JNull
    ensures r.Shown? ==> forall i :: 0 <= i < |r.content.transactions| ==> r.content.transactions[i] != JNull
    ensures r.Shown? && data.value.bestSellers.Items? ==> r.content.topProducts <= data.value.bestSellers.items
    ensures r.Shown? && data.value.transactions.Some? ==> r.content.transactions <= data.value.transactions.value
    ensures r.Shown? && data.value.revenueByPaymentMethod.None? ==> r.content.slices == []
    ensures r.Shown? && data.value.revenueByPaymentMethod.Some? ==>
      r.content.slices == PaymentSlices(data.value.revenueByPaymentMethod.value)
    ensures r.Shown? && data.value.bestSellers.Items? ==> r.content.topProducts == Take(data.value.bestSellers.items, 5)
    ensures r.Shown? && data.value.bestSellers.Skipped? ==> r.content.topProducts == []
    ensures r.Shown? && data.value.transactions.Some? ==> r.content.transactions == Take(data.value.transactions.value, 10)
    ensures r.Shown? && data.value.transactions.None? ==> r.content.transactions == []
  {
    match data
    case None => EmptyState
    case Some(report) =>
      var slices := match report.revenueByPaymentMethod
        case Some(entries) => PaymentSlices(entries)
        case None => [];
      var top := match report.bestSellers
        case Items(b) => Take(b, 5)
        case _ => [];
      var txns := match report.transactions
        case Some(t) => Take(t, 10)
        case None => [];
      if Renders(report, top, txns) then Shown(Content(slices, top, txns)) else RenderThrows
  }

  /** A report with a summary, no falsy non-null `bestSellers` and no null
      item is shown; one with a falsy `bestSellers` other than null, or with a
      null among the first five best sellers or the first ten transactions,
      throws. */
  lemma RenderedIff(report: Report)
    requires report.summary.Some? && report.summary.value != JNull
    ensures var top := if report.bestSellers.Items? then report.bestSellers.items else [];
      var txns := report.transactions.GetOr([]);
      ReportContent(Some(report)).Shown? <==>
        !report.bestSellers.FalsyScalar? &&
        (forall i :: 0 <= i < |top| && i < 5 ==> top[i] != JNull) &&
        (forall i :: 0 <= i < |txns| && i < 10 ==> txns[i] != JNull)
  {
    var top := if report.bestSellers.Items? then report.bestSellers.items else [];
    var txns := report.transactions.GetOr([]);
    var shownTop := Take(top, 5);
    var shownTxns := Take(txns, 10);
    assert forall i :: 0 <= i < |shownTop| ==> shownTop[i] == top[i];
    assert forall i :: 0 <= i < |shownTxns| ==> shownTxns[i] == txns[i];
  }

  /** A report with at least ten transactions lists exactly the first ten;
      with fewer, all of them. */
  lemma TransactionsShown(report: Report, t: seq<Json>)
    requires report.transactions == Some(t)
    requires ReportContent(Some(report)).Shown?
    ensures |t| >= 10 ==> ReportContent(Some(report)).content.transactions == t[..10]
    ensures |t| < 10 ==> ReportContent(Some(report)).content.transactions == t
  {
  }

  /** A report with at least five best sellers shows exactly the first five;
      with fewer, all of them. */
  lemma TopProductsShown(report: Report, b: seq<Json>)
    requires report.bestSellers == Items(b)
    requires ReportContent(Some(report)).Shown?
    ensures |b| >= 5 ==> ReportContent(Some(report)).content.topProducts == b[..5]
    ensures |b| < 5 ==> ReportContent(Some(report)).content.topProducts == b
  {
  }

  /** A snapshot of every state variable of the page. */
  datatype PageView = PageView(
    loading: bool,
    data: ReportData,
    customLoading: bool,
    downloadLoading: bool,
    startDate: string,
    endDate: string)

  class ReportsPageState {
    var loading: bool
    var data: ReportData
    var customLoading: bool
    var downloadLoading: bool
    var startDate: string
    var endDate: string

    function View(): PageView
      reads this
    {
      PageView(loading, data, customLoading, downloadLoading, startDate, endDate)
    }

    /** The page mounts loading, with every report null and no range. */
    constructor ()
      ensures View() == PageView(true, InitialData, false, false, "", "")
    {
      loading := true;
      data := InitialData;
      customLoading := false;
      downloadLoading := false;
      startDate := "";
      endDate := "";
    }

    /** The mount-time `fetchData` on day `today`, given the three replies
        (None: that request failed). */
    method FetchData(today: int, daily: Option<Json>, weekly: Option<Json>, monthly: Option<Json>)
      returns (requests: seq<string>)
      modifies this
      ensures requests == LoadRequests(DatesOf(today))
      ensures View() == old(View()).(loading := false, data := LoadedData(daily, weekly, monthly))
    {
      loading := true;
      var dates := DatesOf(today);
      requests := [
        "/reports/daily?date=" + dates.today,
        "/reports/weekly?startDate=" + dates.monday,
        "/reports/monthly?month=" + dates.month];
      var d := ReplyData(daily);
      data := ReportData(d, ReplyData(weekly), ReplyData(monthly), JNull, BestSellersOf(d));
      loading := false;
    }

    /** The start-date input. */
    method SetStartDate(v: string)
      modifies this
      ensures View() == old(View()).(startDate := v)
    {
      startDate := v;
    }

    /** The end-date input. */
    method SetEndDate(v: string)
      modifies this
      ensures View() == old(View()).(endDate := v)
    {
      endDate := v;
    }

    /** `fetchCustomReport`, given the reply (None: the request failed). A
        refused range raises its alert and changes nothing; otherwise the
        range is requested, a reply replaces only the custom report, and the
        spinner ends off. */
    method FetchCustomReport(reply: Option<Json>) returns (request: Option<string>, alert: Option<string>)
      modifies this
      ensures CheckRange(old(startDate), old(endDate)) == MissingDate ==>
        request.None? && alert == Some(MissingDateAlert) && View() == old(View())
      ensures CheckRange(old(startDate), old(endDate)) == StartAfterEnd ==>
        request.None? && alert == Some(StartAfterEndAlert) && View() == old(View())
      ensures CheckRange(old(startDate), old(endDate)) == RangeOk ==>
        request == Some("/reports/custom?startDate=" + startDate + "&endDate=" + endDate)
      ensures (CheckRange(old(startDate), old(endDate)) == RangeOk && reply.Some?) ==>
        alert.None? && View() == old(View()).(data := old(data).(custom := reply.value), customLoading := false)
      ensures (CheckRange(old(startDate), old(endDate)) == RangeOk && reply.None?) ==>
        alert == Some(CustomFailedAlert) && View() == old(View()).(customLoading := false)
      ensures data.daily == old(data.daily) && data.weekly == old(data.weekly)
      ensures data.monthly == old(data.monthly) && data.bestSellers == old(data.bestSellers)
    {
      var check := CheckRange(startDate, endDate);
      if check == MissingDate {
        return None, Some(MissingDateAlert);
      }
      if check == StartAfterEnd {
        return None, Some(StartAfterEndAlert);
      }
      customLoading := true;
      request := Some("/reports/custom?startDate=" + startDate + "&endDate=" + endDate);
      if reply.Some? {
        data := data.(custom := reply.value);
        alert := None;
      } else {
        alert := Some(CustomFailedAlert);
      }
      customLoading := false;
    }

    /** The export's `params`, built one key at a time as `downloadPDF`
        does. */
    method BuildPdfParams(kind: ReportType, dates: ClockDates) returns (params: map<string, string>)
      ensures params == PdfParams(kind, dates, startDate, endDate)
    {
      params := map["type" := TypeName(kind)];
      if kind == Daily {
        params := params["date" := dates.today];
      } else if kind == Weekly {
        params := params["startDate" := dates.monday];
      } else if kind == Monthly {
        params := params["month" := dates.month];
      } else if kind == Custom {
        params := params["startDate" := startDate];
        params := params["endDate" := endDate];
      }
    }

    /** `downloadPDF(type)` on day `today`, given whether the export request
        succeeded: the query is sent, a success saves the file under its
        name, a failure raises the alert, and the spinner ends off. */
    method DownloadPdf(kind: ReportType, today: int, ok: bool)
      returns (params: map<string, string>, filename: Option<string>, alert: Option<string>)
      modifies this
      ensures params == PdfParams(kind, DatesOf(today), old(startDate), old(endDate))
      ensures ok ==> filename == Some(PdfFilename(kind, DatesOf(today).today)) && alert.None?
      ensures !ok ==> filename.None? && alert == Some(DownloadFailedAlert)
      ensures View() == old(View()).(downloadLoading := false)
    {
      downloadLoading := true;
      var dates := DatesOf(today);
      params := BuildPdfParams(kind, dates);
      if ok {
        filename := Some(PdfFilename(kind, dates.today));
        alert := None;
      } else {
        filename := None;
        alert := Some(DownloadFailedAlert);
      }
      downloadLoading := false;
    }

    /** A report's download button is disabled while it is not available or
        an export is running. */
    predicate DownloadDisabled(kind: ReportType)
      reads this
      ensures !DownloadDisabled(kind) ==> Available(data, kind) && !downloadLoading
      ensures downloadLoading ==> DownloadDisabled(kind)
    {
      !Available(data, kind) || downloadLoading
    }
  }
}
