/**
 * The rule-based merchant assistant's pure part
 * (ai-chatbot/ai-chatbot/src/components/AICHATBOT.js): language detection,
 * the keyword dispatch of a reply, the business report, the sales charts and
 * the speech-error lookup.
 */
module Chatbot {
  import opened Wrappers
  import opened Js

  /** The three interface languages: `'en'`, `'ms'` and `'zh'`. */
  datatype Lang = En | Ms | Zh

  // ---------------------------------------------------------------------------
  // detectLanguage

  /** `/[一-鿿]/`: a CJK unified ideograph. */
  predicate IsCjk(c: char) {
    '\U{4E00}' <= c <= '\U{9FFF}'
  }

  predicate HasCjk(text: string) {
    exists i | 0 <= i < |text| :: IsCjk(text[i])
  }

  /** The alternatives of `/\b(saya|anda|hari|ini|boleh|dengan)\b/i`. */
  const MalayWords: seq<string> := ["saya", "anda", "hari", "ini", "boleh", "dengan"]

  /** `\w` of a regular expression without the `u` flag. */
  predicate IsWordChar(c: char) {
    'a' <= c <= 'z' || 'A' <= c <= 'Z' || '0' <= c <= '9' || c == '_'
  }

  /** Case folding under `/i` without `u`: only ASCII letters fold. */
  function FoldCase(c: char): char {
    if 'A' <= c <= 'Z' then (c as int + 32) as char else c
  }

  predicate SameIgnoringCase(a: string, b: string) {
    |a| == |b| && forall k | 0 <= k < |a| :: FoldCase(a[k]) == FoldCase(b[k])
  }

  /** `\bw\b` matches at position `i` of `text`. */
  predicate WordAt(text: string, i: nat, w: string) {
    && i + |w| <= |text|
    && SameIgnoringCase(text[i..i + |w|], w)
    && (i == 0 || !IsWordChar(text[i - 1]))
    && (i + |w| == |text| || !IsWordChar(text[i + |w|]))
  }

  /** The regular expression matches somewhere in `text`. */
  ghost predicate HasMalayWord(text: string) {
    exists i: nat, k | i <= |text| && 0 <= k < |MalayWords| :: WordAt(text, i, MalayWords[k])
  }

  /** The regular expression engine's scan: try each start position from `i` on. */
  function MalayFrom(text: string, i: nat): (r: bool)
    requires i <= |text|
    ensures r <==> exists j: nat, k | i <= j <= |text| && 0 <= k < |MalayWords| :: WordAt(text, j, MalayWords[k])
    decreases |text| - i
  {
    if i == |text| then
      assert forall k | 0 <= k < |MalayWords| :: !WordAt(text, i, MalayWords[k]) by {
        assert forall k | 0 <= k < |MalayWords| :: |MalayWords[k]| > 0;
      }
      false
    else
      (exists k | 0 <= k < |MalayWords| :: WordAt(text, i, MalayWords[k])) || MalayFrom(text, i + 1)
  }

  /** `detectLanguage`: Chinese before Malay, English otherwise. */
  function DetectLanguage(text: string): (l: Lang)
    ensures l == Zh <==> HasCjk(text)
    ensures l == Ms <==> !HasCjk(text) && HasMalayWord(text)
    ensures l == En <==> !HasCjk(text) && !HasMalayWord(text)
  {
    if exists i | 0 <= i < |text| :: IsCjk(text[i]) then Zh
    else if MalayFrom(text, 0) then Ms
    else En
  }

  /** Upper-casing the ASCII letters of a text changes none of the three verdicts. */
  function AsciiUpper(s: string): (r: string)
    ensures |r| == |s|
    ensures forall i | 0 <= i < |s| :: FoldCase(r[i]) == FoldCase(s[i]) && (IsWordChar(r[i]) <==> IsWordChar(s[i]))
    ensures forall i | 0 <= i < |s| :: IsCjk(r[i]) <==> IsCjk(s[i])
  {
    if s == [] then []
    else [if 'a' <= s[0] <= 'z' then (s[0] as int - 32) as char else s[0]] + AsciiUpper(s[1..])
  }

  lemma DetectionIgnoresCase(text: string)
    ensures DetectLanguage(AsciiUpper(text)) == DetectLanguage(text)
  {
    var u := AsciiUpper(text);
    assert HasCjk(u) <==> HasCjk(text) by {
      if HasCjk(text) { var i :| 0 <= i < |text| && IsCjk(text[i]); assert IsCjk(u[i]); }
      if HasCjk(u) { var i :| 0 <= i < |u| && IsCjk(u[i]); assert IsCjk(text[i]); }
    }
    forall i: nat, w: string | i + |w| <= |text|
      ensures WordAt(u, i, w) <==> WordAt(text, i, w)
    {
      var a, b := u[i..i + |w|], text[i..i + |w|];
      forall k | 0 <= k < |w|
        ensures FoldCase(a[k]) == FoldCase(b[k])
      {
        assert a[k] == u[i + k] && b[k] == text[i + k];
      }
    }
    assert HasMalayWord(u) <==> HasMalayWord(text) by {
      if HasMalayWord(text) {
        var i: nat, k :| i <= |text| && 0 <= k < |MalayWords| && WordAt(text, i, MalayWords[k]);
        assert WordAt(u, i, MalayWords[k]);
      }
      if HasMalayWord(u) {
        var i: nat, k :| i <= |u| && 0 <= k < |MalayWords| && WordAt(u, i, MalayWords[k]);
        assert WordAt(text, i, MalayWords[k]);
      }
    }
  }

  /** A Malay word inside a longer word is no match; standing alone, in any case, it is. */
  lemma MalayNeedsWholeWord()
    ensures DetectLanguage("Boleh bantu?") == Ms
    ensures DetectLanguage("saya \U{4F60}\U{597D}") == Zh
    ensures !WordAt("sayang", 0, "saya")
  {
    assert WordAt("Boleh bantu?", 0, MalayWords[4]);
    assert IsCjk("saya \U{4F60}\U{597D}"[5]);
    assert "sayang"[4] == 'n';
  }

  // ---------------------------------------------------------------------------
  // Business report and sales data

  /** The sales figures the assistant holds (mocked on mount). */
  datatype SalesData = SalesData(today: nat, thisWeek: nat, thisMonth: nat)

  const MockSales: SalesData := SalesData(1250, 8750, 32500)

  /** `generateBusinessReport(lang)`; the date is the locale's rendering of today. */
  datatype BusinessReport = BusinessReport(
    title: string,
    date: string,
    sales: SalesData,
    topProducts: seq<string>,
    customerGrowth: string,
    inventoryStatus: string,
    recommendations: seq<string>)

  const TopProducts: seq<string> := ["BMW Taper", "Model X", "Product Z"]

  /** `languageResponses[lang].report`: the heading the interface shows over a report. */
  function ReportHeading(lang: Lang): string {
    match lang
    case En => "Business Performance Report"
    case Ms => "Laporan Prestasi Perniagaan"
    case Zh => "业务表现报告"
  }

  function GenerateBusinessReport(lang: Lang, date: string, sales: SalesData): (r: BusinessReport)
    ensures r.title == ReportHeading(lang)
    ensures r.date == date && r.sales == sales && r.topProducts == TopProducts
    ensures |r.recommendations| == 3
  {
    match lang
    case En =>
      BusinessReport("Business Performance Report", date, sales, TopProducts,
        "12% increase this month", "85% of products in stock",
        ["Increase marketing for BMW Taper during weekends",
         "Consider bundle deals for Model X",
         "Restock Product Z within 2 weeks"])
    case Ms =>
      BusinessReport("Laporan Prestasi Perniagaan", date, sales, TopProducts,
        "Peningkatan 12% bulan ini", "85% produk dalam stok",
        ["Tingkatkan pemasaran untuk BMW Taper pada hujung minggu",
         "Pertimbangkan tawaran pakej untuk Model X",
         "Isi semula stok Product Z dalam masa 2 minggu"])
    case Zh =>
      BusinessReport("业务表现报告", date, sales, TopProducts,
        "本月增长12%", "85%的产品有库存",
        ["在周末增加BMW Taper的营销",
         "考虑为Model X提供捆绑交易",
         "两周内补货Product Z"])
  }

  // ---------------------------------------------------------------------------
  // getVisualizationData

  datatype Timeframe = TodayFrame | WeekFrame | MonthFrame

  /** `Math.floor(Math.random() * spread) + base`: a whole number in [base, base + spread). */
  datatype Band = Band(base: nat, spread: nat)

  /** The bar chart: labels, one random band per bar, and its captions and colours. */
  datatype Chart = Chart(
    title: string,
    labels: seq<string>,
    datasetLabel: string,
    bands: seq<Band>,
    backgroundColor: string,
    borderColor: string)

  /** `now.getMonth()`. */
  type MonthIndex = m: nat | m < 12

  /** The clock and locale inputs of a reply: the locale's date text and the current year and month. */
  datatype Calendar = Calendar(localeDate: string, year: int, month: MonthIndex)

  predicate IsLeapYear(year: int) {
    (year % 4 == 0 && year % 100 != 0) || year % 400 == 0
  }

  /** `new Date(year, month + 1, 0).getDate()`: the last day of the month. */
  function DaysInMonth(year: int, month: MonthIndex): (d: nat)
    ensures 28 <= d <= 31
    ensures d == 28 <==> month == 1 && !IsLeapYear(year)
  {
    if month == 1 then (if IsLeapYear(year) then 29 else 28)
    else if month == 3 || month == 5 || month == 8 || month == 10 then 30
    else 31
  }

  function HourLabel(i: nat): string {
    NatToString(i) + ":00"
  }

  function HourBand(i: nat): Band {
    if i < 8 then Band(50, 100)
    else if i < 12 then Band(200, 300)
    else if i < 17 then Band(300, 500)
    else if i < 20 then Band(200, 400)
    else Band(50, 100)
  }

  function DayNames(lang: Lang): (names: seq<string>)
    ensures |names| == 7
  {
    match lang
    case En => ["Sun", "Mon", "Tue", "Wed", "Thu", "Fri", "Sat"]
    case Ms => ["Ahd", "Isn", "Sel", "Rab", "Kha", "Jum", "Sab"]
    case Zh => ["日", "一", "二", "三", "四", "五", "六"]
  }

  /** Weekends (index 0 and 6) draw from the higher band. */
  function WeekBand(i: nat): Band {
    if i == 0 || i == 6 then Band(1500, 2000) else Band(800, 1500)
  }

  function MonthDayLabel(lang: Lang, i: nat): string {
    if lang == Zh then NatToString(i + 1) + "日" else "Day " + NatToString(i + 1)
  }

  /** Days 15 and 30 (index 14 and 29) draw from the higher band. */
  function MonthBand(i: nat): Band {
    if i == 14 || i == 29 then Band(2000, 2500) else Band(800, 1500)
  }

  function ChartTitle(tf: Timeframe, lang: Lang): string {
    match (tf, lang)
    case (TodayFrame, En) => "Today's Sales by Hour"
    case (TodayFrame, Ms) => "Jualan Mengikut Jam Hari Ini"
    case (TodayFrame, Zh) => "今日每小时销售额"
    case (WeekFrame, En) => "This Week's Sales"
    case (WeekFrame, Ms) => "Jualan Minggu Ini"
    case (WeekFrame, Zh) => "本周销售额"
    case (MonthFrame, En) => "This Month's Sales"
    case (MonthFrame, Ms) => "Jualan Bulan Ini"
    case (MonthFrame, Zh) => "本月销售额"
  }

  function DatasetLabel(lang: Lang): string {
    match lang
    case En => "Sales ($)"
    case Ms => "Jualan ($)"
    case Zh => "销售额 ($)"
  }

  /** `getVisualizationData(timeframe, lang)` with the random draws left as bands. */
  function Visualization(tf: Timeframe, lang: Lang, cal: Calendar): (c: Chart)
    ensures |c.bands| == |c.labels|
    ensures tf == TodayFrame ==> |c.labels| == 24
    ensures tf == WeekFrame ==> c.labels == DayNames(lang)
    ensures tf == MonthFrame ==> |c.labels| == DaysInMonth(cal.year, cal.month)
    ensures c.title == ChartTitle(tf, lang) && c.datasetLabel == DatasetLabel(lang)
  {
    match tf
    case TodayFrame =>
      Chart(ChartTitle(tf, lang), seq(24, i requires 0 <= i => HourLabel(i)), DatasetLabel(lang),
            seq(24, i requires 0 <= i => HourBand(i)),
            "rgba(54, 162, 235, 0.5)", "rgba(54, 162, 235, 1)")
    case WeekFrame =>
      Chart(ChartTitle(tf, lang), DayNames(lang), DatasetLabel(lang),
            seq(7, i requires 0 <= i => WeekBand(i)),
            "rgba(75, 192, 192, 0.5)", "rgba(75, 192, 192, 1)")
    case MonthFrame =>
      var n := DaysInMonth(cal.year, cal.month);
      Chart(ChartTitle(tf, lang), seq(n, i requires 0 <= i => MonthDayLabel(lang, i)), DatasetLabel(lang),
            seq(n, i requires 0 <= i => MonthBand(i)),
            "rgba(153, 102, 255, 0.5)", "rgba(153, 102, 255, 1)")
  }

  /** `values` is one outcome of the chart's random draws. */
  predicate Draws(values: seq<int>, bands: seq<Band>) {
    |values| == |bands| &&
    forall i | 0 <= i < |bands| :: bands[i].base <= values[i] < bands[i].base + bands[i].spread
  }

  /** Any outcome of the draws has one value per label, and the hourly values lie in [50, 800). */
  lemma DrawsMatchLabels(tf: Timeframe, lang: Lang, cal: Calendar, values: seq<int>)
    requires Draws(values, Visualization(tf, lang, cal).bands)
    ensures |values| == |Visualization(tf, lang, cal).labels|
    ensures tf == TodayFrame ==> forall i | 0 <= i < |values| :: 50 <= values[i] < 800
  {
    if tf == TodayFrame {
      var c := Visualization(tf, lang, cal);
      forall i | 0 <= i < |values|
        ensures 50 <= values[i] < 800
      {
        assert c.bands[i] == HourBand(i);
      }
    }
  }

  /** The hour labels read back, through `parseInt`, as the hours 0 to 23 in order. */
  lemma HourLabelsReadBack(lang: Lang, cal: Calendar)
    ensures var labels := Visualization(TodayFrame, lang, cal).labels;
      forall i | 0 <= i < 24 :: ParseInt(labels[i]) == Some(i)
  {
    var labels := Visualization(TodayFrame, lang, cal).labels;
    forall i | 0 <= i < 24
      ensures ParseInt(labels[i]) == Some(i)
    {
      assert labels[i] == NatToString(i) + ":00";
      ParseIntOfDecimal(i, ":00");
    }
  }

  /** The month labels read back as the day numbers 1 to the month's length. */
  lemma MonthLabelsReadBack(lang: Lang, cal: Calendar)
    ensures var labels := Visualization(MonthFrame, lang, cal).labels;
      forall i | 0 <= i < |labels| ::
        ParseInt(if lang == Zh then labels[i] else labels[i][4..]) == Some(i + 1)
  {
    var labels := Visualization(MonthFrame, lang, cal).labels;
    forall i | 0 <= i < |labels|
      ensures ParseInt(if lang == Zh then labels[i] else labels[i][4..]) == Some(i + 1)
    {
      if lang == Zh {
        ParseIntOfDecimal(i + 1, "日");
      } else {
        assert labels[i][4..] == NatToString(i + 1);
        ParseIntOfDecimal(i + 1, "");
        assert NatToString(i + 1) + "" == NatToString(i + 1);
      }
    }
  }

  // ---------------------------------------------------------------------------
  // handleAIResponse

  /** The keyword groups of the reply chain, in the order they are tried. */
  datatype Intent = ReportIntent | TodayIntent | WeekIntent | MonthIntent | PriceIntent | MarketingIntent | CustomerIntent

  const IntentOrder: seq<Intent> :=
    [ReportIntent, TodayIntent, WeekIntent, MonthIntent, PriceIntent, MarketingIntent, CustomerIntent]

  /** The position of a group in the chain. */
  function Rank(intent: Intent): (k: nat)
    ensures k < |IntentOrder| && IntentOrder[k] == intent
  {
    match intent
    case ReportIntent => 0
    case TodayIntent => 1
    case WeekIntent => 2
    case MonthIntent => 3
    case PriceIntent => 4
    case MarketingIntent => 5
    case CustomerIntent => 6
  }

  function Keywords(intent: Intent): seq<string> {
    match intent
    case ReportIntent => ["report", "laporan", "报告"]
    case TodayIntent => ["today", "hari ini", "今天"]
    case WeekIntent => ["week", "minggu", "周"]
    case MonthIntent => ["month", "bulan", "月"]
    case PriceIntent => ["price", "harga", "价格"]
    case MarketingIntent => ["marketing", "pemasaran", "营销"]
    case CustomerIntent => ["customer", "pelanggan", "客户"]
  }

  /** The position of the first group of `order` with a keyword in `lower`; `|order|` when there is none. */
  function FirstMatch(lower: string, order: seq<Intent>): (k: nat)
    ensures k <= |order|
    ensures k < |order| ==> IncludesAny(lower, Keywords(order[k]))
    ensures forall j | 0 <= j < k :: !IncludesAny(lower, Keywords(order[j]))
    decreases |order|
  {
    if order == [] || IncludesAny(lower, Keywords(order[0])) then 0
    else
      var k := 1 + FirstMatch(lower, order[1..]);
      assert forall j | 1 <= j < k :: order[j] == order[1..][j - 1];
      k
  }

  /** No group of the chain has a keyword in `lower`. */
  predicate NoKeyword(lower: string) {
    forall k | 0 <= k < |IntentOrder| :: !IncludesAny(lower, Keywords(IntentOrder[k]))
  }

  datatype AdviceTopic = PriceAdvice | MarketingAdvice | CustomerAdvice

  /**
   * The assistant's reply. The canned texts (price, marketing, customer,
   * image analysis and help) are fixed per topic and language, so they are
   * named by topic and language rather than spelled out.
   */
  datatype Reply =
    | ReportReply(report: BusinessReport)          // type "report", offered for download
    | ChartReply(text: string, chart: Chart)       // type "chart"
    | AdviceReply(topic: AdviceTopic, lang: Lang)  // type "advice"
    | ImageAnalysisReply(lang: Lang)               // type "imageAnalysis"
    | HelpReply(lang: Lang)                        // type "help"

  function SalesText(tf: Timeframe, lang: Lang, sales: SalesData): string {
    match (tf, lang)
    case (TodayFrame, En) => "Today's sales: $" + NatToString(sales.today)
    case (TodayFrame, Ms) => "Jualan hari ini: $" + NatToString(sales.today)
    case (TodayFrame, Zh) => "今日销售额: $" + NatToString(sales.today)
    case (WeekFrame, En) => "This week's sales: $" + NatToString(sales.thisWeek)
    case (WeekFrame, Ms) => "Jualan minggu ini: $" + NatToString(sales.thisWeek)
    case (WeekFrame, Zh) => "本周销售额: $" + NatToString(sales.thisWeek)
    case (MonthFrame, En) => "This month's sales: $" + NatToString(sales.thisMonth)
    case (MonthFrame, Ms) => "Jualan bulan ini: $" + NatToString(sales.thisMonth)
    case (MonthFrame, Zh) => "本月销售额: $" + NatToString(sales.thisMonth)
  }

  /**
   * The reply of the deciding group: the business report for the report group,
   * the sales figure and chart of its own timeframe for today, week and month,
   * and the advice of its own topic for price, marketing and customers.
   */
  function ReplyFor(intent: Intent, lang: Lang, sales: SalesData, cal: Calendar): (r: Reply)
    ensures r.ReportReply? <==> intent == ReportIntent
    ensures r.ReportReply? ==> r.report.title == ReportHeading(lang)
    ensures r.ChartReply? <==> intent == TodayIntent || intent == WeekIntent || intent == MonthIntent
    ensures r.ChartReply? ==> |r.chart.labels| == |r.chart.bands| && r.chart.datasetLabel == DatasetLabel(lang)
    ensures !r.ImageAnalysisReply? && !r.HelpReply?
    ensures intent == ReportIntent ==> r == ReportReply(GenerateBusinessReport(lang, cal.localeDate, sales))
    ensures intent == TodayIntent ==> r == ChartReply(SalesText(TodayFrame, lang, sales), Visualization(TodayFrame, lang, cal))
    ensures intent == WeekIntent ==> r == ChartReply(SalesText(WeekFrame, lang, sales), Visualization(WeekFrame, lang, cal))
    ensures intent == MonthIntent ==> r == ChartReply(SalesText(MonthFrame, lang, sales), Visualization(MonthFrame, lang, cal))
    ensures intent == PriceIntent ==> r == AdviceReply(PriceAdvice, lang)
    ensures intent == MarketingIntent ==> r == AdviceReply(MarketingAdvice, lang)
    ensures intent == CustomerIntent ==> r == AdviceReply(CustomerAdvice, lang)
  {
    match intent
    case ReportIntent => ReportReply(GenerateBusinessReport(lang, cal.localeDate, sales))
    case TodayIntent => ChartReply(SalesText(TodayFrame, lang, sales), Visualization(TodayFrame, lang, cal))
    case WeekIntent => ChartReply(SalesText(WeekFrame, lang, sales), Visualization(WeekFrame, lang, cal))
    case MonthIntent => ChartReply(SalesText(MonthFrame, lang, sales), Visualization(MonthFrame, lang, cal))
    case PriceIntent => AdviceReply(PriceAdvice, lang)
    case MarketingIntent => AdviceReply(MarketingAdvice, lang)
    case CustomerIntent => AdviceReply(CustomerAdvice, lang)
  }

  /**
   * `handleAIResponse(userInput, lang)`: the first keyword group found in the
   * lower-cased input decides; with none, an uploaded image gets the image
   * analysis and otherwise the help text is returned.
   */
  function AIResponse(input: string, lang: Lang, hasImage: bool, sales: SalesData, cal: Calendar): Reply {
    var k := FirstMatch(ToLower(input), IntentOrder);
    if k < |IntentOrder| then ReplyFor(IntentOrder[k], lang, sales, cal)
    else if hasImage then ImageAnalysisReply(lang)
    else HelpReply(lang)
  }

  /** When group `k` is the earliest with a keyword in the lower-cased input, the reply is that group's, whatever later groups also match. */
  lemma ReplyPriority(input: string, lang: Lang, hasImage: bool, sales: SalesData, cal: Calendar, k: nat)
    requires k < |IntentOrder| && IncludesAny(ToLower(input), Keywords(IntentOrder[k]))
    requires forall j | 0 <= j < k :: !IncludesAny(ToLower(input), Keywords(IntentOrder[j]))
    ensures AIResponse(input, lang, hasImage, sales, cal) == ReplyFor(IntentOrder[k], lang, sales, cal)
  {
    var m := FirstMatch(ToLower(input), IntentOrder);
    assert m == k by {
      assert m <= k;
      assert k <= m;
    }
  }

  /** A report exactly when a report keyword occurs, whatever else the input holds; it carries the heading of the language. */
  lemma ReportExactlyOnReportKeyword(input: string, lang: Lang, hasImage: bool, sales: SalesData, cal: Calendar)
    ensures var r := AIResponse(input, lang, hasImage, sales, cal);
      && (r.ReportReply? <==> IncludesAny(ToLower(input), Keywords(ReportIntent)))
      && (r.ReportReply? ==> r.report.title == ReportHeading(lang))
  {
    var m := FirstMatch(ToLower(input), IntentOrder);
    assert m == 0 <==> IncludesAny(ToLower(input), Keywords(IntentOrder[0]));
    if m < |IntentOrder| {
      assert IntentOrder[m] == ReportIntent <==> m == 0 by { assert m in {0, 1, 2, 3, 4, 5, 6}; }
    }
  }

  /** A question about today that does not ask for a report gets today's sales and the 24-hour chart. */
  lemma TodayQuestionGetsHourlyChart(input: string, lang: Lang, hasImage: bool, sales: SalesData, cal: Calendar)
    requires IncludesAny(ToLower(input), Keywords(TodayIntent))
    requires !IncludesAny(ToLower(input), Keywords(ReportIntent))
    ensures var r := AIResponse(input, lang, hasImage, sales, cal);
      && r.ChartReply? && r.text == SalesText(TodayFrame, lang, sales)
      && |r.chart.labels| == 24 && r.chart.title == ChartTitle(TodayFrame, lang)
  {
    ReplyPriority(input, lang, hasImage, sales, cal, 1);
  }

  /** Without any keyword: the image analysis exactly when an image is set, the help text exactly when not. */
  lemma FallbackReplies(input: string, lang: Lang, hasImage: bool, sales: SalesData, cal: Calendar)
    ensures var r := AIResponse(input, lang, hasImage, sales, cal);
      && (r.ImageAnalysisReply? <==> hasImage && NoKeyword(ToLower(input)))
      && (r.HelpReply? <==> !hasImage && NoKeyword(ToLower(input)))
  {
    var m := FirstMatch(ToLower(input), IntentOrder);
    if m < |IntentOrder| {
      assert !NoKeyword(ToLower(input)) by {
        assert IncludesAny(ToLower(input), Keywords(IntentOrder[m]));
      }
    }
  }

  /** A chart reply always draws one band per label, under the language's dataset label. */
  lemma ChartRepliesMatchLabels(input: string, lang: Lang, hasImage: bool, sales: SalesData, cal: Calendar)
    ensures var r := AIResponse(input, lang, hasImage, sales, cal);
      r.ChartReply? ==> |r.chart.labels| == |r.chart.bands| && r.chart.datasetLabel == DatasetLabel(lang)
  {
  }

  // ---------------------------------------------------------------------------
  // getRecognitionError

  /**
   * The table of speech-recognition error codes. The source lists
   * `'not-allowed'` twice; the later entry is the one an object literal keeps.
   */
  const RecognitionErrors: map<string, string> := map[
    "no-speech" := "No speech was detected",
    "audio-capture" := "No microphone was found",
    "not-allowed" := "Permission to use microphone was denied",
    "aborted" := "Listening was aborted",
    "network" := "Network communication failed",
    "not-allowed" := "User denied permission",
    "service-not-allowed" := "Browser doesn't support speech recognition",
    "bad-grammar" := "Error in speech recognition grammar",
    "language-not-supported" := "Language not supported"]

  const FallbackPrefix: string := "Error occurred ("

  function RecognitionError(code: string): (msg: string) {
    if code in RecognitionErrors then RecognitionErrors[code] else FallbackPrefix + code + ")"
  }

  /** A known code gets its message; an unknown one the fallback that names it, and only then does the fallback appear. */
  lemma RecognitionErrorSpec(code: string)
    ensures code in RecognitionErrors ==> RecognitionError(code) == RecognitionErrors[code]
    ensures FallbackPrefix <= RecognitionError(code) <==> code !in RecognitionErrors
    ensures code !in RecognitionErrors ==> RecognitionError(code)[|FallbackPrefix|..|FallbackPrefix| + |code|] == code
    ensures RecognitionError("not-allowed") == "User denied permission"
  {
    var msg := RecognitionError(code);
    if code in RecognitionErrors {
      assert forall c | c in RecognitionErrors :: RecognitionErrors[c][0] != 'E' || RecognitionErrors[c][6] != ' ';
      assert msg[0] != 'E' || msg[6] != ' ';
    } else {
      assert msg == FallbackPrefix + (code + ")");
      assert (FallbackPrefix + code + ")")[|FallbackPrefix|..|FallbackPrefix| + |code|] == code;
    }
  }

  // ---------------------------------------------------------------------------
  // Texts the component shows around sends and uploads

  function TooLargeText(lang: Lang): string {
    match lang
    case En => "Image size too large. Please upload an image under 5MB."
    case Ms => "Saiz imej terlalu besar. Sila muat naik imej di bawah 5MB."
    case Zh => "图片太大。请上传小于5MB的图片。"
  }

  function NotAnImageText(lang: Lang): string {
    match lang
    case En => "Please upload an image file (JPEG, PNG, etc.)"
    case Ms => "Sila muat naik fail imej (JPEG, PNG, dll.)"
    case Zh => "请上传图片文件(JPEG, PNG等)"
  }

  function ClearHistoryPrompt(lang: Lang): string {
    match lang
    case En => "Are you sure you want to clear all chat history?"
    case Ms => "Adakah anda pasti mahu memadam semua sejarah sembang?"
    case Zh => "您确定要清除所有聊天记录吗？"
  }
}
