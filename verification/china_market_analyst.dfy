/**
 * The China-market analyst and stock-screener nodes
 * (china_market_analyst_optimized.py): which prompt and analyst name a mode
 * selects, how the company name of a ticker is resolved, how the bound tools
 * are listed, and the records the nodes return.
 *
 * The language model, the market classifier and the name services are
 * parameters: `MarketInfo` is what the market classifier says of the ticker,
 * `NameSources` what each name service answers, and `llm` maps the request a
 * node builds to the model's reply. The prompt texts are abstract values.
 */
module ChinaMarketAnalyst {
  import opened Wrappers
  import opened Strings
  import opened Messages

  // ---------------------------------------------------------------------------
  // Prompt and analyst-name selection
  // ---------------------------------------------------------------------------

  /** The three system prompts of the module. */
  datatype SystemPrompt = QuickScreeningPrompt | DeepAnalysisPrompt | StockScreenerPrompt

  /** What create_china_market_analyst fixes once, before any node runs. */
  datatype AnalystConfig = AnalystConfig(mode: string, prompt: SystemPrompt, analystName: string)

  const QuickAnalystName: string := "中国市场快速评估师"
  const DeepAnalystName: string := "中国市场深度分析师"

  /** Mode exactly "deep" selects deep analysis; every other mode string selects quick screening. */
  function CreateChinaMarketAnalyst(mode: string): (a: AnalystConfig)
    ensures a.mode == mode
    ensures a.prompt == DeepAnalysisPrompt <==> mode == "deep"
    ensures a.analystName == DeepAnalystName <==> mode == "deep"
    ensures a.prompt != StockScreenerPrompt
    ensures a.prompt == QuickScreeningPrompt <==> a.analystName == QuickAnalystName
  {
    if mode == "deep" then AnalystConfig(mode, DeepAnalysisPrompt, DeepAnalystName)
    else AnalystConfig(mode, QuickScreeningPrompt, QuickAnalystName)
  }

  /** create_quick_analyst: the analyst of mode "quick". */
  function CreateQuickAnalyst(): (a: AnalystConfig)
    ensures a == CreateChinaMarketAnalyst("quick")
    ensures a.prompt == QuickScreeningPrompt && a.analystName == QuickAnalystName && a.mode == "quick"
  {
    CreateChinaMarketAnalyst("quick")
  }

  /** create_deep_analyst: the analyst of mode "deep". */
  function CreateDeepAnalyst(): (a: AnalystConfig)
    ensures a == CreateChinaMarketAnalyst("deep")
    ensures a.prompt == DeepAnalysisPrompt && a.analystName == DeepAnalystName && a.mode == "deep"
  {
    CreateChinaMarketAnalyst("deep")
  }

  // ---------------------------------------------------------------------------
  // Tool names
  // ---------------------------------------------------------------------------

  /** A bound tool: its `name` attribute, its `__name__` attribute (each may be absent) and its `str` text. */
  datatype Tool = Tool(name: Option<string>, dunderName: Option<string>, text: string)

  /** The name a tool is listed under: `name`, else `__name__`, else `str(tool)`. */
  function ToolName(t: Tool): (n: string)
  {
    match (t.name, t.dunderName)
    case (Some(n), _) => n
    case (None, Some(n)) => n
    case (None, None) => t.text
  }

  function ToolNameList(tools: seq<Tool>): (names: seq<string>)
    ensures |names| == |tools|
    ensures forall i :: 0 <= i < |tools| ==> names[i] == ToolName(tools[i])
  {
    if |tools| == 0 then [] else [ToolName(tools[0])] + ToolNameList(tools[1..])
  }

  /**
   * _get_tool_names: one entry per tool, in order, joined with ", ". Every
   * tool's name occurs in the result; the empty list gives "".
   */
  method GetToolNames(tools: seq<Tool>) returns (joined: string)
    ensures joined == Join(ToolNameList(tools), ", ")
    ensures |tools| == 0 ==> joined == ""
    ensures forall i :: 0 <= i < |tools| ==> Contains(joined, ToolName(tools[i]))
    ensures |tools| > 0 ==> |joined| == TotalLength(ToolNameList(tools)) + 2 * (|tools| - 1)
  {
    var names: seq<string> := [];
    for i := 0 to |tools|
      invariant names == ToolNameList(tools[..i])
    {
      var tool := tools[i];
      var name;
      if tool.name.Some? {
        name := tool.name.value;
      } else if tool.dunderName.Some? {
        name := tool.dunderName.value;
      } else {
        name := tool.text;
      }
      ToolNameListSnoc(tools, i);
      names := names + [name];
    }
    assert tools[..|tools|] == tools;
    joined := Join(names, ", ");
    forall i | 0 <= i < |tools| ensures Contains(joined, ToolName(tools[i])) {
      JoinContainsEach(names, ", ", i);
    }
    if |tools| > 0 {
      JoinLength(names, ", ");
    }
  }

  lemma ToolNameListSnoc(tools: seq<Tool>, i: nat)
    requires i < |tools|
    ensures ToolNameList(tools[..i + 1]) == ToolNameList(tools[..i]) + [ToolName(tools[i])]
  {
    var a := ToolNameList(tools[..i + 1]);
    var b := ToolNameList(tools[..i]) + [ToolName(tools[i])];
    assert |a| == |b|;
    forall k | 0 <= k < |a| ensures a[k] == b[k] {
      assert tools[..i + 1][k] == tools[k];
    }
  }

  // ---------------------------------------------------------------------------
  // Company-name resolution
  // ---------------------------------------------------------------------------

  /** What the market classifier says of a ticker. */
  datatype MarketInfo = MarketInfo(isChina: bool, isHk: bool, isUs: bool)

  /**
   * The answers of the name services for one ticker: the unified China
   * lookup (its text, or None), the dictionary fallback (its "name" entry,
   * None when the dictionary or the entry is missing) and the Hong Kong
   * lookup. Each may raise instead.
   */
  datatype NameSources = NameSources(
    unifiedInfo: Attempt<Option<string>>,
    infoDictName: Attempt<Option<string>>,
    hkName: Attempt<string>)

  const NameMarker: string := "股票名称:"

  /**
   * `line` is the head of `rest` up to the next newline or the next marker
   * (all of `rest` when neither follows).
   */
  predicate NameLine(rest: string, line: string) {
    && IsPrefix(line, rest) && !Contains(line, "\n") && !Contains(line, NameMarker)
    && (|line| == |rest| || OccursAt(rest, "\n", |line|) || OccursAt(rest, NameMarker, |line|))
  }

  /**
   * The name in a unified-lookup text: after the first "股票名称:", up to the
   * next newline or the next marker, with surrounding whitespace stripped.
   */
  function ParseStockName(info: string): (name: string)
    requires Contains(info, NameMarker)
    ensures exists line :: NameLine(info[IndexOf(info, NameMarker).value + |NameMarker|..], line) && name == Strip(line)
    ensures Contains(info[IndexOf(info, NameMarker).value + |NameMarker|..], name)
    ensures !Contains(name, "\n") && !Contains(name, NameMarker)
    ensures name == [] || (!IsSpace(name[0]) && !IsSpace(name[|name| - 1]))
  {
    NameInText(info);
    NameIsClean(info);
    NameLineOf(info);
    Strip(FirstPiece(SecondPiece(info, NameMarker), "\n"))
  }

  /** The first line of the piece after the marker is the name line of the text after it. */
  lemma NameLineOf(info: string)
    requires Contains(info, NameMarker)
    ensures NameLine(info[IndexOf(info, NameMarker).value + |NameMarker|..],
                     FirstPiece(SecondPiece(info, NameMarker), "\n"))
  {
    var rest := info[IndexOf(info, NameMarker).value + |NameMarker|..];
    var piece := SecondPiece(info, NameMarker);
    FirstLineOfPiece(rest, piece, FirstPiece(piece, "\n"));
  }

  /** The first line of a marker-free head of `rest` that ends at a marker (or at the end) is the name line. */
  lemma FirstLineOfPiece(rest: string, piece: string, line: string)
    requires IsPrefix(piece, rest) && !Contains(piece, NameMarker)
    requires |piece| == |rest| || OccursAt(rest, NameMarker, |piece|)
    requires line == FirstPiece(piece, "\n")
    ensures NameLine(rest, line)
  {
    PrefixContained(line, piece);
    LacksTrans(piece, line, NameMarker);
    assert rest[..|line|] == line by {
      assert rest[..|piece|][..|line|] == rest[..|line|];
    }
    assert OccursAt(piece, "\n", |line|) ==> OccursAt(rest, "\n", |line|) by {
      if OccursAt(piece, "\n", |line|) {
        assert rest[|line|..|line| + 1] == piece[|line|..|line| + 1];
      }
    }
  }

  /** Two name lines of the same text are equal, so the parsed name is determined by the text. */
  lemma NameLineUnique(rest: string, a: string, b: string)
    requires NameLine(rest, a) && NameLine(rest, b)
    ensures a == b
  {
    NameLineNoLonger(rest, a, b);
    NameLineNoLonger(rest, b, a);
    assert a == rest[..|a|];
  }

  lemma NameLineNoLonger(rest: string, a: string, b: string)
    requires NameLine(rest, a) && NameLine(rest, b)
    ensures |b| <= |a|
  {
    var i := |a|;
    var j := |b|;
    OccursInPrefix(rest, b, "\n", i);
    OccursInPrefix(rest, b, NameMarker, i);
    assert OccursAt(rest, NameMarker, i) && i < j < i + |NameMarker| ==> rest[j] == NameMarker[j - i] by {
      if OccursAt(rest, NameMarker, i) && i < j < i + |NameMarker| {
        assert rest[i..i + |NameMarker|][j - i] == rest[j];
      }
    }
    assert OccursAt(rest, "\n", j) ==> rest[j] == '\n' by {
      if OccursAt(rest, "\n", j) {
        assert rest[j..j + 1][0] == rest[j];
      }
    }
    assert OccursAt(rest, NameMarker, j) ==> rest[j] == '股' by {
      if OccursAt(rest, NameMarker, j) {
        assert rest[j..j + |NameMarker|][0] == rest[j];
      }
    }
  }

  /** The parsed name lies in the text after the first marker. */
  lemma NameInText(info: string)
    requires Contains(info, NameMarker)
    ensures Contains(info[IndexOf(info, NameMarker).value + |NameMarker|..],
                     Strip(FirstPiece(SecondPiece(info, NameMarker), "\n")))
  {
    var rest := info[IndexOf(info, NameMarker).value + |NameMarker|..];
    var piece := SecondPiece(info, NameMarker);
    var line := FirstPiece(piece, "\n");
    PrefixContained(piece, rest);
    PrefixContained(line, piece);
    StripContained(line);
    ContainsTrans(rest, piece, line);
    ContainsTrans(rest, line, Strip(line));
  }

  /** The parsed name holds neither a newline nor the marker. */
  lemma NameIsClean(info: string)
    requires Contains(info, NameMarker)
    ensures var name := Strip(FirstPiece(SecondPiece(info, NameMarker), "\n"));
      !Contains(name, "\n") && !Contains(name, NameMarker)
  {
    var piece := SecondPiece(info, NameMarker);
    var line := FirstPiece(piece, "\n");
    PrefixContained(line, piece);
    StripContained(line);
    ContainsTrans(piece, line, Strip(line));
    LacksTrans(line, Strip(line), "\n");
    LacksTrans(piece, Strip(line), NameMarker);
  }

  /**
   * The Hong Kong ticker with every ".HK" and then every ".hk" removed; it
   * never grows, and a ticker without '.' is kept as it is.
   */
  function CleanHkTicker(ticker: string): (code: string)
    ensures |code| <= |ticker|
    ensures '.' !in ticker ==> code == ticker
  {
    assert '.' !in ticker ==> RemoveAll(RemoveAll(ticker, ".HK"), ".hk") == ticker by {
      if '.' !in ticker {
        NotContainsMissingChar(ticker, ".HK", 0);
        NotContainsMissingChar(ticker, ".hk", 0);
        RemoveAllAbsent(ticker, ".HK");
        RemoveAllAbsent(ticker, ".hk");
      }
    }
    RemoveAll(RemoveAll(ticker, ".HK"), ".hk")
  }

  /**
   * Removal is a single left-to-right pass: an occurrence that only forms
   * once another is removed is kept, so "..HKHK" becomes ".HK".
   */
  lemma CleanHkTickerSinglePass()
    ensures CleanHkTicker("..HKHK") == ".HK"
  {
    SinglePassParts("..HKHK", ".HKHK", "HK", ".HK");
  }

  lemma SinglePassParts(t: string, t1: string, t4: string, r: string)
    requires t == "..HKHK" && t1 == ".HKHK" && t4 == "HK" && r == ".HK"
    ensures CleanHkTicker(t) == r
  {
    assert t[..3] != ".HK" by { assert t[1] == '.'; }
    assert !IsPrefix(".HK", t);
    assert t[1..] == t1;
    assert IsPrefix(".HK", t1) by { assert t1[..3] == ".HK"; }
    assert t1[3..] == t4;
    NotContainsMissingChar(t4, ".HK", 0);
    RemoveAllAbsent(t4, ".HK");
    assert RemoveAll(t1, ".HK") == t4;
    assert RemoveAll(t, ".HK") == [t[0]] + t4;
    assert [t[0]] + t4 == r;
    NotContainsMissingChar(r, ".hk", 1);
    RemoveAllAbsent(r, ".hk");
  }

  /** The fixed table of US names, keyed by upper-case ticker. */
  const UsStockNames: map<string, string> := map[
    "AAPL" := "苹果公司", "TSLA" := "特斯拉", "NVDA" := "英伟达",
    "MSFT" := "微软", "GOOGL" := "谷歌", "AMZN" := "亚马逊",
    "META" := "Meta", "NFLX" := "奈飞"]

  /** The US name: the table entry of the upper-cased ticker, else "美股" and the ticker as given. */
  function UsName(ticker: string): (name: string)
    ensures Upper(ticker) in UsStockNames ==> name == UsStockNames[Upper(ticker)] && name in UsStockNames.Values
    ensures Upper(ticker) !in UsStockNames ==> name == "美股" + ticker
    ensures |name| > 0 && (name[0] == '美' <==> Upper(ticker) !in UsStockNames)
  {
    if Upper(ticker) in UsStockNames then UsStockNames[Upper(ticker)] else "美股" + ticker
  }

  /** A name a service answered: parsed from the unified text, the dictionary's, or the Hong Kong lookup's. */
  predicate ServiceName(sources: NameSources, name: string) {
    || (&& sources.unifiedInfo.Returned? && sources.unifiedInfo.value.Some?
        && Contains(sources.unifiedInfo.value.value, NameMarker)
        && name == ParseStockName(sources.unifiedInfo.value.value))
    || (sources.infoDictName == Returned(Some(name)) && |name| > 0)
    || sources.hkName == Returned(name)
  }

  /** The names built from the ticker when no service gives one. */
  predicate FallbackName(ticker: string, name: string) {
    || name == "股票" + ticker || name == "股票代码" + ticker
    || name == "港股" + CleanHkTicker(ticker) || name == "美股" + ticker
  }

  /**
   * _get_company_name_for_china_market. The branches are tried in the order
   * China, Hong Kong, US; a failure of the unified China lookup escapes to
   * the outer handler, which answers "股票" and the ticker, as does a ticker
   * in no known market.
   */
  function CompanyName(ticker: string, market: MarketInfo, sources: NameSources): (name: string)
    ensures ServiceName(sources, name) || name in UsStockNames.Values || FallbackName(ticker, name)
  {
    if market.isChina then
      match sources.unifiedInfo
      case Raised(_) => "股票" + ticker
      case Returned(info) =>
        if info.Some? && Contains(info.value, NameMarker) then ParseStockName(info.value)
        else
          match sources.infoDictName
          case Returned(Some(n)) => if |n| > 0 then n else "股票代码" + ticker
          case _ => "股票代码" + ticker
    else if market.isHk then
      match sources.hkName
      case Returned(n) => n
      case Raised(_) => "港股" + CleanHkTicker(ticker)
    else if market.isUs then UsName(ticker)
    else "股票" + ticker
  }

  /**
   * Branch order: an earlier market flag decides alone; the later flags and
   * the answers of the services of later branches do not matter.
   */
  lemma MarketBranchOrder(ticker: string, m1: MarketInfo, m2: MarketInfo, s1: NameSources, s2: NameSources)
    ensures m1.isChina && m2.isChina && s1.unifiedInfo == s2.unifiedInfo && s1.infoDictName == s2.infoDictName
      ==> CompanyName(ticker, m1, s1) == CompanyName(ticker, m2, s2)
    ensures !m1.isChina && !m2.isChina && m1.isHk && m2.isHk && s1.hkName == s2.hkName
      ==> CompanyName(ticker, m1, s1) == CompanyName(ticker, m2, s2)
    ensures !m1.isChina && !m1.isHk && m1.isUs ==> CompanyName(ticker, m1, s1) == UsName(ticker)
    ensures !m1.isChina && !m1.isHk && !m1.isUs ==> CompanyName(ticker, m1, s1) == "股票" + ticker
  {
  }

  /**
   * A Hong Kong name is the lookup's answer when it returns, else "港股" and
   * the ticker with its ".HK" and ".hk" suffixes removed.
   */
  lemma HkNameChoice(ticker: string, market: MarketInfo, sources: NameSources)
    requires !market.isChina && market.isHk
    ensures CompanyName(ticker, market, sources)
      == if sources.hkName.Returned? then sources.hkName.value else "港股" + CleanHkTicker(ticker)
  {
  }

  /** A failing unified China lookup gives "股票" and the ticker, whatever the fallback would say. */
  lemma ChinaLookupFailure(ticker: string, market: MarketInfo, sources: NameSources)
    requires market.isChina && sources.unifiedInfo.Raised?
    ensures CompanyName(ticker, market, sources) == "股票" + ticker
  {
  }

  /**
   * A China name is the parsed name when the text carries the marker, else
   * the non-empty fallback name, else "股票代码" and the ticker.
   */
  lemma ChinaNameChoice(ticker: string, market: MarketInfo, sources: NameSources)
    requires market.isChina && sources.unifiedInfo.Returned?
    ensures var info := sources.unifiedInfo.value;
      var name := CompanyName(ticker, market, sources);
      if info.Some? && Contains(info.value, NameMarker) then
        name == ParseStockName(info.value) && !Contains(name, "\n")
      else if sources.infoDictName.Returned? && sources.infoDictName.value.Some? && |sources.infoDictName.value.value| > 0 then
        name == sources.infoDictName.value.value
      else
        name == "股票代码" + ticker
  {
  }

  /** Example: a multi-line unified-lookup text yields the name on its marker line. */
  lemma ParseStockNameExample()
    ensures Contains("股票名称: 贵州茅台\n行业: 白酒", NameMarker)
      && ParseStockName("股票名称: 贵州茅台\n行业: 白酒") == "贵州茅台"
  {
    OccursContains("股票名称: 贵州茅台\n行业: 白酒", NameMarker, 0);
    ExampleMarkerLine();
    ExampleStrip();
  }

  lemma ExampleMarkerLine()
    ensures FirstPiece(SecondPiece("股票名称: 贵州茅台\n行业: 白酒", NameMarker), "\n") == " 贵州茅台"
  {
    var line := " 贵州茅台";
    var rest := line + "\n行业: 白酒";
    ExampleAfterMarker(rest);
    ExampleFirstLine(line, rest);
  }

  lemma ExampleAfterMarker(rest: string)
    requires rest == " 贵州茅台\n行业: 白酒"
    ensures SecondPiece("股票名称: 贵州茅台\n行业: 白酒", NameMarker) == rest
  {
    var info := "股票名称: 贵州茅台\n行业: 白酒";
    assert info == NameMarker + rest;
    assert OccursAt(info, NameMarker, 0);
    FirstOccurrence(info, NameMarker, 0);
    assert info[|NameMarker|..] == rest;
    NotContainsMissingChar(rest, NameMarker, 0);
  }

  lemma ExampleFirstLine(line: string, rest: string)
    requires line == " 贵州茅台" && rest == line + "\n行业: 白酒"
    ensures FirstPiece(rest, "\n") == line
  {
    assert OccursAt(rest, "\n", 5);
    assert '\n' !in line;
    forall j | 0 <= j < 5 ensures !OccursAt(rest, "\n", j) {
      assert rest[j..j + 1][0] == line[j] && line[j] in line;
    }
    FirstOccurrence(rest, "\n", 5);
    assert rest[..5] == line;
  }

  lemma ExampleStrip()
    ensures Strip(" 贵州茅台") == "贵州茅台"
  {
    var line := " 贵州茅台";
    var name := line[1..];
    assert name == "贵州茅台";
    assert IsSpace(line[0]);
    assert !IsSpace(name[0]);
    assert TrimStart(line) == TrimStart(name);
    assert TrimStart(name) == name;
    assert !IsSpace(name[|name| - 1]);
    assert TrimEnd(name) == name;
  }

  /**
   * When the Hong Kong lookup fails, a ticker "<code>.HK" or "<code>.hk"
   * (code without '.') is named "港股<code>".
   */
  lemma HkFallbackName(code: string, market: MarketInfo, sources: NameSources)
    requires '.' !in code
    requires !market.isChina && market.isHk && sources.hkName.Raised?
    ensures CompanyName(code + ".HK", market, sources) == "港股" + code
    ensures CompanyName(code + ".hk", market, sources) == "港股" + code
  {
    CleanUpperSuffix(code);
    CleanLowerSuffix(code);
  }

  lemma CleanUpperSuffix(code: string)
    requires '.' !in code
    ensures CleanHkTicker(code + ".HK") == code
  {
    RemoveAllKeepsPrefix(code, ".HK", ".HK");
    assert IsPrefix(".HK", ".HK") && ".HK"[3..] == [];
    RemoveAllKeepsPrefix(code, [], ".hk");
    assert code + [] == code;
  }

  lemma CleanLowerSuffix(code: string)
    requires '.' !in code
    ensures CleanHkTicker(code + ".hk") == code
  {
    RemoveAllKeepsPrefix(code, ".hk", ".HK");
    assert !IsPrefix(".HK", ".hk") && ".hk"[1..] == "hk";
    assert !IsPrefix(".HK", "hk") && "hk"[1..] == "k";
    assert !IsPrefix(".HK", "k") && "k"[1..] == [];
    assert RemoveAll(".hk", ".HK") == ".hk";
    RemoveAllKeepsPrefix(code, ".hk", ".hk");
    assert IsPrefix(".hk", ".hk") && ".hk"[3..] == [];
  }

  /** The US table is read case-insensitively; a miss keeps the ticker as it was given. */
  lemma UsNameExamples()
    ensures UsName("aapl") == "苹果公司"
    ensures UsName("Nvda") == "英伟达"
    ensures UsName("baba") == "美股baba"
  {
    AppleName();
    UpperExample("Nvda", "NVDA");
    UnlistedName();
  }

  lemma AppleName()
    ensures UsName("aapl") == "苹果公司"
  {
    UpperExample("aapl", "AAPL");
  }

  lemma UnlistedName()
    ensures UsName("baba") == "美股baba"
  {
    UpperExample("baba", "BABA");
    assert "BABA" !in UsStockNames;
  }

  /** Upper-casing a four-letter ticker, one character at a time. */
  lemma UpperExample(s: string, u: string)
    requires |s| == 4 == |u| && forall k :: 0 <= k < 4 ==> UpperChar(s[k]) == u[k]
    ensures Upper(s) == u
  {
  }

  // ---------------------------------------------------------------------------
  // The analyst and screener nodes
  // ---------------------------------------------------------------------------

  /** The toolkit functions the nodes bind. */
  datatype Toolkit = Toolkit(getChinaStockData: Tool, getChinaMarketOverview: Tool, getYFinData: Tool)

  /** The graph state a node reads. */
  datatype AgentState = AgentState(tradeDate: string, companyOfInterest: string, messages: seq<Message>)

  /** What the analyst node gives the model: the prompt and its filled-in fields, the bound tools, the conversation. */
  datatype AnalystRequest = AnalystRequest(
    prompt: SystemPrompt,
    currentDate: string,
    ticker: string,
    companyName: string,
    toolNames: string,
    tools: seq<Tool>,
    messages: seq<Message>)

  /** The record the analyst node returns. */
  datatype AnalystOutput = AnalystOutput(
    messages: seq<Message>,
    chinaMarketReport: string,
    sender: string,
    analysisMode: string)

  function AnalystTools(toolkit: Toolkit): seq<Tool> {
    [toolkit.getChinaStockData, toolkit.getChinaMarketOverview, toolkit.getYFinData]
  }

  function AnalystRequestFor(a: AnalystConfig, state: AgentState, toolkit: Toolkit,
                             market: MarketInfo, sources: NameSources): (req: AnalystRequest)
    ensures req.prompt == a.prompt && req.ticker == state.companyOfInterest && req.currentDate == state.tradeDate
    ensures req.companyName == CompanyName(state.companyOfInterest, market, sources)
    ensures req.toolNames == Join(ToolNameList(AnalystTools(toolkit)), ", ")
    ensures req.tools == AnalystTools(toolkit) && req.messages == state.messages
  {
    var ticker := state.companyOfInterest;
    var tools := AnalystTools(toolkit);
    AnalystRequest(a.prompt, state.tradeDate, ticker, CompanyName(ticker, market, sources),
                   Join(ToolNameList(tools), ", "), tools, state.messages)
  }

  /**
   * The analyst node on the non-Google path: the report is the model's text
   * when it asked for no tools and "" when it did; the mode is echoed.
   */
  function AnalystNode(a: AnalystConfig, state: AgentState, toolkit: Toolkit, market: MarketInfo,
                       sources: NameSources, llm: AnalystRequest -> ModelReply): (out: AnalystOutput)
    ensures var reply := llm(AnalystRequestFor(a, state, toolkit, market, sources));
      && out.messages == [Ai(reply)]
      && (|reply.toolCalls| == 0 ==> out.chinaMarketReport == reply.content)
      && (|reply.toolCalls| > 0 ==> out.chinaMarketReport == "")
    ensures out.sender == "ChinaMarketAnalyst" && out.analysisMode == a.mode
  {
    var result := llm(AnalystRequestFor(a, state, toolkit, market, sources));
    var report := if |result.toolCalls| == 0 then result.content else "";
    AnalystOutput([Ai(result)], report, "ChinaMarketAnalyst", a.mode)
  }

  /** Every mode string reaches the node record unchanged, also one that selected the quick prompt by default. */
  lemma AnalysisModeEchoed(mode: string, state: AgentState, toolkit: Toolkit, market: MarketInfo,
                           sources: NameSources, llm: AnalystRequest -> ModelReply)
    ensures AnalystNode(CreateChinaMarketAnalyst(mode), state, toolkit, market, sources, llm).analysisMode == mode
    ensures mode != "deep" ==>
      AnalystRequestFor(CreateChinaMarketAnalyst(mode), state, toolkit, market, sources).prompt == QuickScreeningPrompt
  {
  }

  /** What the screener node gives the model. */
  datatype ScreenerRequest = ScreenerRequest(
    prompt: SystemPrompt,
    currentDate: string,
    toolNames: string,
    tools: seq<Tool>,
    messages: seq<Message>)

  /** The record the screener node returns. */
  datatype ScreenerOutput = ScreenerOutput(messages: seq<Message>, stockScreeningReport: string, sender: string)

  function ScreenerRequestFor(state: AgentState, toolkit: Toolkit): (req: ScreenerRequest)
    ensures req.prompt == StockScreenerPrompt && req.currentDate == state.tradeDate
    ensures req.tools == [toolkit.getChinaMarketOverview] && req.toolNames == ToolName(toolkit.getChinaMarketOverview)
    ensures req.messages == state.messages
  {
    var tools := [toolkit.getChinaMarketOverview];
    ScreenerRequest(StockScreenerPrompt, state.tradeDate, Join(ToolNameList(tools), ", "), tools, state.messages)
  }

  /** The screener node: it always reports the model's text, whatever tools it asked for. */
  function ScreenerNode(state: AgentState, toolkit: Toolkit, llm: ScreenerRequest -> ModelReply): (out: ScreenerOutput)
    ensures var reply := llm(ScreenerRequestFor(state, toolkit));
      out.messages == [Ai(reply)] && out.stockScreeningReport == reply.content
    ensures out.sender == "ChinaStockScreener"
  {
    var result := llm(ScreenerRequestFor(state, toolkit));
    ScreenerOutput([Ai(result)], result.content, "ChinaStockScreener")
  }
}
