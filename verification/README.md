# China-market analyst prompts and their evaluator, in Dafny

This project models the deterministic core of a language-model stock-analysis agent for the Chinese A-share market.

- **The analyst and screener nodes** (`china_market_analyst_optimized.py`):
  - the analysis mode picks a system prompt and an analyst name;
  - the company name of a ticker is resolved through a chain of name services with fallbacks;
  - the bound tools are listed by name;
  - each node returns a record built from the model's reply.
- **The evaluator** (`prompt_evaluator.py`):
  - grades a model's text output with three heuristic scores: completeness, format compliance and data accuracy;
  - reads a buy/hold/sell recommendation and a confidence out of the text;
  - answers the model's tool calls;
  - estimates token counts;
  - summarises an A/B comparison of two prompt versions;
  - computes realised and strategy returns for a backtest.

Everything outside the core is a parameter of the model. That covers the language model, the toolkit functions, the market classifier, the name services and the price source. A call that may raise becomes an `Attempt` (`Returned(value)` or `Raised(message)`). Scores and returns are exact `real`s. Strings are `seq<char>`, one element per code point, as in Python's `str`.

Modules:

- `Wrappers`: `Option` and `Attempt`.
- `Strings`: the Python string operations the code relies on. These are `in`, `split(sep)[0]` and `[1]`, `strip()`, `replace(p, "")`, `upper()` and `join`, with their properties.
- `Messages`: tool calls, model replies and tool messages.
- `PromptEvaluator`: the scores, the recommendation, tool-call dispatch, token estimates, the graded record and the A/B summary.
- `BacktestEvaluator`: realised return, strategy return and the backtest rows.
- `ChinaMarketAnalyst`: mode selection, tool names, company-name resolution and the node records.

Loops in the source are methods with loop invariants, each proved equal to a specification function: format compliance, data accuracy, tool-call dispatch, the A/B summary, the backtest rows and the tool-name list. Everything else is functions and lemmas.

Observations the proofs make precise:

- **The format cap never binds.** The weights of each mode add up to exactly 1.0, so the `min(score, 1.0)` cap in `check_format_compliance` has no effect.
- **Data accuracy tops out at 0.5.** It never exceeds 0.5, although the docstring promises a score from 0 to 1. 0.5 is also the neutral score given when there is no ground truth.
- **Unknown modes fall back differently.** For a mode other than "quick" and "deep", completeness uses the quick keywords but format compliance uses the deep checks.
- **Three stars read as a sell.** The quick prompt asks for a star rating, but a three-star rating in that format reads as 卖出 (sell). "不推荐" (not recommended) reads as 买入 (buy).
- **`.HK` removal is a single pass.** Python's `replace` scans once from left to right, so an occurrence that only forms after a removal is kept: "..HKHK" becomes ".HK". The model removes occurrences the same way. `CleanHkTickerSinglePass` proves this example. The HK fallback lemma states the usual case, a code without '.'.

## Model

| member | source | states |
|---|---|---|
| `PromptEvaluator.Completeness` | prompt_evaluator.py:116-118 | The score is the number of the mode's keywords found in the output divided by the number of keywords: the score times the keyword count equals the number present. It lies in [0, 1], is 1 exactly when every keyword occurs, and is 0 exactly when none does. |
| `PromptEvaluator.KeywordShareFacts` | prompt_evaluator.py:116-118 | For any non-empty keyword list, the share found times the number of keywords is the number of keywords present. The share is 1 exactly when all are present and 0 exactly when none are. |
| `PromptEvaluator.CompletenessGrows` | prompt_evaluator.py:116-118 | Appending text to an output never lowers its completeness. |
| `PromptEvaluator.UnknownModeFallbacksDiffer` | prompt_evaluator.py:116-144 | For a mode other than "quick" and "deep", completeness uses the quick keyword list while format compliance uses the deep checks, which differ from the quick ones. |
| `PromptEvaluator.FormatScore` | prompt_evaluator.py:131-156 | The format score lies in [0, 1]. |
| `PromptEvaluator.CheckFormatCompliance` | prompt_evaluator.py:131-156 | The loop returns the capped sum of the weights of the checks that hold. The result lies in [0, 1]. |
| `PromptEvaluator.SatisfyingOneCheckAddsItsWeight` | prompt_evaluator.py:152-154 | Checks are independent: making one failing check hold raises the sum by exactly its weight, whatever the other checks do. |
| `PromptEvaluator.SatisfiedWeightBounds` | prompt_evaluator.py:152-156 | With non-negative weights, the satisfied weight lies between 0 and the total weight. |
| `PromptEvaluator.FormatCapIsInert` | prompt_evaluator.py:134-156 | In both modes the weights add up to exactly 1.0, so the score equals the uncapped sum of the satisfied weights. |
| `PromptEvaluator.EmptyQuickOutputScore` | prompt_evaluator.py:134-141 | An empty quick-mode output scores 0.3: only the length check holds. |
| `PromptEvaluator.NonQuickModeUsesDeepChecks` | prompt_evaluator.py:142-150 | Every mode other than "quick" gets the same checks and score as "deep". |
| `PromptEvaluator.Accuracy` | prompt_evaluator.py:169-182 | Empty ground truth gives the neutral 0.5. Otherwise the score times the number of metrics is half the number of metrics whose value or name occurs in the output. |
| `PromptEvaluator.AccuracyBounds` | prompt_evaluator.py:169-182 | Accuracy lies in [0, 0.5]. With ground truth it is 0.5 exactly when every metric's name or value occurs, and 0 exactly when none does. |
| `PromptEvaluator.CheckDataAccuracy` | prompt_evaluator.py:169-182 | Empty ground truth gives 0.5. Otherwise the loop gives 0.5 × (metrics whose value or name occurs) / (number of metrics), in whatever order the keys are visited. |
| `PromptEvaluator.ExtractRecommendation` | prompt_evaluator.py:191-208 | The recommendation is always 买入, 持有 or 卖出, and the confidence is one of 0.5, 0.6, 0.7 and 0.8. |
| `PromptEvaluator.ExtractRecommendationIsFirstMatch` | prompt_evaluator.py:191-208 | The result equals that of the priority table read top-down: strong buy, buy, sell, neutral, and (持有, 0.5) when no rule matches. |
| `PromptEvaluator.FirstMatchingRule` | prompt_evaluator.py:195-206 | The index found is that of a rule with a keyword in the output, and no earlier rule has one. |
| `PromptEvaluator.FirstMatchingRuleExtends` | prompt_evaluator.py:195-206 | Adding text before or after an output never moves the decision to a lower-priority rule. |
| `PromptEvaluator.StrongBuyIsStable` | prompt_evaluator.py:195-197 | An output read as (买入, 0.8) keeps that reading whatever text surrounds it. |
| `PromptEvaluator.ThreeStarRatingReadsAsSell` | prompt_evaluator.py:201-203 | A three-star rating "⭐⭐⭐☆☆" reads as (卖出, 0.7). |
| `PromptEvaluator.NotRecommendedReadsAsBuy` | prompt_evaluator.py:198-200 | "不推荐" reads as (买入, 0.6). |
| `PromptEvaluator.ToolReply` | prompt_evaluator.py:221-247 | Each reply carries its call's id, or "" when the id is missing. For a known tool the content is a prefix of the result text, at most 5000 characters long, and the whole text when it is shorter. A failed call gives "工具调用失败: " and the error. An unknown or missing name gives "未知工具: " and the name. |
| `PromptEvaluator.ExecuteToolCalls` | prompt_evaluator.py:210-249 | Exactly one reply per tool call, in input order, each the reply for that call and tagged with its id. |
| `PromptEvaluator.Truncate` | prompt_evaluator.py:235 | The result is a prefix of the text with min(length, n) characters. |
| `PromptEvaluator.EstimateTokens` | prompt_evaluator.py:322-323 | The estimate t satisfies 2t ≤ length < 2t + 2, that is, length div 2. |
| `PromptEvaluator.GradeOutput` | prompt_evaluator.py:315-341 | The graded record carries the three scores, the recommendation and both token estimates of the output, and the given identifiers. It has no realised returns yet. |
| `PromptEvaluator.Improvement` | prompt_evaluator.py:425 | With a zero baseline the improvement is 0. Otherwise meanA × (1 + pct/100) = meanB, so the percentage carries A's mean to B's. |
| `PromptEvaluator.ImprovementSign` | prompt_evaluator.py:425 | With a positive baseline, the improvement is positive exactly when B's mean is larger, and zero exactly when the means are equal. |
| `PromptEvaluator.MeanBounds` | prompt_evaluator.py:423-424 | A column mean lies between any lower and upper bound of the values it averages. |
| `PromptEvaluator.ComputeSummary` | prompt_evaluator.py:411-434 | Exactly five rows in the fixed metric order. Each row holds its metric's name, both means and the guarded improvement. |
| `BacktestEvaluator.RowIndex` | prompt_evaluator.py:478-479 | Positional row access on n rows: an index i in [0, n) selects row i, an index i in [−n, 0) selects row n + i, and any other index fails. |
| `BacktestEvaluator.ActualReturn` | prompt_evaluator.py:464-485 | A failed fetch, or fewer than holdDays + 1 prices, gives 0.0. Otherwise first close × (1 + r) = the close at row holdDays, which is r = (p[h] − p[0]) / p[0]. A negative holdDays in [−n, 0) uses row n + holdDays, as `iloc` does, and one below −n gives 0.0. |
| `BacktestEvaluator.StrategyReturn` | prompt_evaluator.py:511-517 | The result is the actual return, its negation or 0, and it is 0 for anything but 买入 and 卖出. It is positive exactly when a buy meets a rise or a sell meets a fall. |
| `BacktestEvaluator.StrategyReturnBounded` | prompt_evaluator.py:511-517 | A strategy never gains or loses more than the stock moved. |
| `BacktestEvaluator.StrategyOfExtracted` | prompt_evaluator.py:512-517 | The strategy return follows the recommendation read from an output: 买入 at 0.8 or 0.6 follows the stock, 卖出 at 0.7 reverses it, and 持有 at 0.5 sits out. |
| `BacktestEvaluator.Symbol` | prompt_evaluator.py:469 | The price-source symbol is the prefix of the ticker up to its first '.': it has no '.', and it is the whole ticker or is followed by a '.'. |
| `BacktestEvaluator.StartDate` | prompt_evaluator.py:471 | The start date has no '-', and every other character of the date keeps its count. |
| `BacktestEvaluator.StartDatePiecewise` | prompt_evaluator.py:471 | The start date of a joined text is the join of the parts' start dates, a lone '-' becomes empty and any other lone character stays. With `StartDate`'s ensures this fixes the result: the kept characters stay in their order. |
| `BacktestEvaluator.StartDateExample` | prompt_evaluator.py:471 | The date "2024-01-15" becomes the start date "20240115". |
| `BacktestEvaluator.EvaluateRecommendations` | prompt_evaluator.py:502-529 | One row per graded run, in order. Each row copies the run's fields and adds the realised return for the run's symbol and start date, and the strategy return. |
| `ChinaMarketAnalyst.CreateChinaMarketAnalyst` | china_market_analyst_optimized.py:258-264 | The deep prompt and 中国市场深度分析师 are chosen exactly when the mode is "deep". Every other mode gets the quick prompt and 中国市场快速评估师. The mode is kept. |
| `ChinaMarketAnalyst.CreateQuickAnalyst` | china_market_analyst_optimized.py:396-398 | The quick analyst is the analyst of mode "quick": quick prompt and name. |
| `ChinaMarketAnalyst.CreateDeepAnalyst` | china_market_analyst_optimized.py:401-403 | The deep analyst is the analyst of mode "deep": deep prompt and name. |
| `ChinaMarketAnalyst.ToolNameList` | china_market_analyst_optimized.py:229-235 | One name per tool, in order: `name`, else `__name__`, else the tool's text. |
| `ChinaMarketAnalyst.GetToolNames` | china_market_analyst_optimized.py:226-236 | The loop's result is the names joined with ", ". The empty list gives "". Every tool's name occurs in it, and its length is the names' lengths plus two per separator. |
| `ChinaMarketAnalyst.ParseStockName` | china_market_analyst_optimized.py:179-182 | The name is the stripped name line of the text after the first "股票名称:". That line is the head of the text up to the next newline or the next marker, or all of it when neither follows. The name contains no newline and no further marker, and has no whitespace at either end. |
| `ChinaMarketAnalyst.NameLineUnique` | china_market_analyst_optimized.py:180 | A text has at most one name line, so the contract of `ParseStockName` determines the name. |
| `ChinaMarketAnalyst.ParseStockNameExample` | china_market_analyst_optimized.py:179-180 | "股票名称: 贵州茅台\n行业: 白酒" yields 贵州茅台. |
| `ChinaMarketAnalyst.CompanyName` | china_market_analyst_optimized.py:168-223 | The name is one a service gave (parsed from the unified text, the non-empty dictionary name, or the HK lookup's answer), an entry of the US table, or one of the four fallbacks built from the ticker: "股票", "股票代码", "港股" with the cleaned ticker, or "美股". |
| `ChinaMarketAnalyst.ChinaNameChoice` | china_market_analyst_optimized.py:179-196 | For a China ticker the name is the parsed name when the lookup text has the marker. Otherwise it is the non-empty fallback name, and otherwise "股票代码" and the ticker. |
| `ChinaMarketAnalyst.ChinaLookupFailure` | china_market_analyst_optimized.py:173-223 | When the unified China lookup raises, the name is "股票" and the ticker. |
| `ChinaMarketAnalyst.MarketBranchOrder` | china_market_analyst_optimized.py:172-223 | The China flag decides before the HK flag, and the HK flag before the US flag. Later flags and the services of later branches do not matter. A US ticker gets its table name, and a ticker in no market gets "股票" and the ticker. |
| `ChinaMarketAnalyst.CleanHkTicker` | china_market_analyst_optimized.py:206 | The cleaned ticker is never longer than the ticker, and a ticker without '.' is kept unchanged. |
| `ChinaMarketAnalyst.CleanHkTickerSinglePass` | china_market_analyst_optimized.py:206 | Removal is one left-to-right pass, as `str.replace` does it: "..HKHK" becomes ".HK". |
| `ChinaMarketAnalyst.HkNameChoice` | china_market_analyst_optimized.py:198-207 | In the HK branch, the name is the lookup's answer when the lookup returns. When it raises, the name is "港股" and the ticker with ".HK" and then ".hk" removed. |
| `ChinaMarketAnalyst.HkFallbackName` | china_market_analyst_optimized.py:198-207 | When the HK lookup raises, "<code>.HK" and "<code>.hk" (code without '.') are both named "港股<code>". |
| `ChinaMarketAnalyst.UsName` | china_market_analyst_optimized.py:209-215 | A hit gives the table entry of the upper-cased ticker. A miss gives "美股" and the ticker as given. The name starts with 美 exactly on a miss, so the two cases never look alike. |
| `ChinaMarketAnalyst.UsNameExamples` | china_market_analyst_optimized.py:209-217 | The US table is looked up by the upper-cased ticker ("aapl" gives 苹果公司). A miss gives "美股" and the ticker as given ("baba" gives 美股baba). |
| `ChinaMarketAnalyst.AnalystRequestFor` | china_market_analyst_optimized.py:266-307 | The model is given the selected prompt, the trade date, the ticker, the resolved company name, the three analyst tools, their names joined with ", ", and the conversation. |
| `ChinaMarketAnalyst.AnalystNode` | china_market_analyst_optimized.py:332-343 | The report is the reply's text when the reply asks for no tools, and "" when it asks for any. The sender is ChinaMarketAnalyst, the mode is echoed, and the messages are the reply alone. |
| `ChinaMarketAnalyst.AnalysisModeEchoed` | china_market_analyst_optimized.py:259-343 | Any mode string reaches `analysis_mode` unchanged, including one that fell back to the quick prompt. |
| `ChinaMarketAnalyst.ScreenerRequestFor` | china_market_analyst_optimized.py:353-378 | The screener gives the model the screener prompt, the trade date and only the market-overview tool, listed under its name. |
| `ChinaMarketAnalyst.ScreenerNode` | china_market_analyst_optimized.py:380-387 | The screener always reports the reply's text, whatever tools the reply asks for, with sender ChinaStockScreener. |
| `Strings.SecondPiece` | china_market_analyst_optimized.py:180 | The piece after the first separator is a prefix of the rest of the text, holds no separator, and ends at the next separator or at the end. |
| `Strings.RemoveCharFacts` | prompt_evaluator.py:471 | Removing one character leaves none of it and keeps the count of every other character. |
| `Strings.RemoveCharConcat` | prompt_evaluator.py:471 | Removing one character works part by part: the result for a joined text is the join of the results for its parts. |
| `Strings.RemoveCharSingle` | prompt_evaluator.py:471 | Removing a character from a one-character text empties it exactly when the two characters are equal. |
| `Strings.IndexOf` | china_market_analyst_optimized.py:180 | Finds the first occurrence: one is found exactly when the pattern occurs, it is an occurrence, and none occurs earlier. |
| `Strings.Strip` | china_market_analyst_optimized.py:180 | The result is a slice of the input with only whitespace outside it, and it starts and ends with non-whitespace. |
| `Strings.RemoveAllKeepsPrefix` | china_market_analyst_optimized.py:206 | Removal keeps a leading part that lacks the pattern's first character. |
| `Strings.JoinContainsEach` | china_market_analyst_optimized.py:236 | Every part occurs in the joined string. |

## Left out

- The language model, `ChatPromptTemplate`/`MessagesPlaceholder` formatting and `bind_tools` are left out. The model is a function parameter from the request a node builds to its reply. The three prompt texts are abstract values.
- The Google tool-call handler path (china_market_analyst_optimized.py:314-331) is left out. The handler is not part of this model; only the standard path is modelled.
- Price fetching is not modelled: the price source is a parameter of the backtest. Left out with it are the pandas grouping, standard deviation and rounding of the backtest summary, the win-rate printout, and the text formatting of the A/B summary (`:.3f`, `:+.1f%`). The summary rows hold the exact numbers.
- `EvaluateRecommendations`: for an empty result list the source raises KeyError, because `pd.DataFrame([])` has no `prompt_version` column to group by (prompt_evaluator.py:529-532). The model returns no rows instead, since the grouped summary it would fail on is not modelled.
- The md5-based test-case id is a parameter of `GradeOutput`. So is the measured response time. Wall-clock timing, printing and logging are not modelled.
- `run_single_evaluation` and `run_ab_test` only sequence calls to the analyst and the toolkit. They are left out apart from their final steps: `run_single_evaluation` ends by grading (`GradeOutput`), and `run_ab_test` ends by summarising (`ComputeSummary`). This includes re-invoking the analyst with tool results and picking the first non-empty message.
- `DEFAULT_TEST_CASES` is not modelled. It matters only because `run_ab_test` never passes an empty list, which is the precondition of `ComputeSummary`.
- Python float rounding is not modelled: scores, means and returns are exact reals.
- `ActualReturn`: a zero first close gives 0.0 here. pandas would divide by zero and give inf or nan without raising, which a real cannot represent.
- `UsName`: only ASCII letters are upper-cased. Python's `str.upper` also maps a few other letters into the table's range (such as 'ſ' to 'S'), and those tickers are not looked up as Python would.
- `CheckDataAccuracy`: ground-truth values are given as their `str` text. Python's formatting of numbers by `str` is not modelled.
- `CompanyName`: the market classifier's answer is a record of three flags. A classifier answer missing one of the keys is not modelled.
- Toolkit calls in `ExecuteToolCalls` are one function parameter, `invoke`. Whether the tool is called with `.invoke(args)` or with `tool(**args)` makes no difference to the model.
