# otto_demo: the message renderer, modelled in Dafny

otto_demo is a Streamlit chat front-end ("Otto") that forwards a question to
the Waii question-answering service and draws the reply in a chat transcript:
the narrative text, the SQL query, the result table and a chart. Its own
logic is the renderer around those replies, written twice with variations,
in `app.py` and in `ui_utils.py`. This project models that renderer and
proves what it does:

- `split_and_insert` (module `Segmenter`): `re.split(r"(<chart>|<data>)", text)`
  followed by the replacement of every fragment that is exactly a key of the
  replacements dict. `<sql>` is a key but not a split token, so it is
  replaced only when a whole fragment is `<sql>`.
- `autoplot` (module `Autoplot`): the structural chart-axis chooser. A
  DataFrame is its columns (name and dtype after `infer_objects()`) and its
  row count; a plotly figure is its constructor and the columns it gets.
- `add_background_and_corner_radius` (module `ChartCode`, `ui_utils.py` only):
  split on `"\n"`, insert a styling line before the first line containing
  `st.plotly_chart(fig`, join again.
- `chart_block`, `render_message`, `ask` and the redraw loop of `app.py`
  (module `App`), and `chart_block` and `render_message` of `ui_utils.py`
  (module `UiUtils`). Streamlit calls become abstract `Draw` commands; the
  message record, the draw commands and the session state (a `Session` class
  with `messages` and `prevResponseUuid`) are in module `Chat`.

Each procedure with a loop or an update is a `method` proved equal to a
specification `function`, and the properties are lemmas about those
functions. `Wrappers` holds `Option`; `Strings` holds `startswith`, `in` and
`"".join` with their lemmas.

Two behaviours of the code are worth stating, because a reader might expect
otherwise:

- `app.py`'s `chart_block` has no `try`: chart code that raises, or
  `autoplot(None)` for a chart marker in a message without data, ends the
  render (and the rerun loop) with what was drawn so far. The module `App`
  records this as an `Outcome(draws, raised)`. Only `ui_utils.py` catches the
  exception and writes it.
- The fallback chart after the block loop depends only on whether a chart
  marker was drawn and whether there is data: a message whose `<data>` was
  inlined still gets the fallback chart block.

Chart code is foreign code: whether `exec` raises is the parameter
`fails: (code, df) -> bool`, and the model records which code was executed
with which frame (`ExecSpec`). The Waii reply is a parameter of `Ask`.

## Model

| member | source | states |
|---|---|---|
| `Segmenter.KindOf` | app.py:75-76 | A fragment has a kind exactly when it equals that kind's key (`<sql>`, `<data>`, `<chart>`); otherwise no key equals it. |
| `Segmenter.Split` | app.py:68 | `re.split` with one capturing group: at least one fragment, and always an odd number, one more text fragment than tokens; which fragments they are is stated by `Segmenter.SplitConcat` and `Segmenter.SplitShape`. |
| `Segmenter.LeadingToken` | app.py:68 | A split token is found exactly when a match of `(<chart>\|<data>)` starts at the first position, and the text starts with it; otherwise the result is empty. |
| `Segmenter.SplitConcat` | app.py:68 | Joining the fragments of `re.split` gives the text back: nothing is lost or added. |
| `Segmenter.SplitShape` | app.py:68 | Fragments alternate: every odd position holds `<chart>` or `<data>`, and no match starts anywhere inside an even-position fragment, so the text is cut at every match and nowhere else. |
| `Segmenter.PlainSplit` | app.py:68 | A text in which no token starts is a single fragment. |
| `Segmenter.SplitAndInsert` | app.py:66-80 | The loop over the fragments returns `Segments(text, available)` (same code at ui_utils.py:41-55). |
| `Segmenter.SegmentsRoundTrip` | app.py:66-80 | Putting each marker's key back and joining all pieces reproduces the input text exactly. |
| `Segmenter.SegmentsMarkers` | app.py:74-78 | One piece per fragment, in order; a piece is a marker of kind k exactly when k is available and the fragment is k's key; every other fragment, empty ones included, is kept verbatim. |
| `Segmenter.UnavailableStaysText` | app.py:75-78 | A key whose payload is missing never becomes a marker and stays literal text at its position. |
| `Segmenter.PlainSegments` | app.py:66-80 | A text without `<chart>` or `<data>` comes back as one piece, which is text unless the whole text is `<sql>` and the SQL is available. |
| `Autoplot.FirstNumericFrom` | app.py:95-99 | Returns the first index at or after i whose dtype is int64 or float64, skipping every other dtype, or None when there is none. |
| `Autoplot.ObjectIndices` | app.py:110-113 | Returns, in increasing order, exactly the indices in the range whose dtype is object. |
| `Autoplot.FindValueColumn` | app.py:95-99 | The loop with `break` finds the first numeric column after column 0 (same code at ui_utils.py:70-74). |
| `Autoplot.BuildSunburstPath` | app.py:109-113 | The loop builds x followed by the object columns after it, in order. |
| `Autoplot.Autoplot` | app.py:83-117 | The method returns what `ChooseChart` specifies: the decline checks in source order, then the figure or the error (same code at ui_utils.py:58-92). |
| `Autoplot.ChooseChartOutcome` | app.py:85-116 | None exactly when there are no columns, fewer than 2 rows, or no numeric value column after the promotion; otherwise `ValueError` exactly for an unknown chart type and a figure exactly for bar, line, pie or sunburst, so a declining frame gives None even for an invalid type. |
| `Autoplot.ChartFromFirstNumeric` | app.py:93-114 | x is column 0 and y the first numeric column after it; bar and line plot y against x, pie takes values y and names x, sunburst takes the path of object columns and values y. |
| `Autoplot.OneColumnPromotion` | app.py:87-89 | A one-column frame becomes `["x", c]` with `"x"` of dtype object, so its own column is the only y candidate and the sunburst path is `["x"]`. |
| `Autoplot.BarPieLineAgree` | app.py:121 | The three charts `chart_block` asks for share their decline conditions: all three are figures or none is. |
| `Autoplot.FewRowsDecline` | app.py:90-92 | Fewer than two rows gives None for every chart type. |
| `Autoplot.ExampleSingleTextColumn` | app.py:87-101 | A single text column is promoted and still declines. |
| `Autoplot.ExampleCategoryCount` | app.py:93-103 | With columns category (object), count (int64), flag (bool) the bar chart plots count against category. |
| `ChartCode.SplitLines` | ui_utils.py:100 | `code.split("\n")` is never empty, its lines hold no newline, and joining them with `"\n"` gives the code back. |
| `ChartCode.FirstDrawCall` | ui_utils.py:101-102 | Returns the first line index containing `st.plotly_chart(fig`, or None when no line does. |
| `ChartCode.AddBackgroundAndCornerRadius` | ui_utils.py:95-107 | The loop with `insert` and `break` returns `Customize(code)`. |
| `ChartCode.JoinContains` | ui_utils.py:107 | An occurrence inside one line is an occurrence in the joined text. |
| `ChartCode.CustomizeWithoutDrawCall` | ui_utils.py:100-107 | Code without `st.plotly_chart(fig` comes back unchanged. |
| `ChartCode.CustomizedInsertsOnce` | ui_utils.py:97-104 | Otherwise exactly one element, the styling line, is added, right before the first drawing line; removing it gives the original lines in order. |
| `Chat.SegmentsAvailable` | app.py:168-178 | Segmenting against the keys the message itself supplies yields only markers whose payload the message carries. |
| `Chat.DrawDisclosures` | app.py:193-199 | The three guarded expanders return `Disclosures(m, blocks)` (same code at ui_utils.py:160-165). |
| `Chat.DisclosureEffects` | app.py:193-199 | The expanders are, in order, "SQL Query" exactly when the SQL is truthy and not inlined, "Data" exactly when there is data, "Waii Chart Specification" exactly when the chart code is truthy; no button and no chart block. |
| `Chat.ChartMarkers` | app.py:187-188 | The count of chart markers is zero exactly when no chart marker is among the blocks. |
| `Chat.Session.constructor` | app.py:41-59 | A session starts with an empty transcript and no previous reply id. |
| `Chat.Session.Append` | app.py:166 | Appends exactly the message and leaves the reply id alone. |
| `App.ChartBlockDraws` | app.py:120-142 | `chart_block`: at most one draw, and when there is one it is the four tabs; with a frame and truthy chart code that does not fail it does not raise. What it draws and when it raises exactly: `App.ChartBlockOutcome`, `App.ChartBlockTabs`. |
| `App.ChartBlockOutcome` | app.py:120-142 | `chart_block` raises exactly when there is no frame, or when the frame gives figures and truthy chart code fails; it draws nothing exactly when there is no frame or the frame declines. |
| `App.ChartBlockTabs` | app.py:121-142 | For a frame that does not decline: four tabs, "Waii Chart" first; the code is executed only when truthy; unless it raised, the bar, pie and line tabs show their figures, and if it raised they stay empty. |
| `App.InlineEffects` | app.py:179-189 | The block loop draws only markdown, code, tables and chart blocks; it raises exactly when a chart marker is present and the chart block raises; otherwise it calls `chart_block` once per chart marker. |
| `App.InlineBlockDraws` | app.py:179-189 | The block loop draws only markdown, code, tables and chart blocks. |
| `App.InlineRaises` | app.py:179-189 | The block loop raises exactly when a chart marker is present and the chart block raises. |
| `App.InlineChartCalls` | app.py:187-189 | Unless it raised, the block loop calls `chart_block` once per chart marker. |
| `App.ButtonsOfSuggestions` | app.py:200-202 | The suggestion buttons are labelled with the suggestions, in order, and hold no expander and no chart block. |
| `App.TailEffects` | app.py:192-202 | After the blocks, the expanders are those of the disclosures, the button labels are the suggestions (none when the key is absent), and no chart block is drawn. |
| `App.DrawBlocks` | app.py:179-189 | The `for block in blocks` loop draws `InlineDraws` and notes a chart marker exactly when one is among the blocks. |
| `App.DrawButtons` | app.py:200-202 | One button per suggestion, in order; none when the key is absent. |
| `App.DrawBody` | app.py:167-202 | The bubble's contents are `RenderBody`: blocks, fallback chart, disclosures, buttons, stopping at the first raising chart block. |
| `App.RenderMessage` | app.py:164-202 | Draws `Render(m)`; with `persist` the transcript gains exactly the message, otherwise it is unchanged; the reply id is unchanged. |
| `App.RenderRaises` | app.py:187-191 | Rendering raises exactly when some `chart_block` runs (a chart marker, or data for the fallback) and raises. |
| `App.RenderFallback` | app.py:187-191 | Unless it raised, `chart_block` ran once per chart marker plus once more exactly when no chart marker was drawn and there is data. |
| `App.RenderDisclosuresAndButtons` | app.py:192-202 | Unless it raised, the expanders are as `Chat.DisclosureEffects` states and the buttons are the suggestions in order; a bubble that raised shows neither. |
| `App.UserMessage` | app.py:146 | The question's message is not Otto's, carries the question as text, and has no `sql`, `data`, `chart` or `suggestions` (so no payload is available). |
| `App.OttoMessage` | app.py:151-157 | The reply's message is Otto's, with the reply text; a present query, data or chart part is carried into `sql`, `data` and `chart` (the query text, the frame, the plot code) and an absent one becomes None; no suggestions. |
| `App.InlineTextOnly` | app.py:179-181 | Blocks that are all text never raise and draw exactly one Markdown per block, holding that block's string, in order. |
| `App.UserTurnPlain` | app.py:146-147 | The question's bubble never raises, every draw in it is Markdown, and the Markdown texts join back to the question. |
| `App.UserTurnNeverRaises` | app.py:147 | Rendering the question never raises. |
| `App.Ask` | app.py:145-161 | The request carries the question and the previous reply id; afterwards the reply id is the new reply's; the transcript gains exactly the user message then Otto's; the question's render does not raise. |
| `App.TwoTurns` | app.py:58-59 | In a fresh session the first request has no parent, the second names the first reply, and the transcript holds the four messages in order. |
| `App.HistoryEffects` | app.py:205-207 | The redraw raises exactly when some message's bubble raises; otherwise it shows one bubble per message, in order. |
| `App.Redraw` | app.py:205-207 | The rerun loop draws `History` of the transcript and changes no session state. |
| `UiUtils.RunChartBlock` | ui_utils.py:110-129 | The guarded call returns `ChartBlockDraws`: nothing for falsy code, else the CSS, the execution of the restyled code and the written error when it raised. |
| `UiUtils.ChartBlockContained` | ui_utils.py:110-129 | Draws nothing exactly when the code is falsy; otherwise executes `Customize(code)` once with the frame it was given and writes an error exactly when that raises; code without a draw call is executed as given. |
| `UiUtils.InlineChartBlocks` | ui_utils.py:147-157 | The block loop calls `chart_block` once per chart marker. |
| `UiUtils.InlineDrawsCons` | ui_utils.py:147-157 | The first block adds one `chart_block` call exactly when it is a chart marker. |
| `UiUtils.RenderFallback` | ui_utils.py:155-159 | `chart_block` ran once per chart marker plus once more exactly when no chart marker was drawn and there is data. |
| `UiUtils.RenderDisclosures` | ui_utils.py:160-165 | The three expanders appear as `Chat.DisclosureEffects` states, unconditionally on any debug flag, and no button is drawn. |
| `UiUtils.HeadBlockDraws` | ui_utils.py:147-159 | The blocks and the fallback chart show neither an expander nor a button. |
| `UiUtils.DrawBlocks` | ui_utils.py:147-157 | The `for block in blocks` loop draws `InlineDraws` and notes a chart marker exactly when one is among the blocks. |
| `UiUtils.DrawBody` | ui_utils.py:135-165 | The bubble's contents are `RenderBody`: blocks, fallback chart, disclosures. |
| `UiUtils.RenderMessage` | ui_utils.py:132-165 | Draws `Render(m)`; with `persist` the transcript gains exactly the message, otherwise it is unchanged; the reply id is unchanged. |

## Left out

- Streamlit itself (page config, logo, title, chat input, `use_container_width`, widget keys made with `uuid4`): calls are abstract `Draw` values. The CSS markdown call of `chart_block` in ui_utils.py is the `OutlineStyle` draw; only the text of the CSS is left out.
- plotly and pandas: figure construction, `copy()`, `infer_objects()` and dtype inference; dtypes are given inputs, and a figure is assumed truthy where `chart_block` tests `any(plots.values())`.
- `autoplot` on a one-column frame whose column is itself named `"x"`: pandas overwrites that column; the model always builds `["x", c]`.
- Duplicate column labels (pandas then returns a DataFrame for `df[col]`, and `df[col].dtype` raises): not modelled; a frame built from the reply's rows has unique labels.
- What chart code does when executed: `exec` is the parameter `fails`.
- Repeated executions: every execution of the same chart code with the same frame is assumed to have the same outcome, since `fails` depends only on the code and the frame; Streamlit's refusal of a second identical keyless `st.plotly_chart` is not modelled.
- The Waii SDK (`WAII.initialize`, `activate_connection`, `chat_message`), secrets, dotenv and query parameters (app.py:15-59, 149): the reply is an input of `App.Ask`; `initial_question` and `state`/`persist_state` are not modelled.
- Authentication and page chrome in ui_utils.py: `render_auth_form`, `render_account_panel` (they call `auth_functions`, which is not part of this model), `render_sidebar_tips`, `render_placeholder_image` (file I/O).
- The `False` branches of `DEBUG` and `USE_WAII_CHART` in app.py: both are constant `True`.
- Streamlit's refusal of two buttons with the same key (two equal suggestions): widget keys are not modelled.
- The `on_click=ask` wiring of the suggestion buttons: a click is a later `App.Ask` with that suggestion.
- A `suggestions` key holding `None` (which would raise): the model's `None` means the key is absent.
- App.Ask: a failing Waii call is not modelled; in the code it would raise after the question was already persisted (app.py:147), leaving the transcript with a question and no reply and `prev_response_uuid` unchanged.
- The `chat_input` prompt at the end of app.py: it is one call of `App.Ask`.
