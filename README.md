# NAGA analysis command — a Dafny model

This project models the `naga` chat command of the nagabus NoneBot plugin
(`nonebot_plugin_nagabus/matchers/naga_analyze.py`). The command takes a game
log link and asks the NAGA service to analyse it. The model covers four things:

- **Parser and router.** The command text is split on single spaces. A first
  argument containing `maj-soul` selects the Majsoul dialect, which reads a
  UUID and a `东/南 N 局 M 本场` round designation. Otherwise a first argument
  containing `tenhou` selects the Tenhou dialect, which reads `log` and `tw`
  from the URL query. Anything else gets the usage text.
- **Rate-limit token protocol.** A token is acquired before the remote call.
  With no token, no call is made. The token is retired only on certain
  outcomes.
- **Error translation.** Download error 1203, other download codes, an
  invalid round, an unsupported game mode and any other remote error each
  map to their own result.
- **Reply text.** The report link with its cost line, and the list of
  suggested rounds.

Modules, one per file:

- `Wrappers`: `Option`.
- `Text`: the Python string operations the handler uses — `in` on strings,
  `split(' ')`, `strip()` and `str(int)`.
- `Patterns`: `uuid_reg` and `kyoku_honba_reg`, each as a leftmost search.
- `Parser`: the pure parsing and routing of `naga_analyze`, lines 94-136.
- `Dispatcher`: the effects of `analyze_majsoul`, `analyze_tenhou` and
  `naga_analyze`.

`Dispatcher` holds two views of the same behaviour:

- Specification functions (`MajsoulEffect`, `TenhouEffect`, `HandleEffect`).
  Each gives one invocation's effect: token acquired, call made, token
  retired, reply sent and final status.
- A class `Ledger`. Its counters and logs are updated step by step, the
  way the handler does it. Each method is proved to change the state by
  exactly its function's effect.

The handler's collaborators are parameters, gathered in `Parser.Env`:

- `decode_integer` is a partial function `string -> Option<int>`.
- `urlparse` followed by `parse_qs` is a function from the URL to the
  parsed query map.
- `int()` is a partial function.
- `default_cmd_start` is a string.

The permission check, the availability of a token and the outcome of the
remote call are inputs of each invocation.

**East labels show the zero-based kyoku.** Line 56 formats an east pair as
`东{kyoku}`, with no +1. Line 58 shows a south pair with its 1-based round,
`南{kyoku-3}`. The model keeps both as written. `Dispatcher.LabelReadsBack`
states what happens when a suggestion is fed back to the parser:

- a south label reads back as its own pair;
- an east label reads back one kyoku lower;
- the label of east kyoku 0 (`东0…`) is not accepted at all.

`Dispatcher.SuggestionListExample` spells out the list for the pairs
(0, 0) and (5, 1): `东0局0本场、南2局1本场`.

Three definitions carry source text and behaviour without a contract of
their own. The contracts of `Parser.Route`, `Dispatcher.MajsoulEffect` and
`Dispatcher.HandleEffect` are stated in terms of them:

- `Text.Contains` is Python's `sub in s` on strings (lines 95 and 127): `sub`
  occurs at some index of `s`.
- `Dispatcher.SuggestionMessage` is the invalid-round message of line 60:
  `请输入正确的场次与本场（`, the `、`-joined labels, then `）`.
- `Dispatcher.UsageText` is the usage reply of lines 142-144: a heading and
  one line per dialect, with the command prefix in front of each `naga`.

## Model

| member | source | states |
|---|---|---|
| Text.Split | nonebot_plugin_nagabus/matchers/naga_analyze.py:94 | `split(' ')` always yields at least one piece, and no piece contains the separator |
| Text.JoinSplit | nonebot_plugin_nagabus/matchers/naga_analyze.py:94 | joining the pieces of a split with the separator gives the original text back |
| Text.SplitJoin | nonebot_plugin_nagabus/matchers/naga_analyze.py:94 | splitting a join of separator-free pieces gives exactly those pieces back |
| Text.TrimStart | nonebot_plugin_nagabus/matchers/naga_analyze.py:128 | the result is a suffix of the input, all it drops is white space, and it does not start with white space |
| Text.TrimEnd | nonebot_plugin_nagabus/matchers/naga_analyze.py:128 | the result is a prefix of the input, all it drops is white space, and it does not end with white space |
| Text.LeadingSpace | nonebot_plugin_nagabus/matchers/naga_analyze.py:128 | counts the white space at the start: every character before the count is white space, and the one at the count is not |
| Text.TrailingSpace | nonebot_plugin_nagabus/matchers/naga_analyze.py:128 | finds where the white space at the end begins: everything from there on is white space, and the character before it is not |
| Text.Strip | nonebot_plugin_nagabus/matchers/naga_analyze.py:128 | `strip()` is no longer than its input and neither starts nor ends with white space |
| Text.StripSlice | nonebot_plugin_nagabus/matchers/naga_analyze.py:128 | `strip()` keeps exactly the slice of the input that starts after the leading white space, and all it cuts off on either side is white space |
| Text.StripIdempotent | nonebot_plugin_nagabus/matchers/naga_analyze.py:128 | stripping twice is the same as stripping once |
| Text.NatToStringValue | nonebot_plugin_nagabus/matchers/naga_analyze.py:38 | the decimal text of a natural number reads back as that number |
| Text.IntToStringValue | nonebot_plugin_nagabus/matchers/naga_analyze.py:38 | `str(n)` is a non-empty run of digits with the value of `n` and no leading zero unless `n` is 0; a negative `n` gets a leading `-` |
| Patterns.FindUuid | nonebot_plugin_nagabus/matchers/naga_analyze.py:20 | the scan returns the leftmost window from a position on that has the shape of `uuid_reg`, or none when there is no such window |
| Patterns.SearchUuid | nonebot_plugin_nagabus/matchers/naga_analyze.py:96-100 | `uuid_reg.search(...).group(0)` fails exactly when no 43-character window has the shape; otherwise it is the leftmost such window of the text |
| Patterns.SearchUuidShape | nonebot_plugin_nagabus/matchers/naga_analyze.py:20 | a found UUID has 6 digits, then hex groups of 8, 4, 4, 4 and 12, joined by dashes |
| Patterns.CharacterClasses | nonebot_plugin_nagabus/matchers/naga_analyze.py:22 | the wind, round-numeral and honba-numeral tests accept exactly the characters of the pattern's three classes |
| Patterns.MatchEndUnique | nonebot_plugin_nagabus/matchers/naga_analyze.py:22 | a match at a given start can only end where the run of honba numerals ends, so the greedy group has one possible end |
| Patterns.FindKyokuHonba | nonebot_plugin_nagabus/matchers/naga_analyze.py:22 | the scan returns a match of `kyoku_honba_reg` with no match starting further left, or none when no match exists |
| Patterns.SearchKyokuHonba | nonebot_plugin_nagabus/matchers/naga_analyze.py:108-112 | `kyoku_honba_reg.search` fails exactly when there is no match; the groups it returns are a wind, one round numeral and a non-empty honba numeral run, taken from the leftmost match in the text |
| Parser.ParseKyokuHonba | nonebot_plugin_nagabus/matchers/naga_analyze.py:112-124 | a pair is produced exactly when the pattern matches and both numerals decode; east round N gives kyoku N-1, south round N gives kyoku N+3, and honba is the decoded honba unchanged |
| Parser.KyokuInRange | nonebot_plugin_nagabus/matchers/naga_analyze.py:112-119 | when `decode_integer` reads 1-4 and 一-四 correctly, every parsed kyoku lies in 0..7 |
| Parser.ParseMajsoul | nonebot_plugin_nagabus/matchers/naga_analyze.py:95-124 | the three input errors are reported exactly when they occur, in order: no UUID, then no second argument, then a second argument that does not parse; the result is `Majsoul` exactly when none of them occurs, and then it carries the UUID and pair the searches found |
| Parser.ParseTenhou | nonebot_plugin_nagabus/matchers/naga_analyze.py:130-136 | a missing or empty `log` crashes; `int()` failing on the first `tw` value crashes; otherwise the log id is the first `log` value, and the seat is 0 without a `tw` value and the first `tw` value as an integer with one |
| Parser.Args | nonebot_plugin_nagabus/matchers/naga_analyze.py:94 | the argument list always has a first argument |
| Parser.Route | nonebot_plugin_nagabus/matchers/naga_analyze.py:94-145 | `maj-soul` takes precedence over `tenhou`, and the usage text is chosen exactly when the first argument contains neither; the Tenhou dialect reads the stripped first argument |
| Dispatcher.SuccessText | nonebot_plugin_nagabus/matchers/naga_analyze.py:32-38 | the reply starts with the report link line; the rest is the already-analysed note exactly when the cost is 0, and otherwise the cost line |
| Dispatcher.Suggestions | nonebot_plugin_nagabus/matchers/naga_analyze.py:53-58 | the loop builds exactly one label per available pair, in order: `东{kyoku}` for kyoku up to 3, else `南{kyoku-3}` |
| Dispatcher.SuggestionListSplits | nonebot_plugin_nagabus/matchers/naga_analyze.py:60 | for a non-empty list of pairs, the `、`-joined list splits back into exactly the labels, one per pair |
| Dispatcher.SuggestionListExample | nonebot_plugin_nagabus/matchers/naga_analyze.py:53-60 | the pairs (0, 0) and (5, 1) are listed as `东0局0本场、南2局1本场` |
| Dispatcher.LabelReadsBack | nonebot_plugin_nagabus/matchers/naga_analyze.py:53-58 | fed back to the kyoku/honba parser, a south label gives its own pair, an east label gives a kyoku one lower, and the east kyoku 0 label is rejected |
| Dispatcher.SouthFourExample | nonebot_plugin_nagabus/matchers/naga_analyze.py:112-119 | `南4局2本场` reads as kyoku 7, honba 2 |
| Dispatcher.MajsoulEffect | nonebot_plugin_nagabus/matchers/naga_analyze.py:25-62 | no token: RateLimited with no call and no retire. With a token: the call is always made; the token is retired exactly on a free success, a download error or an invalid round; exactly one reply, on success; 1203 becomes 牌谱不存在, other codes and other errors propagate, an invalid round lists the suggestions, an unsupported game becomes 只支持四麻牌谱 |
| Dispatcher.TenhouEffect | nonebot_plugin_nagabus/matchers/naga_analyze.py:65-82 | no token: RateLimited with no call. With a token: the call is made, the token is retired exactly on a free success, exactly one reply on success, and every remote error propagates without a retire |
| Dispatcher.HandleEffect | nonebot_plugin_nagabus/matchers/naga_analyze.py:90-145 | a failed permission check ends silently; usage, parser rejections and Tenhou crashes take no token; a permitted Majsoul or Tenhou request has exactly the effect of `MajsoulEffect` or `TenhouEffect` with the parser's arguments, so a retire or a call happens only with a token |
| Dispatcher.MajsoulInputErrorsTakeNoToken | nonebot_plugin_nagabus/matchers/naga_analyze.py:95-126 | a rejected Majsoul input acquires no token, makes no call, sends no reply and ends with one of the three input-error messages |
| Dispatcher.Ledger.AnalyzeMajsoul | nonebot_plugin_nagabus/matchers/naga_analyze.py:25-62 | the counters and logs move on by exactly `MajsoulEffect`; no token is ever retired that was not acquired, and each acquired token goes with exactly one remote call |
| Dispatcher.Ledger.AnalyzeTenhou | nonebot_plugin_nagabus/matchers/naga_analyze.py:65-82 | the counters and logs move on by exactly `TenhouEffect`, keeping the same invariant |
| Dispatcher.Ledger.Handle | nonebot_plugin_nagabus/matchers/naga_analyze.py:90-145 | the counters and logs move on by exactly `HandleEffect`, keeping the same invariant |

## Left out

- NoneBot wiring is left out: command registration, `handle_error`, `Message`/`MessageSegment` construction and `matcher.finish`. A reply is its text appended to `Ledger.replies`. The reply-to segment that names the user's message is not modelled.
- The messages of BadRequestError and RateLimitedError are sent by `handle_error`. `nonebot_plugin_nagabus/matchers/errors.py` is not part of this model, so these endings are the invocation's `Status` and not replies.
- The logger warning on a download error (line 46) is left out: it is logging.
- Async execution and concurrency are left out. Each invocation runs to completion before the next starts.
- The access-control subservice (`check`, `acquire_token_for_rate_limit`, `retire`) is foreign code. The permission and token availability are inputs, and acquire and retire are counters.
- The NAGA client and the tensoul downloader are network I/O. Their result is an input `RemoteOutcome`. The requesting user id passed to them is not modelled.
- `decode_integer` is not part of this model. It is a parameter, and `Parser.KyokuInRange` and `Dispatcher.LabelReadsBack` state the requirements they place on it.
- `urlparse`, `parse_qs` and `int()` are library calls. They are parameters.
- Patterns.FindUuid: `\d` is read as the ASCII digits 0-9, whereas Python's `\d` also accepts other Unicode decimal digits.
- Parser.ParseTenhou: the KeyError for a missing `log` and the ValueError from `int()` are modelled as a `Crashed` result. What `handle_error` then does with them is not modelled.
- Parser.ParseTenhou: the seat is not range-checked, as in the code.
