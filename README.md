# LLM4Sec bot core, modelled in Dafny

LLM4Sec runs several chat bots in one IRC channel. Each bot is driven by a
language model and configured by an XML scenario. This project models the
deterministic core of the Python code and proves properties of it:

- **The scenario controller** (`lib/xml/scen_parser.py`):
  - parse state;
  - element lookups;
  - prompt items;
  - the prompt template with the input variables extracted by `\{(.*)\}`.
- **The bot client** (`lib/protocol/llm_irc.py`):
  - the chain-input dictionaries built from the prompt items;
  - the in-place `usr_in` binding;
  - the response sanitiser and the 480-byte size gate;
  - who gets an answer;
  - the `hasReplied` debounce of `res_handler` and its reset by `resp_sleep`.
- **The older top-level client** (`llm_irc.py`):
  - its 500-byte gate;
  - private replies;
  - the flag discipline inside the chunk loop of `on_pubmsg`.

Modules, one per file:

- `Wrappers`: `Option`, `Result` and `Status`, plus the Python exceptions the code can raise.
- `Utf8`: UTF-8 as in section 3 of RFC 3629, giving `len(s.encode('utf-8'))`.
- `Sanitize`: `resp_stripper` and the `str.lstrip`/`strip`/`replace` it uses.
- `ElementTree`: elements with a tag, an optional text and ordered children; `find` and `findall`.
- `Placeholders`: what `findall` of the greedy `\{(.*)\}` returns.
  - `Scan` follows the regex engine.
  - `InputVariables` gives the per-line meaning.
  - The two are proved equal.
- `ScenParser`: the `SecGenScenarioController` class and its lookups.
- `Irc`: events, the payload of `privmsg`, and a connection that logs every message it sends. Also `str.find` and `in`.
- `ProtocolClient`: the client of `lib/protocol/llm_irc.py`.
- `RootClient`: the client of `llm_irc.py`.

The following become parameters of the methods that use them:

- the language model (`generate`);
- LangChain's `CharacterTextSplitter` (`split`);
- `irc.client.is_channel` (`isChannel`).

Scheduling `resp_sleep` adds one to `pendingSleeps`. Its delay elapsing is the method `RespSleep`.

## Behaviour the model follows

Where the code does not do what its names and docstrings suggest, the model follows the code:

- `resp_stripper` loops over a `str` one code point at a time, so it deletes every line feed, tab and carriage return, wherever it is. It does not only strip them at the ends.
- The placeholder regex is greedy and `.` stops at a line feed. So each line gives at most one input variable: the text between its first `{` and its last `}`. `{a} {b}` yields `a} {b`.
- The loops over the chunks in `tidy_response` and in the top-level `get_response` only rebind their loop variable, so the chunks come back as the splitter made them.
  - The lib client sanitises each chunk when `res_handler` sends a list of more than one chunk. A list of one chunk, or an empty list, takes the other branch and reaches `privmsg` as the list itself, unsanitised.
  - The top-level client splits the unsanitised answer.
- The `hasReplied` flag suppresses only a list of more than one chunk. Every other reply is sent even while the flag is set, to `event.target`. So two quick triggers with short answers both get a reply.
- The top-level client clears the flag after every chunk. Only the first chunk is ever held back.
- Some failures raise Python errors instead of reporting a scenario error:
  - A missing element makes a lookup raise `AttributeError`.
  - A parse failure makes `parse_scenario` raise `NameError`, because `DefusedXmlException` is never imported.
  - An `open` failure makes it raise `UnboundLocalError`.
  - A bot without prompt items makes `get_response` raise `KeyError('cp_val')`.
- An empty `<value/>` has text `None`, so that input is bound to `None`, not to its name.

## Model

| member | source | states |
|---|---|---|
| Utf8.EncodeChar | lib/protocol/llm_irc.py:117 | one character encodes to the number of bytes its code point needs, 1 to 4 |
| Utf8.EncodeCharDecodes | lib/protocol/llm_irc.py:117 | each encoded character is well formed: the lead byte announces its length, the rest are continuation bytes, and the payload bits spell the code point |
| Utf8.ByteLengthAppend | lib/protocol/llm_irc.py:117 | the byte length of a concatenation is the sum of the byte lengths |
| Utf8.ByteLengthBounds | llm_irc.py:98 | a string takes between one and four bytes per character |
| Utf8.AsciiByteLength | llm_irc.py:98 | an ASCII string takes exactly one byte per character |
| Sanitize.TokenIsFiltered | lib/protocol/llm_irc.py:136-140 | the loop body applied to a one-character token keeps it iff it is not a line feed, tab or carriage return |
| Sanitize.RespStripper | lib/protocol/llm_irc.py:130-141 | the result is the input with line feeds, tabs and carriage returns deleted and all else kept in order |
| Sanitize.StrippedAppend | lib/protocol/llm_irc.py:130-141 | sanitising distributes over concatenation, so kept characters stay in order |
| Sanitize.StrippedMembers | lib/protocol/llm_irc.py:130-141 | a character is in the result iff it is in the input and is not a control character; the result is never longer |
| Sanitize.StrippedClean | llm_irc.py:107-118 | a string without control characters is returned unchanged |
| Sanitize.StrippedIdempotent | llm_irc.py:107-118 | sanitising twice is sanitising once |
| Sanitize.StrippedShorter | lib/protocol/llm_irc.py:130-141 | sanitising never lengthens the text, in characters or in UTF-8 bytes |
| Sanitize.LStripShape | lib/protocol/llm_irc.py:137 | `lstrip` removes the longest prefix made of the given characters |
| Sanitize.RStripShape | lib/protocol/llm_irc.py:139 | `rstrip` removes the longest suffix made of the given characters |
| Sanitize.StripShape | llm_irc.py:79 | `strip` keeps one contiguous run; everything around it is in the strip set and the run's ends are not |
| Sanitize.StripClean | llm_irc.py:79 | `strip` leaves a string without control characters unchanged |
| ElementTree.Find | lib/xml/scen_parser.py:55 | `find` is None iff no direct child has the tag, otherwise a direct child with that tag |
| ElementTree.FilterTagMembers | lib/xml/scen_parser.py:61 | `findall` returns exactly the direct children with the tag |
| ElementTree.FilterTagAppend | lib/xml/scen_parser.py:61 | `findall` keeps document order |
| ElementTree.FindIsFirstOfFindAll | lib/xml/scen_parser.py:54-61 | `find` is the first element of `findall`, and None iff `findall` is empty |
| ElementTree.ChildText | lib/xml/scen_parser.py:55 | `find(tag).text` is the text of the first child with that tag, or AttributeError when there is none |
| Placeholders.SplitJoin | lib/xml/scen_parser.py:111-112 | splitting the prompt into lines loses nothing |
| Placeholders.ScanIsPerLine | lib/xml/scen_parser.py:111-112 | the regex engine's left-to-right scan yields exactly each line's capture, in line order |
| Placeholders.CapturesPerLine | lib/xml/scen_parser.py:111-116 | a list of lines yields at most one capture per line, none containing a line feed |
| Placeholders.InputVariablesPerLine | lib/xml/scen_parser.py:111-116 | a prompt yields at most one input variable per line, and none contains a line feed |
| Placeholders.CapturesOfAppend | lib/xml/scen_parser.py:112-116 | the variables of consecutive lines come out in line order |
| Placeholders.SingleLine | lib/xml/scen_parser.py:111-112 | a line yields the text between its first `{` and last `}`, or nothing when there is no such pair |
| Placeholders.NextLine | lib/xml/scen_parser.py:112-116 | a line's variable precedes those of the lines after it |
| Placeholders.Braced | lib/xml/scen_parser.py:111-112 | `{n}` on a line declares the input variable `n`, whatever braces `n` itself holds |
| Placeholders.GreedyOnOneLine | lib/xml/scen_parser.py:111-112 | `{a} {b}` on one line yields the single name `a} {b` |
| Placeholders.OnePerLine | lib/xml/scen_parser.py:111-116 | `{a}` and `{b}` on two lines yield `a` then `b` |
| ScenParser.ScenarioController.constructor | lib/xml/scen_parser.py:17-20 | a new controller is unparsed, without a root, and counts no bots |
| ScenParser.ScenarioController.ParseScenario | lib/xml/scen_parser.py:22-52 | effect of each load outcome, below |
| ScenParser.ScenarioController.CountBots | main.py:61 | `bot_count` becomes the number of `bot` children of the root |
| ScenParser.ScenarioController.GetName | lib/xml/scen_parser.py:54-55 | text of the root's first `name` child; AttributeError without a root or such a child |
| ScenParser.ScenarioController.GetChannel | lib/xml/scen_parser.py:57-58 | text of the root's first `channel` child; AttributeError without a root or such a child |
| ScenParser.ScenarioController.GetBots | lib/xml/scen_parser.py:60-61 | exactly the `bot` children of the root, in document order (so its length is the bot count); AttributeError without a root |
| ScenParser.ScenarioController.GetAllBotNames | lib/xml/scen_parser.py:63-67 | the loop returns `BotNames` of the root's bots, or AttributeError without a root |
| ScenParser.BotNamesOk | lib/xml/scen_parser.py:63-67 | the names are listed iff every bot has a `name` child; otherwise AttributeError |
| ScenParser.BotNamesValues | lib/xml/scen_parser.py:63-67 | when every bot has a `name`: one name per bot, the same length as the bot list, each the text of that bot's first `name` child, in order |
| ScenParser.GetBotName | lib/xml/scen_parser.py:69-70 | text of the bot's first `name` child, or AttributeError |
| ScenParser.GetBotPrompt | lib/xml/scen_parser.py:72-73 | text of the bot's first `prompt` child, or AttributeError |
| ScenParser.GetPromptItems | lib/xml/scen_parser.py:75-76 | the `item` children of the bot's first `prompt_items`, or AttributeError when there is none |
| ScenParser.GetBotExpression | lib/xml/scen_parser.py:78-79 | text of the bot's first `expression` child, or AttributeError |
| ScenParser.GetBotContacts | lib/xml/scen_parser.py:81-82 | text of the bot's first `contacts` child, or AttributeError |
| ScenParser.GetBotTask | lib/xml/scen_parser.py:84-85 | text of the bot's first `task` child, or AttributeError |
| ScenParser.GetBotProtected | lib/xml/scen_parser.py:87-88 | the bot's first `protects` child itself, None iff there is none |
| ScenParser.ItemOfMeaning | lib/xml/scen_parser.py:97-102 | entry for one item, below |
| ScenParser.ItemsOfOk | lib/xml/scen_parser.py:95-103 | the entries are listed iff every item has a `name` child; otherwise AttributeError |
| ScenParser.ItemsOfValues | lib/xml/scen_parser.py:95-103 | when every item has a `name`: one entry per item, in document order, each the entry `ItemOfMeaning` describes |
| ScenParser.PromptItemsOf | lib/xml/scen_parser.py:94-103 | AttributeError without `prompt_items`, otherwise the entries of its items; every failure is an AttributeError |
| ScenParser.MapPromptItems | lib/xml/scen_parser.py:90-103 | the looked-up items, then the loop, return `PromptItemsOf` |
| ScenParser.MapItems | lib/xml/scen_parser.py:95-103 | the append loop returns `ItemsOf` of the items |
| ScenParser.BuildPrompt | lib/xml/scen_parser.py:105-120 | result of `build_prompt`, below |
| Irc.Connection.Privmsg | lib/protocol/llm_irc.py:191 | a `privmsg` appends exactly one message to the connection's log |
| Irc.PyFind | lib/protocol/llm_irc.py:64 | `str.find` is -1 iff the name does not occur in the source, otherwise the index of its first occurrence |
| Irc.ChunkMessages | lib/protocol/llm_irc.py:175-177 | one message per chunk, in order, each the sanitised chunk |
| ProtocolClient.ChainValsOf | lib/protocol/llm_irc.py:155-170 | shape of `build_chain_vals`' result, below |
| ProtocolClient.ChainKeys | lib/protocol/llm_irc.py:158-168 | both dictionaries have exactly the item names as keys |
| ProtocolClient.LastItemWins | lib/protocol/llm_irc.py:159-165 | an input is the item's value, or its name when the value is `''`, unless a later item has the same name |
| ProtocolClient.GettersFetchTheirKey | lib/protocol/llm_irc.py:161-166 | every getter fetches the key it is stored under |
| ProtocolClient.BuiltChainVals | lib/protocol/llm_irc.py:154-170 | AttributeError iff `map_prompt_items` raises, otherwise the dictionaries of its items |
| ProtocolClient.ChainLoop | lib/protocol/llm_irc.py:155-170 | the loop that fills `chain_in` and `chain_p` returns `ChainValsOf` of the items |
| ProtocolClient.Tidied | lib/protocol/llm_irc.py:112-128 | size gate, below |
| ProtocolClient.TidyResponse | lib/protocol/llm_irc.py:112-128 | the method, no-op chunk loop included, returns `Tidied` |
| ProtocolClient.TextReplyFits | lib/protocol/llm_irc.py:107-108 | a text reply of `get_response` is under 480 UTF-8 bytes and has no control character |
| ProtocolClient.PrivmsgEligible | lib/protocol/llm_irc.py:63-69 | `on_privmsg` answers iff the scenario is unparsed or the source does not contain the bot's name |
| ProtocolClient.AnyNameIn | lib/protocol/llm_irc.py:80 | semantics of the `any(...)` test, below |
| ProtocolClient.AnyNameInOrder | lib/protocol/llm_irc.py:80 | `any` stops at the first occurring name: TypeError exactly when a None name comes before any name that occurs in the source |
| ProtocolClient.PubmsgEligibility | lib/protocol/llm_irc.py:74-87 | when all bots have names, a parsed scenario answers iff there is exactly one bot or no bot name occurs in the source |
| ProtocolClient.Destination | lib/protocol/llm_irc.py:193-197 | `send_to_target` sends to the target when it is a channel, otherwise to the source |
| ProtocolClient.Handling | lib/protocol/llm_irc.py:172-191 | the debounce of `res_handler`, below |
| ProtocolClient.OneClaimPerCooldown | lib/protocol/llm_irc.py:172-191 | with several bots, a run of messages without a cooldown starts at most one cooldown, none if the flag is already set |
| ProtocolClient.ClaimedTurnSilencesChunks | lib/protocol/llm_irc.py:173-184 | with several bots and the flag set, a run of multi-chunk replies sends nothing |
| ProtocolClient.Respond | lib/protocol/llm_irc.py:89-110 | what answering one message does, below |
| ProtocolClient.LlmClient.constructor | lib/protocol/llm_irc.py:40-49 | the client's name, chain dictionaries, prompt and session id are those of its bot; the flag starts clear |
| ProtocolClient.LlmClient.GetResponse | lib/protocol/llm_irc.py:89-110 | effect of `get_response`, below |
| ProtocolClient.LlmClient.SendToTarget | lib/protocol/llm_irc.py:193-197 | one message to `Destination` |
| ProtocolClient.LlmClient.SendChunks | lib/protocol/llm_irc.py:175-177 | the chunk loop sends `ChunkMessages` to `Destination` |
| ProtocolClient.LlmClient.ResHandler | lib/protocol/llm_irc.py:172-191 | the messages, new flag and scheduled cooldowns are those of `Handling` |
| ProtocolClient.LlmClient.Answer | lib/protocol/llm_irc.py:65-66 | `get_response` then `res_handler` has the effect `Respond` describes |
| ProtocolClient.LlmClient.OnPrivmsg | lib/protocol/llm_irc.py:60-69 | answers as `Respond` says iff `PrivmsgEligible`; otherwise nothing changes |
| ProtocolClient.LlmClient.OnPubmsg | lib/protocol/llm_irc.py:71-87 | answers as `Respond` says iff the decision is to answer, does nothing if not, and raises without changing anything when the decision raises |
| ProtocolClient.LlmClient.RespSleep | lib/protocol/llm_irc.py:199-205 | the elapsed cooldown clears the flag and changes nothing else |
| RootClient.Gated | llm_irc.py:95-105 | size gate, below |
| RootClient.PrivmsgSends | llm_irc.py:57-62 | one message per chunk of a non-empty list, otherwise exactly one |
| RootClient.PrivateRepliesAreClean | llm_irc.py:55-62 | every private reply goes to the sender as text without control characters |
| RootClient.ChunkRunOutcome | llm_irc.py:69-76 | the channel chunk loop sends every chunk except the first when the flag starts set, and ends with the flag clear |
| RootClient.Pubmsg | llm_irc.py:64-83 | effect of the top-level `on_pubmsg`, below |
| RootClient.GatedTextStripsToItself | llm_irc.py:77-79 | the second `strip` of the string branch changes nothing |
| RootClient.LlmClient.constructor | llm_irc.py:31-44 | the client's name is its bot's name; the flag starts clear |
| RootClient.LlmClient.GetResponse | llm_irc.py:85-105 | the method, no-op chunk loop included, returns `Gated` of the model's answer |
| RootClient.LlmClient.OnPrivmsg | llm_irc.py:49-62 | sends `PrivmsgSends` to the sender iff the connection's nickname is the bot's name; otherwise nothing |
| RootClient.LlmClient.PubChunks | llm_irc.py:69-76 | on a channel the loop sends and sets the flag as `ChunkRun`; otherwise nothing changes |
| RootClient.LlmClient.OnPubmsg | llm_irc.py:64-83 | the status, flag, pending cooldowns and messages are those of `Pubmsg` |
| RootClient.LlmClient.RespSleep | llm_irc.py:120-122 | the elapsed cooldown clears the flag and changes nothing else |

`ScenParser.ScenarioController.ParseScenario`, one outcome each:

- a parsed document sets `isParsed` and the root and returns True;
- a missing path returns False;
- an `open` failure raises UnboundLocalError;
- a parse failure raises NameError;
- every failure leaves the state as it was.

`ScenParser.ItemOfMeaning`, the entry for one item:

- the name is the text of its first `name` child;
- the value is `""` when there is no `value` child, otherwise that child's text;
- AttributeError iff there is no `name` child.

`ScenParser.BuildPrompt`, the result of `build_prompt`:

- the template is the prompt text unchanged;
- the input variables are `InputVariables` of the template;
- AttributeError without a `prompt` child;
- TypeError for a prompt without text.

`ProtocolClient.ChainValsOf`, the shape of the result of `build_chain_vals`:

- both keys are absent iff there are no items;
- otherwise the key sets of both dictionaries are the item names.

`ProtocolClient.Tidied`, the size gate:

- a text reply iff the UTF-8 length is under 480, and then the text is unchanged;
- otherwise exactly the splitter's list.

`ProtocolClient.AnyNameIn`, the test `any(...)`:

- False iff every name is present and none occurs in the source;
- True only if some name occurs;
- TypeError only when some name is None.

`ProtocolClient.Handling`, the debounce of `res_handler`:

- A cooldown is scheduled iff the flag is clear and there are several bots. Its messages go to `Destination`.
- The new flag is the old flag or there being several bots.
- With several bots and the flag clear, a multi-chunk list goes out chunk by chunk, each sanitised, to `Destination`.
- With several bots and the flag set, a multi-chunk list sends nothing.
- Any other reply is sent, once and as it is, to the event target when no cooldown starts.
- With one bot, every chunk goes out, sanitised, to `Destination`.
- With no bots, a multi-chunk list sends nothing and the flag is kept.

`ProtocolClient.Respond`, what answering one message does:

- Without `cp_val`, it raises KeyError and changes nothing.
- On success:
  - the inputs gain `usr_in` bound to the message;
  - every other input and the getters are unchanged.

`ProtocolClient.LlmClient.GetResponse`, the effect of `get_response`:

- KeyError (`cp_val`) and no change when the dictionaries are absent.
- Otherwise:
  - `usr_in` is bound in place;
  - the reply is `Tidied` of the sanitised answer to the new inputs.

`RootClient.Gated`, the size gate:

- a text reply iff the sanitised answer is under 500 UTF-8 bytes;
- the text is then the sanitised answer, with no control character and no more bytes than the answer;
- otherwise the split of the unsanitised answer.

`RootClient.Pubmsg`, the effect of the top-level `on_pubmsg`:

- Unparsed: "No Scenario loaded..." to the sender.
- A chunk list on a channel: as `ChunkRunOutcome` describes, and nothing scheduled.
- A chunk list elsewhere: nothing.
- A string: sent stripped to the target iff the flag is clear; the flag is then set and a cooldown scheduled.
- An empty list: with the flag clear it raises AttributeError; otherwise it only schedules.

## Left out

- The IRC transport is reduced to a log of `privmsg` calls. The reactor, `on_welcome` and both `on_disconnect` handlers are not modelled. A one-chunk or empty list is logged as a `privmsg` whose body is a list. What the IRC library does with a body that is not a `str` is not modelled, so neither is whether it raises before the flag is set (lib/protocol/llm_irc.py:187-189).
- `irc.client.is_channel` is a parameter, because its body is not part of this model.
- LangChain and GPT4All: the chain invocation is the parameter `generate`.
  - `PromptTemplate` construction and its validation are not modelled (lib/protocol/llm_irc.py:48,93-96 and llm_irc.py:37-44). Neither is the `StrOutputParser`.
  - An `itemgetter` is represented by the key it fetches.
  - `generate` is total. `chain.invoke` (lib/protocol/llm_irc.py:106) can raise, for example on a template variable that no item declares, or on a backend failure. Then `usr_in` is already bound (line 105) and nothing is sent; the model has no such failure. The chain also passes the prompt only the keys that `cp_val`'s getters fetch, while the model hands `generate` all of `ci_val`.
- `CharacterTextSplitter` is the parameter `split`. Chunk sizes, separator and overlap are not asserted, because its internals are not part of this model.
- `asyncio` scheduling and timing are left out. `create_task` becomes a pending count, and the elapsed sleep becomes the event `RespSleep`. Concurrency between bots' connections is not modelled.
- `print` and `logging` calls are not modelled. This includes the `print()` at llm_irc.py:52-53.
- The file I/O and defusedxml parsing of `parse_scenario` are not modelled. `ParseScenario` takes the outcome of reading the file. The `sg_tree` field is folded into `root`.
- `DisableXmlNamespaces` is not modelled (lib/xml/disablexmlnamespace.py).
- main.py is not part of this model, except `bot_count = len(get_bots())` (`CountBots`). Registering `on_pubmsg` only for bots with a `SIP` child is up to the caller of `OnPubmsg`.
- The top-level scen_parser.py is not part of this model.
- The regex engine is modelled only for the pattern `\{(.*)\}`.
- The field `model` is read only to build the chain (lib/protocol/llm_irc.py:101, llm_irc.py:38 and 92), which the parameter `generate` stands for. The field `prompt` and the class attributes `msg_count` and `SQLITE_DB` are never read in the modelled paths, and are not modelled.
- Characters are Unicode scalar values, so lone surrogates are not modelled. Python can hold them in a `str`, but cannot encode them as UTF-8.
- ProtocolClient.LlmClient.constructor: requires the bot's name, prompt items, prompt text and the scenario name to be readable, and the name to have text. A bot whose lookups raise in `__init__` is not modelled. Nor is an empty `<name/>`: its None name makes `__init__` raise TypeError when it builds the session id (lib/protocol/llm_irc.py:49).
- RootClient.LlmClient.constructor: requires the bot's name and prompt text to be readable, and both to have text. A bot whose lookups raise is not modelled. Nor is an empty `<name/>`: `__init__` (llm_irc.py:31-44) accepts it without raising, and the client then never answers a private message, because `connection.nickname == None` is false.
- ProtocolClient.LlmClient.RespSleep: requires a scheduled cooldown. A sleep only runs after `res_handler` scheduled it.
- RootClient.LlmClient.RespSleep: requires a scheduled cooldown, for the same reason.
