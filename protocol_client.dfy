/**
 * The bot client of lib/protocol/llm_irc.py: the chain inputs built from the
 * prompt items, the `usr_in` binding and size gate of `get_response`, who gets
 * an answer (`on_privmsg`, `on_pubmsg`), and the `hasReplied` debounce of
 * `res_handler` with its cooldown `resp_sleep`.
 */
module ProtocolClient {
  import opened Wrappers
  import opened Utf8
  import opened Sanitize
  import opened ElementTree
  import opened ScenParser
  import opened Irc

  /** A key of the chain dictionaries: an item name, which is None for an empty `<name/>`. */
  type Key = Option<string>

  /** A value of the input dictionary. */
  type Val = Option<string>

  /** The key `get_response` binds the user's message to. */
  const UsrIn: Key := Some("usr_in")

  /** `tidy_response` splits a reply of this many UTF-8 bytes or more. */
  const SplitThreshold: nat := 480

  /**
   * The dictionary `build_chain_vals` returns: `ci_val` maps each item name to its
   * input, `cp_val` maps it to the getter `itemgetter(name)`, written here as the
   * name it fetches. A key is absent (None) until the loop has seen an item.
   */
  datatype ChainVals = ChainVals(ciVal: Option<map<Key, Val>>, cpVal: Option<map<Key, Key>>)

  /** The input an item contributes: its value, or its own name when the value is "". */
  function Bound(item: PromptItem): Val
  {
    if item.value == Some("") then item.name else item.value
  }

  /** The names of `items`. */
  function Names(items: seq<PromptItem>): set<Key>
  {
    set i | 0 <= i < |items| :: items[i].name
  }

  /** `chain_in` after the loop has processed `items`. */
  function ChainInputs(items: seq<PromptItem>): map<Key, Val>
  {
    if items == [] then map[]
    else ChainInputs(items[..|items| - 1])[items[|items| - 1].name := Bound(items[|items| - 1])]
  }

  /** `chain_p` after the loop has processed `items`. */
  function ChainGetters(items: seq<PromptItem>): map<Key, Key>
  {
    if items == [] then map[]
    else ChainGetters(items[..|items| - 1])[items[|items| - 1].name := items[|items| - 1].name]
  }

  /** What `build_chain_vals` returns for `items`. */
  function ChainValsOf(items: seq<PromptItem>): (r: ChainVals)
    ensures r.ciVal.None? <==> items == []
    ensures r.cpVal.None? <==> items == []
    ensures r.ciVal.Some? ==> r.ciVal.value.Keys == Names(items)
    ensures r.cpVal.Some? ==> r.cpVal.value.Keys == Names(items)
  {
    ChainKeys(items);
    if items == [] then ChainVals(None, None)
    else ChainVals(Some(ChainInputs(items)), Some(ChainGetters(items)))
  }

  /** Both dictionaries have exactly the item names as keys. */
  lemma {:induction false} ChainKeys(items: seq<PromptItem>)
    ensures ChainInputs(items).Keys == Names(items)
    ensures ChainGetters(items).Keys == Names(items)
  {
    if items != [] {
      var init := items[..|items| - 1];
      ChainKeys(init);
      assert items == init + [items[|items| - 1]];
      assert Names(items) == Names(init) + {items[|items| - 1].name};
    }
  }

  /**
   * The entry for an item's name comes from that item unless a later item has the
   * same name: the last item with a given name wins.
   */
  lemma {:induction false} LastItemWins(items: seq<PromptItem>, i: nat)
    requires i < |items|
    requires forall j :: i < j < |items| ==> items[j].name != items[i].name
    ensures items[i].name in ChainInputs(items)
    ensures ChainInputs(items)[items[i].name] == (if items[i].value == Some("") then items[i].name else items[i].value)
  {
    if i < |items| - 1 {
      LastItemWins(items[..|items| - 1], i);
    }
  }

  /** Every getter fetches the key it is stored under. */
  lemma {:induction false} GettersFetchTheirKey(items: seq<PromptItem>)
    ensures forall k :: k in ChainGetters(items) ==> ChainGetters(items)[k] == k
  {
    if items != [] {
      GettersFetchTheirKey(items[..|items| - 1]);
    }
  }

  /** `build_chain_vals` on the items `map_prompt_items` listed. */
  function BuiltChainVals(bot: Element): (r: Result<ChainVals>)
    ensures r.Err? <==> PromptItemsOf(bot).Err?
    ensures r.Err? ==> r.error == AttributeError
    ensures r.Ok? ==> r.value == ChainValsOf(PromptItemsOf(bot).value)
  {
    match PromptItemsOf(bot)
    case Err(e) => Err(e)
    case Ok(items) => Ok(ChainValsOf(items))
  }

  /** The loop of `build_chain_vals`, filling `chain_in` and `chain_p` item by item. */
  method ChainLoop(items: seq<PromptItem>) returns (out: ChainVals)
    ensures out == ChainValsOf(items)
  {
    out := ChainVals(None, None);
    var chainP: map<Key, Key> := map[];
    var chainIn: map<Key, Val> := map[];
    for i := 0 to |items|
      invariant chainIn == ChainInputs(items[..i])
      invariant chainP == ChainGetters(items[..i])
      invariant out == if i == 0 then ChainVals(None, None) else ChainVals(Some(chainIn), Some(chainP))
    {
      var item := items[i];
      var ciVal, cpVal;
      if item.value == Some("") {
        ciVal := item.name;
        cpVal := item.name;
      } else {
        ciVal := item.value;
        cpVal := item.name;
      }
      assert items[..i + 1][..i] == items[..i];
      chainIn := chainIn[item.name := ciVal];
      chainP := chainP[item.name := cpVal];
      out := ChainVals(Some(chainIn), Some(chainP));
    }
    assert items[..|items|] == items;
  }

  /** The reply `tidy_response` makes of a sanitised response. */
  function Tidied(response: string, split: string -> seq<string>): (r: Reply)
    ensures r.Text? <==> ByteLength(response) < SplitThreshold
    ensures r.Text? ==> r.text == response
    ensures r.Chunks? ==> r.parts == split(response)
  {
    if ByteLength(response) >= SplitThreshold then Chunks(split(response)) else Text(response)
  }

  /**
   * `tidy_response`: below the threshold the text goes out as it is; at or above it
   * the splitter's list is returned, and the loop over it only rebinds its loop
   * variable, so every chunk is left as the splitter made it.
   */
  method TidyResponse(response: string, split: string -> seq<string>) returns (r: Reply)
    ensures r == Tidied(response, split)
  {
    if |Encode(response)| >= SplitThreshold {
      var cleanRes := split(response);
      for i := 0 to |cleanRes|
      {
        var res := cleanRes[i];
        res := RespStripper(res);
      }
      r := Chunks(cleanRes);
    } else {
      r := Text(response);
    }
  }

  /** A text reply of `get_response` has no control character and is under the threshold. */
  lemma TextReplyFits(generated: string, split: string -> seq<string>)
    ensures Tidied(Stripped(generated), split).Text? ==>
      ByteLength(Tidied(Stripped(generated), split).text) < SplitThreshold
      && forall c :: c in Tidied(Stripped(generated), split).text ==> !IsControl(c)
  {
    StrippedMembers(generated);
  }

  /** `on_privmsg` answers iff no scenario is parsed or the sender's source does not contain the bot's name. */
  function PrivmsgEligible(isParsed: bool, source: string, name: string): (r: bool)
    ensures r <==> !isParsed || !Contains(source, name)
  {
    if isParsed then PyFind(source, name) == -1 else true
  }

  /**
   * `any(name in source for name in names)`: stops at the first name found in
   * `source`; a None name met before that raises TypeError.
   */
  function AnyNameIn(names: seq<Option<string>>, source: string): (r: Result<bool>)
    ensures r == Ok(false) <==> forall i :: 0 <= i < |names| ==> names[i].Some? && !Contains(source, names[i].value)
    ensures r == Ok(true) ==> exists i :: 0 <= i < |names| && names[i].Some? && Contains(source, names[i].value)
    ensures r.Err? ==> r.error == TypeError && exists i :: 0 <= i < |names| && names[i].None?
  {
    if names == [] then Ok(false)
    else match names[0]
      case None => Err(TypeError)
      case Some(n) => if Contains(source, n) then Ok(true) else AnyNameIn(names[1..], source)
  }
  /** `names[i]` is None and every name before it is present and does not occur in `source`. */
  predicate NoneBeforeAnyMatch(names: seq<Option<string>>, source: string, i: int)
  {
    0 <= i < |names| && names[i].None? &&
    forall j :: 0 <= j < i ==> names[j].Some? && !Contains(source, names[j].value)
  }

  /** `any` stops at the first name that occurs: TypeError iff a None comes before any occurrence. */
  lemma {:induction false} AnyNameInOrder(names: seq<Option<string>>, source: string)
    ensures AnyNameIn(names, source).Err? <==> exists i :: NoneBeforeAnyMatch(names, source, i)
    decreases |names|
  {
    if names != [] {
      match names[0]
      case None =>
        assert NoneBeforeAnyMatch(names, source, 0);
      case Some(n) =>
        if Contains(source, n) {
          forall i | 0 <= i < |names|
            ensures !NoneBeforeAnyMatch(names, source, i)
          {
            if i > 0 {
              assert names[0].Some? && Contains(source, names[0].value);
            }
          }
        } else {
          var rest := names[1..];
          AnyNameInOrder(rest, source);
          if AnyNameIn(rest, source).Err? {
            var k :| NoneBeforeAnyMatch(rest, source, k);
            assert NoneBeforeAnyMatch(names, source, k + 1) by {
              forall j | 0 <= j < k + 1
                ensures names[j].Some? && !Contains(source, names[j].value)
              {
                if j > 0 {
                  assert names[j] == rest[j - 1];
                }
              }
            }
          } else {
            forall i | NoneBeforeAnyMatch(names, source, i)
              ensures false
            {
              assert i > 0;
              assert NoneBeforeAnyMatch(rest, source, i - 1) by {
                forall j | 0 <= j < i - 1
                  ensures rest[j].Some? && !Contains(source, rest[j].value)
                {
                  assert rest[j] == names[j + 1];
                }
              }
            }
          }
        }
    }
  }


  /** The decision of `on_pubmsg`, given the scenario's parse flag and root. */
  function PubmsgEligible(isParsed: bool, root: Option<Element>, source: string): (r: Result<bool>)
  {
    if !isParsed then Ok(true)
    else match root
      case None => Err(AttributeError)
      case Some(e) =>
        if |FindAll(e, "bot")| == 1 then Ok(true)
        else match BotNames(FindAll(e, "bot"))
          case Err(err) => Err(err)
          case Ok(names) =>
            match AnyNameIn(names, source)
            case Err(err) => Err(err)
            case Ok(isBot) => Ok(!isBot)
  }

  /**
   * With a parsed scenario whose bots all have names, `on_pubmsg` answers iff there
   * is exactly one bot or no bot's name occurs in the source.
   */
  lemma PubmsgEligibility(root: Element, source: string)
    requires forall b :: b in FindAll(root, "bot") ==> exists n :: FindAll(b, "name") != [] && FindAll(b, "name")[0].text == Some(n)
    ensures PubmsgEligible(true, Some(root), source) == Ok(
      || |FindAll(root, "bot")| == 1
      || forall b :: b in FindAll(root, "bot") ==> !Contains(source, FindAll(b, "name")[0].text.value))
  {
    var bots := FindAll(root, "bot");
    if |bots| != 1 {
      var names := BotNames(bots);
      forall i | 0 <= i < |bots|
        ensures GetBotName(bots[i]).Ok?
      {
        assert bots[i] in bots;
      }
      BotNamesValues(bots);
      var isBot := AnyNameIn(names.value, source);
      assert isBot.Ok? by {
        forall i | 0 <= i < |names.value|
          ensures names.value[i].Some?
        {
          assert bots[i] in bots;
        }
      }
      if isBot.value {
        var i :| 0 <= i < |names.value| && names.value[i].Some? && Contains(source, names.value[i].value);
        assert bots[i] in bots;
      } else {
        forall b | b in bots
          ensures !Contains(source, FindAll(b, "name")[0].text.value)
        {
          var i :| 0 <= i < |bots| && bots[i] == b;
        }
      }
    }
  }

  /** `send_to_target`'s choice: the channel a message came from, else the sender. */
  function Destination(ev: Event, isChannel: string -> bool): (r: string)
    ensures r == ev.target || r == ev.source
    ensures isChannel(ev.target) ==> r == ev.target
    ensures !isChannel(ev.target) ==> r == ev.source
  {
    if isChannel(ev.target) then ev.target else ev.source
  }

  /** What one call of `res_handler` does: the messages, the new flag, and whether a cooldown is scheduled. */
  datatype Effect = Effect(sends: seq<Message>, flag: bool, scheduled: bool)

  /**
   * `res_handler` with flag `hasReplied` and `bot_count` bots. A list of more than
   * one chunk is the only reply the flag can suppress; every other reply is sent.
   */
  function Handling(flag: bool, botCount: int, reply: Reply, ev: Event, isChannel: string -> bool): (r: Effect)
    // the first answer among several bots claims the turn and starts a cooldown
    ensures r.scheduled <==> !flag && botCount > 1
    ensures r.flag == (flag || botCount > 1)
    ensures r.scheduled ==> forall m :: m in r.sends ==> m.target == Destination(ev, isChannel)
    // a claimed turn suppresses long replies, and leaves the flag as it is
    ensures flag && botCount > 1 && reply.Chunks? && |reply.parts| > 1 ==> r.sends == []
    // a reply that is not a list of several chunks always goes out, as it is
    ensures !(reply.Chunks? && |reply.parts| > 1) ==> |r.sends| == 1 && r.sends[0].body == reply
    ensures !(reply.Chunks? && |reply.parts| > 1) && !r.scheduled ==> r.sends[0].target == ev.target
    // the first long reply among several bots goes out chunk by chunk
    ensures !flag && botCount > 1 && reply.Chunks? && |reply.parts| > 1 ==>
      r.sends == ChunkMessages(Destination(ev, isChannel), reply.parts)
    // without bots a long reply is dropped and the flag kept
    ensures botCount < 1 && reply.Chunks? && |reply.parts| > 1 ==> r.sends == [] && r.flag == flag
    // with one bot nothing is suppressed and no cooldown starts
    ensures botCount == 1 && reply.Chunks? && |reply.parts| > 1 ==>
      r.sends == ChunkMessages(Destination(ev, isChannel), reply.parts) && r.flag == flag
  {
    var dest := Destination(ev, isChannel);
    if reply.Chunks? && |reply.parts| > 1 then
      if !flag && botCount > 1 then Effect(ChunkMessages(dest, reply.parts), true, true)
      else if botCount == 1 then Effect(ChunkMessages(dest, reply.parts), flag, false)
      else Effect([], flag, false)
    else if !flag && botCount > 1 then Effect([Message(dest, reply)], true, true)
    else Effect([Message(ev.target, reply)], flag, false)
  }

  /** A message arriving while no cooldown elapses, with the reply the model gave to it. */
  datatype Incoming = Incoming(ev: Event, reply: Reply)

  /** How many of `inbox` start a cooldown when handled in order from flag `flag`. */
  function Claims(flag: bool, botCount: int, inbox: seq<Incoming>, isChannel: string -> bool): nat
    decreases |inbox|
  {
    if inbox == [] then 0
    else
      var h := Handling(flag, botCount, inbox[0].reply, inbox[0].ev, isChannel);
      (if h.scheduled then 1 else 0) + Claims(h.flag, botCount, inbox[1..], isChannel)
  }

  /** The messages sent when `inbox` is handled in order from flag `flag`. */
  function Sends(flag: bool, botCount: int, inbox: seq<Incoming>, isChannel: string -> bool): seq<Message>
    decreases |inbox|
  {
    if inbox == [] then []
    else
      var h := Handling(flag, botCount, inbox[0].reply, inbox[0].ev, isChannel);
      h.sends + Sends(h.flag, botCount, inbox[1..], isChannel)
  }

  /**
   * Among several bots, at most one reply per cooldown claims the turn, and none
   * when the flag is already set.
   */
  lemma {:induction false} OneClaimPerCooldown(flag: bool, botCount: int, inbox: seq<Incoming>, isChannel: string -> bool)
    requires botCount > 1
    ensures Claims(flag, botCount, inbox, isChannel) <= (if flag then 0 else 1)
    decreases |inbox|
  {
    if inbox != [] {
      OneClaimPerCooldown(true, botCount, inbox[1..], isChannel);
    }
  }

  /** Once the turn is claimed among several bots, no multi-chunk reply goes out until the cooldown. */
  lemma {:induction false} ClaimedTurnSilencesChunks(botCount: int, inbox: seq<Incoming>, isChannel: string -> bool)
    requires botCount > 1
    requires forall k :: 0 <= k < |inbox| ==> inbox[k].reply.Chunks? && |inbox[k].reply.parts| > 1
    ensures Sends(true, botCount, inbox, isChannel) == []
    decreases |inbox|
  {
    if inbox != [] {
      ClaimedTurnSilencesChunks(botCount, inbox[1..], isChannel);
    }
  }

  /** The per-bot state `get_response`, `res_handler` and `resp_sleep` change. */
  datatype ClientState = ClientState(chainVals: ChainVals, hasReplied: bool, pendingSleeps: nat)

  /** What answering one message does. */
  datatype Outcome = Outcome(status: Status, state: ClientState, sends: seq<Message>)

  /**
   * `get_response` followed by `res_handler`: the input dictionary gets the user's
   * message under `usr_in`, the model's answer is sanitised and gated, and the
   * reply handled. Without `cp_val` (no prompt items) the lookup raises KeyError
   * before anything changes.
   */
  function Respond(st: ClientState, usrInp: string, ev: Event, botCount: int,
                   generate: map<Key, Val> -> string, split: string -> seq<string>,
                   isChannel: string -> bool): (o: Outcome)
    ensures st.chainVals.cpVal.None? ==> o == Outcome(Raised(KeyError("cp_val")), st, [])
    ensures o.status == Done ==>
      && o.state.chainVals.cpVal == st.chainVals.cpVal
      && o.state.chainVals.ciVal.Some? && st.chainVals.ciVal.Some?
      && o.state.chainVals.ciVal.value.Keys == st.chainVals.ciVal.value.Keys + {UsrIn}
      && o.state.chainVals.ciVal.value[UsrIn] == Some(usrInp)
      && (forall k :: k in st.chainVals.ciVal.value && k != UsrIn ==> o.state.chainVals.ciVal.value[k] == st.chainVals.ciVal.value[k])
    ensures o.status != Done ==> o.state == st && o.sends == []
  {
    match (st.chainVals.cpVal, st.chainVals.ciVal)
    case (None, _) => Outcome(Raised(KeyError("cp_val")), st, [])
    case (Some(_), None) => Outcome(Raised(KeyError("ci_val")), st, [])
    case (Some(_), Some(ci)) =>
      var bound := ci[UsrIn := Some(usrInp)];
      var reply := Tidied(Stripped(generate(bound)), split);
      var h := Handling(st.hasReplied, botCount, reply, ev, isChannel);
      Outcome(Done,
              ClientState(st.chainVals.(ciVal := Some(bound)), h.flag,
                          st.pendingSleeps + (if h.scheduled then 1 else 0)),
              h.sends)
  }

  /** `LLMClient` of lib/protocol/llm_irc.py, one per bot. */
  class LlmClient {
    const scenario: ScenarioController
    const bot: Element
    const name: string
    const bp: PromptDict
    const sessionId: string
    var chainVals: ChainVals
    var hasReplied: bool      // an instance field once first assigned: each bot has its own flag
    var pendingSleeps: nat    // `resp_sleep` tasks scheduled and not yet run

    function State(): ClientState
      reads this
    {
      ClientState(chainVals, hasReplied, pendingSleeps)
    }

    /**
     * `__init__` for a bot whose name, prompt items, prompt and the scenario name
     * can be read; the LangChain template built here is not modelled.
     */
    constructor (scenario: ScenarioController, bot: Element)
      requires GetBotName(bot).Ok? && GetBotName(bot).value.Some?
      requires BuiltChainVals(bot).Ok?
      requires FindAll(bot, "prompt") != [] && FindAll(bot, "prompt")[0].text.Some?
      requires scenario.GetName().Ok? && scenario.GetName().value.Some?
      ensures this.scenario == scenario && this.bot == bot
      ensures name == GetBotName(bot).value.value
      ensures sessionId == name + " " + scenario.GetName().value.value
      ensures chainVals == BuiltChainVals(bot).value
      ensures bp.template == FindAll(bot, "prompt")[0].text.value
      ensures bp.inputVariables == Placeholders.InputVariables(bp.template)
      ensures !hasReplied && pendingSleeps == 0
    {
      this.scenario := scenario;
      this.bot := bot;
      name := GetBotName(bot).value.value;
      var items := MapPromptItems(bot);
      var built := ChainLoop(items.value);
      chainVals := built;
      var prompt := BuildPrompt(bot);
      bp := prompt.value;
      sessionId := GetBotName(bot).value.value + " " + scenario.GetName().value.value;
      hasReplied := false;
      pendingSleeps := 0;
    }

    /**
     * `get_response`: binds the user's message in place under `usr_in`, leaving the
     * other inputs and the getters as they are, then sanitises and gates the answer.
     */
    method GetResponse(usrInp: string, generate: map<Key, Val> -> string, split: string -> seq<string>)
      returns (r: Result<Reply>)
      modifies this`chainVals
      ensures old(chainVals.cpVal).None? ==> r == Err(KeyError("cp_val")) && chainVals == old(chainVals)
      ensures old(chainVals.cpVal).Some? && old(chainVals.ciVal).None? ==>
        r == Err(KeyError("ci_val")) && chainVals == old(chainVals)
      ensures old(chainVals.cpVal).Some? && old(chainVals.ciVal).Some? ==>
        && chainVals == old(chainVals).(ciVal := Some(old(chainVals.ciVal.value)[UsrIn := Some(usrInp)]))
        && r == Ok(Tidied(Stripped(generate(chainVals.ciVal.value)), split))
    {
      if chainVals.cpVal.None? {
        return Err(KeyError("cp_val"));
      }
      if chainVals.ciVal.None? {
        return Err(KeyError("ci_val"));
      }
      chainVals := chainVals.(ciVal := Some(chainVals.ciVal.value[UsrIn := Some(usrInp)]));
      var response := generate(chainVals.ciVal.value);
      var cleanRes := RespStripper(response);
      var tidy := TidyResponse(cleanRes, split);
      r := Ok(tidy);
    }

    /** `send_to_target` */
    method SendToTarget(conn: Connection, ev: Event, msg: Reply, isChannel: string -> bool)
      modifies conn`sent
      ensures conn.sent == old(conn.sent) + [Message(Destination(ev, isChannel), msg)]
    {
      if isChannel(ev.target) {
        conn.Privmsg(ev.target, msg);
      } else {
        conn.Privmsg(ev.source, msg);
      }
    }

    /** The loop of `res_handler` that sanitises each chunk and sends it on. */
    method SendChunks(conn: Connection, ev: Event, parts: seq<string>, isChannel: string -> bool)
      modifies conn`sent
      ensures conn.sent == old(conn.sent) + ChunkMessages(Destination(ev, isChannel), parts)
    {
      for i := 0 to |parts|
        invariant conn.sent == old(conn.sent) + ChunkMessages(Destination(ev, isChannel), parts[..i])
      {
        var res := RespStripper(parts[i]);
        SendToTarget(conn, ev, Text(res), isChannel);
        assert parts[..i + 1][..i] == parts[..i];
      }
      assert parts[..|parts|] == parts;
    }

    /** `res_handler`; scheduling `resp_sleep` adds one pending cooldown. */
    method ResHandler(conn: Connection, ev: Event, cleanedRes: Reply, isChannel: string -> bool)
      modifies this`hasReplied, this`pendingSleeps, conn`sent
      ensures var h := Handling(old(hasReplied), scenario.botCount, cleanedRes, ev, isChannel);
        && conn.sent == old(conn.sent) + h.sends
        && hasReplied == h.flag
        && pendingSleeps == old(pendingSleeps) + (if h.scheduled then 1 else 0)
    {
      if cleanedRes.Chunks? && |cleanedRes.parts| > 1 {
        if !hasReplied && scenario.botCount > 1 {
          SendChunks(conn, ev, cleanedRes.parts, isChannel);
          hasReplied := true;
          pendingSleeps := pendingSleeps + 1;
        } else if scenario.botCount == 1 {
          SendChunks(conn, ev, cleanedRes.parts, isChannel);
        }
      } else {
        if !hasReplied && scenario.botCount > 1 {
          SendToTarget(conn, ev, cleanedRes, isChannel);
          hasReplied := true;
          pendingSleeps := pendingSleeps + 1;
        } else {
          conn.Privmsg(ev.target, cleanedRes);
        }
      }
    }

    /** `response = self.get_response(usr_msg)` followed by `self.res_handler(...)`. */
    method Answer(conn: Connection, ev: Event, generate: map<Key, Val> -> string,
                  split: string -> seq<string>, isChannel: string -> bool) returns (s: Status)
      modifies this`chainVals, this`hasReplied, this`pendingSleeps, conn`sent
      ensures var o := Respond(old(State()), ev.text, ev, scenario.botCount, generate, split, isChannel);
        s == o.status && State() == o.state && conn.sent == old(conn.sent) + o.sends
    {
      var response := GetResponse(ev.text, generate, split);
      if response.Err? {
        return Raised(response.error);
      }
      ResHandler(conn, ev, response.value, isChannel);
      s := Done;
    }

    /** `on_privmsg` */
    method OnPrivmsg(conn: Connection, ev: Event, generate: map<Key, Val> -> string,
                     split: string -> seq<string>, isChannel: string -> bool) returns (s: Status)
      modifies this`chainVals, this`hasReplied, this`pendingSleeps, conn`sent
      ensures PrivmsgEligible(scenario.isParsed, ev.source, name) ==>
        var o := Respond(old(State()), ev.text, ev, scenario.botCount, generate, split, isChannel);
        s == o.status && State() == o.state && conn.sent == old(conn.sent) + o.sends
      ensures !PrivmsgEligible(scenario.isParsed, ev.source, name) ==>
        s == Done && State() == old(State()) && conn.sent == old(conn.sent)
    {
      if scenario.isParsed {
        if PyFind(ev.source, name) == -1 {
          s := Answer(conn, ev, generate, split, isChannel);
        } else {
          s := Done;
        }
      } else {
        s := Answer(conn, ev, generate, split, isChannel);
      }
    }

    /** `on_pubmsg` */
    method OnPubmsg(conn: Connection, ev: Event, generate: map<Key, Val> -> string,
                    split: string -> seq<string>, isChannel: string -> bool) returns (s: Status)
      modifies this`chainVals, this`hasReplied, this`pendingSleeps, conn`sent
      ensures PubmsgEligible(scenario.isParsed, scenario.root, ev.source) == Ok(true) ==>
        var o := Respond(old(State()), ev.text, ev, scenario.botCount, generate, split, isChannel);
        s == o.status && State() == o.state && conn.sent == old(conn.sent) + o.sends
      ensures PubmsgEligible(scenario.isParsed, scenario.root, ev.source) == Ok(false) ==>
        s == Done && State() == old(State()) && conn.sent == old(conn.sent)
      ensures PubmsgEligible(scenario.isParsed, scenario.root, ev.source).Err? ==>
        s == Raised(PubmsgEligible(scenario.isParsed, scenario.root, ev.source).error)
        && State() == old(State()) && conn.sent == old(conn.sent)
    {
      if scenario.isParsed {
        var bots := scenario.GetBots();
        if bots.Err? {
          return Raised(bots.error);
        }
        if |bots.value| == 1 {
          s := Answer(conn, ev, generate, split, isChannel);
        } else {
          var names := scenario.GetAllBotNames();
          if names.Err? {
            return Raised(names.error);
          }
          var isBot := AnyNameIn(names.value, ev.source);
          if isBot.Err? {
            return Raised(isBot.error);
          }
          if !isBot.value {
            s := Answer(conn, ev, generate, split, isChannel);
          } else {
            s := Done;
          }
        }
      } else {
        s := Answer(conn, ev, generate, split, isChannel);
      }
    }

    /** `resp_sleep` once its delay has elapsed: the flag is cleared and nothing else changes. */
    method RespSleep()
      requires pendingSleeps > 0
      modifies this`hasReplied, this`pendingSleeps
      ensures !hasReplied && pendingSleeps == old(pendingSleeps) - 1
    {
      hasReplied := false;
      pendingSleeps := pendingSleeps - 1;
    }
  }
}
