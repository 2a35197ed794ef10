/**
 * The older bot client of the top-level llm_irc.py: its size gate, its private
 * replies, and the `hasReplied` flag it sets and clears inside the per-chunk
 * loop of `on_pubmsg`.
 */
module RootClient {
  import opened Wrappers
  import opened Utf8
  import opened Sanitize
  import opened ElementTree
  import opened ScenParser
  import opened Irc

  /** `get_response` splits a reply whose sanitised text has this many UTF-8 bytes or more. */
  const SplitThreshold: nat := 500

  /** Sent to a channel message's sender while no scenario is loaded. */
  const NoScenario: string := "No Scenario loaded..."

  /**
   * The reply `get_response` makes of the model's answer: the sanitised text when it
   * is short enough, otherwise the split of the answer as the model gave it.
   */
  function Gated(generated: string, split: string -> seq<string>): (r: Reply)
    ensures r.Text? <==> ByteLength(Stripped(generated)) < SplitThreshold
    ensures r.Text? ==> r.text == Stripped(generated)
    ensures r.Text? ==> ByteLength(r.text) <= ByteLength(generated)
    ensures r.Text? ==> forall c :: c in r.text ==> c in generated && !IsControl(c)
    ensures r.Chunks? ==> r.parts == split(generated)
  {
    StrippedMembers(generated);
    StrippedShorter(generated);
    var clean := Stripped(generated);
    if ByteLength(clean) >= SplitThreshold then Chunks(split(generated)) else Text(clean)
  }

  /** The text `resp_stripper` makes of a reply that is not a non-empty list: an empty list yields "". */
  function WholeText(reply: Reply): string
  {
    if reply.Text? then Stripped(reply.text) else ""
  }

  /** What `on_privmsg` sends for `reply`: every chunk, or the whole reply, sanitised, to `source`. */
  function PrivmsgSends(source: string, reply: Reply): (r: seq<Message>)
    ensures reply.Chunks? && |reply.parts| >= 1 ==> |r| == |reply.parts|
    ensures !(reply.Chunks? && |reply.parts| >= 1) ==> |r| == 1
  {
    if reply.Chunks? && |reply.parts| >= 1 then ChunkMessages(source, reply.parts)
    else [Message(source, Text(WholeText(reply)))]
  }

  /** Every private reply goes back to the sender, as text without control characters. */
  lemma PrivateRepliesAreClean(source: string, reply: Reply)
    ensures forall m :: m in PrivmsgSends(source, reply) ==>
      m.target == source && m.body.Text? && forall c :: c in m.body.text ==> !IsControl(c)
  {
    var r := PrivmsgSends(source, reply);
    forall m | m in r
      ensures m.target == source && m.body.Text? && forall c :: c in m.body.text ==> !IsControl(c)
    {
      var i :| 0 <= i < |r| && r[i] == m;
      if reply.Chunks? && |reply.parts| >= 1 {
        StrippedMembers(reply.parts[i]);
      } else if reply.Text? {
        StrippedMembers(reply.text);
      }
    }
  }

  /** The messages sent and the flag after the chunk loop of `on_pubmsg` on a channel. */
  datatype Run = Run(sends: seq<Message>, flag: bool)

  /**
   * The chunk loop of `on_pubmsg` for a channel `target`: a chunk is sent iff the
   * flag is false at its turn, and every turn ends with the flag false.
   */
  function ChunkRun(flag: bool, target: string, parts: seq<string>): Run
  {
    if parts == [] then Run([], flag)
    else
      var prev := ChunkRun(flag, target, parts[..|parts| - 1]);
      Run(prev.sends + (if prev.flag then [] else [Message(target, Text(Stripped(parts[|parts| - 1])))]), false)
  }

  /**
   * So the loop sends every chunk, except the first when the flag starts set, and
   * leaves the flag clear.
   */
  lemma {:induction false} ChunkRunOutcome(flag: bool, target: string, parts: seq<string>)
    requires parts != []
    ensures !ChunkRun(flag, target, parts).flag
    ensures ChunkRun(flag, target, parts).sends ==
      if flag then ChunkMessages(target, parts[1..]) else ChunkMessages(target, parts)
  {
    var init := parts[..|parts| - 1];
    if init != [] {
      ChunkRunOutcome(flag, target, init);
      if flag {
        assert parts[1..][..|parts[1..]| - 1] == init[1..];
      }
    }
  }

  /** What one call of `on_pubmsg` does. */
  datatype Outcome = Outcome(status: Status, hasReplied: bool, pendingSleeps: nat, sends: seq<Message>)

  /**
   * `on_pubmsg` with the model's reply `reply`; `addressed` is the test
   * `connection.nickname == self.name`. A string reply is stripped again and sent
   * iff the flag is clear, and a cooldown is scheduled either way; an empty list
   * takes that branch too, and calling `strip` on it raises AttributeError.
   */
  function Pubmsg(isParsed: bool, addressed: bool, flag: bool, pending: nat, ev: Event, reply: Reply,
                  isChannel: string -> bool): (o: Outcome)
    ensures !isParsed ==>
      o == Outcome(Done, flag, pending, [Message(ev.source, Text(NoScenario))])
    ensures isParsed && !addressed ==> o == Outcome(Done, flag, pending, [])
    ensures isParsed && addressed && reply.Chunks? && |reply.parts| >= 1 ==>
      && o.status == Done && o.pendingSleeps == pending
      && (isChannel(ev.target) ==>
            && !o.hasReplied
            && o.sends == (if flag then ChunkMessages(ev.target, reply.parts[1..]) else ChunkMessages(ev.target, reply.parts)))
      && (!isChannel(ev.target) ==> o.hasReplied == flag && o.sends == [])
    ensures isParsed && addressed && reply.Text? ==>
      && o.status == Done && o.hasReplied && o.pendingSleeps == pending + 1
      && o.sends == (if flag then [] else [Message(ev.target, Text(Strip(reply.text, Controls)))])
    ensures isParsed && addressed && reply == Chunks([]) ==>
      if flag then o == Outcome(Done, flag, pending + 1, [])
      else o == Outcome(Raised(AttributeError), flag, pending, [])
  {
    if !isParsed then Outcome(Done, flag, pending, [Message(ev.source, Text(NoScenario))])
    else if !addressed then Outcome(Done, flag, pending, [])
    else match reply
      case Chunks(parts) =>
        if |parts| >= 1 then
          if isChannel(ev.target) then
            ChunkRunOutcome(flag, ev.target, parts);
            var run := ChunkRun(flag, ev.target, parts);
            Outcome(Done, run.flag, pending, run.sends)
          else Outcome(Done, flag, pending, [])
        else if flag then Outcome(Done, flag, pending + 1, [])
        else Outcome(Raised(AttributeError), flag, pending, [])
      case Text(t) =>
        Outcome(Done, true, pending + 1, if flag then [] else [Message(ev.target, Text(Strip(t, Controls)))])
  }

  /** The second `strip` of the string branch changes nothing: the gated text is already clean. */
  lemma GatedTextStripsToItself(generated: string, split: string -> seq<string>)
    requires Gated(generated, split).Text?
    ensures Strip(Gated(generated, split).text, Controls) == Gated(generated, split).text
  {
    var t := Gated(generated, split).text;
    forall i | 0 <= i < |t|
      ensures !IsControl(t[i])
    {
      assert t[i] in t;
    }
    StripClean(t);
  }

  /** `LLMClient` of llm_irc.py, one per bot. */
  class LlmClient {
    const scenario: ScenarioController
    const bot: Element
    const name: string
    var hasReplied: bool
    var pendingSleeps: nat    // `resp_sleep` tasks scheduled and not yet run

    /** `__init__` for a bot whose name and prompt can be read; the LangChain chain is not modelled. */
    constructor (scenario: ScenarioController, bot: Element)
      requires GetBotName(bot).Ok? && GetBotName(bot).value.Some?
      requires GetBotPrompt(bot).Ok? && GetBotPrompt(bot).value.Some?
      ensures this.scenario == scenario && this.bot == bot
      ensures name == GetBotName(bot).value.value
      ensures !hasReplied && pendingSleeps == 0
    {
      this.scenario := scenario;
      this.bot := bot;
      name := GetBotName(bot).value.value;
      hasReplied := false;
      pendingSleeps := 0;
    }

    /**
     * `get_response`: the answer is sanitised to decide on the split, but it is the
     * unsanitised answer that is split; the loop over the chunks only rebinds its
     * loop variable.
     */
    method GetResponse(usrInp: string, generate: string -> string, split: string -> seq<string>)
      returns (r: Reply)
      ensures r == Gated(generate(usrInp), split)
    {
      var response := generate(usrInp);
      var cleanRes := RespStripper(response);
      if |Encode(cleanRes)| >= SplitThreshold {
        var chunks := split(response);
        for i := 0 to |chunks|
        {
          var res := chunks[i];
          res := RespStripper(res);
        }
        r := Chunks(chunks);
      } else {
        r := Text(cleanRes);
      }
    }

    /** `on_privmsg`: answers only when the connection's nickname is this bot's name. */
    method OnPrivmsg(conn: Connection, ev: Event, generate: string -> string, split: string -> seq<string>)
      modifies conn`sent
      ensures conn.nickname == name ==>
        conn.sent == old(conn.sent) + PrivmsgSends(ev.source, Gated(generate(ev.text), split))
      ensures conn.nickname != name ==> conn.sent == old(conn.sent)
    {
      if conn.nickname == name {
        var response := GetResponse(ev.text, generate, split);
        if response.Chunks? && |response.parts| >= 1 {
          for i := 0 to |response.parts|
            invariant conn.sent == old(conn.sent) + ChunkMessages(ev.source, response.parts[..i])
          {
            var res := RespStripper(response.parts[i]);
            conn.Privmsg(ev.source, Text(res));
            assert response.parts[..i + 1][..i] == response.parts[..i];
          }
          assert response.parts[..|response.parts|] == response.parts;
        } else {
          var tokens := if response.Text? then response.text else "";
          var whole := RespStripper(tokens);
          conn.Privmsg(ev.source, Text(whole));
        }
      }
    }

    /** The chunk loop of `on_pubmsg`. */
    method PubChunks(conn: Connection, ev: Event, parts: seq<string>, isChannel: string -> bool)
      modifies this`hasReplied, conn`sent
      ensures isChannel(ev.target) ==>
        var run := ChunkRun(old(hasReplied), ev.target, parts);
        conn.sent == old(conn.sent) + run.sends && hasReplied == run.flag
      ensures !isChannel(ev.target) ==> conn.sent == old(conn.sent) && hasReplied == old(hasReplied)
    {
      for i := 0 to |parts|
        invariant isChannel(ev.target) ==>
          var run := ChunkRun(old(hasReplied), ev.target, parts[..i]);
          conn.sent == old(conn.sent) + run.sends && hasReplied == run.flag
        invariant !isChannel(ev.target) ==> conn.sent == old(conn.sent) && hasReplied == old(hasReplied)
      {
        var res := RespStripper(parts[i]);
        assert parts[..i + 1][..i] == parts[..i];
        if isChannel(ev.target) {
          if !hasReplied {
            conn.Privmsg(ev.target, Text(res));
            hasReplied := true;
          }
          hasReplied := false;
        }
      }
      assert parts[..|parts|] == parts;
    }

    /** `on_pubmsg`; scheduling `resp_sleep` adds one pending cooldown. */
    method OnPubmsg(conn: Connection, ev: Event, generate: string -> string, split: string -> seq<string>,
                    isChannel: string -> bool) returns (s: Status)
      modifies this`hasReplied, this`pendingSleeps, conn`sent
      ensures var o := Pubmsg(scenario.isParsed, conn.nickname == name, old(hasReplied), old(pendingSleeps),
                              ev, Gated(generate(ev.text), split), isChannel);
        s == o.status && hasReplied == o.hasReplied && pendingSleeps == o.pendingSleeps
        && conn.sent == old(conn.sent) + o.sends
    {
      if scenario.isParsed {
        if conn.nickname == name {
          var response := GetResponse(ev.text, generate, split);
          if response.Chunks? && |response.parts| >= 1 {
            PubChunks(conn, ev, response.parts, isChannel);
          } else {
            if !hasReplied {
              if response.Chunks? {
                return Raised(AttributeError);
              }
              conn.Privmsg(ev.target, Text(Strip(response.text, Controls)));
              hasReplied := true;
            }
            pendingSleeps := pendingSleeps + 1;
          }
        }
      } else {
        conn.Privmsg(ev.source, Text(NoScenario));
      }
      s := Done;
    }

    /** `resp_sleep` once its delay has elapsed: the flag is cleared and nothing else changes. */
    method RespSleep()
      requires pendingSleeps > 0
      modifies this`hasReplied, this`pendingSleeps
      ensures !hasReplied && pendingSleeps == old(pendingSleeps) - 1
    {
      hasReplied := false;
      pendingSleeps := pendingSleeps - 1;
    }
  }
}
