/**
 * What the bot handlers see of the IRC library: the fields of an event they read,
 * the payload they hand to `privmsg`, and a connection that records every
 * `privmsg` in order. The `str` substring tests the handlers use, and the
 * sanitised chunk messages both clients send, live here too.
 */
module Irc {
  import opened Sanitize

  /** `event.source`, `event.target` and `event.arguments[0]`. */
  datatype Event = Event(source: string, target: string, text: string)

  /** What a handler passes to `privmsg`: a string, or the list of chunks a splitter produced. */
  datatype Reply = Text(text: string) | Chunks(parts: seq<string>)

  /** One `privmsg(target, body)` call. */
  datatype Message = Message(target: string, body: Reply)

  /** A server connection, reduced to its nickname and the log of what was sent on it. */
  class Connection {
    const nickname: string
    var sent: seq<Message>

    constructor (nickname: string)
      ensures this.nickname == nickname && sent == []
    {
      this.nickname := nickname;
      sent := [];
    }

    /** `connection.privmsg(target, body)` */
    method Privmsg(target: string, body: Reply)
      modifies this`sent
      ensures sent == old(sent) + [Message(target, body)]
    {
      sent := sent + [Message(target, body)];
    }
  }

  /** `sub` occurs in `s` starting at index `i`. */
  predicate OccursAt(s: string, sub: string, i: int)
  {
    0 <= i && i + |sub| <= |s| && s[i..i + |sub|] == sub
  }

  /** `sub in s` */
  predicate Contains(s: string, sub: string)
  {
    exists i :: 0 <= i <= |s| - |sub| && OccursAt(s, sub, i)
  }

  /** The first occurrence of `sub` in `s` at index `from` or later. */
  function FindFrom(s: string, sub: string, from: nat): (r: int)
    requires from <= |s| + 1
    ensures r == -1 <==> forall j :: from <= j <= |s| - |sub| ==> !OccursAt(s, sub, j)
    ensures r != -1 ==> from <= r && OccursAt(s, sub, r)
    ensures r != -1 ==> forall j :: from <= j < r ==> !OccursAt(s, sub, j)
    decreases |s| + 1 - from
  {
    if from + |sub| > |s| then -1
    else if s[from..from + |sub|] == sub then assert OccursAt(s, sub, from); from
    else FindFrom(s, sub, from + 1)
  }

  /** `s.find(sub)`: the index of the first occurrence, -1 when there is none. */
  function PyFind(s: string, sub: string): (r: int)
    ensures r == -1 <==> !Contains(s, sub)
    ensures r != -1 ==> 0 <= r && OccursAt(s, sub, r)
    ensures r != -1 ==> forall j :: 0 <= j < r ==> !OccursAt(s, sub, j)
  {
    FindFrom(s, sub, 0)
  }

  /** Each chunk sanitised and sent to `dest`, in order. */
  function ChunkMessages(dest: string, parts: seq<string>): (r: seq<Message>)
    ensures |r| == |parts|
    ensures forall i :: 0 <= i < |parts| ==> r[i] == Message(dest, Text(Stripped(parts[i])))
  {
    if parts == [] then []
    else ChunkMessages(dest, parts[..|parts| - 1]) + [Message(dest, Text(Stripped(parts[|parts| - 1])))]
  }
}
