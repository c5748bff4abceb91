/**
 * The bus: the single consumer of the channel. It takes the events one at a
 * time, first in first out, and routes each to the other side of the bridge:
 * game messages to the Telegram chat, Telegram messages and commands to the
 * game's remote console (RCON), and the console's answer to a command back
 * to Telegram as a reply. A failed call is only logged; the bus carries on.
 */
module Bus {
  import opened Wrappers
  import opened Events
  import opened Mpsc

  /** A call the bus makes on one of the two sides. */
  datatype Call =
    | TgSend(text: string, silent: bool)  // `TgBot::send_message`
    | RconCmd(cmd: string)                // `Factorio::send_cmd`
    | TgReply(replyTo: i32, text: string) // `TgBot::reply_message`

  /** The call an event causes first, whatever the calls answer. */
  function Request(e: Event): Call {
    match e
    case MessageFromFactorio(msg, silent) => TgSend(msg, silent)
    case MessageFromTg(msg) => RconCmd(msg)
    case CommandFromTg(_, cmd) => RconCmd(cmd)
  }

  /** How many commands an event sends to the console: none or one. */
  function RconUses(e: Event): nat {
    if e.MessageFromFactorio? then 0 else 1
  }

  /**
   * The calls the bus makes for one event, given what the console answers
   * if the event sends it a command (`None` for a failed command).
   */
  function CallsFor(e: Event, answer: Option<string>): (cs: seq<Call>)
    ensures 1 <= |cs| <= 2 && cs[0] == Request(e)
    ensures |cs| == 2 <==> e.CommandFromTg? && answer.Some?
    ensures |cs| == 2 ==> cs[1] == TgReply(e.id, answer.value)
  {
    match e
    case CommandFromTg(id, cmd) =>
      if answer.Some? then [RconCmd(cmd), TgReply(id, answer.value)] else [RconCmd(cmd)]
    case _ => [Request(e)]
  }

  /** The number of console commands the events send. */
  function RconCount(events: seq<Event>): nat {
    if |events| == 0 then 0 else RconUses(events[0]) + RconCount(events[1..])
  }

  /**
   * The calls the bus makes for `events`, in order, when the console answers
   * its `k`-th command with `rcon(k)` and `n` commands were sent before.
   */
  function Dispatch(events: seq<Event>, rcon: nat -> Option<string>, n: nat): seq<Call> {
    if |events| == 0 then []
    else CallsFor(events[0], rcon(n)) + Dispatch(events[1..], rcon, n + RconUses(events[0]))
  }

  /** The first call of each event, in the order of the events. */
  function Requests(events: seq<Event>): seq<Call> {
    if |events| == 0 then [] else [Request(events[0])] + Requests(events[1..])
  }

  /** The calls other than replies, in order. */
  function WithoutReplies(cs: seq<Call>): seq<Call> {
    if |cs| == 0 then [] else (if cs[0].TgReply? then [] else [cs[0]]) + WithoutReplies(cs[1..])
  }

  lemma {:induction false} RequestsAppend(a: seq<Event>, b: seq<Event>)
    ensures Requests(a + b) == Requests(a) + Requests(b)
  {
    if |a| > 0 {
      assert (a + b)[1..] == a[1..] + b;
      RequestsAppend(a[1..], b);
    } else {
      assert a + b == b;
    }
  }

  lemma {:induction false} RconCountAppend(a: seq<Event>, b: seq<Event>)
    ensures RconCount(a + b) == RconCount(a) + RconCount(b)
  {
    if |a| > 0 {
      assert (a + b)[1..] == a[1..] + b;
      RconCountAppend(a[1..], b);
    } else {
      assert a + b == b;
    }
  }

  lemma {:induction false} WithoutRepliesAppend(a: seq<Call>, b: seq<Call>)
    ensures WithoutReplies(a + b) == WithoutReplies(a) + WithoutReplies(b)
  {
    if |a| > 0 {
      assert (a + b)[1..] == a[1..] + b;
      WithoutRepliesAppend(a[1..], b);
    } else {
      assert a + b == b;
    }
  }

  /** Handling a queue starts with handling its first event. */
  lemma DispatchCons(e: Event, rest: seq<Event>, rcon: nat -> Option<string>, n: nat)
    ensures Dispatch([e] + rest, rcon, n) == CallsFor(e, rcon(n)) + Dispatch(rest, rcon, n + RconUses(e))
  {
    assert ([e] + rest)[0] == e && ([e] + rest)[1..] == rest;
  }

  /** The inductive step of DispatchAppend: from the claim for `a[1..]` to the claim for `a`. */
  lemma DispatchAppendStep(a: seq<Event>, b: seq<Event>, rcon: nat -> Option<string>, n: nat)
    requires |a| > 0
    requires Dispatch(a[1..] + b, rcon, n + RconUses(a[0]))
             == Dispatch(a[1..], rcon, n + RconUses(a[0])) + Dispatch(b, rcon, n + RconCount(a))
    ensures Dispatch(a + b, rcon, n) == Dispatch(a, rcon, n) + Dispatch(b, rcon, n + RconCount(a))
  {
    var head := CallsFor(a[0], rcon(n));
    var rest := Dispatch(a[1..], rcon, n + RconUses(a[0]));
    var tail := Dispatch(b, rcon, n + RconCount(a));
    assert a + b == [a[0]] + (a[1..] + b);
    DispatchCons(a[0], a[1..] + b, rcon, n);
    assert Dispatch(a + b, rcon, n) == head + (rest + tail);
    AppendAssoc(head, rest, tail);
  }

  /**
   * Handling a queue is handling its front part and then the rest, the rest
   * seeing the console's answers after those the front part used.
   */
  lemma {:induction false} DispatchAppend(a: seq<Event>, b: seq<Event>, rcon: nat -> Option<string>, n: nat)
    ensures Dispatch(a + b, rcon, n) == Dispatch(a, rcon, n) + Dispatch(b, rcon, n + RconCount(a))
  {
    if |a| == 0 {
      assert a + b == b;
    } else {
      DispatchAppend(a[1..], b, rcon, n + RconUses(a[0]));
      DispatchAppendStep(a, b, rcon, n);
    }
  }

  /** Handling one more event appends the calls for that event. */
  lemma DispatchSnoc(done: seq<Event>, e: Event, rcon: nat -> Option<string>, n: nat)
    ensures Dispatch(done + [e], rcon, n) == Dispatch(done, rcon, n) + CallsFor(e, rcon(n + RconCount(done)))
    ensures RconCount(done + [e]) == RconCount(done) + RconUses(e)
  {
    DispatchAppend(done, [e], rcon, n);
    RconCountAppend(done, [e]);
    assert [e][1..] == [];
  }

  /** Moving the front of a queue to the end of what was taken keeps their concatenation. */
  lemma MoveFront<T>(done: seq<T>, queue: seq<T>)
    requires |queue| > 0
    ensures (done + [queue[0]]) + queue[1..] == done + queue
  {
    assert queue == [queue[0]] + queue[1..];
  }

  lemma AppendAssoc<T>(x: seq<T>, y: seq<T>, z: seq<T>)
    ensures (x + y) + z == x + (y + z)
  {
  }

  /**
   * Every event is handled exactly once and in order, whatever the calls
   * answer: leaving out the replies, the calls are the events' requests.
   */
  lemma {:induction false} EveryEventOnce(events: seq<Event>, rcon: nat -> Option<string>, n: nat)
    ensures WithoutReplies(Dispatch(events, rcon, n)) == Requests(events)
  {
    if |events| > 0 {
      var m := n + RconUses(events[0]);
      var first := CallsFor(events[0], rcon(n));
      var rest := Dispatch(events[1..], rcon, m);
      assert Dispatch(events, rcon, n) == first + rest;
      WithoutRepliesAppend(first, rest);
      OneRequestPerEvent(events[0], rcon(n));
      EveryEventOnce(events[1..], rcon, m);
    }
  }

  /** Leaving out the reply, an event's calls are its request. */
  lemma OneRequestPerEvent(e: Event, answer: Option<string>)
    ensures WithoutReplies(CallsFor(e, answer)) == [Request(e)]
  {
    var cs := CallsFor(e, answer);
    if |cs| == 2 {
      assert cs[1..] == [cs[1]];
      assert WithoutReplies(cs[1..]) == [];
    }
  }

  /**
   * In the calls `cs` for `events`, the call at `i` is the reply to the
   * Telegram command `events[k]`: the command's text went to the console
   * just before, and the reply carries the command's message id and the
   * console's answer to it.
   */
  predicate AnswersCommand(events: seq<Event>, rcon: nat -> Option<string>, n: nat, cs: seq<Call>, i: int, k: int) {
    && 0 <= k < |events| && 0 < i < |cs|
    && events[k].CommandFromTg?
    && cs[i - 1] == RconCmd(events[k].cmd)
    && rcon(n + RconCount(events[..k])).Some?
    && cs[i] == TgReply(events[k].id, rcon(n + RconCount(events[..k])).value)
  }

  /** A reply is made only right after a console command, and only as the answer to a Telegram command. */
  lemma {:induction false} ReplyFollowsCommand(events: seq<Event>, rcon: nat -> Option<string>, n: nat, i: nat)
    requires i < |Dispatch(events, rcon, n)| && Dispatch(events, rcon, n)[i].TgReply?
    ensures exists k :: AnswersCommand(events, rcon, n, Dispatch(events, rcon, n), i, k)
  {
    var m := n + RconUses(events[0]);
    var first := CallsFor(events[0], rcon(n));
    var rest := Dispatch(events[1..], rcon, m);
    assert Dispatch(events, rcon, n) == first + rest;
    if i < |first| {
      assert events[..0] == [];
      assert AnswersCommand(events, rcon, n, first + rest, i, 0);
    } else {
      ReplyFollowsCommand(events[1..], rcon, m, i - |first|);
      var k :| AnswersCommand(events[1..], rcon, m, rest, i - |first|, k);
      AnswersCommandShift(events, rcon, n, first, rest, i, k);
    }
  }

  /** An answer found among the calls for `events[1..]` is one among the calls for `events`. */
  lemma AnswersCommandShift(events: seq<Event>, rcon: nat -> Option<string>, n: nat, first: seq<Call>, rest: seq<Call>, i: int, k: int)
    requires |events| > 0 && first == CallsFor(events[0], rcon(n)) && i >= |first|
    requires AnswersCommand(events[1..], rcon, n + RconUses(events[0]), rest, i - |first|, k)
    ensures AnswersCommand(events, rcon, n, first + rest, i, k + 1)
  {
    assert events[k + 1] == events[1..][k];
    RconCountPrefix(events, k);
    assert (first + rest)[i - 1] == rest[i - |first| - 1];
    assert (first + rest)[i] == rest[i - |first|];
  }

  /** The commands sent before event `k + 1`: those of the first event, then those of the next `k`. */
  lemma RconCountPrefix(events: seq<Event>, k: int)
    requires 0 <= k < |events| - 1
    ensures RconCount(events[..k + 1]) == RconUses(events[0]) + RconCount(events[1..][..k])
  {
    assert events[..k + 1][0] == events[0];
    assert events[..k + 1][1..] == events[1..][..k];
  }

  /** When the console fails every command, the bus makes exactly the requests of the events. */
  lemma {:induction false} FailedCommandsSkipped(events: seq<Event>, rcon: nat -> Option<string>, n: nat)
    requires forall k :: rcon(k).None?
    ensures Dispatch(events, rcon, n) == Requests(events)
  {
    if |events| > 0 {
      FailedCommandsSkipped(events[1..], rcon, n + RconUses(events[0]));
    }
  }

  /**
   * The other side of the bridge as the bus sees it: every call made, in
   * order, and the console's answers. `rcon(k)` is the answer to the `k`-th
   * command, `None` when connecting or sending fails. What Telegram answers
   * is only logged by the bus, so it is not modelled.
   */
  class Services {
    var calls: seq<Call>
    var rconSent: nat
    const rcon: nat -> Option<string>

    constructor (rcon: nat -> Option<string>)
      ensures calls == [] && rconSent == 0 && this.rcon == rcon
    {
      calls := [];
      rconSent := 0;
      this.rcon := rcon;
    }

    /** Posts `text` to the chat, without a notification when `silent`. */
    method SendMessage(text: string, silent: bool)
      modifies this`calls
      ensures calls == old(calls) + [TgSend(text, silent)]
    {
      calls := calls + [TgSend(text, silent)];
    }

    /** Runs `cmd` on the game's console and returns its answer, `None` on failure. */
    method SendCmd(cmd: string) returns (answer: Option<string>)
      modifies this`calls, this`rconSent
      ensures answer == rcon(old(rconSent))
      ensures rconSent == old(rconSent) + 1
      ensures calls == old(calls) + [RconCmd(cmd)]
    {
      answer := rcon(rconSent);
      rconSent := rconSent + 1;
      calls := calls + [RconCmd(cmd)];
    }

    /** Posts `text` to the chat as a reply to message `id`. */
    method ReplyMessage(id: i32, text: string)
      modifies this`calls
      ensures calls == old(calls) + [TgReply(id, text)]
    {
      calls := calls + [TgReply(id, text)];
    }
  }

  /** The bus's handling of one event. */
  method Handle(e: Event, svc: Services)
    modifies svc`calls, svc`rconSent
    ensures svc.calls == old(svc.calls) + CallsFor(e, svc.rcon(old(svc.rconSent)))
    ensures svc.rconSent == old(svc.rconSent) + RconUses(e)
  {
    match e
    case MessageFromFactorio(msg, silent) =>
      svc.SendMessage(msg, silent);
    case MessageFromTg(msg) =>
      var _ := svc.SendCmd(msg);
    case CommandFromTg(id, cmd) =>
      var answer := svc.SendCmd(cmd);
      if answer.Some? {
        svc.ReplyMessage(id, answer.value);
      }
  }

  /**
   * The bus's loop: handles the queued events in order until the queue is
   * empty. It then stops, either because it would wait for the next event
   * (`closed` is false) or because every sender is gone and the channel
   * yields nothing more (`closed` is true), which ends the bus.
   */
  method Run(ch: Channel, svc: Services) returns (closed: bool)
    requires ch.Valid()
    modifies ch`buf, svc`calls, svc`rconSent
    ensures ch.Valid() && ch.buf == []
    ensures svc.calls == old(svc.calls) + Dispatch(old(ch.buf), svc.rcon, old(svc.rconSent))
    ensures svc.rconSent == old(svc.rconSent) + RconCount(old(ch.buf))
    ensures closed <==> !ch.sendersAlive
  {
    ghost var done: seq<Event> := [];
    ghost var n0 := svc.rconSent;
    closed := false;
    while true
      invariant ch.Valid()
      invariant old(ch.buf) == done + ch.buf
      invariant svc.calls == old(svc.calls) + Dispatch(done, svc.rcon, n0)
      invariant svc.rconSent == n0 + RconCount(done)
      decreases |ch.buf|
    {
      ghost var queue := ch.buf;
      var r := ch.Recv();
      match r {
        case Received(e) =>
          MoveFront(done, queue);
          DispatchSnoc(done, e, svc.rcon, n0);
          done := done + [e];
          Handle(e, svc);
        case Pending =>
          break;
        case Closed =>
          closed := true;
          break;
      }
    }
    assert done == old(ch.buf);
  }
}
