/**
 * Whole paths through the bridge: the parser's own test cases, a game chat
 * line reaching Telegram, and a Telegram command reaching the console and
 * its answer coming back as a reply.
 */
module Scenarios {
  import opened Wrappers
  import opened Text
  import opened Events
  import opened Factorio
  import opened Bus
  import opened Telegram

  // The parser's unit test cases, one lemma each.

  lemma ParsesChatTestCase()
    ensures ParseLogLine("[CHAT] " + "Foo" + ": " + "bar") == Some(Chat("Foo", "bar"))
  {
    assert IsWord("Foo") && IsLineText("bar");
    ChatLineParses("", "Foo", "bar");
    assert "" + "[CHAT] " == "[CHAT] ";
  }

  lemma ParsesJoinTestCase()
    ensures ParseLogLine("[JOIN] " + "user" + " joined") == Some(Join("user"))
  {
    assert IsWord("user");
    JoinLineParses("", "user");
    assert "" + "[JOIN] " == "[JOIN] ";
  }

  lemma ParsesLeaveTestCase()
    ensures ParseLogLine("[LEAVE] " + "user" + " left") == Some(Leave("user"))
  {
    assert IsWord("user");
    LeaveLineParses("", "user");
    assert "" + "[LEAVE] " == "[LEAVE] ";
  }

  lemma IgnoresServerTestCase()
    ensures ParseLogLine("[CHAT] <server>: " + "hi") == None
  {
    assert IsLineText("hi");
    ServerChatIgnored("", "hi");
    assert "" + "[CHAT] <server>: " == "[CHAT] <server>: ";
  }

  /**
   * Only the leftmost match of the chat pattern counts: a server line whose
   * message quotes a player's chat line yields nothing, although the line
   * contains a player's chat match further on.
   */
  lemma LeftmostChatWins()
    ensures ParseLogLine("[CHAT] <server>: " + "x [CHAT] Foo: bar") == None
  {
    var m := "x [CHAT] Foo: bar";
    assert IsLineText(m);
    ServerChatIgnored("", m);
    assert "" + "[CHAT] <server>: " == "[CHAT] <server>: ";
  }

  /**
   * A chat line in the game's log, behind its time stamp, ends up as one
   * notifying Telegram message carrying the speech-balloon mark, the user
   * and the message.
   */
  lemma GameChatReachesTelegram(p: string, u: string, m: string, rcon: nat -> Option<string>, n: nat)
    requires Lacks(p, '[') && IsWord(u) && IsLineText(m)
    ensures var line := p + "[CHAT] " + u + ": " + m;
            Dispatch(EventsOf([line], 0, 1), rcon, n) == [TgSend([ChatEmoji] + u + ": " + m, false)]
  {
    var line := p + "[CHAT] " + u + ": " + m;
    ChatLineParses(p, u, m);
    assert EventsOf([line], 0, 1) == [MessageFromFactorio([ChatEmoji] + u + ": " + m, false)];
  }

  /** A join line in the game's log ends up as one silent Telegram message: the smiling face, the user and " joined". */
  lemma JoinReachesTelegram(p: string, u: string, rcon: nat -> Option<string>, n: nat)
    requires Lacks(p, '[') && IsWord(u)
    ensures var line := p + "[JOIN] " + u + " joined";
            Dispatch(EventsOf([line], 0, 1), rcon, n) == [TgSend([JoinEmoji] + u + " joined", true)]
  {
    var line := p + "[JOIN] " + u + " joined";
    JoinLineParses(p, u);
    assert EventsOf([line], 0, 1) == [MessageFromFactorio([JoinEmoji] + u + JoinTail, true)];
  }

  /** A leave line in the game's log ends up as one silent Telegram message: the waving hand, the user and " left". */
  lemma LeaveReachesTelegram(p: string, u: string, rcon: nat -> Option<string>, n: nat)
    requires Lacks(p, '[') && IsWord(u)
    ensures var line := p + "[LEAVE] " + u + " left";
            Dispatch(EventsOf([line], 0, 1), rcon, n) == [TgSend([LeaveEmoji] + u + " left", true)]
  {
    var line := p + "[LEAVE] " + u + " left";
    LeaveLineParses(p, u);
    assert EventsOf([line], 0, 1) == [MessageFromFactorio([LeaveEmoji] + u + LeaveTail, true)];
  }

  /**
   * A command typed in the chat is sent to the console verbatim; when the
   * console answers, the answer is posted as a reply to that very message,
   * and when it fails nothing more happens.
   */
  lemma TelegramCommandAnswered(chatId: i64, id: i32, name: string, text: string, rcon: nat -> Option<string>, n: nat)
    requires IsCommand(text)
    ensures var e := Classify(chatId, Message(chatId, id, Some(name), Text(text))).value;
            Dispatch([e], rcon, n)
            == (if rcon(n).Some? then [RconCmd(text), TgReply(id, rcon(n).value)] else [RconCmd(text)])
  {
    var e := Classify(chatId, Message(chatId, id, Some(name), Text(text))).value;
    assert e == CommandFromTg(id, text);
    assert [e][1..] == [];
  }

  /** A photo is relayed to the console as the sender's name and the image placeholder. */
  lemma TelegramPhotoRelayed(chatId: i64, id: i32, name: string, rcon: nat -> Option<string>, n: nat)
    ensures var e := Classify(chatId, Message(chatId, id, Some(name), Photo)).value;
            Dispatch([e], rcon, n) == [RconCmd(name + ": [IMG]")]
  {
    var e := Classify(chatId, Message(chatId, id, Some(name), Photo)).value;
    assert e == MessageFromTg(name + ": " + ImageText);
    assert name + ": " + ImageText == name + ": [IMG]";
    assert [e][1..] == [];
  }
}
