/**
 * The game side of the bridge: recognising chat, join and leave lines in the
 * Factorio server log, turning them into events for Telegram, and feeding
 * the events of a run of log lines into the channel.
 *
 * The three regular expressions of the parser are matched by hand. Matching
 * is an unanchored search for the leftmost start position at which the
 * pattern matches; `\w+` is greedy, and because the character after it in
 * every pattern is not a word character only the longest run of word
 * characters can succeed; `(.+)` takes everything up to the next line feed
 * and must not be empty.
 */
module Factorio {
  import opened Wrappers
  import opened Text
  import opened Events
  import opened Mpsc
  import opened Runs

  datatype LogRecord =
    | Chat(username: string, msg: string)
    | Join(user: string)
    | Leave(user: string)

  /** A record the parser can produce: a `\w+` user name and, for chat, a `.+` message. */
  predicate WellFormed(r: LogRecord) {
    match r
    case Chat(u, m) => IsWord(u) && IsLineText(m)
    case Join(u) => IsWord(u)
    case Leave(u) => IsWord(u)
  }

  const ServerName := "<server>"

  // ---------------------------------------------------------------------
  // `\[CHAT\] (\w+|<server>): (.+)`
  // ---------------------------------------------------------------------

  /** The two capture groups of the chat pattern. */
  datatype ChatCaptures = ChatCaptures(user: string, msg: string)

  /**
   * The chat pattern matches at `i`, capturing `u` and `m`: the literal
   * `[CHAT] `, a user that is a word or `<server>`, `: `, then a message free
   * of line feeds that `.+` cannot extend any further.
   */
  predicate IsChatMatch(line: string, i: int, u: string, m: string) {
    && (IsWord(u) || u == ServerName)
    && IsLineText(m)
    && At(line, i, "[CHAT] ")
    && At(line, i + 7, u)
    && At(line, i + 7 + |u|, ": ")
    && At(line, i + 9 + |u|, m)
    && (i + 9 + |u| + |m| == |line| || line[i + 9 + |u| + |m|] == '\n')
  }

  /** The `\w+` alternative of the chat pattern, tried just after `[CHAT] ` at `j`. */
  function WordAlternative(line: string, j: nat): Option<ChatCaptures>
    requires j <= |line|
  {
    var n := WordRun(line, j);
    if n > 0 && At(line, j + n, ": ") && j + n + 2 < |line| && line[j + n + 2] != '\n' then
      Some(ChatCaptures(line[j..j + n], line[j + n + 2..LineEnd(line, j + n + 2)]))
    else
      None
  }

  /** The `<server>` alternative of the chat pattern, tried just after `[CHAT] ` at `j`. */
  function ServerAlternative(line: string, j: nat): Option<ChatCaptures> {
    if At(line, j, ServerName + ": ") && j + 10 < |line| && line[j + 10] != '\n' then
      Some(ChatCaptures(ServerName, line[j + 10..LineEnd(line, j + 10)]))
    else
      None
  }

  /** The chat pattern tried at start position `i`: first `\w+`, then `<server>`. */
  function ChatAt(line: string, i: nat): Option<ChatCaptures> {
    if !At(line, i, "[CHAT] ") then None
    else if WordAlternative(line, i + 7).Some? then WordAlternative(line, i + 7)
    else ServerAlternative(line, i + 7)
  }

  /** The `\w+` alternative yields a match. */
  lemma WordAlternativeSound(line: string, i: nat)
    requires At(line, i, "[CHAT] ") && WordAlternative(line, i + 7).Some?
    ensures IsChatMatch(line, i, WordAlternative(line, i + 7).value.user, WordAlternative(line, i + 7).value.msg)
  {
    var j := i + 7;
    var n := WordRun(line, j);
    var e := LineEnd(line, j + n + 2);
    var u, m := line[j..j + n], line[j + n + 2..e];
    assert WordAlternative(line, j) == Some(ChatCaptures(u, m));
    WordRunIsWord(line, j);
    LineEndIsLineText(line, j + n + 2);
    assert At(line, j, u) && At(line, j + n + 2, m);
  }

  /** The `<server>` alternative yields a match. */
  lemma ServerAlternativeSound(line: string, i: nat)
    requires At(line, i, "[CHAT] ") && ServerAlternative(line, i + 7).Some?
    ensures IsChatMatch(line, i, ServerName, ServerAlternative(line, i + 7).value.msg)
  {
    AtConcat(line, i + 7, ServerName, ": ");
    LineEndIsLineText(line, i + 17);
  }

  /** What ChatAt finds is a match of the chat pattern. */
  lemma ChatAtSound(line: string, i: nat)
    requires ChatAt(line, i).Some?
    ensures IsChatMatch(line, i, ChatAt(line, i).value.user, ChatAt(line, i).value.msg)
  {
    if WordAlternative(line, i + 7).Some? {
      WordAlternativeSound(line, i);
    } else {
      ServerAlternativeSound(line, i);
    }
  }

  /** The `\w+` alternative captures `u` and `m` when the word run `u` after `j` is followed by `: ` and the text `m`. */
  lemma WordAlternativeCaptures(line: string, j: nat, u: string, m: string)
    requires At(line, j, u) && At(line, j + 2 + |u|, m)
    requires WordRun(line, j) == |u| && |u| > 0 && At(line, j + |u|, ": ")
    requires j + 2 + |u| < |line| && line[j + 2 + |u|] != '\n' && LineEnd(line, j + 2 + |u|) == j + 2 + |u| + |m|
    ensures WordAlternative(line, j).Some?
    ensures WordAlternative(line, j).value.user == u
    ensures WordAlternative(line, j).value.msg == m
  {
    assert line[j..j + |u|] == u;
    assert line[j + 2 + |u|..j + 2 + |u| + |m|] == m;
  }

  /** ChatAt takes the `\w+` alternative when the word run after `[CHAT] ` is followed by `: ` and some text. */
  lemma ChatAtWordRun(line: string, i: nat, u: string, m: string)
    requires At(line, i, "[CHAT] ") && At(line, i + 7, u) && At(line, i + 7 + 2 + |u|, m)
    requires WordRun(line, i + 7) == |u| && |u| > 0 && At(line, i + 7 + |u|, ": ")
    requires i + 7 + 2 + |u| < |line| && line[i + 7 + 2 + |u|] != '\n' && LineEnd(line, i + 7 + 2 + |u|) == i + 7 + 2 + |u| + |m|
    ensures ChatAt(line, i) == Some(ChatCaptures(u, m))
  {
    WordAlternativeCaptures(line, i + 7, u, m);
    assert WordAlternative(line, i + 7) == Some(ChatCaptures(u, m));
  }

  /** The greedy runs `\w+` and `.+` stop exactly at the ends of a word `u` followed by `: ` and a line text `m`. */
  lemma WordMatchRuns(line: string, j: nat, u: string, m: string)
    requires At(line, j, u) && IsWord(u) && At(line, j + |u|, ": ") && At(line, j + 2 + |u|, m) && IsLineText(m)
    requires j + 2 + |u| + |m| == |line| || line[j + 2 + |u| + |m|] == '\n'
    ensures WordRun(line, j) == |u|
    ensures j + 2 + |u| < |line| && line[j + 2 + |u|] != '\n' && LineEnd(line, j + 2 + |u|) == j + 2 + |u| + |m|
  {
    AtChar(line, j + |u|, ": ", 0);
    WordRunOfWord(line, j, u);
    AtChar(line, j + 2 + |u|, m, 0);
    LineEndOfText(line, j + 2 + |u|, m);
  }

  /** A match whose user is a word is found by the first alternative. */
  lemma ChatAtWordUser(line: string, i: nat, u: string, m: string)
    requires IsChatMatch(line, i, u, m) && IsWord(u)
    ensures ChatAt(line, i) == Some(ChatCaptures(u, m))
  {
    WordMatchRuns(line, i + 7, u, m);
    ChatAtWordRun(line, i, u, m);
  }

  /** A match whose user is `<server>` is found by the second alternative. */
  lemma ChatAtServerUser(line: string, i: nat, m: string)
    requires IsChatMatch(line, i, ServerName, m)
    ensures ChatAt(line, i) == Some(ChatCaptures(ServerName, m))
  {
    var j := i + 7;
    var k := j + 10;
    AtChar(line, j, ServerName, 0);
    assert WordRun(line, j) == 0;
    AtConcat(line, j, ServerName, ": ");
    AtChar(line, k, m, 0);
    LineEndOfText(line, k, m);
    assert line[k..k + |m|] == m;
  }

  /** ChatAt finds exactly the matches of the chat pattern at `i`. */
  lemma ChatAtIsMatch(line: string, i: nat, u: string, m: string)
    ensures ChatAt(line, i) == Some(ChatCaptures(u, m)) <==> IsChatMatch(line, i, u, m)
  {
    if ChatAt(line, i).Some? {
      ChatAtSound(line, i);
    }
    if IsChatMatch(line, i, u, m) {
      if IsWord(u) {
        ChatAtWordUser(line, i, u, m);
      } else {
        ChatAtServerUser(line, i, m);
      }
    }
  }

  /** The chat pattern matches at no position in `[i, k)`. */
  predicate NoChatBetween(line: string, i: int, k: int) {
    forall k' | i <= k' < k && 0 <= k' :: ChatAt(line, k').None?
  }

  /** The leftmost position at or after `i` where the chat pattern matches. */
  function FirstChat(line: string, i: nat): (r: Option<nat>)
    requires i <= |line|
    ensures r.None? ==> NoChatBetween(line, i, |line| + 1)
    ensures r.Some? ==> i <= r.value <= |line| && ChatAt(line, r.value).Some? && NoChatBetween(line, i, r.value)
    decreases |line| - i
  {
    if ChatAt(line, i).Some? then Some(i)
    else if i == |line| then None
    else FirstChat(line, i + 1)
  }

  /** The search stops at the first position where there is a match. */
  lemma FirstChatIs(line: string, i: nat, k: nat)
    requires i <= k <= |line| && ChatAt(line, k).Some?
    requires NoChatBetween(line, i, k)
    ensures FirstChat(line, i) == Some(k)
  {
  }

  // ---------------------------------------------------------------------
  // `\[JOIN\] (\w+) joined` and `\[LEAVE\] (\w+) left`
  // ---------------------------------------------------------------------

  const JoinMarker := "[JOIN] "
  const JoinTail := " joined"
  const LeaveMarker := "[LEAVE] "
  const LeaveTail := " left"

  /** The pattern `marker (\w+) tail` matches at `i`, capturing `u`. */
  predicate IsWordRecordMatch(line: string, i: int, marker: string, tail: string, u: string) {
    && IsWord(u)
    && At(line, i, marker)
    && At(line, i + |marker|, u)
    && At(line, i + |marker| + |u|, tail)
  }

  /** The pattern `marker (\w+) tail` tried at start position `i`. */
  function WordRecordAt(line: string, i: nat, marker: string, tail: string): Option<string> {
    if !At(line, i, marker) then None
    else
      var j := i + |marker|;
      var n := WordRun(line, j);
      if n > 0 && At(line, j + n, tail) then Some(line[j..j + n]) else None
  }

  /** What WordRecordAt finds is a match of `marker (\w+) tail`. */
  lemma WordRecordAtSound(line: string, i: nat, marker: string, tail: string)
    requires WordRecordAt(line, i, marker, tail).Some?
    ensures IsWordRecordMatch(line, i, marker, tail, WordRecordAt(line, i, marker, tail).value)
  {
  }

  /** When the tail starts with a non-word character, WordRecordAt finds exactly the matches at `i`. */
  lemma WordRecordAtIsMatch(line: string, i: nat, marker: string, tail: string, u: string)
    requires |tail| > 0 && !IsWordChar(tail[0])
    ensures WordRecordAt(line, i, marker, tail) == Some(u) <==> IsWordRecordMatch(line, i, marker, tail, u)
  {
    if WordRecordAt(line, i, marker, tail).Some? {
      WordRecordAtSound(line, i, marker, tail);
    }
    if IsWordRecordMatch(line, i, marker, tail, u) {
      AtChar(line, i + |marker| + |u|, tail, 0);
      WordRunOfWord(line, i + |marker|, u);
    }
  }

  /** The pattern `marker (\w+) tail` matches at no position in `[i, k)`. */
  predicate NoWordRecordBetween(line: string, i: int, k: int, marker: string, tail: string) {
    forall k' | i <= k' < k && 0 <= k' :: WordRecordAt(line, k', marker, tail).None?
  }

  /** The leftmost position at or after `i` where `marker (\w+) tail` matches. */
  function FirstWordRecord(line: string, i: nat, marker: string, tail: string): (r: Option<nat>)
    requires i <= |line|
    ensures r.None? ==> NoWordRecordBetween(line, i, |line| + 1, marker, tail)
    ensures r.Some? ==> && i <= r.value <= |line|
                        && WordRecordAt(line, r.value, marker, tail).Some?
                        && NoWordRecordBetween(line, i, r.value, marker, tail)
    decreases |line| - i
  {
    if WordRecordAt(line, i, marker, tail).Some? then Some(i)
    else if i == |line| then None
    else FirstWordRecord(line, i + 1, marker, tail)
  }

  /** The search stops at the first position where there is a match. */
  lemma FirstWordRecordIs(line: string, i: nat, k: nat, marker: string, tail: string)
    requires i <= k <= |line| && WordRecordAt(line, k, marker, tail).Some?
    requires NoWordRecordBetween(line, i, k, marker, tail)
    ensures FirstWordRecord(line, i, marker, tail) == Some(k)
  {
  }

  // ---------------------------------------------------------------------
  // parse_log_line
  // ---------------------------------------------------------------------

  /**
   * One log line to at most one record. The markers are tested in the order
   * chat, join, leave; once a marker is found only its own pattern is tried,
   * and a line whose pattern does not match yields nothing.
   */
  function ParseLogLine(line: string): (r: Option<LogRecord>)
    ensures r.Some? ==> WellFormed(r.value)
    ensures r.Some? && r.value.Chat? ==> Contains(line, "[CHAT]")
    ensures r.Some? && r.value.Join? ==> Contains(line, "[JOIN]") && !Contains(line, "[CHAT]")
    ensures r.Some? && r.value.Leave? ==>
              Contains(line, "[LEAVE]") && !Contains(line, "[CHAT]") && !Contains(line, "[JOIN]")
  {
    if Contains(line, "[CHAT]") then
      match FirstChat(line, 0)
      case None => None
      case Some(k) =>
        ChatAtSound(line, k);
        var c := ChatAt(line, k).value;
        if c.user == ServerName then None else Some(Chat(c.user, c.msg))
    else if Contains(line, "[JOIN]") then
      match FirstWordRecord(line, 0, JoinMarker, JoinTail)
      case None => None
      case Some(k) =>
        WordRecordAtSound(line, k, JoinMarker, JoinTail);
        Some(Join(WordRecordAt(line, k, JoinMarker, JoinTail).value))
    else if Contains(line, "[LEAVE]") then
      match FirstWordRecord(line, 0, LeaveMarker, LeaveTail)
      case None => None
      case Some(k) =>
        WordRecordAtSound(line, k, LeaveMarker, LeaveTail);
        Some(Leave(WordRecordAt(line, k, LeaveMarker, LeaveTail).value))
    else
      None
  }

  /**
   * Every record the parser yields comes from the leftmost match of its
   * pattern: a chat record from a match whose user is not `<server>`, a join
   * or leave record from a line without the markers tested before it.
   */
  lemma ParsedFromLeftmostMatch(line: string)
    ensures ParseLogLine(line).Some? && ParseLogLine(line).value.Chat? ==>
              var r := ParseLogLine(line).value;
              r.username != ServerName &&
              exists k: nat | k <= |line| :: IsChatMatch(line, k, r.username, r.msg) && NoChatBetween(line, 0, k)
    ensures ParseLogLine(line).Some? && ParseLogLine(line).value.Join? ==>
              exists k: nat | k <= |line| ::
                IsWordRecordMatch(line, k, JoinMarker, JoinTail, ParseLogLine(line).value.user)
                && NoWordRecordBetween(line, 0, k, JoinMarker, JoinTail)
    ensures ParseLogLine(line).Some? && ParseLogLine(line).value.Leave? ==>
              exists k: nat | k <= |line| ::
                IsWordRecordMatch(line, k, LeaveMarker, LeaveTail, ParseLogLine(line).value.user)
                && NoWordRecordBetween(line, 0, k, LeaveMarker, LeaveTail)
  {
    if Contains(line, "[CHAT]") {
      var f := FirstChat(line, 0);
      if f.Some? {
        ChatAtSound(line, f.value);
      }
    } else if Contains(line, "[JOIN]") {
      var f := FirstWordRecord(line, 0, JoinMarker, JoinTail);
      if f.Some? {
        WordRecordAtSound(line, f.value, JoinMarker, JoinTail);
      }
    } else if Contains(line, "[LEAVE]") {
      var f := FirstWordRecord(line, 0, LeaveMarker, LeaveTail);
      if f.Some? {
        WordRecordAtSound(line, f.value, LeaveMarker, LeaveTail);
      }
    }
  }

  /** `<server>` is not a word, so no user name can be it. */
  lemma ServerNameIsNotWord(u: string)
    requires IsWord(u)
    ensures u != ServerName
  {
    assert IsWordChar(u[0]);
  }

  /** No chat match starts inside a prefix that has no `[`. */
  lemma NoChatInPrefix(p: string, line: string)
    requires |p| <= |line| && forall k | 0 <= k < |p| :: line[k] == p[k] && p[k] != '['
    ensures NoChatBetween(line, 0, |p|)
  {
    forall k | 0 <= k < |p|
      ensures ChatAt(line, k).None?
    {
      NotAtWhenDiffers(line, k, "[CHAT] ", 0);
    }
  }

  /** No `marker (\w+) tail` match starts inside a prefix that has no `[`. */
  lemma NoWordRecordInPrefix(p: string, line: string, marker: string, tail: string)
    requires |marker| > 0 && marker[0] == '['
    requires |p| <= |line| && forall k | 0 <= k < |p| :: line[k] == p[k] && p[k] != '['
    ensures NoWordRecordBetween(line, 0, |p|, marker, tail)
  {
    forall k | 0 <= k < |p|
      ensures WordRecordAt(line, k, marker, tail).None?
    {
      NotAtWhenDiffers(line, k, marker, 0);
    }
  }

  /**
   * The leftmost match of the chat pattern decides a line that has the chat
   * marker: a word user yields that user's record, `<server>` yields nothing.
   */
  lemma LeftmostChatDecides(line: string, k: nat, u: string, m: string)
    requires IsChatMatch(line, k, u, m) && NoChatBetween(line, 0, k)
    ensures ParseLogLine(line) == if u == ServerName then None else Some(Chat(u, m))
  {
    ChatAtIsMatch(line, k, u, m);
    FirstChatIs(line, 0, k);
    AtConcat(line, k, "[CHAT]", " ");
  }

  /**
   * A chat line whose user is a word parses to exactly that user and
   * message, whatever the message holds (further `": "` or markers included),
   * behind any prefix without a `[`, such as the log's time stamp.
   */
  lemma ChatLineParses(p: string, u: string, m: string)
    requires Lacks(p, '[') && IsWord(u) && IsLineText(m)
    ensures ParseLogLine(p + "[CHAT] " + u + ": " + m) == Some(Chat(u, m))
  {
    var line := p + "[CHAT] " + u + ": " + m;
    AtPieces4(p, "[CHAT] ", u, ": ", m);
    NoChatInPrefix(p, line);
    ServerNameIsNotWord(u);
    LeftmostChatDecides(line, |p|, u, m);
  }

  /** A chat line from the server itself yields no record. */
  lemma ServerChatIgnored(p: string, m: string)
    requires Lacks(p, '[') && IsLineText(m)
    ensures ParseLogLine(p + "[CHAT] <server>: " + m) == None
  {
    var line := p + "[CHAT] " + ServerName + ": " + m;
    assert line == p + "[CHAT] <server>: " + m;
    AtPieces4(p, "[CHAT] ", ServerName, ": ", m);
    NoChatInPrefix(p, line);
    LeftmostChatDecides(line, |p|, ServerName, m);
  }

  /** The only `[` of `p + marker + u + tail` is the marker's. */
  lemma OnlyMarkerBracket(p: string, marker: string, u: string, tail: string)
    requires Lacks(p, '[') && IsWord(u) && Lacks(tail, '[')
    requires |marker| > 0 && Lacks(marker[1..], '[')
    ensures forall k | 0 <= k < |p + marker + u + tail| && k != |p| :: (p + marker + u + tail)[k] != '['
  {
    var line := p + marker + u + tail;
    AtPieces3(p, marker, u, tail);
    forall k | 0 <= k < |line| && k != |p|
      ensures line[k] != '['
    {
      if k < |p| {
        assert line[k] == p[k];
      } else if k < |p| + |marker| {
        AtChar(line, |p|, marker, k - |p|);
        assert marker[k - |p|] == marker[1..][k - |p| - 1];
      } else if k < |p| + |marker| + |u| {
        AtChar(line, |p| + |marker|, u, k - |p| - |marker|);
      } else {
        AtChar(line, |p| + |marker| + |u|, tail, k - |p| - |marker| - |u|);
      }
    }
  }

  /** In a line without the chat marker, the leftmost match of the join pattern decides. */
  lemma LeftmostJoinDecides(line: string, k: nat, u: string)
    requires !Contains(line, "[CHAT]")
    requires IsWordRecordMatch(line, k, JoinMarker, JoinTail, u) && NoWordRecordBetween(line, 0, k, JoinMarker, JoinTail)
    ensures ParseLogLine(line) == Some(Join(u))
  {
    WordRecordAtIsMatch(line, k, JoinMarker, JoinTail, u);
    FirstWordRecordIs(line, 0, k, JoinMarker, JoinTail);
    AtConcat(line, k, "[JOIN]", " ");
  }

  /** In a line without the chat and join markers, the leftmost match of the leave pattern decides. */
  lemma LeftmostLeaveDecides(line: string, k: nat, u: string)
    requires !Contains(line, "[CHAT]") && !Contains(line, "[JOIN]")
    requires IsWordRecordMatch(line, k, LeaveMarker, LeaveTail, u) && NoWordRecordBetween(line, 0, k, LeaveMarker, LeaveTail)
    ensures ParseLogLine(line) == Some(Leave(u))
  {
    WordRecordAtIsMatch(line, k, LeaveMarker, LeaveTail, u);
    FirstWordRecordIs(line, 0, k, LeaveMarker, LeaveTail);
    AtConcat(line, k, "[LEAVE]", " ");
  }

  /** A join line parses to the user who joined. */
  lemma JoinLineParses(p: string, u: string)
    requires Lacks(p, '[') && IsWord(u)
    ensures ParseLogLine(p + "[JOIN] " + u + " joined") == Some(Join(u))
  {
    var line := p + JoinMarker + u + JoinTail;
    AtPieces3(p, JoinMarker, u, JoinTail);
    OnlyMarkerBracket(p, JoinMarker, u, JoinTail);
    AtChar(line, |p|, JoinMarker, 1);
    NoOtherMarker(line, |p|, "[CHAT]");
    NoWordRecordInPrefix(p, line, JoinMarker, JoinTail);
    LeftmostJoinDecides(line, |p|, u);
  }

  /** A leave line parses to the user who left. */
  lemma LeaveLineParses(p: string, u: string)
    requires Lacks(p, '[') && IsWord(u)
    ensures ParseLogLine(p + "[LEAVE] " + u + " left") == Some(Leave(u))
  {
    var line := p + LeaveMarker + u + LeaveTail;
    AtPieces3(p, LeaveMarker, u, LeaveTail);
    OnlyMarkerBracket(p, LeaveMarker, u, LeaveTail);
    AtChar(line, |p|, LeaveMarker, 1);
    NoOtherMarker(line, |p|, "[CHAT]");
    NoOtherMarker(line, |p|, "[JOIN]");
    NoWordRecordInPrefix(p, line, LeaveMarker, LeaveTail);
    LeftmostLeaveDecides(line, |p|, u);
  }

  // ---------------------------------------------------------------------
  // read_line: from a record to the event for Telegram
  // ---------------------------------------------------------------------

  const ChatEmoji: char := '\U{1F4AC}'   // speech balloon
  const JoinEmoji: char := '\U{1F60A}'   // smiling face
  const LeaveEmoji: char := '\U{1F44B}'  // waving hand

  /** The Telegram message announcing a record; join and leave are sent without notification. */
  function ToEvent(r: LogRecord): Event {
    match r
    case Chat(u, m) => MessageFromFactorio([ChatEmoji] + u + ": " + m, false)
    case Join(u) => MessageFromFactorio([JoinEmoji] + u + JoinTail, true)
    case Leave(u) => MessageFromFactorio([LeaveEmoji] + u + LeaveTail, true)
  }

  /** Reads back the record a Telegram message was made from. */
  function RecordOf(e: Event): Option<LogRecord> {
    match e
    case MessageFromFactorio(text, silent) =>
      if |text| == 0 then None
      else if !silent && text[0] == ChatEmoji then
        var n := WordRun(text, 1);
        if n > 0 && At(text, 1 + n, ": ") then Some(Chat(text[1..1 + n], text[3 + n..])) else None
      else if silent && text[0] == JoinEmoji && |text| >= 1 + |JoinTail| && At(text, |text| - |JoinTail|, JoinTail) then
        Some(Join(text[1..|text| - |JoinTail|]))
      else if silent && text[0] == LeaveEmoji && |text| >= 1 + |LeaveTail| && At(text, |text| - |LeaveTail|, LeaveTail) then
        Some(Leave(text[1..|text| - |LeaveTail|]))
      else None
    case MessageFromTg(_) => None
    case CommandFromTg(_, _) => None
  }

  /** The message text determines the record: no two parsed records are announced alike. */
  lemma RecordOfToEvent(r: LogRecord)
    requires WellFormed(r)
    ensures RecordOf(ToEvent(r)) == Some(r)
  {
    match r
    case Chat(u, m) =>
      var text := [ChatEmoji] + u + ": " + m;
      AtPieces3([ChatEmoji], u, ": ", m);
      AtChar(text, 1 + |u|, ": ", 0);
      WordRunOfWord(text, 1, u);
      assert text[1..1 + |u|] == u;
      assert text[3 + |u|..] == m;
    case Join(u) =>
      var text := [JoinEmoji] + u + JoinTail;
      AtSuffix([JoinEmoji] + u, JoinTail);
      assert text[1..|text| - |JoinTail|] == u;
    case Leave(u) =>
      var text := [LeaveEmoji] + u + LeaveTail;
      AtSuffix([LeaveEmoji] + u, LeaveTail);
      assert text[1..|text| - |LeaveTail|] == u;
  }

  /** Two parsed records give the same Telegram message only if they are the same record. */
  lemma ToEventInjective(r1: LogRecord, r2: LogRecord)
    requires WellFormed(r1) && WellFormed(r2) && ToEvent(r1) == ToEvent(r2)
    ensures r1 == r2
  {
    RecordOfToEvent(r1);
    RecordOfToEvent(r2);
  }

  /**
   * A log line to the event it causes, if any: exactly one for a recognised
   * line, carrying the whole record, and none otherwise.
   */
  function LineEvent(line: string): (r: Option<Event>)
    ensures r.Some? <==> ParseLogLine(line).Some?
    ensures r.Some? ==> r.value.MessageFromFactorio? && RecordOf(r.value) == ParseLogLine(line)
    ensures r.Some? ==> (r.value.silent <==> !ParseLogLine(line).value.Chat?)
  {
    match ParseLogLine(line)
    case None => None
    case Some(rec) =>
      RecordOfToEvent(rec);
      Some(ToEvent(rec))
  }

  // ---------------------------------------------------------------------
  // read_log: the log lines, in order, into the channel
  // ---------------------------------------------------------------------

  /** The events that the lines `lines[from..upto]` cause, in the order of the lines: the run of LineEvent over them. */
  function EventsOf(lines: seq<string>, from: nat, upto: nat): seq<Event>
    requires from <= upto <= |lines|
  {
    Present(LineEvent, lines, from, upto)
  }

  /** Each line causes at most one event; exactly one each when every line is recognised. */
  lemma EventsOfCount(lines: seq<string>, from: nat, upto: nat)
    requires from <= upto <= |lines|
    ensures |EventsOf(lines, from, upto)| <= upto - from
    ensures |EventsOf(lines, from, upto)| == upto - from <==> forall k | from <= k < upto :: ParseLogLine(lines[k]).Some?
  {
    PresentLength(LineEvent, lines, from, upto);
  }

  /** Lines cause no events exactly when none of them is recognised. */
  lemma EventsOfNone(lines: seq<string>, from: nat, upto: nat)
    requires from <= upto <= |lines|
    ensures EventsOf(lines, from, upto) == [] <==> forall k | from <= k < upto :: ParseLogLine(lines[k]).None?
  {
    PresentEmpty(LineEvent, lines, from, upto);
  }

  /** The events of a run of lines are those of its first part followed by those of the rest. */
  lemma EventsOfSplit(lines: seq<string>, from: nat, mid: nat, upto: nat)
    requires from <= mid <= upto <= |lines|
    ensures EventsOf(lines, from, upto) == EventsOf(lines, from, mid) + EventsOf(lines, mid, upto)
  {
    PresentSplit(LineEvent, lines, from, mid, upto);
  }

  // `read_line` and `read_log` are written once over any line-to-event
  // mapping (ReadLineWith, ReadLogWith) and then instantiated with
  // LineEvent (ReadLine, ReadLog). The generic loop's proof then needs only
  // the channel's contract, not the parser's definitions.

  /**
   * One step of the watcher for a given line-to-event mapping `parse`: the
   * line's event, if it has one, is offered to the channel. The result is
   * `None` when there is nothing to send, otherwise what the send did.
   */
  method ReadLineWith(parse: string -> Option<Event>, line: string, ch: Channel) returns (r: Option<SendStatus>)
    requires ch.Valid()
    modifies ch`buf
    ensures ch.Valid()
    ensures r.None? <==> parse(line).None?
    ensures ch.buf == if r == Some(Sent) then old(ch.buf) + Items(parse(line)) else old(ch.buf)
    ensures r == Some(Full) ==> ch.receiverAlive && |ch.buf| == Capacity
    ensures r == Some(Disconnected) ==> !ch.receiverAlive
  {
    var event := parse(line);
    if event.Some? {
      var status := ch.Send(event.value);
      r := Some(status);
    } else {
      r := None;
    }
  }

  /** Why the watcher stopped reading. */
  datatype ReadOutcome =
    | Exhausted      // every given line was read
    | Suspended      // the channel is full: the watcher waits before sending this line's event
    | ChannelClosed  // the bus is gone: the send fails and the watcher stops with an error

  /**
   * The watcher's loop for a given line-to-event mapping `parse`: reads
   * `lines[from..]` in order, offering each line's event to the channel. It
   * stops at the end of the lines, at a send that would wait for room
   * (reading resumes at `next`), or at a send that fails.
   */
  method ReadLogWith(parse: string -> Option<Event>, lines: seq<string>, from: nat, ch: Channel)
    returns (next: nat, outcome: ReadOutcome)
    requires from <= |lines| && ch.Valid()
    modifies ch`buf
    ensures ch.Valid()
    ensures from <= next <= |lines|
    ensures ch.buf == old(ch.buf) + Present(parse, lines, from, next)
    ensures outcome == Exhausted <==> next == |lines|
    ensures outcome == Suspended ==> parse(lines[next]).Some? && ch.receiverAlive && |ch.buf| == Capacity
    ensures outcome == ChannelClosed ==> parse(lines[next]).Some? && !ch.receiverAlive
  {
    next, outcome := from, Exhausted;
    while next < |lines|
      invariant from <= next <= |lines|
      invariant ch.Valid()
      invariant ch.buf == old(ch.buf) + Present(parse, lines, from, next)
      invariant outcome == Exhausted
    {
      var sent := ReadLineWith(parse, lines[next], ch);
      match sent {
        case Some(Full) =>
          outcome := Suspended;
          break;
        case Some(Disconnected) =>
          outcome := ChannelClosed;
          break;
        case Some(Sent) =>
          assert ch.buf == old(ch.buf) + Present(parse, lines, from, next) + Items(parse(lines[next]));
        case None =>
      }
      next := next + 1;
    }
  }

  /**
   * `read_line`: parses one log line and sends its event, if it has one.
   * The result is `None` when there is nothing to send, otherwise what the
   * send did.
   */
  method ReadLine(line: string, ch: Channel) returns (r: Option<SendStatus>)
    requires ch.Valid()
    modifies ch`buf
    ensures ch.Valid()
    ensures r.None? <==> ParseLogLine(line).None?
    ensures ch.buf == if r == Some(Sent) then old(ch.buf) + [LineEvent(line).value] else old(ch.buf)
    ensures r == Some(Full) ==> ch.receiverAlive && |ch.buf| == Capacity
    ensures r == Some(Disconnected) ==> !ch.receiverAlive
  {
    r := ReadLineWith(LineEvent, line, ch);
  }

  /**
   * `read_log`: reads `lines[from..]` in order, sending the event of each
   * recognised line into the channel, until the lines end, a send would
   * wait for room, or a send fails.
   */
  method ReadLog(lines: seq<string>, from: nat, ch: Channel) returns (next: nat, outcome: ReadOutcome)
    requires from <= |lines| && ch.Valid()
    modifies ch`buf
    ensures ch.Valid()
    ensures from <= next <= |lines|
    ensures ch.buf == old(ch.buf) + EventsOf(lines, from, next)
    ensures outcome == Exhausted <==> next == |lines|
    ensures outcome == Suspended ==> ParseLogLine(lines[next]).Some? && ch.receiverAlive && |ch.buf| == Capacity
    ensures outcome == ChannelClosed ==> ParseLogLine(lines[next]).Some? && !ch.receiverAlive
  {
    next, outcome := ReadLogWith(LineEvent, lines, from, ch);
  }
}
