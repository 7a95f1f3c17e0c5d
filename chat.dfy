/**
 * The chat page's conversation state (src/pages/Chat.tsx): one message list
 * per avatar, the guarded send that appends the user's message before the
 * reply arrives, the last-eight history window sent with the request, and the
 * loader that turns newest-first database rows into user/AI messages.
 * Message ids (`Date.now()`) and the effect's cancellation flag are left out.
 */
module ChatScreen {
  import opened Wrappers
  import opened Text

  datatype Role = User | Ai

  datatype Msg = Msg(role: Role, text: string)

  /** The `initial` list shown for an avatar with no history. */
  const Greeting: seq<Msg> := [Msg(Ai, "Hey Money Maestro! What goal are we optimizing for this month?")]

  /** One history entry of the request body. */
  datatype WireEntry = WireEntry(role: string, content: string)

  function WireRole(r: Role): string {
    if r == User then "user" else "assistant"
  }

  /** `msgs.slice(-8).map(m => ({ role: ..., content: m.text }))`. */
  function HistoryWindow(msgs: seq<Msg>): (r: seq<WireEntry>)
    ensures |r| == Min(8, |msgs|)
    ensures forall i :: 0 <= i < |r| ==>
              r[i].content == msgs[|msgs| - |r| + i].text
              && r[i].role == WireRole(msgs[|msgs| - |r| + i].role)
  {
    var w := if |msgs| <= 8 then msgs else msgs[|msgs| - 8..];
    seq(|w|, i requires 0 <= i < |w| => WireEntry(WireRole(w[i].role), w[i].text))
  }

  /** The role mapping sends only "user" and "assistant". */
  lemma HistoryWindowRoles(msgs: seq<Msg>)
    ensures forall e :: e in HistoryWindow(msgs) ==> e.role == "user" || e.role == "assistant"
  {
    var r := HistoryWindow(msgs);
    forall e | e in r ensures e.role == "user" || e.role == "assistant" {
      var i :| 0 <= i < |r| && r[i] == e;
    }
  }

  /** `updateChatHistory`: `{ ...prev, [avatar]: msgs }`. */
  function UpdateHistory(histories: map<string, seq<Msg>>, avatar: string, msgs: seq<Msg>): (r: map<string, seq<Msg>>)
    ensures r.Keys == histories.Keys + {avatar}
    ensures r[avatar] == msgs
    ensures forall k :: k in histories && k != avatar ==> r[k] == histories[k]
  {
    histories[avatar := msgs]
  }

  /** A chat history row as the database returns it. */
  datatype DbRow = DbRow(userMessage: string, aiResponse: Option<string>)

  /** `if (r.ai_response)`: present and not empty. */
  predicate HasReply(row: DbRow) {
    row.aiResponse.Some? && row.aiResponse.value != ""
  }

  /** The messages one row contributes: the user's, then the AI's when there is one. */
  function RowMsgs(row: DbRow): seq<Msg> {
    [Msg(User, row.userMessage)] + (if HasReply(row) then [Msg(Ai, row.aiResponse.value)] else [])
  }

  /** The messages of rows taken oldest first. */
  function MsgsOf(rows: seq<DbRow>): seq<Msg> {
    if rows == [] then [] else MsgsOf(rows[..|rows| - 1]) + RowMsgs(rows[|rows| - 1])
  }

  function Reverse<T>(s: seq<T>): (r: seq<T>)
    ensures |r| == |s| && forall i :: 0 <= i < |s| ==> r[i] == s[|s| - 1 - i]
  {
    if s == [] then [] else Reverse(s[1..]) + [s[0]]
  }

  /**
   * The loader's loop: `rows.reverse().forEach(...)` pushing each row's user
   * message and, when `ai_response` is truthy, its AI message.
   */
  method RowsToMessages(rows: seq<DbRow>) returns (msgs: seq<Msg>)
    ensures msgs == MsgsOf(Reverse(rows))
  {
    var oldestFirst := Reverse(rows);
    msgs := [];
    var idx := 0;
    while idx < |oldestFirst|
      invariant 0 <= idx <= |oldestFirst|
      invariant msgs == MsgsOf(oldestFirst[..idx])
    {
      var r := oldestFirst[idx];
      assert oldestFirst[..idx + 1][..idx] == oldestFirst[..idx];
      msgs := msgs + [Msg(User, r.userMessage)];
      if r.aiResponse.Some? && r.aiResponse.value != "" {
        msgs := msgs + [Msg(Ai, r.aiResponse.value)];
      }
      idx := idx + 1;
    }
    assert oldestFirst[..idx] == oldestFirst;
  }

  function CountReplies(rows: seq<DbRow>): nat {
    if rows == [] then 0 else CountReplies(rows[..|rows| - 1]) + (if HasReply(rows[|rows| - 1]) then 1 else 0)
  }

  function UserTexts(msgs: seq<Msg>): seq<string> {
    if msgs == [] then []
    else UserTexts(msgs[..|msgs| - 1]) + (if msgs[|msgs| - 1].role == User then [msgs[|msgs| - 1].text] else [])
  }

  lemma {:induction false} UserTextsAppend(a: seq<Msg>, b: seq<Msg>)
    ensures UserTexts(a + b) == UserTexts(a) + UserTexts(b)
    decreases |b|
  {
    if b == [] {
      assert a + b == a;
    } else {
      assert (a + b)[..|a + b| - 1] == a + b[..|b| - 1];
      UserTextsAppend(a, b[..|b| - 1]);
    }
  }

  function UserMessages(rows: seq<DbRow>): seq<string> {
    if rows == [] then [] else UserMessages(rows[..|rows| - 1]) + [rows[|rows| - 1].userMessage]
  }

  /**
   * Every row yields exactly one user message, in row order, plus one AI message
   * per truthy reply; the list starts with a user message whenever there are rows.
   */
  lemma {:induction false} MsgsOfShape(rows: seq<DbRow>)
    ensures |MsgsOf(rows)| == |rows| + CountReplies(rows)
    ensures UserTexts(MsgsOf(rows)) == UserMessages(rows)
    ensures rows != [] ==> MsgsOf(rows)[0] == Msg(User, rows[0].userMessage)
  {
    if rows != [] {
      var init := rows[..|rows| - 1];
      var last := rows[|rows| - 1];
      MsgsOfShape(init);
      UserTextsAppend(MsgsOf(init), RowMsgs(last));
      UserTextsAppend([Msg(User, last.userMessage)], if HasReply(last) then [Msg(Ai, last.aiResponse.value)] else []);
      assert UserTexts([Msg(User, last.userMessage)]) == [last.userMessage] by {
        assert [Msg(User, last.userMessage)][..0] == [];
      }
      if HasReply(last) {
        assert UserTexts([Msg(Ai, last.aiResponse.value)]) == [] by {
          assert [Msg(Ai, last.aiResponse.value)][..0] == [];
        }
      }
      if init != [] {
        assert rows[0] == init[0];
      }
    }
  }

  /** The loader never lets an AI message open the list or follow another AI message. */
  lemma {:induction false} MsgsOfAlternates(rows: seq<DbRow>)
    ensures forall i :: 0 <= i < |MsgsOf(rows)| && MsgsOf(rows)[i].role == Ai ==>
              i > 0 && MsgsOf(rows)[i - 1].role == User
  {
    if rows != [] {
      var init := rows[..|rows| - 1];
      var last := rows[|rows| - 1];
      MsgsOfAlternates(init);
      var a := MsgsOf(init);
      var m := MsgsOf(rows);
      assert m == a + RowMsgs(last);
      forall i | 0 <= i < |m| && m[i].role == Ai ensures i > 0 && m[i - 1].role == User {
        if i >= |a| {
          assert i == |a| + 1 && m[i - 1] == Msg(User, last.userMessage);
        } else {
          assert m[i] == a[i] && m[i - 1] == a[i - 1];
        }
      }
    }
  }

  /** What the history query produced: no signed-in user, rows, or an error. */
  datatype Fetch = NoUser | Fetched(rows: seq<DbRow>) | FetchFailed

  /** `(forcedText ?? input).trim()`. */
  function SendText(forcedText: Option<string>, input: string): string {
    JsTrim(forcedText.GetOr(input))
  }

  /** A send that is waiting for its reply: what the closure captured, and the request. */
  datatype Pending = Pending(avatar: string, before: seq<Msg>, userMsg: Msg,
                             avatarId: string, message: string, history: seq<WireEntry>)

  /** How the `ai-chat` call ended: a body whose `reply` may be missing, or an error. */
  datatype Outcome = Replied(reply: Option<string>) | CallFailed

  /** `data?.reply || ""`. */
  function ReplyText(reply: Option<string>): string {
    reply.GetOr("")
  }

  class ChatPage {
    var active: string
    var histories: map<string, seq<Msg>>
    var input: string
    var sending: bool

    constructor ()
      ensures active == "naval" && histories == map[] && input == "" && !sending
    {
      active := "naval";
      histories := map[];
      input := "";
      sending := false;
    }

    /** `chatHistories[active] || initial`. */
    function Messages(): seq<Msg>
      reads this
    {
      if active in histories then histories[active] else Greeting
    }

    method SelectAvatar(id: string)
      modifies this
      ensures active == id && histories == old(histories) && input == old(input) && sending == old(sending)
    {
      active := id;
    }

    method SetInput(text: string)
      modifies this
      ensures input == text && active == old(active) && histories == old(histories) && sending == old(sending)
    {
      input := text;
    }

    /**
     * The history effect for the active avatar: nothing when it already has an
     * entry; otherwise the loaded messages, or the greeting when there is no
     * user, no row or an error.
     */
    method LoadActive(fetch: Fetch)
      modifies this
      ensures old(active) in old(histories) ==> histories == old(histories)
      ensures old(active) !in old(histories) ==>
                histories == old(histories)[active := LoadedMessages(fetch)]
      ensures active == old(active) && input == old(input) && sending == old(sending)
    {
      if active in histories {
        return;
      }
      var msgs := Greeting;
      if fetch.Fetched? {
        var loaded := RowsToMessages(fetch.rows);
        if |loaded| > 0 {
          msgs := loaded;
        }
      }
      histories := UpdateHistory(histories, active, msgs);
    }

    /**
     * The part of `handleSend` before the `await`: nothing happens while a send
     * is pending or when the trimmed text is empty; otherwise the user's message
     * is appended, the input cleared, `sending` set, and the request returned.
     */
    method BeginSend(forcedText: Option<string>) returns (p: Option<Pending>)
      modifies this
      ensures old(sending) || SendText(forcedText, old(input)) == "" ==>
                p == None && histories == old(histories) && input == old(input) && sending == old(sending)
      ensures !old(sending) && SendText(forcedText, old(input)) != "" ==>
                var userMsg := Msg(User, SendText(forcedText, old(input)));
                && p == Some(Pending(old(active), old(Messages()), userMsg, old(active), userMsg.text,
                                     HistoryWindow(old(Messages()) + [userMsg])))
                && histories == old(histories)[old(active) := old(Messages()) + [userMsg]]
                && input == "" && sending
      ensures active == old(active)
    {
      if sending {
        return None;
      }
      var text := SendText(forcedText, input);
      if text == "" {
        return None;
      }
      var messages := Messages();
      var userMsg := Msg(User, text);
      histories := UpdateHistory(histories, active, messages + [userMsg]);
      input := "";
      sending := true;
      var history := HistoryWindow(messages + [userMsg]);
      p := Some(Pending(active, messages, userMsg, active, text, history));
    }

    /**
     * The part after the `await`: on a reply the captured avatar's list becomes
     * the captured messages plus the user's and the AI's; on an error the list
     * keeps the user's message only. `sending` is cleared either way.
     */
    method FinishSend(p: Pending, outcome: Outcome)
      modifies this
      ensures outcome.Replied? ==>
                histories == UpdateHistory(old(histories), p.avatar,
                                           p.before + [p.userMsg, Msg(Ai, ReplyText(outcome.reply))])
      ensures outcome.CallFailed? ==> histories == old(histories)
      ensures !sending && active == old(active) && input == old(input)
    {
      if outcome.Replied? {
        var aiMsg := Msg(Ai, ReplyText(outcome.reply));
        histories := UpdateHistory(histories, p.avatar, p.before + [p.userMsg, aiMsg]);
      }
      sending := false;
    }
  }

  /** The list the history effect stores for an avatar that has none. */
  function LoadedMessages(fetch: Fetch): (r: seq<Msg>)
    ensures r != []
    ensures fetch.NoUser? || fetch.FetchFailed? ==> r == Greeting
    ensures fetch.Fetched? && fetch.rows == [] ==> r == Greeting
    ensures fetch.Fetched? && fetch.rows != [] ==> r == MsgsOf(Reverse(fetch.rows))
  {
    match fetch
    case Fetched(rows) =>
      var m := MsgsOf(Reverse(rows));
      if |m| > 0 then m else Greeting
    case _ => Greeting
  }
}
