/**
 * The chat widget: a transcript buffer that is filled from the stored
 * history of a call and grows by one question and one answer per send.
 *
 * `sendMessage` awaits the backend between its two updates of the buffer;
 * the model splits it at that point into `BeginSend` and `FinishSend`, and
 * `SendMessage` runs the two back to back.
 */
module ChatBot {
  import opened Records
  import opened Seqs

  datatype Sender = FromUser | FromAi

  datatype Message = Message(sender: Sender, content: string, timestamp: string)

  /** A stored exchange as the history endpoint returns it. */
  datatype ChatRecord = ChatRecord(message: string, response: string, timestamp: string)

  /** The body of a successful send. */
  datatype ChatReply = ChatReply(response: string, timestamp: string)

  const HistoryLimit := 10
  const ErrorReply := "Sorry, I encountered an error. Please try again."

  /** Each stored exchange becomes the user's message followed by the answer. */
  function Flatten(history: seq<ChatRecord>): (flat: seq<Message>)
    ensures |flat| == 2 * |history|
  {
    if history == [] then []
    else
      [Message(FromUser, history[0].message, history[0].timestamp),
       Message(FromAi, history[0].response, history[0].timestamp)] + Flatten(history[1..])
  }

  /** Exchange `i` sits at positions `2i` (the question) and `2i + 1` (the answer), both with its timestamp. */
  lemma {:induction false} FlattenAt(history: seq<ChatRecord>, i: nat)
    requires i < |history|
    ensures Flatten(history)[2 * i] == Message(FromUser, history[i].message, history[i].timestamp)
    ensures Flatten(history)[2 * i + 1] == Message(FromAi, history[i].response, history[i].timestamp)
  {
    if i > 0 {
      FlattenAt(history[1..], i - 1);
      assert history[1..][i - 1] == history[i];
    }
  }

  /** `s.slice(-n)` for a positive `n`: the last `n` elements, or all of them when there are fewer. */
  function LastN<T>(s: seq<T>, n: nat): (r: seq<T>)
    requires n > 0
    ensures |r| == if |s| <= n then |s| else n
    ensures r == s[|s| - |r|..]
  {
    if |s| <= n then s else s[|s| - n..]
  }

  /** The buffer after loading the history: the last ten flattened messages, oldest first. */
  function HistoryBuffer(history: seq<ChatRecord>): (buffer: seq<Message>)
    ensures |buffer| == if |history| >= 5 then 10 else 2 * |history|
    ensures buffer == Flatten(history)[2 * |history| - |buffer|..]
  {
    LastN(Flatten(history), HistoryLimit)
  }

  /** Dropping the first `k` exchanges drops the first `2k` messages. */
  lemma {:induction false} FlattenSuffix(history: seq<ChatRecord>, k: nat)
    requires k <= |history|
    ensures Flatten(history)[2 * k..] == Flatten(history[k..])
  {
    if k > 0 {
      FlattenSuffix(history[1..], k - 1);
      assert history[1..][k - 1..] == history[k..];
    }
  }

  /** The loaded buffer holds exactly the last five exchanges (all of them when there are fewer). */
  lemma HistoryKeepsLastFiveExchanges(history: seq<ChatRecord>)
    ensures |history| >= 5 ==> HistoryBuffer(history) == Flatten(history[|history| - 5..])
    ensures |history| < 5 ==> HistoryBuffer(history) == Flatten(history)
    ensures |HistoryBuffer(history)| == if |history| >= 5 then 10 else 2 * |history|
  {
    if |history| >= 5 {
      FlattenSuffix(history, |history| - 5);
    }
  }

  /** Seven stored exchanges load as the ten messages of exchanges three to seven. */
  lemma SevenExchangesKeepTen(history: seq<ChatRecord>)
    requires |history| == 7
    ensures |HistoryBuffer(history)| == 10
    ensures HistoryBuffer(history)[0] == Message(FromUser, history[2].message, history[2].timestamp)
    ensures HistoryBuffer(history)[9] == Message(FromAi, history[6].response, history[6].timestamp)
  {
    HistoryKeepsLastFiveExchanges(history);
    FlattenAt(history[2..], 0);
    FlattenAt(history[2..], 4);
    assert history[2..][0] == history[2];
    assert history[2..][4] == history[6];
  }

  /** The characters JavaScript's `String.prototype.trim` removes: white space and line terminators. */
  predicate IsJsWhitespace(c: char)
  {
    c == '\t' || c == '\n' || c == '\U{B}' || c == '\U{C}' || c == '\r' || c == ' '
    || c == '\U{A0}' || c == '\U{1680}' || ('\U{2000}' <= c <= '\U{200A}')
    || c == '\U{2028}' || c == '\U{2029}' || c == '\U{202F}' || c == '\U{205F}'
    || c == '\U{3000}' || c == '\U{FEFF}'
  }

  function TrimStart(s: string): string
  {
    if s != [] && IsJsWhitespace(s[0]) then TrimStart(s[1..]) else s
  }

  function TrimEnd(s: string): string
  {
    if s != [] && IsJsWhitespace(Last(s)) then TrimEnd(Init(s)) else s
  }

  /** `s.trim()`: no longer than `s`, and neither starts nor ends with white space. */
  function Trim(s: string): (t: string)
    ensures |t| <= |s|
    ensures t != "" ==> !IsJsWhitespace(t[0]) && !IsJsWhitespace(Last(t))
  {
    TrimStartEmpty(s);
    TrimEndShape(TrimStart(s));
    TrimEnd(TrimStart(s))
  }

  ghost predicate AllWhitespace(s: string)
  {
    forall i :: 0 <= i < |s| ==> IsJsWhitespace(s[i])
  }

  lemma {:induction false} TrimStartEmpty(s: string)
    ensures TrimStart(s) == [] <==> AllWhitespace(s)
    ensures TrimStart(s) != [] ==> !IsJsWhitespace(TrimStart(s)[0])
    ensures |TrimStart(s)| <= |s|
  {
    if s != [] && IsJsWhitespace(s[0]) {
      TrimStartEmpty(s[1..]);
      assert forall i :: 1 <= i < |s| ==> s[i] == s[1..][i - 1];
    }
  }

  lemma {:induction false} TrimEndEmpty(s: string)
    ensures TrimEnd(s) == [] <==> AllWhitespace(s)
  {
    if s != [] && IsJsWhitespace(Last(s)) {
      TrimEndEmpty(Init(s));
      assert forall i :: 0 <= i < |s| - 1 ==> s[i] == Init(s)[i];
    }
  }

  /** `TrimEnd` keeps a prefix, which ends in a non-white-space character unless it is empty. */
  lemma {:induction false} TrimEndShape(s: string)
    ensures TrimEnd(s) <= s
    ensures TrimEnd(s) != "" ==> !IsJsWhitespace(Last(TrimEnd(s)))
  {
    if s != [] && IsJsWhitespace(Last(s)) {
      TrimEndShape(Init(s));
    }
  }

  /** `!s.trim()` holds exactly for the strings made only of white space (the empty one included). */
  lemma TrimEmptyIffBlank(s: string)
    ensures Trim(s) == "" <==> AllWhitespace(s)
  {
    TrimStartEmpty(s);
    TrimEndEmpty(TrimStart(s));
  }

  /** The answer appended after the request settles: the reply, or the fixed error text. */
  function ReplyMessage(reply: Response<ChatReply>, now: string): (m: Message)
    ensures m.sender == FromAi
    ensures reply.Rejected? ==> m.content == ErrorReply && m.timestamp == now
    ensures reply.Resolved? ==> m.content == reply.data.response && m.timestamp == reply.data.timestamp
  {
    match reply
    case Resolved(r) => Message(FromAi, r.response, r.timestamp)
    case Rejected => Message(FromAi, ErrorReply, now)
  }

  /** The widget's component state; `callId` scopes it to one call. */
  class ChatWidget {
    const callId: Option<string>
    var messages: seq<Message>
    var inputMessage: string
    var loading: bool

    constructor (callId: Option<string>)
      ensures this.callId == callId && messages == [] && inputMessage == "" && !loading
    {
      this.callId := callId;
      messages, inputMessage, loading := [], "", false;
    }

    /**
     * The mount effect: the history is requested only for a call-scoped
     * widget; a loaded history replaces the buffer, a failure leaves it.
     */
    method Mount(response: Response<seq<ChatRecord>>) returns (requested: bool)
      modifies this`messages
      ensures requested <==> callId.Some? && callId.value != ""
      ensures messages == if requested && response.Resolved? then HistoryBuffer(response.data) else old(messages)
    {
      requested := Truthy(callId);
      if requested && response.Resolved? {
        messages := HistoryBuffer(response.data);
      }
    }

    method SetInput(text: string)
      modifies this`inputMessage
      ensures inputMessage == text
    {
      inputMessage := text;
    }

    /**
     * `sendMessage` up to its request: nothing happens for blank input or
     * while a send is pending; otherwise the user's message (untrimmed) is
     * appended, the input cleared, loading set, and the captured input is
     * what the request sends.
     */
    method BeginSend(now: string) returns (sent: Option<string>)
      modifies this`messages, this`inputMessage, this`loading
      ensures old(Trim(inputMessage)) == "" || old(loading) ==>
        sent == None && messages == old(messages) && inputMessage == old(inputMessage) && loading == old(loading)
      ensures !(old(Trim(inputMessage)) == "" || old(loading)) ==>
        sent == Some(old(inputMessage))
        && messages == old(messages) + [Message(FromUser, old(inputMessage), now)]
        && inputMessage == "" && loading
    {
      if Trim(inputMessage) == "" || loading {
        return None;
      }
      sent := Some(inputMessage);
      messages := messages + [Message(FromUser, inputMessage, now)];
      inputMessage := "";
      loading := true;
    }

    /** `sendMessage` after its request settles: exactly one answer is appended and loading ends. */
    method FinishSend(reply: Response<ChatReply>, now: string)
      modifies this`messages, this`loading
      ensures messages == old(messages) + [ReplyMessage(reply, now)]
      ensures !loading
    {
      messages := messages + [ReplyMessage(reply, now)];
      loading := false;
    }

    /**
     * A whole send with nothing interleaved: either nothing changes, or the
     * buffer grows by the user's message and then one answer, with the old
     * buffer kept as its prefix.
     */
    method SendMessage(reply: Response<ChatReply>, sentAt: string, settledAt: string) returns (sent: Option<string>)
      modifies this`messages, this`inputMessage, this`loading
      ensures old(Trim(inputMessage)) == "" || old(loading) ==>
        sent == None && messages == old(messages) && inputMessage == old(inputMessage) && loading == old(loading)
      ensures !(old(Trim(inputMessage)) == "" || old(loading)) ==>
        sent == Some(old(inputMessage))
        && messages == old(messages) + [Message(FromUser, old(inputMessage), sentAt), ReplyMessage(reply, settledAt)]
        && inputMessage == "" && !loading
      ensures old(messages) <= messages
    {
      sent := BeginSend(sentAt);
      if sent.Some? {
        FinishSend(reply, settledAt);
      }
    }
  }
}
