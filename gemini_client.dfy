/**
 * The chat client of the backend: whether it is configured, the two chat
 * entry points up to the model call, and the plain-text call context it
 * puts in front of the model.
 *
 * The model itself is foreign: a call to it is recorded as the `Prompt`
 * it would receive, and what it answers (a text, or an exception) is an
 * input.
 */
module GeminiClient {
  import opened Records
  import opened Lines

  const ModelName := "gemini-pro"
  const NotConfiguredText := "Sorry, the AI chatbot is not configured. Please contact your administrator to set up the Gemini API key."
  const ErrorPrefix := "Sorry, I encountered an error while processing your question: "
  const NoneNoted := "- None noted"

  /**
   * A stored call as the client receives it: a dictionary whose members may
   * be missing or `null`. `callDate` is the stored ISO-8601 text.
   */
  datatype CallDoc = CallDoc(title: Field<string>, repName: Field<string>, callDate: Field<string>, analysis: Field<Analysis>)

  // ---------------------------------------------------------------- _format_list

  function Bullet(item: string): string
  {
    "- " + item
  }

  /** The lines `_format_list` writes: one bullet per item, or the single "none noted" line. */
  function ListLines(items: seq<string>): (lines: seq<string>)
    ensures items == [] ==> lines == [NoneNoted]
    ensures items != [] ==> |lines| == |items| && forall i :: 0 <= i < |items| ==> lines[i] == Bullet(items[i])
  {
    if items == [] then [NoneNoted] else seq(|items|, i requires 0 <= i < |items| => Bullet(items[i]))
  }

  /** `_format_list`: "- None noted" for an empty list, else the "- item" lines joined by newlines. */
  function FormatList(items: seq<string>): (text: string)
    ensures items == [] ==> text == NoneNoted
  {
    if items == [] then NoneNoted
    else JoinLines(seq(|items|, i requires 0 <= i < |items| => Bullet(items[i])))
  }

  /** `_format_list` of what `analysis.get(key, [])` returns: a `null` list is falsy too. */
  function FormatListField(items: Field<seq<string>>): (text: string)
    ensures !items.Present? ==> text == NoneNoted
  {
    if items.Present? then FormatList(items.value) else NoneNoted
  }

  function ListFieldLines(items: Field<seq<string>>): seq<string>
  {
    if items.Present? then ListLines(items.value) else [NoneNoted]
  }

  ghost predicate OneLineItems(items: Field<seq<string>>)
  {
    items.Present? ==> forall l :: l in items.value ==> OneLine(l)
  }

  lemma BulletOneLine(item: string)
    requires OneLine(item)
    ensures OneLine(Bullet(item))
  {
    var l := Bullet(item);
    forall k | 0 <= k < |l| ensures l[k] != '\n' {
      if k >= 2 {
        assert l[k] == item[k - 2];
      }
    }
  }

  /**
   * Read back line by line, a formatted list is exactly one "- item" line
   * per item, in order, or the single "- None noted" line for an empty or
   * missing list, as long as no item spans several lines.
   */
  lemma FormatListLines(items: Field<seq<string>>)
    requires OneLineItems(items)
    ensures SplitLines(FormatListField(items)) == ListFieldLines(items)
    ensures forall l :: l in ListFieldLines(items) ==> OneLine(l)
  {
    var lines := ListFieldLines(items);
    assert FormatListField(items) == JoinLines(lines);
    forall l | l in lines ensures OneLine(l) {
      var i :| 0 <= i < |lines| && lines[i] == l;
      if items.Present? && items.value != [] {
        assert items.value[i] in items.value;
        BulletOneLine(items.value[i]);
      }
    }
    SplitJoined(lines);
  }

  // ---------------------------------------------------------------- _prepare_call_context

  /** `d.get(key, fallback)` of a string member, rendered by an f-string: `null` renders as "None". */
  function GetOr(f: Field<string>, fallback: string): (s: string)
    ensures f.Absent? ==> s == fallback
    ensures f.Null? ==> s == "None"
    ensures f.Present? ==> s == f.value
  {
    match f
    case Absent => fallback
    case Null => "None"
    case Present(v) => v
  }

  /** The analysis the context reads: `{}` when the key is missing. */
  function ContextAnalysis(doc: CallDoc): Analysis
  {
    if doc.analysis.Present? then doc.analysis.value else EmptyAnalysis
  }

  /**
   * `_prepare_call_context`: the call's title, rep and date and its
   * analysis as a block of text (the template is written with its line
   * breaks as separate pieces). A missing analysis reads as `{}`; a `null`
   * one makes Python raise, which is `None` here.
   */
  function PrepareCallContext(doc: CallDoc): (context: Option<string>)
    ensures context.None? <==> doc.analysis.Null?
  {
    if doc.analysis.Null? then None
    else
      var a := ContextAnalysis(doc);
      Some("\n" + "Call Title: " + GetOr(doc.title, "N/A")
        + "\n" + "Sales Rep: " + GetOr(doc.repName, "N/A")
        + "\n" + "Call Date: " + GetOr(doc.callDate, "N/A")
        + "\n" + "\n" + "Call Summary: " + GetOr(a.summary, "No summary available")
        + "\n" + "\n" + "Key Objections Raised:" + "\n" + FormatListField(a.keyObjections)
        + "\n" + "\n" + "Buying Signals:" + "\n" + FormatListField(a.buyingSignals)
        + "\n" + "\n" + "Recommendations:" + "\n" + FormatListField(a.recommendations)
        + "\n" + "\n" + "Overall Feedback: " + GetOr(a.overallFeedback, "No feedback available")
        + "\n")
  }

  /** The lines of the call context, one entry per line. */
  function ContextLines(doc: CallDoc): seq<string>
  {
    var a := ContextAnalysis(doc);
    ["", "Call Title: " + GetOr(doc.title, "N/A"), "Sales Rep: " + GetOr(doc.repName, "N/A"),
     "Call Date: " + GetOr(doc.callDate, "N/A"), "", "Call Summary: " + GetOr(a.summary, "No summary available")]
    + ["", "Key Objections Raised:"] + ListFieldLines(a.keyObjections)
    + ["", "Buying Signals:"] + ListFieldLines(a.buyingSignals)
    + ["", "Recommendations:"] + ListFieldLines(a.recommendations)
    + ["", "Overall Feedback: " + GetOr(a.overallFeedback, "No feedback available")] + [""]
  }

  /** Every text member of the call and of its analysis fits on one line. */
  ghost predicate SingleLineDoc(doc: CallDoc)
  {
    var a := ContextAnalysis(doc);
    && (doc.title.Present? ==> OneLine(doc.title.value))
    && (doc.repName.Present? ==> OneLine(doc.repName.value))
    && (doc.callDate.Present? ==> OneLine(doc.callDate.value))
    && (a.summary.Present? ==> OneLine(a.summary.value))
    && (a.overallFeedback.Present? ==> OneLine(a.overallFeedback.value))
    && OneLineItems(a.keyObjections) && OneLineItems(a.buyingSignals) && OneLineItems(a.recommendations)
  }

  lemma GetOrOneLine(f: Field<string>, fallback: string)
    requires OneLine(fallback) && (f.Present? ==> OneLine(f.value))
    ensures OneLine(GetOr(f, fallback))
  {
    if f.Null? {
      assert OneLine("None");
    }
  }

  lemma HeaderLayout(t: string, r: string, d: string, s: string)
    requires OneLine(t) && OneLine(r) && OneLine(d) && OneLine(s)
    ensures SplitLines("\n" + "Call Title: " + t + "\n" + "Sales Rep: " + r + "\n" + "Call Date: " + d + "\n" + "\n" + "Call Summary: " + s)
         == ["", "Call Title: " + t, "Sales Rep: " + r, "Call Date: " + d, "", "Call Summary: " + s]
  {
    LabelFacts();
    var p1 := "\n" + "Call Title: " + t;
    assert SplitLines(p1) == ["", "Call Title: " + t] by {
      AddField("", "Call Title: ", t);
      assert "" + "\n" == "\n";
      assert SplitLines("") == [""];
    }
    var p2 := p1 + "\n" + "Sales Rep: " + r;
    AddField(p1, "Sales Rep: ", r);
    var p3 := p2 + "\n" + "Call Date: " + d;
    AddField(p2, "Call Date: ", d);
    AddBlankField(p3, "Call Summary: ", s);
  }

  /** The headings of the context hold no newline. */
  lemma LabelFacts()
    ensures OneLine("Call Title: ") && OneLine("Sales Rep: ") && OneLine("Call Date: ") && OneLine("Call Summary: ")
    ensures OneLine("Key Objections Raised:") && OneLine("Buying Signals:") && OneLine("Recommendations:")
    ensures OneLine("Overall Feedback: ")
  {
    TitleLabel();
    RepLabel();
    DateLabel();
    SummaryLabel();
    ObjectionsLabel();
    SignalsLabel();
    RecommendationsLabel();
    FeedbackLabel();
  }

  // One lemma per heading keeps each proof obligation small; these state
  // nothing about the client beyond "this fixed text has no newline".
  lemma TitleLabel()
    ensures OneLine("Call Title: ")
  {
  }

  lemma RepLabel()
    ensures OneLine("Sales Rep: ")
  {
  }

  lemma DateLabel()
    ensures OneLine("Call Date: ")
  {
  }

  lemma SummaryLabel()
    ensures OneLine("Call Summary: ")
  {
  }

  lemma ObjectionsLabel()
    ensures OneLine("Key Objections Raised:")
  {
  }

  lemma SignalsLabel()
    ensures OneLine("Buying Signals:")
  {
  }

  lemma RecommendationsLabel()
    ensures OneLine("Recommendations:")
  {
  }

  lemma FeedbackLabel()
    ensures OneLine("Overall Feedback: ")
  {
  }

  lemma Layout(t: string, r: string, d: string, s: string, o: seq<string>, b: seq<string>, rec: seq<string>, f: string)
    requires OneLine(t) && OneLine(r) && OneLine(d) && OneLine(s) && OneLine(f)
    requires o != [] && forall l :: l in o ==> OneLine(l)
    requires b != [] && forall l :: l in b ==> OneLine(l)
    requires rec != [] && forall l :: l in rec ==> OneLine(l)
    ensures SplitLines("\n" + "Call Title: " + t + "\n" + "Sales Rep: " + r + "\n" + "Call Date: " + d + "\n" + "\n" + "Call Summary: " + s
        + "\n" + "\n" + "Key Objections Raised:" + "\n" + JoinLines(o) + "\n" + "\n" + "Buying Signals:" + "\n" + JoinLines(b)
        + "\n" + "\n" + "Recommendations:" + "\n" + JoinLines(rec) + "\n" + "\n" + "Overall Feedback: " + f + "\n")
      == ["", "Call Title: " + t, "Sales Rep: " + r, "Call Date: " + d, "", "Call Summary: " + s]
         + ["", "Key Objections Raised:"] + o + ["", "Buying Signals:"] + b + ["", "Recommendations:"] + rec
         + ["", "Overall Feedback: " + f] + [""]
  {
    LabelFacts();
    var p8 := "\n" + "Call Title: " + t + "\n" + "Sales Rep: " + r + "\n" + "Call Date: " + d + "\n" + "\n" + "Call Summary: " + s;
    var L8 := ["", "Call Title: " + t, "Sales Rep: " + r, "Call Date: " + d, "", "Call Summary: " + s];
    assert SplitLines(p8) == L8 by { HeaderLayout(t, r, d, s); }
    var p10 := p8 + "\n" + "\n" + "Key Objections Raised:" + "\n" + JoinLines(o);
    var L10 := L8 + ["", "Key Objections Raised:"] + o;
    assert SplitLines(p10) == L10 by { AddBlock(p8, "Key Objections Raised:", o); }
    var p12 := p10 + "\n" + "\n" + "Buying Signals:" + "\n" + JoinLines(b);
    var L12 := L10 + ["", "Buying Signals:"] + b;
    assert SplitLines(p12) == L12 by { AddBlock(p10, "Buying Signals:", b); }
    var p14 := p12 + "\n" + "\n" + "Recommendations:" + "\n" + JoinLines(rec);
    var L14 := L12 + ["", "Recommendations:"] + rec;
    assert SplitLines(p14) == L14 by { AddBlock(p12, "Recommendations:", rec); }
    var p16 := p14 + "\n" + "\n" + "Overall Feedback: " + f;
    assert SplitLines(p16) == L14 + ["", "Overall Feedback: " + f] by {
      AddBlankField(p14, "Overall Feedback: ", f);
    }
    AddNewline(p16);
  }

  /**
   * Read line by line, the context is exactly: a blank line, the title,
   * rep and date ("N/A" when missing), a blank line, the summary, then each
   * of the three lists under its heading and after a blank line, and the
   * overall feedback; a fixed fallback stands in for every missing member.
   */
  lemma ContextLayout(doc: CallDoc)
    requires !doc.analysis.Null?
    requires SingleLineDoc(doc)
    ensures SplitLines(PrepareCallContext(doc).value) == ContextLines(doc)
  {
    var a := ContextAnalysis(doc);
    LabelFacts();
    GetOrOneLine(doc.title, "N/A");
    GetOrOneLine(doc.repName, "N/A");
    GetOrOneLine(doc.callDate, "N/A");
    GetOrOneLine(a.summary, "No summary available");
    GetOrOneLine(a.overallFeedback, "No feedback available");
    FormatListLines(a.keyObjections);
    FormatListLines(a.buyingSignals);
    FormatListLines(a.recommendations);
    JoinSplit(FormatListField(a.keyObjections));
    JoinSplit(FormatListField(a.buyingSignals));
    JoinSplit(FormatListField(a.recommendations));
    Layout(GetOr(doc.title, "N/A"), GetOr(doc.repName, "N/A"), GetOr(doc.callDate, "N/A"),
           GetOr(a.summary, "No summary available"),
           ListFieldLines(a.keyObjections), ListFieldLines(a.buyingSignals), ListFieldLines(a.recommendations),
           GetOr(a.overallFeedback, "No feedback available"));
  }

  // ---------------------------------------------------------------- the client

  /** `role_context`: only the role "rep" is addressed as a sales representative. */
  function RolePhrase(role: string): (phrase: string)
    ensures role == RepRole ==> phrase == "sales representative"
    ensures role != RepRole ==> phrase == "sales manager"
  {
    if role == RepRole then "sales representative" else "sales manager"
  }

  /** What the model is asked: the call context with the question, or the reader's role with the question. */
  datatype Prompt = CallPrompt(context: string, question: string) | GeneralPrompt(roleContext: string, question: string)

  /** How the model call ends: with a text, or with an exception whose message is given. */
  datatype ModelReply = Text(text: string) | Raised(message: string)

  /** One chat turn: the prompt sent to the model, if any, and the answer returned to the caller. */
  datatype ChatTurn = ChatTurn(prompt: Option<Prompt>, answer: string)

  function Answered(reply: ModelReply): string
  {
    match reply
    case Text(t) => t
    case Raised(e) => ErrorPrefix + e
  }

  class Client {
    const apiKey: Option<string>
    var model: Option<string>

    /** The model is set exactly when the API key is truthy. */
    ghost predicate Valid()
      reads this
    {
      model.Some? <==> Truthy(apiKey)
    }

    /** `__init__`: reads the key (an input here) and creates the model only when the key is truthy. */
    constructor (apiKey: Option<string>)
      ensures this.apiKey == apiKey
      ensures model == if Truthy(apiKey) then Some(ModelName) else None
      ensures Valid()
    {
      this.apiKey := apiKey;
      model := if Truthy(apiKey) then Some(ModelName) else None;
    }

    /** `is_configured`: holds exactly when the key is truthy. */
    function IsConfigured(): (configured: bool)
      reads this
      requires Valid()
      ensures configured <==> Truthy(apiKey)
    {
      model.Some?
    }

    /**
     * `chat_about_call`: the fixed refusal when not configured, without a
     * model call; the error text when the context cannot be built (a `null`
     * analysis); otherwise the model's answer to the context and question.
     */
    function ChatAboutCall(message: string, doc: CallDoc, reply: ModelReply): (turn: ChatTurn)
      reads this
      requires Valid()
      ensures !Truthy(apiKey) ==> turn == ChatTurn(None, NotConfiguredText)
      ensures Truthy(apiKey) && doc.analysis.Null? ==> turn.prompt == None && ErrorPrefix <= turn.answer
      ensures Truthy(apiKey) && !doc.analysis.Null? ==>
        turn.prompt == Some(CallPrompt(PrepareCallContext(doc).value, message))
        && (reply.Text? ==> turn.answer == reply.text)
        && (reply.Raised? ==> turn.answer == ErrorPrefix + reply.message)
    {
      if !IsConfigured() then ChatTurn(None, NotConfiguredText)
      else match PrepareCallContext(doc)
        case None => ChatTurn(None, ErrorPrefix + "'NoneType' object has no attribute 'get'")
        case Some(context) => ChatTurn(Some(CallPrompt(context, message)), Answered(reply))
    }

    /**
     * `general_sales_chat`: the fixed refusal when not configured, without a
     * model call; otherwise the model's answer to the question addressed to
     * the reader's role. `userRole` is `None` when the caller leaves the
     * parameter out, and the role then defaults to "rep".
     */
    function GeneralSalesChat(message: string, userRole: Option<string>, reply: ModelReply): (turn: ChatTurn)
      reads this
      requires Valid()
      ensures !Truthy(apiKey) ==> turn == ChatTurn(None, NotConfiguredText)
      ensures Truthy(apiKey) ==>
        turn.prompt == Some(GeneralPrompt(RolePhrase(RoleOrDefault(userRole)), message))
        && (reply.Text? ==> turn.answer == reply.text)
        && (reply.Raised? ==> turn.answer == ErrorPrefix + reply.message)
      ensures Truthy(apiKey) && userRole.None? ==>
        turn.prompt == Some(GeneralPrompt("sales representative", message))
    {
      if !IsConfigured() then ChatTurn(None, NotConfiguredText)
      else ChatTurn(Some(GeneralPrompt(RolePhrase(RoleOrDefault(userRole)), message)), Answered(reply))
    }
  }

  /** `general_sales_chat`'s fallback role is "rep": it addresses a sales representative. */
  const DefaultUserRole := RepRole

  /** The role `general_sales_chat` works with: the one passed, else `DefaultUserRole`. */
  function RoleOrDefault(userRole: Option<string>): string
  {
    if userRole.Some? then userRole.value else DefaultUserRole
  }

  /** An unconfigured client answers both entry points with the same refusal, whatever the model would say. */
  lemma UnconfiguredNeverAsks(c: Client, message: string, doc: CallDoc, role: Option<string>, r1: ModelReply, r2: ModelReply)
    requires c.Valid() && !Truthy(c.apiKey)
    ensures c.ChatAboutCall(message, doc, r1) == c.GeneralSalesChat(message, role, r2) == ChatTurn(None, NotConfiguredText)
  {
  }
}
