/**
 * The two Gradio event handlers around `Chatbot.chat`: `on_send`, which passes a
 * non-blank message to the chatbot and appends the exchange to both histories, and
 * `on_contact_submit`, which records the contact form through the
 * `record_user_details` tool and posts a confirmation.
 */
module Gradio {
  import opened Wrappers
  import opened Messages
  import opened Chat

  // ---------------------------------------------------------------------
  // str.strip()
  // ---------------------------------------------------------------------

  /** Python's `str.isspace` for one character: the characters `str.strip()` removes. */
  predicate IsSpace(c: char) {
    || ('\t' <= c <= '\r')                  // \t \n \x0b \x0c \r
    || ('\U{1C}' <= c <= '\U{1F}')          // file, group, record and unit separators
    || c == ' ' || c == '\U{85}' || c == '\U{A0}' || c == '\U{1680}'
    || ('\U{2000}' <= c <= '\U{200A}')      // en quad .. hair space
    || c == '\U{2028}' || c == '\U{2029}' || c == '\U{202F}' || c == '\U{205F}' || c == '\U{3000}'
  }

  /** `s` without its leading whitespace. */
  function LStrip(s: string): (r: string)
    ensures |r| <= |s| && r == s[|s| - |r|..]
    ensures forall i :: 0 <= i < |s| - |r| ==> IsSpace(s[i])
    ensures r == [] || !IsSpace(r[0])
    decreases |s|
  {
    if s != [] && IsSpace(s[0]) then LStrip(s[1..]) else s
  }

  /** `s` without its trailing whitespace. */
  function RStrip(s: string): (r: string)
    ensures |r| <= |s| && r == s[..|r|]
    ensures forall i :: |r| <= i < |s| ==> IsSpace(s[i])
    ensures r == [] || !IsSpace(r[|r| - 1])
    decreases |s|
  {
    if s != [] && IsSpace(s[|s| - 1]) then RStrip(s[..|s| - 1]) else s
  }

  /** Python's `s.strip()`: `s` without leading and trailing whitespace. */
  function Strip(s: string): string {
    RStrip(LStrip(s))
  }

  /** `strip()` leaves nothing exactly when the text is all whitespace. */
  lemma StripBlank(s: string)
    ensures Strip(s) == [] <==> forall i :: 0 <= i < |s| ==> IsSpace(s[i])
  {
    var l := LStrip(s);
    if !forall i :: 0 <= i < |s| ==> IsSpace(s[i]) {
      var k :| 0 <= k < |s| && !IsSpace(s[k]);
      assert |s| - |l| <= k;
      assert l[k - (|s| - |l|)] == s[k];
    }
  }

  /** The stripped text has no whitespace at either end, so stripping it again changes nothing. */
  lemma StripIdempotent(s: string)
    ensures Strip(Strip(s)) == Strip(s)
  {
    var t := Strip(s);
    if t != [] {
      assert t[0] == LStrip(s)[0];
    }
  }

  /** Python's `(x or default)` on an optional string: `None` and `""` are both false. */
  function OrElse(x: Option<string>, default: string): string {
    if x.None? || x.value == [] then default else x.value
  }

  /**
   * `(user_message or "").strip()` is empty, so `on_send` returns early, exactly when there
   * is no message or the message is all whitespace.
   */
  lemma BlankMessage(x: Option<string>)
    ensures Strip(OrElse(x, "")) == [] <==> x.None? || forall i :: 0 <= i < |x.value| ==> IsSpace(x.value[i])
  {
    StripBlank(OrElse(x, ""));
  }

  // ---------------------------------------------------------------------
  // The chat window's history
  // ---------------------------------------------------------------------

  /** One row of the visible chat: the user's text and the bot's text, either of which may be absent. */
  datatype Exchange = Exchange(user: Option<string>, bot: Option<string>)

  /** What `on_send` returns: the cleared text box and the two histories. */
  datatype SendOutput = SendOutput(textbox: string, chatDisplay: Option<seq<Exchange>>, oaMessages: Option<seq<Message>>)

  /**
   * `on_send`: a blank message changes nothing and calls no model; any other message is
   * stripped, passed to `chat` with the old message history, and appended with its reply
   * to both histories. An exception from `chat` propagates, so nothing is appended.
   */
  method OnSend(bot: Chatbot, userMessage: Option<string>, chatDisplay: Option<seq<Exchange>>, oaMessages: Option<seq<Message>>)
    returns (r: Result<SendOutput, ChatError>)
    modifies bot.backend, bot.registry
    ensures var u := Strip(OrElse(userMessage, ""));
      u == [] ==>
        && r == Ok(SendOutput("", chatDisplay, oaMessages))
        && unchanged(bot.backend, bot.registry)
    ensures var u := Strip(OrElse(userMessage, ""));
      var o := Run(bot.registry.tools, old(bot.backend.script), Build(bot.systemPrompt, oaMessages, u));
      u != [] ==>
        && bot.backend.requests == old(bot.backend.requests) + o.requests
        && bot.backend.script == o.remaining
        && bot.registry.invocations == old(bot.registry.invocations) + o.invocations
        && (o.reply.Err? ==> r == Err(o.reply.error))
        && (o.reply.Ok? ==>
              r == Ok(SendOutput("",
                                 Some(OrEmpty(chatDisplay) + [Exchange(Some(u), o.reply.value)]),
                                 Some(OrEmpty(oaMessages) + [User(u), Assistant(AssistantTurn(o.reply.value, None))]))))
  {
    var u := Strip(OrElse(userMessage, ""));
    if u == [] {
      return Ok(SendOutput("", chatDisplay, oaMessages));
    }
    var reply := bot.Chat(u, oaMessages);
    if reply.Err? {
      return Err(reply.error);
    }
    var newChatDisplay := OrEmpty(chatDisplay) + [Exchange(Some(u), reply.value)];
    var newOaMessages := OrEmpty(oaMessages) + [User(u), Assistant(AssistantTurn(reply.value, None))];
    r := Ok(SendOutput("", Some(newChatDisplay), Some(newOaMessages)));
  }
}

/**
 * The contact form's handler, `on_contact_submit`: it passes the form to the external
 * `record_user_details` tool and posts a confirmation to both histories.
 */
module ContactForm {
  import opened Wrappers
  import opened Messages
  import opened Gradio

  const Thanks: string := "Thanks! I\U{2019}ve recorded your details and will be in touch via email."
  const Sorry: string := "Sorry, I couldn\U{2019}t record your details right now. Please try again later."
  const NoName: string := "not provided"
  const NoNotes: string := "not_provided"

  /** The keyword arguments `record_user_details` is called with. */
  datatype Details = Details(email: string, name: string, notes: string)

  /**
   * The external `record_user_details` tool, as far as the form sees it: given the details,
   * whether it returned (true) or raised (false).
   */
  type Recorder = Details -> bool

  /** What `on_contact_submit` returns: the three cleared form fields and the two histories. */
  datatype ContactOutput = ContactOutput(
    name: string, email: string, notes: string,
    chatDisplay: seq<Exchange>, oaMessages: seq<Message>)

  /**
   * One form field as passed on: the stripped text when one was given, and otherwise the
   * default. The source strips the default too; `FieldIsStripped` shows that this changes
   * nothing for a default with no whitespace at either end.
   */
  function Field(x: Option<string>, default: string): string {
    if x.None? || x.value == [] then default else Strip(x.value)
  }

  /** `Field` is Python's `(x or default).strip()` for a default with no whitespace at either end. */
  lemma FieldIsStripped(x: Option<string>, default: string)
    requires default == [] || (!IsSpace(default[0]) && !IsSpace(default[|default| - 1]))
    ensures Field(x, default) == Strip(OrElse(x, default))
  {
    if x.None? || x.value == [] {
      assert LStrip(default) == default;
      assert RStrip(default) == default;
    }
  }

  /** The details built from the form: each field stripped, a missing name and missing notes replaced. */
  function FormDetails(name: Option<string>, email: Option<string>, notes: Option<string>): Details {
    Details(Field(email, ""), Field(name, NoName), Field(notes, NoNotes))
  }

  /**
   * The two defaults have no whitespace at either end, so `FormDetails` passes on exactly
   * `(field or default).strip()` for each of the three fields (by `FieldIsStripped`).
   */
  lemma DefaultsHaveNoSpace()
    ensures !IsSpace(NoName[0]) && !IsSpace(NoName[|NoName| - 1])
    ensures !IsSpace(NoNotes[0]) && !IsSpace(NoNotes[|NoNotes| - 1])
  {
    assert NoName[0] == 'n' && NoName[|NoName| - 1] == 'd';
    assert NoNotes[0] == 'n' && NoNotes[|NoNotes| - 1] == 'd';
  }

  /** The confirmation posted after the form: thanks when the recording returned, an apology when it raised. */
  function Confirmation(recorded: bool): string {
    if recorded then Thanks else Sorry
  }

  /** The thanks text is posted exactly when the details were recorded, the apology exactly when they were not. */
  lemma ConfirmationText(recorded: bool)
    ensures Confirmation(recorded) == Thanks <==> recorded
    ensures Confirmation(recorded) == Sorry <==> !recorded
  {
    assert |Thanks| != |Sorry|;
  }

  /**
   * The details recorded are exactly `(email or "").strip()`, `(name or "not provided").strip()`
   * and `(notes or "not_provided").strip()`.
   */
  lemma FormDetailsStripped(name: Option<string>, email: Option<string>, notes: Option<string>)
    ensures FormDetails(name, email, notes)
            == Details(Strip(OrElse(email, "")), Strip(OrElse(name, NoName)), Strip(OrElse(notes, NoNotes)))
  {
    DefaultsHaveNoSpace();
    FieldIsStripped(email, "");
    FieldIsStripped(name, NoName);
    FieldIsStripped(notes, NoNotes);
  }

  /**
   * `on_contact_submit`, with the external `record_user_details` tool as a parameter. The
   * three fields are cleared, and exactly one assistant message and one bot-only row are
   * appended after the old histories, both carrying the confirmation for whether the tool
   * returned on the form's details.
   */
  function OnContactSubmit(
    recordUserDetails: Recorder,
    name: Option<string>, email: Option<string>, notes: Option<string>,
    chatDisplay: Option<seq<Exchange>>, oaMessages: Option<seq<Message>>): (r: ContactOutput)
    ensures r.name == "" && r.email == "" && r.notes == ""
    ensures var n := |OrEmpty(oaMessages)|;
      var d := |OrEmpty(chatDisplay)|;
      var recorded := recordUserDetails(FormDetails(name, email, notes));
      && |r.oaMessages| == n + 1 && r.oaMessages[..n] == OrEmpty(oaMessages)
      && |r.chatDisplay| == d + 1 && r.chatDisplay[..d] == OrEmpty(chatDisplay)
      && r.oaMessages[n].Assistant? && r.oaMessages[n].turn.toolCalls.None?
      && r.chatDisplay[d].user.None?
      && r.chatDisplay[d].bot == r.oaMessages[n].turn.content
      && r.oaMessages[n].turn.content == Some(Confirmation(recorded))
  {
    var confirmation := Confirmation(recordUserDetails(FormDetails(name, email, notes)));
    ContactOutput("", "", "",
                  OrEmpty(chatDisplay) + [Exchange(None, Some(confirmation))],
                  OrEmpty(oaMessages) + [Assistant(AssistantTurn(Some(confirmation), None))])
  }
}
