/**
 * `SDXException` of `sdxlib/sdx_exception.py`: the message an API error carries,
 * chosen from the explicit message, the method's table of messages by status code,
 * or a fixed fallback, with any error details appended.
 */
module SdxException {
  import opened Outcomes
  import opened Py

  const UnknownErrorMsg := "Unknown error occurred."
  const DetailsMsg := " Additional details: "
  const StrPrefix := "SDXException: "

  /** A method's messages by status code: a dict keyed by status codes. */
  type MessageTable = seq<(Json, string)>

  /** `method_messages.get(status_code, "Unknown error occurred.")`. */
  function Lookup(table: MessageTable, code: Json): string {
    if |table| == 0 then UnknownErrorMsg
    else if table[0].0 == code then table[0].1
    else Lookup(table[1..], code)
  }

  /** `message or method_messages.get(...)`: an empty or missing message falls back to the table. */
  function BaseMessage(code: Json, table: MessageTable, message: Option<string>): string {
    if message.Some? && message.value != "" then message.value else Lookup(table, code)
  }

  /** The message once non-empty details have been appended. */
  function WithDetails(base: string, details: string): string {
    if details == "" then base else base + DetailsMsg + details
  }

  class SdxException {
    var statusCode: Json
    var methodMessages: MessageTable
    var errorDetails: string
    var message: string

    /** `SDXException(status_code, method_messages, message, error_details)`. */
    constructor (statusCode: Json, methodMessages: Option<MessageTable>, message: Option<string>,
                 errorDetails: Option<string>)
      ensures this.statusCode == statusCode
      ensures this.methodMessages == (if methodMessages.Some? then methodMessages.value else [])
      ensures this.errorDetails == (if errorDetails.Some? then errorDetails.value else "")
      ensures this.message == WithDetails(BaseMessage(statusCode, this.methodMessages, message), this.errorDetails)
    {
      var table := if methodMessages.Some? then methodMessages.value else [];
      var details := if errorDetails.Some? then errorDetails.value else "";
      var text := if message.Some? && message.value != "" then message.value else Lookup(table, statusCode);
      if details != "" {
        text := text + DetailsMsg + details;
      }
      this.statusCode := statusCode;
      this.methodMessages := table;
      this.errorDetails := details;
      this.message := text;
    }

    /** `str(e)`. */
    function ToString(): string
      reads this
    {
      StrPrefix + message + " (status_code=" + PyStr(statusCode) + ")"
    }
  }

  /** Without a message, a status code with no entry in the table gets the fixed fallback. */
  lemma {:induction false} LookupMissing(table: MessageTable, code: Json)
    requires forall i | 0 <= i < |table| :: table[i].0 != code
    ensures Lookup(table, code) == UnknownErrorMsg
  {
    if |table| > 0 {
      assert forall i | 0 <= i < |table| - 1 :: table[1..][i] == table[i + 1];
      LookupMissing(table[1..], code);
    }
  }

  /** Without a message, a status code gets the message of its first entry in the table. */
  lemma {:induction false} LookupFirst(table: MessageTable, code: Json, i: int)
    requires 0 <= i < |table| && table[i].0 == code
    requires forall j | 0 <= j < i :: table[j].0 != code
    ensures Lookup(table, code) == table[i].1
  {
    if i > 0 {
      assert table[1..][i - 1] == table[i];
      assert forall j | 0 <= j < i - 1 :: table[1..][j] == table[j + 1];
      LookupFirst(table[1..], code, i - 1);
    }
  }

  /**
   * A non-empty message is kept as the start of the final message; details, when
   * non-empty, follow it after " Additional details: ", and empty details add nothing.
   */
  lemma MessageSpec(code: Json, table: MessageTable, message: Option<string>, details: string)
    ensures var full := WithDetails(BaseMessage(code, table, message), details);
            message.Some? && message.value != ""
            ==> |message.value| <= |full| && full[..|message.value|] == message.value
    ensures var base := BaseMessage(code, table, message);
            var full := WithDetails(base, details);
            details != "" ==> full == base + DetailsMsg + details && |full| > |base| + |details|
    ensures details == "" ==> WithDetails(BaseMessage(code, table, message), details) == BaseMessage(code, table, message)
  {
  }

  /** `str(e)` starts with "SDXException: ", from which the message reads back. */
  lemma ToStringSpec(e: SdxException)
    ensures var s := e.ToString();
            |s| > |StrPrefix| + |e.message| && s[..|StrPrefix|] == StrPrefix
            && s[|StrPrefix|..|StrPrefix| + |e.message|] == e.message && s[|s| - 1] == ')'
  {
  }
}
