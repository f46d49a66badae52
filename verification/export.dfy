/** `GET /api/chat/export`: a chat owned by the session user, exported as a
    CSV document or as a JSON document. The CSV quotes every field and
    doubles quotes inside the message text as section 2 of RFC 4180 asks,
    but ends lines with LF instead of CRLF and leaves the role unescaped. */
module ChatExport {
  import opened Common

  /** A stored message; `createdAt` is its ISO-8601 timestamp text. */
  datatype StoredMessage = StoredMessage(role: string, content: string, createdAt: string)

  /** A stored chat with its messages in creation order. */
  datatype Chat = Chat(id: string, userId: string, title: string, model: string,
                       createdAt: string, updatedAt: string, messages: seq<StoredMessage>)

  datatype JsonMessage = JsonMessage(role: string, content: string, timestamp: string)
  datatype JsonExport = JsonExport(id: string, title: string, model: string,
                                   createdAt: string, updatedAt: string, messages: seq<JsonMessage>)

  datatype ExportResponse =
    | ExportError(status: nat, message: string)
    | CsvFile(filename: string, text: string)
    | JsonFile(filename: string, document: JsonExport)

  const CsvHeader: string := "Timestamp,Role,Content\n"

  /** `content.replace(/"/g, '""')`: every quote doubled. */
  function EscapeQuotes(s: string): (r: string)
    ensures |r| >= |s|
    decreases |s|
  {
    if s == [] then []
    else if s[0] == '"' then "\"\"" + EscapeQuotes(s[1..])
    else [s[0]] + EscapeQuotes(s[1..])
  }

  /** The reading side of the escaping: a doubled quote stands for one quote. */
  function UnescapeQuotes(s: string): string
    decreases |s|
  {
    if |s| >= 2 && s[0] == '"' && s[1] == '"' then "\"" + UnescapeQuotes(s[2..])
    else if s == [] then []
    else [s[0]] + UnescapeQuotes(s[1..])
  }

  /** Un-doubling the quoted content field recovers the message text. */
  lemma {:induction false} EscapeRoundTrip(s: string)
    ensures UnescapeQuotes(EscapeQuotes(s)) == s
    decreases |s|
  {
    if s != [] {
      EscapeRoundTrip(s[1..]);
      var rest := EscapeQuotes(s[1..]);
      if s[0] == '"' {
        assert EscapeQuotes(s) == "\"\"" + rest;
        assert ("\"\"" + rest)[2..] == rest;
      } else {
        assert EscapeQuotes(s) == [s[0]] + rest;
        assert ([s[0]] + rest)[1..] == rest;
      }
    }
  }

  /** Inside an escaped field, quotes come in adjacent pairs, so the closing
      quote of the field can never be confused with its content. */
  ghost predicate QuotesPaired(r: string)
    decreases |r|
  {
    if r == [] then true
    else if r[0] == '"' then |r| >= 2 && r[1] == '"' && QuotesPaired(r[2..])
    else QuotesPaired(r[1..])
  }

  lemma {:induction false} EscapedQuotesPaired(s: string)
    ensures QuotesPaired(EscapeQuotes(s))
    decreases |s|
  {
    if s != [] {
      EscapedQuotesPaired(s[1..]);
      var rest := EscapeQuotes(s[1..]);
      if s[0] == '"' {
        assert ("\"\"" + rest)[2..] == rest;
      } else {
        assert ([s[0]] + rest)[1..] == rest;
      }
    }
  }

  /** One CSV line: `"timestamp","role","content"` and a line feed. */
  function CsvRow(m: StoredMessage): (row: string)
  {
    "\"" + m.createdAt + "\",\"" + m.role + "\",\"" + EscapeQuotes(m.content) + "\"\n"
  }

  /** The CSV lines for the messages, one per message, in order. */
  function CsvRows(ms: seq<StoredMessage>): string
  {
    if ms == [] then [] else CsvRows(ms[..|ms| - 1]) + CsvRow(ms[|ms| - 1])
  }

  /** Rows concatenate: the rows of `a + b` are the rows of `a` then those of `b`. */
  lemma {:induction false} CsvRowsAppend(a: seq<StoredMessage>, b: seq<StoredMessage>)
    ensures CsvRows(a + b) == CsvRows(a) + CsvRows(b)
    decreases |b|
  {
    if b != [] {
      var b' := b[..|b| - 1];
      assert (a + b)[..|a + b| - 1] == a + b';
      assert (a + b)[|a + b| - 1] == b[|b| - 1];
      CsvRowsAppend(a, b');
    } else {
      assert a + b == a;
    }
  }

  /** Each row is framed by an opening quote and a closing quote plus LF,
      and its content field is the escaped message text. */
  lemma RowShape(m: StoredMessage)
    ensures var row := CsvRow(m);
            var n := |m.createdAt| + |m.role| + 7;
            && row[0] == '"' && row[|row| - 2..] == "\"\n"
            && row[n..|row| - 2] == EscapeQuotes(m.content)
            && UnescapeQuotes(row[n..|row| - 2]) == m.content
  {
    var row := CsvRow(m);
    var n := |m.createdAt| + |m.role| + 7;
    assert row == ("\"" + m.createdAt + "\",\"" + m.role + "\",\"") + EscapeQuotes(m.content) + "\"\n";
    assert row[n..|row| - 2] == EscapeQuotes(m.content);
    EscapeRoundTrip(m.content);
  }

  /** There are no rows exactly when there are no messages, and the rows
      start with the first message's row and end with a line feed. */
  lemma {:induction false} RowsShape(ms: seq<StoredMessage>)
    ensures CsvRows(ms) == [] <==> ms == []
    ensures ms != [] ==> StartsWith(CsvRows(ms), CsvRow(ms[0]))
    ensures ms != [] ==> CsvRows(ms)[|CsvRows(ms)| - 1] == '\n'
  {
    if ms != [] {
      RowShape(ms[|ms| - 1]);
      CsvRowsAppend([ms[0]], ms[1..]);
      assert [ms[0]] + ms[1..] == ms;
      assert CsvRows([ms[0]]) == CsvRow(ms[0]) by {
        assert [ms[0]][..0] == [];
      }
    }
  }

  /** The CSV document, built as the source builds it: the header, then
      one row appended per message. */
  method BuildCsv(ms: seq<StoredMessage>) returns (csv: string)
    ensures csv == CsvHeader + CsvRows(ms)
    ensures StartsWith(csv, CsvHeader)
  {
    csv := CsvHeader;
    var i := 0;
    while i < |ms|
      invariant 0 <= i <= |ms|
      invariant csv == CsvHeader + CsvRows(ms[..i])
    {
      assert ms[..i + 1][..i] == ms[..i];
      csv := csv + CsvRow(ms[i]);
      i := i + 1;
    }
    assert ms[..|ms|] == ms;
    assert (CsvHeader + CsvRows(ms))[..|CsvHeader|] == CsvHeader;
  }

  /** The JSON document: the chat's fields, and per message its role,
      content and timestamp, in message order. */
  function ToJsonExport(chat: Chat): (j: JsonExport)
    ensures j.id == chat.id && j.title == chat.title && j.model == chat.model
    ensures j.createdAt == chat.createdAt && j.updatedAt == chat.updatedAt
    ensures |j.messages| == |chat.messages|
    ensures forall i :: 0 <= i < |j.messages| ==>
              j.messages[i] == JsonMessage(chat.messages[i].role, chat.messages[i].content, chat.messages[i].createdAt)
  {
    JsonExport(chat.id, chat.title, chat.model, chat.createdAt, chat.updatedAt,
      seq(|chat.messages|, i requires 0 <= i < |chat.messages| =>
        JsonMessage(chat.messages[i].role, chat.messages[i].content, chat.messages[i].createdAt)))
  }

  /** `chats.find` by id and owner. */
  function FindOwnedChat(chats: seq<Chat>, chatId: string, userId: string): (r: Option<Chat>)
    ensures r.Some? ==> r.value in chats && r.value.id == chatId && r.value.userId == userId
    ensures r.None? ==> forall c :: c in chats ==> !(c.id == chatId && c.userId == userId)
    decreases |chats|
  {
    if chats == [] then None
    else if chats[0].id == chatId && chats[0].userId == userId then Some(chats[0])
    else FindOwnedChat(chats[1..], chatId, userId)
  }

  /** The export route. `session` is the signed-in user's id, `chatId` and
      `format` the query parameters (None when absent). */
  method ExportChat(session: Option<string>, chatId: Option<string>, format: Option<string>,
                    chats: seq<Chat>, dbFails: bool) returns (r: ExportResponse)
    ensures session.None? || session.value == "" ==> r == ExportError(401, "Unauthorized")
    ensures session.Some? && session.value != "" && (chatId.None? || chatId.value == "") ==>
              r == ExportError(400, "Missing chatId parameter")
    ensures session.Some? && session.value != "" && chatId.Some? && chatId.value != "" && dbFails ==>
              r == ExportError(500, "Internal server error")
    ensures session.Some? && session.value != "" && chatId.Some? && chatId.value != "" && !dbFails ==>
              var found := FindOwnedChat(chats, chatId.value, session.value);
              && (found.None? ==> r == ExportError(404, "Chat not found"))
              && (found.Some? && OrDefault(format, "json") == "csv" ==>
                    r == CsvFile("chat-" + chatId.value + ".csv", CsvHeader + CsvRows(found.value.messages)))
              && (found.Some? && OrDefault(format, "json") != "csv" ==>
                    r == JsonFile("chat-" + chatId.value + ".json", ToJsonExport(found.value)))
  {
    if session.None? || session.value == "" {
      return ExportError(401, "Unauthorized");
    }
    if chatId.None? || chatId.value == "" {
      return ExportError(400, "Missing chatId parameter");
    }
    if dbFails {
      return ExportError(500, "Internal server error");
    }
    var found := FindOwnedChat(chats, chatId.value, session.value);
    if found.None? {
      return ExportError(404, "Chat not found");
    }
    if OrDefault(format, "json") == "csv" {
      var csv := BuildCsv(found.value.messages);
      r := CsvFile("chat-" + chatId.value + ".csv", csv);
    } else {
      r := JsonFile("chat-" + chatId.value + ".json", ToJsonExport(found.value));
    }
  }

  /** Any format other than `csv` (including none) produces JSON. */
  lemma NonCsvFormatsAreJson(format: Option<string>)
    requires format.None? || format.value != "csv"
    ensures OrDefault(format, "json") != "csv"
  {
  }
}
