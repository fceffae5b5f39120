# Conversation-history serialiser and request admission of the knowledge-bank backend

The backend answers questions from an indexed text document by chaining calls
to a language model and a hosted vector store. Two pieces of its own logic are
modelled and proved here.

- **The conversation-history serialiser** (`formatConvHistory`). A history is a
  sequence of turns. Each turn has a sender, exactly `"user"` or `"AI-bot"`,
  and a message. Each turn becomes the line `sender: message`, and the lines
  are joined with single newlines, first turn first. The model
  (`format_conv_history.dfy`) writes the `map` step as `EntryLines` and
  `Array.prototype.join` as `Join`. It proves the following:
  - the empty history gives the empty text;
  - one turn gives exactly its line;
  - serialising distributes over concatenation and over appending a turn;
  - the length is the sum of the line lengths plus one per separator;
  - the text has exactly one separator newline per neighbouring pair of
    turns, plus the newlines inside the messages;
  - every turn's line sits, in history order, at a computed offset, with a
    newline on each side except at the two ends;
  - every line opens with `user: ` or `AI-bot: `.

  An independent reference definition, `Terminated`, ends every line with its
  own newline. For a non-empty history, the serialised text is that reference
  text without its last newline; for the empty history both are empty.
- **Request admission in the server** (`server.dfy`). This covers two checks.
  - The CORS `origin` callback allows a request without an origin. It allows
    an origin that is exactly one of `http://localhost:5173` and
    `http://localhost:5005`. It refuses every other origin with
    `Not allowed by CORS`.
  - The vector-store configuration guard throws
    `Supabase API key or URL is not defined` unless both values are set. If
    both are set, it yields the URL and key the client is created with.

  Both are total functions into a datatype, so each call gives exactly one
  decision. Both checks use JavaScript truthiness (`!origin`,
  `!supabaseApiKey || !supabaseUrl`). An empty string is therefore treated
  like an absent value: an `Origin` header whose value is the empty string
  is allowed, just like a missing one (`Server.NoOriginAllowed`).

The data model follows the source's types:

- `ConversationHistoryModel.Sender` and `ConversationHistoryModel.ConversationMessage` are the record of backend/src/models/conversationHistoryModel.ts:1-4. The sender's union of two string literals becomes a two-constructor datatype.
- `ConversationHistoryModel.ConversationHistory` is the array type of backend/src/models/conversationHistoryModel.ts:6, modelled as a `seq`.
- `Server.AllowedOrigins` is the constant allow-list of backend/src/server.ts:19.
- `Server.CorsDecision` stands for the two ways the callback of backend/src/server.ts:25-30 answers: `callback(null, true)` becomes `Allow`, and `callback(new Error(...))` becomes `Reject` with the error's message.
- `Server.Truthy` is JavaScript truthiness of a `string | undefined` value, used by `!origin` (backend/src/server.ts:25) and by `!supabaseApiKey || !supabaseUrl` (backend/src/server.ts:62).

Environment variables are read elsewhere in the server. The guard is modelled
over the values already read, as `Option<string>` (`None` stands for
`undefined`).

## Model

| member | source | states |
|---|---|---|
| `ConversationHistoryModel.SenderName` | backend/src/models/conversationHistoryModel.ts:2 | a sender is written as `"user"` or `"AI-bot"`, a non-empty literal without newlines |
| `ConversationHistoryModel.ParseSender` | backend/src/models/conversationHistoryModel.ts:2 | a string belongs to the sender type exactly when it is one of the two literals |
| `ConversationHistoryModel.SenderRoundTrip` | backend/src/models/conversationHistoryModel.ts:2 | each sender's literal reads back as that sender |
| `ConversationHistoryModel.ParseSenderExact` | backend/src/models/conversationHistoryModel.ts:2 | a string that reads as a sender is that sender's literal, so the two senders have distinct names |
| `FormatConvHistory.EntryLine` | backend/src/utils/formatConvHistory.ts:5 | a turn's line is made of three parts: the sender literal, then `": "`, then the unchanged message; its length is the sum of the three |
| `FormatConvHistory.EntryLines` | backend/src/utils/formatConvHistory.ts:4-5 | the mapping gives one line per turn, and line `i` is the line of turn `i` |
| `FormatConvHistory.Join` | backend/src/utils/formatConvHistory.ts:6 | joining no strings gives `""`; otherwise the result starts with the first string |
| `FormatConvHistory.JoinLength` | backend/src/utils/formatConvHistory.ts:6 | the joined text has the length of all strings plus one separator per neighbouring pair |
| `FormatConvHistory.JoinConcat` | backend/src/utils/formatConvHistory.ts:6 | joining two non-empty lists one after the other puts exactly one separator between the two joined parts |
| `FormatConvHistory.Format` | backend/src/utils/formatConvHistory.ts:3-7 | the empty history gives `""`; one turn gives exactly its line; a non-empty history's text starts with the first turn's line and never with a newline |
| `FormatConvHistory.EntryLinesConcat` | backend/src/utils/formatConvHistory.ts:4-5 | mapping commutes with concatenation of histories |
| `FormatConvHistory.FormatConcat` | backend/src/utils/formatConvHistory.ts:4-6 | for non-empty `h1`, `h2`: `Format(h1 + h2) == Format(h1) + "\n" + Format(h2)` |
| `FormatConvHistory.FormatAppend` | backend/src/utils/formatConvHistory.ts:4-6 | for non-empty `h`: appending a turn appends `"\n"` and that turn's line |
| `FormatConvHistory.FormatCons` | backend/src/utils/formatConvHistory.ts:4-6 | a history of two or more turns gives its first line, a newline, then the text of the rest |
| `FormatConvHistory.FormatTerminated` | backend/src/utils/formatConvHistory.ts:4-6 | for non-empty `h`, the text plus one newline equals the reference text in which every line ends with its own newline |
| `FormatConvHistory.EntryLinesTotalLength` | backend/src/utils/formatConvHistory.ts:4-5 | the lengths of the mapped lines add up to Σ(\|sender\| + 2 + \|message\|) |
| `FormatConvHistory.FormatLength` | backend/src/utils/formatConvHistory.ts:5-6 | for n ≥ 1 turns the length is Σ(\|sender\| + 2 + \|message\|) + (n − 1), derived from the length of a join |
| `FormatConvHistory.EntryLineNewlines` | backend/src/utils/formatConvHistory.ts:5 | a turn's line holds exactly the newlines of its message; the sender and `": "` add none |
| `FormatConvHistory.FormatNewlines` | backend/src/utils/formatConvHistory.ts:4-6 | for n ≥ 1 turns the text holds n − 1 separator newlines plus the newlines of the messages |
| `FormatConvHistory.EntryAt` | backend/src/utils/formatConvHistory.ts:4-6 | turn `i`'s line appears at `Offset(h, i)` in history order. A newline comes before it unless `i` is first. A newline comes after it unless `i` is last, and then the text ends there |
| `FormatConvHistory.EntrySenderPrefix` | backend/src/utils/formatConvHistory.ts:5 | the text at every line's offset opens with `user: ` or `AI-bot: ` |
| `Server.OriginDecision` | backend/src/server.ts:24-31 | allowed if and only if the origin is falsy or in the allow-list; otherwise the one decision is a rejection carrying `Not allowed by CORS` |
| `Server.NoOriginAllowed` | backend/src/server.ts:25 | a missing origin, and an empty one, are allowed |
| `Server.ListedOriginsAllowed` | backend/src/server.ts:19-28 | both `http://localhost:5173` and `http://localhost:5005` are allowed |
| `Server.ExtendedOriginRejected` | backend/src/server.ts:27-31 | an allowed origin with anything appended (a trailing slash, a path) is rejected with `Not allowed by CORS`: matching is exact |
| `Server.TruncatedOriginRejected` | backend/src/server.ts:27-31 | a non-empty proper prefix of an allowed origin is rejected: no prefix matching |
| `Server.ListedOriginsLowerCase` | backend/src/server.ts:19 | both listed origins are already in lower case |
| `Server.CaseVariantRejected` | backend/src/server.ts:27-31 | every string other than a listed origin that lower-cases to it is rejected with `Not allowed by CORS`: no case folding |
| `Server.FalsyValues` | backend/src/server.ts:25 | a `string \| undefined` value is falsy exactly when it is `undefined` or `""`; this falsiness decides both `!origin` and the guard's `!supabaseApiKey \|\| !supabaseUrl` at line 62 |
| `Server.SupabaseGuard` | backend/src/server.ts:62-65 | passes exactly when both key and URL are present and non-empty; then it yields exactly those two values for the client; otherwise it fails with `Supabase API key or URL is not defined` |

## Left out

- The HTTP routes `/splitScrimbaData`, `/getProductDesc` and `/generateStandaloneQuestion`, `app.listen` and the JSON middleware are left out. They are HTTP I/O.
- The CORS options besides `origin` (methods, credentials, allowed headers) are left out. They are applied inside the CORS middleware library, which is not part of this model.
- Language-model calls, prompt templates, output parsers and chain composition are left out. This covers `server.ts`, `utils/conversationHistoryHandler.ts` and the `CodeExamples/chaining` scripts. These are non-deterministic network calls into a library, and placeholder substitution happens inside that library.
- Text splitting, embeddings, the vector-store client and `createClient` are left out. These are third-party libraries whose chunking and similarity behaviour is not part of this model.
- Reading the data file and the environment (`fs.readFileSync`, `dotenv`, `process.env`) is left out. The guard takes the already-read values as parameters.
- The shared, process-wide conversation log and its append flow are left out. The endpoint that appends to it is not part of this model, and its behaviour under concurrent requests is a concurrency concern.
- Parsing the serialised history back into turns is left out. The code never does it, and since messages may contain `"\n"` or `": "`, no inverse exists.
- Strings are sequences of Unicode scalar values, whereas JavaScript strings are sequences of UTF-16 code units. A lone surrogate, which a JSON request body can carry into a message, has no counterpart here. The lengths in `FormatLength`, `JoinLength`, `Offset` and `EntryAt` count scalar values, not JavaScript `.length` (a character outside the Basic Multilingual Plane counts 1 here and 2 there). These lemmas are additive over the pieces of the text, so they also hold when every length is read in code units.
- `Server.OriginDecision`: the error is modelled as its message only. The `Error` object and the way the CORS middleware turns it into a failed request are left out.
