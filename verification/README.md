# GhidraKitty conversation driver, modelled in Dafny

GhidraKitty runs three remote assistants over a disassembly listing: the
"Reverse Engineer", the "Script Developer" and the "Critic". The driver in
`main.py` cuts the listing into fixed-width chunks. It then runs one turn per
chunk. In a turn, the chunk goes to the active (assistant, thread) pair, the
run is awaited, and the first assistant message in the thread's message
listing is logged.
After each turn the three pairs are rotated according to the turn index
modulo 3, and the loop stops at a message limit.

This project models that logic with the remote service abstracted away:

- `Chunking` covers the chunk list comprehension, including Python's `range`
  rules for a zero or negative width.
- `Rotation` covers the role triple and its modulo-3 rotation.
- `PyText` covers the two string operations the reply uses: Python's
  `str.strip()` with its exact whitespace set, and `" ".join`.
- `Replies` covers `get_last_assistant_message` over an abstract message
  listing.
- `Driver` covers the turn loop `assistant_conversation`: the name lookup,
  the logged lines, the rotation and the break on the limit. It also covers
  the part of `converse` that chunks the text and starts that loop.
- `Wrappers` holds `Option` and `Result`.

The remote work of turn `k` is one opaque value, `remote(k)`. Either the run
completed and the thread was listed (a listing failure is `None`), or one of
the calls raised. The loop's contract holds for every `remote`. So the number
of turns, who speaks and which thread is used can never depend on whether a
turn failed.

Edge cases of the program that the model keeps:

- The limit is checked only after a turn, so a message limit of zero or less
  still runs one turn.
- Segment texts are joined with a single space.
- A zero `max_chars` makes `range` raise `ValueError` before any turn
  (`Chunking.Chunk` returns `Failure(ZeroStep)`). A negative width gives no
  chunks and so no turns.

## Model

| member | source | states |
|---|---|---|
| Chunking.Chunk | main.py:66 | A zero width is an error and nothing else is. A negative width gives no chunks. A positive width gives chunks that concatenate back to the text, are empty exactly for the empty text, are each non-empty and at most the width long, and are all exactly the width long except the last. |
| Chunking.ChunksFrom | main.py:66 | The list of slices from offset `start` is empty exactly when `start` is at or past the end. Each chunk is 1 to `m` long, and all but the last are exactly `m`. |
| Chunking.ChunksReassemble | main.py:66 | The slices from offset `start`, concatenated in order, give back the text from `start`: nothing is lost, repeated or reordered. |
| Chunking.ChunkCount | main.py:66 | The number of chunks is the length of `range(start, len, m)`: the ceiling of the remaining length over the width. |
| Chunking.ChunkAt | main.py:66 | The `k`-th chunk is the comprehension's `k`-th element, `text[start + k*m : start + (k+1)*m]`, clipped at the end of the text. |
| Chunking.LastChunkLength | main.py:66 | The last chunk is `len % m` long, or `m` when `m` divides the length. |
| Chunking.SeventyThousandCharacters | main.py:66 | 70000 characters at the default width 32768 give three chunks of 32768, 32768 and 4464 characters. |
| Rotation.Rotate | main.py:101-106 | Each turn's rotation moves the slots cyclically, so it is a permutation of the triple. |
| Rotation.AfterClosedForm | main.py:101-106 | After `n` turns the triple is `(b, c, a)` when `n % 3 == 1` and the original `(a, b, c)` otherwise. |
| Rotation.BlocksOfThree | main.py:101-106 | After every complete block of three turns the initial arrangement is restored. |
| Rotation.AfterPermutes | main.py:101-106 | Any number of turns only permutes the three slots, with no loss or duplication. |
| Rotation.RotateInverse | main.py:101-106 | The rotation after a turn with index `% 3 == 1` undoes the one after a turn with index `% 3 == 0`, and the reverse. A turn with index `% 3 == 2` leaves the slots unchanged. |
| Rotation.ThirdNeverActive | main.py:101-106 | With distinct slots, the active slot after `n` turns is `b` when `n % 3 == 1` and `a` otherwise. It is never the slot that started as `c`. |
| Rotation.PairsStayTogether | main.py:101-106 | The assistant triple and the thread triple rotate identically, so after any number of turns every assistant is still paired with its own thread. |
| PyText.Strip | main.py:35 | The result has no whitespace at either end. It is found in the input with only whitespace before and after it. Whitespace is the 29 code points for which Python's `str.isspace()` holds. |
| PyText.StripUnique | main.py:35 | Any text with trimmed ends that sits between whitespace in the input is exactly what `strip()` returns. |
| PyText.JoinSpace | main.py:32-34 | Joining no strings gives `""`, and joining one string gives that string. Otherwise the length is the total of the parts plus one separator between each pair. |
| PyText.JoinSpaceAppend | main.py:32-34 | Joining one more string appends a single space and that string. |
| Replies.SegmentTexts | main.py:33 | Every collected text comes from a segment that has it. Every segment that has a text contributes it. Segments without text are skipped. |
| Replies.SegmentTextsAppend | main.py:33 | Collecting texts distributes over concatenation of segment lists, so order is preserved. |
| Replies.FirstAssistant | main.py:30-31 | Returns no position exactly when no message has the assistant role. Otherwise it returns the position of the first message with that role in list order. |
| Replies.MessageText | main.py:32-35 | A message's reply is the space-joined text of its segments, stripped of surrounding whitespace. |
| Replies.LastAssistantReply | main.py:25-39 | The result is `""` when listing fails or no message has the assistant role. Otherwise it is the stripped, space-joined text of the first assistant message in list order. It is always trimmed. |
| Replies.LaterMessagesIgnored | main.py:30-35 | Messages after an assistant message never change the extracted reply. |
| Driver.TurnLines | main.py:96-99 | A turn ends with an error line exactly when its remote work raised. A completed turn ends with the extracted reply. |
| Driver.TurnLinesErrors | main.py:36-39 | A turn logs an error exactly when a call raised or the listing failed. A failed listing logs its error and then the empty reply. Every other turn logs exactly one line. |
| Driver.DisplayName | main.py:70-72 | The logged name is always one of the three configured names. When the created assistants are distinct, each is announced under its own configuration's name. |
| Driver.SpeakerAt | main.py:70-72 | The announced name at turn `k` is the second persona's on turns with `k % 3 == 1`, provided the first two assistants differ. Otherwise it is the first persona's. |
| Driver.CriticNeverSpeaks | main.py:118-137 | With the program's three personas, the announced name is always "Reverse Engineer" or "Script Developer", never "Critic". |
| Driver.AssistantConversation | main.py:68-109 | Runs no turns without chunks. Otherwise it runs one turn when the limit is at most 1, and `min(chunks, limit)` turns otherwise, for every per-turn remote outcome. Turn `k` is numbered `k + 1`, sends chunk `k` and logs that turn's outcome. It is announced and posted to the thread as the rotation dictates. The final triples are the closed-form arrangement. |
| Driver.Converse | main.py:66-116 | A zero width fails before any turn and a negative width runs no turns. A positive width runs the turn count of the ceiling of length over width chunks, and sends the chunks in order. Every turn `k` is numbered `k + 1`, logs that turn's outcome, and is announced and posted to the thread as the rotation dictates. |
| Driver.SeventyThousandCharacterRun | main.py:66-144 | Through `Converse`, the program's settings on a 70000-character file give three turns despite the limit of ten. The turns send 32768, 32768 and 4464 characters, announced as Reverse Engineer, Script Developer, Reverse Engineer. |

## Left out

- Client construction, the `OPENAI_API_KEY` check and `exit(1)` (main.py:17-23) are process environment handling, so they are not modelled.
- Creation of the assistants and threads (main.py:44-54) is a remote call. The created handles are parameters, and the abort on creation failure is not modelled.
- The remote calls of a turn (main.py:77-91) and the message listing (main.py:27-28) are foreign network calls. Each turn's combined effect is the opaque `RemoteOutcome`.
- The status-polling loop with `time.sleep(1)` (main.py:87-94) is an unbounded wait on a remote service. A completed run is a `Completed` outcome, and a run that never completes, which stalls the program forever, is not modelled.
- Reading the file and its `FileNotFoundError`/`IOError` handling (main.py:56-64) are I/O. `Driver.Converse` starts from the text already read.
- The interactive prompt and the empty-path check (main.py:139-146) are terminal input, so they are not modelled.
- The logging configuration, timestamps and message formatting (main.py:8-15, 74, 99) are output concerns. A turn's log is kept as its number, announced name and a list of `Info`/`Error` lines, without the texts of error messages.
- Running the loop on a `threading.Thread` that is joined at once (main.py:111-116) has no concurrency, so it is modelled as a direct call.
- The assistant parameter dictionaries beyond their `name` entries (main.py:118-137) are static configuration that the driver never inspects.
- The message listing is taken in the order the service returns it, first page only (main.py:27-28). The first assistant message is the newest only because the service lists newest first, which is not modelled.
- Driver.AssistantConversation: the remote outcome of a turn depends only on the turn index. A remote service whose answer depends on earlier turns is covered by choosing `remote` accordingly, but the thread contents are not tracked.
