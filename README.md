# guess-the-song: a verified model of the command parser, the sender's player, the client handshake and the relay server

guess-the-song is a party game. A *sender* picks a song and plays a sample of it, and *receivers* (other machines) play the same sample at the same moment. Players then guess the song. Everything goes through a small relay server.

This Dafny project models the sequential logic of the game and proves properties of it. Five Dafny files model one source file each. `wrappers.dfy` and `pytext.dfy` model behaviour of Python that those files rely on: `None`, raised exceptions, and the string methods.

| file | module | models |
|---|---|---|
| `wrappers.dfy` | `Wrappers` | `Option` / `Result`: `None` and raised exceptions |
| `pytext.dfy` | `PyText` | Python's `str.split(maxsplit=1)`, `str.isspace` and `str.lower` (ASCII letters) |
| `command_parser.dfy` | `CommandParsing` | `client/src/sender/lib/command_parser.py` (see below) |
| `input_parser.dfy` | `InputParsing` | `client/src/sender/input_parser.py` (see below) |
| `sender_player.dfy` | `SenderPlayer` | `client/src/sender/__init__.py` (see below) |
| `net.dfy` | `ServerConn` | `client/src/lib/net.py` (see below) |
| `relay_server.dfy` | `Relay` | `server/src/index.js` (see below) |

- **`command_parser.py`:** the generic parser. Each rule maps alias words to a command id and its argument converters. A default rule takes every other line.
- **`input_parser.py`:** the sender's twelve-alias table, plus the prompt loop that lower-cases each line and asks again after a `ValueError`.
- **`__init__.py`:** the parts modelled are:
  - loading `songs.csv`;
  - the folder prompt loop;
  - the navigation loop over the loaded songs.
- **`net.py`:** the 16-byte handshake and the check of the server's answer, plus the reconnect-and-retry wrapper.
- **`index.js`:** handshake by signature, broadcast of a song, confirmation counting, forced trigger, restart and disconnect.

## How the model is built

**Source form.** The model follows the form of the source:
- State the source updates in place is a `class` with `modifies` clauses. This covers `CommandParser`, `Player`, `ServerConnection`, and the relay's module-level variables in `RelayServer`.
- Each such class method is proved equal to a pure function of the old state. The properties are then proved as lemmas about those functions.
- The loops of the source stay loops, with invariants:
  - the nested alias loop of `CommandParser.__init__`;
  - the row loop of `_parse_song_csv`;
  - the `while True` loops of `get_user_input`, `_get_songs`, `_run_player` and `_reconnect_wrapper`;
  - the `for … of receivers` loops of `triggerReceiverPlayback` and `broadcastSong`.

**Collaborators and environment.** These become parameters:
- `float` and `int` are partial converters `string -> Option<…>`.
- The lines typed at a prompt are a sequence of lines.
- The file system is a map from folder paths to folders.
- The random connection id is a constructor argument.
- The websocket transport is an oracle that says, for each connection attempt and each try of an operation, how it went.
- What a program shows, sends or closes is appended to a trace or an outbox.

**Loops that never end.** Three loops run forever in the source:
- a prompt that keeps failing;
- `_get_songs` retrying a saved folder;
- `_reconnect_wrapper` reconnecting forever.

The model runs each over a finite sequence of attempts. It reports that the attempts ran out (`NoMoreLines`, `SongsUnavailable`, `StillRetrying`).

**Behaviour of the connection code worth noting:**
- **Connection id.** The id is chosen once, in `__init__` (`client/src/lib/net.py:30`), and the same id is sent on every reconnection. The model makes the id a `const` of the connection. Every handshake it sends carries that id (`ServerConnection.Valid`).
- **Retries.** `_reconnect_wrapper` retries without a bound and without a backoff, and so does the model.
- **Close.** `close` never resets `_conn`, so a second `close` is accepted (`ServerConn.CloseTwice`). As with the `websockets` library, closing an already-closed connection sends no second close frame.
- **Receive.** `recv` discards the received message and returns `None`.

**Relay server: a receiver that leaves mid-round.** The close handler removes a socket from `receivers` but does not re-check the pending count. A count that has already reached the new number of receivers then grows past it with the next confirmation, and that confirmation triggers nothing (`Relay.LeavingReceiverStallsRound`). Playback then waits for a forced trigger, for another song to be broadcast (which resets the count to 0), or for another receiver to join (which can bring the receiver count back up to the pending count).

## Model

| member | source | states |
|---|---|---|
| PyText.SplitOnce | client/src/sender/lib/command_parser.py:41 | `split(maxsplit=1)` gives at most two parts; none exactly when the line is blank; the first is a whitespace-free word; the second is non-empty and starts with a non-space |
| PyText.TrimStart | client/src/sender/lib/command_parser.py:41 | dropping the leading whitespace leaves a string that starts solid, and it is empty exactly when the line was blank |
| PyText.WordLength | client/src/sender/lib/command_parser.py:41 | the first word ends at the first whitespace character or at the end of the line |
| PyText.SplitOnceOfTwo | client/src/sender/lib/command_parser.py:41 | blanks, a word, a non-empty gap and a remainder split into exactly that word and that remainder (trailing whitespace kept) |
| PyText.SplitOnceOfOne | client/src/sender/lib/command_parser.py:41 | blanks, one word and blanks split into that word alone |
| PyText.SplitOnceRebuildsOne | client/src/sender/lib/command_parser.py:41 | a one-part split loses only whitespace: the line is blanks + the part + blanks |
| PyText.SplitOnceRebuildsTwo | client/src/sender/lib/command_parser.py:41 | a two-part split loses only whitespace: the line is blanks + first part + a non-empty gap + second part |
| PyText.LeadingBlankRebuilds | client/src/sender/lib/command_parser.py:41 | a line is its leading whitespace followed by its trimmed remainder |
| PyText.LowerChar | client/src/sender/input_parser.py:44 | an ASCII capital becomes the small letter 32 code points above it; every other character is unchanged; so whitespace stays whitespace |
| PyText.Lower | client/src/sender/input_parser.py:44 | `lower()` keeps the length and lower-cases character by character |
| PyText.SplitOnceLower | client/src/sender/input_parser.py:44 | lower-casing and then splitting gives the lower-cased parts of the split |
| CommandParsing.ConvertAll | client/src/sender/lib/command_parser.py:18 | converting succeeds exactly when every converter accepts its argument, giving each value in position; otherwise the index of a converter that fails |
| CommandParsing.StrParser.Parse | client/src/sender/lib/command_parser.py:15-19 | an arity error exactly when the argument count differs from the type count; success exactly when the counts agree and every conversion succeeds, giving the rule's id and one converted value per type; otherwise a conversion failure at a failing index |
| CommandParsing.StrParser.ParseSingle | client/src/sender/lib/command_parser.py:15-19 | a one-type rule yields the converted argument, or the failure of its converter |
| CommandParsing.Actions | client/src/sender/lib/command_parser.py:35-38 | the aliases of the last rule registered name that rule's parser, whatever earlier rules said |
| CommandParsing.ActionsLookup | client/src/sender/lib/command_parser.py:34-38 | an alias is in the table exactly when some rule lists it, and it maps to the parser of the last rule listing it (a later duplicate overwrites) |
| CommandParsing.CommandParser.constructor | client/src/sender/lib/command_parser.py:34-38 | the nested loop builds the default parser from the default rule and registers every alias of every rule in order |
| CommandParsing.CommandParser.Parse | client/src/sender/lib/command_parser.py:40-46 | the `IndexError` case exactly on blank input; an exact-match alias gets at most one argument, the unsplit remainder; any other first word sends all split parts to the default rule |
| CommandParsing.CommandParser.AliasWithManyTypesFails | client/src/sender/lib/command_parser.py:41-44 | a rule with two or more types can never succeed through its alias: it fails the arity check |
| CommandParsing.CommandParser.ParseOneWord | client/src/sender/lib/command_parser.py:40-46 | a padded single word: an alias gets no arguments, anything else is the default rule's one argument |
| CommandParsing.CommandParser.ParseTwoParts | client/src/sender/lib/command_parser.py:40-46 | word + remainder: an alias gets the remainder as its one argument; otherwise the default rule gets both parts |
| InputParsing.SenderActions | client/src/sender/input_parser.py:30-38 | the rule list registers exactly the twelve aliases: n/next → NEXT, p/prev/previous → PREVIOUS, q/quit → QUIT, r/reload → RELOAD (no arguments); s/start → START_TIME (float); i → SET_SONG (int) |
| InputParsing.SenderAliasesDistinct | client/src/sender/input_parser.py:30-38 | no alias occurs in two rules |
| InputParsing.NewSenderParser | client/src/sender/input_parser.py:30-38 | the module-level `parser` has DURATION with one float as its default rule and the twelve-alias table |
| InputParsing.SenderResultsFit | client/src/sender/input_parser.py:30-38 | every successful parse carries the arguments its command needs: none for the four navigation commands, one float for DURATION and START_TIME, one int for SET_SONG |
| InputParsing.SenderZeroArgWithText | client/src/sender/input_parser.py:31-34 | a zero-argument alias followed by text is rejected with "0 expected, 1 received" |
| InputParsing.SenderDefaultTwoParts | client/src/sender/input_parser.py:30 | a two-part line whose first word is no alias fails the one-float default rule's arity check |
| InputParsing.SenderNext | client/src/sender/input_parser.py:31 | both aliases, "n" and "next", parse to NEXT with no arguments |
| InputParsing.SenderNextWithArgument | client/src/sender/input_parser.py:31 | "n 5" is an arity error (0 expected, 1 received) |
| InputParsing.SenderStartWithoutArgument | client/src/sender/input_parser.py:36 | "start" alone is an arity error (1 expected, 0 received) |
| InputParsing.SenderSetSongExample | client/src/sender/input_parser.py:37 | "i 3" is SET_SONG with `int("3")`, or a conversion failure |
| InputParsing.SenderDurationExample | client/src/sender/input_parser.py:30 | "7.25" is DURATION with `float("7.25")`, or a conversion failure |
| InputParsing.SenderTwoNumbers | client/src/sender/input_parser.py:30 | "1 2" is an arity error (1 expected, 2 received) |
| InputParsing.ReadCommandBlank | client/src/sender/input_parser.py:44-47 | lower-casing keeps a blank line blank and a non-blank one non-blank, so the `IndexError` of `parse` comes exactly from blank lines |
| InputParsing.ReadCommandIgnoresCase | client/src/sender/input_parser.py:44 | a line whose first word lower-cases to an alias gets that alias's rule, applied to the lower-cased remainder |
| InputParsing.ReadCommandUpperCase | client/src/sender/input_parser.py:44 | "NEXT" selects NEXT |
| InputParsing.GetUserInput | client/src/sender/input_parser.py:41-52 | the prompt returns only a successful parse of a lower-cased line; a non-`ValueError` propagates from the line that raised it; every line before either was a `ValueError` and was asked again |
| SenderPlayer.RowToSong | client/src/sender/__init__.py:58-63 | a row becomes a song exactly when it has three fields, its file exists and its start time converts; a wrong field count, or a bad start time for a file that exists, is a `ValueError`; a missing file is reported before the start time is converted |
| SenderPlayer.RowsToSongs | client/src/sender/__init__.py:57-63 | success exactly when every row converts, with one song per row in order; otherwise the error of the first failing row |
| SenderPlayer.SongCsv | client/src/sender/__init__.py:42-65 | a missing folder, a missing `songs.csv` and an unreadable one each give their own error, exactly in those cases; on success there is one song per row, each a file that exists in the folder, with its path joined to the folder; a readable `songs.csv` gives exactly what `RowsToSongs` gives for its rows |
| SenderPlayer.LoadSongs | client/src/sender/__init__.py:67-74 | no error exactly when the CSV gives a non-empty list, which is then the new list; a `ValueError` becomes "incorrectly formatted" and keeps the old list; a presentable error is re-raised as it is and keeps the old list; an empty list is stored and rejected as "empty" |
| SenderPlayer.MalformedRowRejected | client/src/sender/__init__.py:59-71 | a row without exactly three fields, after good rows, makes the load "incorrectly formatted" and keeps the old list |
| SenderPlayer.GetSongsFrom | client/src/sender/__init__.py:85-102 | a successful round leaves a non-empty list and a saved folder; a saved folder never changes; a failed round leaves the saved folder as it was |
| SenderPlayer.GetSongsFromFirstSuccess | client/src/sender/__init__.py:85-102 | the prompt ends with a list exactly when some attempt loads; the list and the saved folder are then those of the first attempt that loads, with every earlier attempt failing |
| SenderPlayer.Navigate | client/src/sender/__init__.py:128-176 | a new selection is always inside the list and comes only from NEXT, PREVIOUS or SET_SONG; NEXT moves only below the last index, PREVIOUS only above 0; SET_SONG k selects k-1 exactly when 1 <= k <= n; SET_SONG k outside 1..n keeps the selection and the song unchanged; QUIT, and only QUIT, leaves the loop; RELOAD, and only RELOAD, goes back to loading the songs; DURATION, and only DURATION, plays a sample, of the current song for d; START_TIME t keeps the selection and sets the local copy's start time to t |
| SenderPlayer.Turns | client/src/sender/__init__.py:120-176 | a saved folder never changes during the loop, and unless a reload failed the list is never empty |
| SenderPlayer.PlayerSession | client/src/sender/__init__.py:104-176 | the session opens by showing the first song of the list; a saved folder never changes; unless a reload failed the list at the end is non-empty |
| SenderPlayer.TurnsSelectInRange | client/src/sender/__init__.py:112-176 | from any in-range selection, every selection shown is inside the list as it is at that moment, reloads included |
| SenderPlayer.PlayerSessionSelectsInRange | client/src/sender/__init__.py:112-114 | `0 <= song_i < len(self.songs)` at every selection of a whole session, starting from `song_i = 0` |
| SenderPlayer.ReloadKeepsOrResets | client/src/sender/__init__.py:131-136 | after a successful reload the selection stays exactly when it is below the new length, otherwise it becomes 0, and the song shown is re-read from the new list |
| SenderPlayer.StartTimeIsLocal | client/src/sender/__init__.py:154-158 | after START_TIME a sample uses the new start time, while NEXT shows the next song unchanged from the list, and the list is untouched |
| SenderPlayer.QuitEndsTurns | client/src/sender/__init__.py:128-129 | QUIT returns from the player at once: nothing more is shown, the list and folder are unchanged, and the input after it is never read |
| SenderPlayer.SetSongOutOfRangeKeeps | client/src/sender/__init__.py:160-165 | SET_SONG with an index outside 1..n leaves the session exactly as if it had not been typed |
| SenderPlayer.EdgesKeepSelection | client/src/sender/__init__.py:138-152 | NEXT on the last song and PREVIOUS on the first leave the session exactly as if they had not been typed |
| SenderPlayer.Player.constructor | client/src/sender/__init__.py:30-36 | no folder saved and no songs loaded |
| SenderPlayer.Player.ParseSongCsv | client/src/sender/__init__.py:42-65 | the folder and file checks and the row loop give exactly the specified result |
| SenderPlayer.Player.LoadSongList | client/src/sender/__init__.py:67-74 | the list and the error are those of `LoadSongs`; the saved folder is untouched |
| SenderPlayer.Player.GetSongs | client/src/sender/__init__.py:85-102 | the retry loop ends in the state `GetSongsFrom` describes, saving the folder that loaded |
| SenderPlayer.Player.AwaitSelection | client/src/sender/__init__.py:120-176 | the inner loop either ends the session as specified, or stops after a command that changed the selection, with an in-range index |
| SenderPlayer.Player.RunPlayer | client/src/sender/__init__.py:104-176 | the nested loops produce exactly the trace, final list, saved folder and ending of the specified session |
| SenderPlayer.Player.Run | client/src/sender/__init__.py:38-40 | songs are loaded first; when no folder loads nothing is shown and the player does not start, otherwise the player runs the specified session on the list and folder that loaded |
| ServerConn.HandshakeFrame | client/src/lib/net.py:38 | the frame is 16 bytes: the 12-byte signature, then the 4-byte id |
| ServerConn.FrameIdOfHandshake | client/src/lib/net.py:38 | the id read back from a frame is the id sent, and different ids give different frames |
| ServerConn.CheckResponseAgainst | client/src/lib/net.py:43-48 | the checks run in order: text is refused as text; a wrong length or prefix as invalid; a wrong id as a mismatch; only length 8 with matching prefix and id passes |
| ServerConn.CheckResponseAsWritten | client/src/lib/net.py:43-46 | with the 12-byte signature compared against a 4-byte slice, every response is refused: text as text, every binary one as invalid |
| ServerConn.AsWrittenRefusesEcho | client/src/lib/net.py:45-47 | as written, even the correctly built echo of the id is refused as invalid |
| ServerConn.Echo | client/src/lib/net.py:45-47 | the answer the checks are laid out for: 8 bytes, the signature's first four bytes, then the id |
| ServerConn.CheckResponse | client/src/lib/net.py:43-48 | with the 4-byte prefix, exactly the echo of this id passes, and text is always refused as text |
| ServerConn.EchoOfOtherId | client/src/lib/net.py:47-48 | an echo of a different id is refused as a mismatch |
| ServerConn.ConnectStep | client/src/lib/net.py:33-48 | `_conn` is replaced as soon as the transport connects, even if the handshake then fails; the handshake carries the id; success exactly when the answer passes the checks against the given prefix; an answered attempt raises exactly the error of the first check it fails; a transport failure is `InitFailed`; the handshake is on the wire exactly when the send did not fail |
| ServerConn.ConnectCorrected | client/src/lib/net.py:33-48 | with the corrected 4-byte prefix, a connection succeeds exactly when the answer is the echo of its id |
| ServerConn.ConnectAsWrittenFails | client/src/lib/net.py:33-48 | as written, every connection attempt raises |
| ServerConn.Retry | client/src/lib/net.py:50-59 | the operation goes through exactly when some try succeeds after every earlier try failed and reconnected; the loop goes on exactly while every try fails and every reconnection succeeds; it only appends to what was sent, and every handshake keeps the id |
| ServerConn.RetryWire | client/src/lib/net.py:50-71 | what a wrapped operation sends is the handshakes of its reconnections, then, when a send goes through, its payload on the connection it ends on; a receive sends nothing but handshakes |
| ServerConn.RetryFailure | client/src/lib/net.py:50-59 | a wrapped operation fails exactly when a reconnection fails before any try goes through, and it raises that reconnection's own error |
| ServerConn.RetryAfterReconnect | client/src/lib/net.py:50-66 | a send that fails once, reconnects with a valid answer and then goes through sends a handshake and then its payload, both on the new connection, which it keeps |
| ServerConn.RetryAsWritten | client/src/lib/net.py:45-59 | as written the loop never retries: the operation goes through only on its first try, and a first try that fails escapes with the reconnection's error |
| ServerConn.ServerConnection.constructor | client/src/lib/net.py:28-31 | the id is fixed here and nothing is connected |
| ServerConn.ServerConnection.Connect | client/src/lib/net.py:33-48 | the new connection and error are those of `ConnectStep` with the connection's own id and the corrected prefix |
| ServerConn.ServerConnection.ReconnectWrapper | client/src/lib/net.py:50-59 | "Not connected" while `_conn` is None; otherwise the retry loop ends as `Retry` says, with every handshake carrying the fixed id |
| ServerConn.ServerConnection.Send | client/src/lib/net.py:63-66 | `send` is the wrapper around sending one payload on the current connection |
| ServerConn.ServerConnection.Recv | client/src/lib/net.py:68-71 | `recv` is the wrapper around one receive, and hands back no message |
| ServerConn.ServerConnection.Close | client/src/lib/net.py:73-76 | refused exactly while `_conn` is None, and `_conn` is never reset; a close frame is sent only if that connection was not closed already |
| ServerConn.CloseTwice | client/src/lib/net.py:73-76 | a second `close` is accepted as well, and only one close frame goes out |
| Relay.Add | server/src/index.js:13 | `Set.add` contains the old members and the new one, and keeps members distinct |
| Relay.Remove | server/src/index.js:112 | `Set.delete` keeps exactly the other members, keeps them distinct, and shrinks by one exactly when the socket was a member |
| Relay.RemoveKeepsOrder | server/src/index.js:112 | deleting a member cuts it out at its place, so the remaining receivers keep their iteration order |
| Relay.SendToAll | server/src/index.js:31-33 | one message per receiver, in iteration order |
| Relay.PlusPlus | server/src/index.js:97 | `null++` is 1 and `n++` is n + 1 |
| Relay.Trigger | server/src/index.js:29-35 | every receiver gets `triggerPlayback`, the count becomes null, and the receivers and connections stay as they are |
| Relay.Broadcast | server/src/index.js:37-47 | with no receivers nothing changes; otherwise the count becomes 0 and every receiver gets the track |
| Relay.Handshake | server/src/index.js:10-27 | a connection is identified exactly by one of the three signatures; the receiver signature adds it to the receivers; anything else closes it |
| Relay.OnMessage | server/src/index.js:67-108 | a message never changes the set of connections or `clientCount`; a first message identifies the socket exactly when it is one of the three signatures; the process exits exactly on an identified client's restart request; the outbox only grows |
| Relay.OnConnection | server/src/index.js:61-63 | the new socket is a client and not yet identified; receivers, count and outbox are unchanged |
| Relay.OnClose | server/src/index.js:110-114 | the socket is no longer a client or a receiver and the other receivers stay; the pending count is not looked at again, and nothing is sent |
| Relay.InitialValid | server/src/index.js:55-58 | the initial state satisfies the invariant |
| Relay.OnConnectionValid | server/src/index.js:61-63 | a new connection keeps the invariant and raises `clientCount` by one |
| Relay.OnCloseValid | server/src/index.js:110-114 | a close keeps the invariant, removes the socket from the receivers and lowers `clientCount` by one |
| Relay.OnMessageValid | server/src/index.js:67-108 | every message keeps the invariant: `clientCount` counts the open connections, receivers are distinct, open and identified, and the count is never negative |
| Relay.FirstMessageIsHandshake | server/src/index.js:67-71 | a first message with the receiver signature adds a receiver; one with the sender or manager signature identifies without changing the set; anything else closes the socket and leaves it unidentified |
| Relay.ForcedTrigger | server/src/index.js:79-89 | from any identified client, a forced trigger with a pending count fires playback and confirms; with a null count it only answers with an error |
| Relay.RestartHalts | server/src/index.js:73-77 | a restart request is confirmed to its sender and the process exits |
| Relay.ReceiverNoise | server/src/index.js:91-95 | a receiver's message other than a confirmation or a control message changes nothing |
| Relay.SenderSong | server/src/index.js:103-107 | a non-receiver's message is broadcast and always answered with `songReceived`, even with no receivers (count then unchanged) |
| Relay.Confirmation | server/src/index.js:97-102 | a receiver's confirmation raises the count (null counts as 0); reaching the number of receivers triggers playback |
| Relay.StrayConfirmationTriggers | server/src/index.js:97-102 | with one receiver and nothing pending, a confirmation still triggers playback |
| Relay.ConfirmationRound | server/src/index.js:97-102 | starting from count k, confirmations that bring it to the number of receivers trigger playback for every receiver; fewer only count |
| Relay.LeavingReceiverStallsRound | server/src/index.js:97-114 | when a receiver leaves after the count has reached the new receiver count, the next confirmation overshoots and triggers nothing |
| Relay.RelayServer.constructor | server/src/index.js:55-58 | no receivers, nothing pending, no clients |
| Relay.RelayServer.HandleHandshake | server/src/index.js:10-27 | the handler's switch ends in the state and answer `Handshake` describes |
| Relay.RelayServer.TriggerReceiverPlayback | server/src/index.js:29-35 | the loop over the receivers ends in the state `Trigger` describes |
| Relay.RelayServer.BroadcastSong | server/src/index.js:37-47 | the early return and the loop over the receivers end in the state `Broadcast` describes |
| Relay.RelayServer.Connection | server/src/index.js:61-63 | the `connection` handler, keeping the invariant |
| Relay.RelayServer.Message | server/src/index.js:67-108 | the `message` handler, in its order: handshake, restart, forced trigger, receiver confirmation, sender broadcast; it keeps the invariant |
| Relay.RelayServer.Close | server/src/index.js:110-114 | the `close` handler, keeping the invariant |

## Left out

- `str.lower()` is modelled for ASCII letters only. Python lower-cases all of Unicode, but the aliases are ASCII, and `PyText.SplitOnceLower` uses only the fact that lower-casing keeps whitespace as whitespace.
- Python's `float` and `int` are abstract partial converters. Accepted spellings such as "inf", "1_000" and surrounding whitespace are not modelled.
- CSV parsing (`csv.reader` with `skipinitialspace=True`) and path resolution are not modelled. A folder offers either no `songs.csv`, an unreadable one, or the rows the reader would yield. `folder / filename` is string concatenation, and a file exists when its name is listed for the folder.
- The text printed by the programs (help, prompts, progress messages) is not modelled. The player's visible effects are the "Selected song" and sample events.
- The audio collaborators are left out. Cropping a segment with ffmpeg and the sample callback become one `Sample(song, duration)` event.
- The online/offline setup in `__main__` (`client/src/sender/__init__.py:179-205`) is left out. This covers sending the sender signature and awaiting the receiver's confirmation after each sample. It is websocket plumbing around the player.
- A blank line at the sender's prompt raises `IndexError`, which ends the sender. `GetUserInput` reports it as `Raised`. The player model starts from parsed commands, so it does not model the crash.
- Loops that would run forever are run over finite attempt sequences. Running out is reported as its own outcome, rather than as a process that never returns. This covers:
  - the prompt;
  - `_get_songs` retrying a saved folder;
  - `_reconnect_wrapper` while every reconnection succeeds.
- The `connect` async context manager of `ServerConnection` is left out. It is construction, `_connect` and `close` in sequence, all of which are modelled.
- ServerConn.ConnectStep: a refused connection (`ConnectRefused`) is reported as `InitFailed`. In `_connect` (`client/src/lib/net.py:37-41`), only a `WebSocketException` is wrapped as that `ConnectionError`. An OS-level failure of `websockets.connect`, such as a refused connection or a DNS failure, escapes unwrapped as an `OSError`. The model does not tell the two exception kinds apart, because both end the connection attempt and the wrapper loop.
- `_reconnect_wrapper` catches only `WebSocketException`. Other exceptions raised by the operation are not modelled. A transport that fails is one outcome of a try, and a failed try sends nothing.
- The transport's messages are modelled as text or binary, with text frames arriving as strings. That is the behaviour of `ws` before version 8, so the server's `===` comparisons match only text frames. Under `ws` 8, text frames arrive as buffers and no signature would match; that case is not modelled.
- The relay's `process.exit(0)` is a `halted` flag. Only the message handler (`Relay.RelayServer.Message`) requires it to be false; the connection and close handlers do not look at it. `console.log` output is not modelled. The listening port and the message strings of `config.json` are parameters (`Relay.Config`).
- ServerConn.ConnectStep and ServerConn.Retry take the prefix that `response[0:4]` is compared with as a parameter. The connection object (ServerConn.ServerConnection.Connect, ServerConn.ServerConnection.ReconnectWrapper, ServerConn.ServerConnection.Send, ServerConn.ServerConnection.Recv) uses the corrected 4-byte prefix from the Findings table, so its contracts describe the evidently intended handshake. As written no connection succeeds (`ServerConn.ConnectAsWrittenFails`) and the retry loop never retries (`ServerConn.RetryAsWritten`); those facts are proved about the functions, not the object.
- `Relay.FirstMessageIsHandshake`, `Relay.Confirmation`, `Relay.SenderSong` and similar lemmas assume that the configured message strings are distinct where it matters. They state that as a requirement rather than fixing the contents of `config.json`, which is not part of this model.

## Findings

| source | as written | input that shows it | evidently intended | confidence | as-written member | corrected member |
|---|---|---|---|---|---|---|
| client/src/lib/net.py:45 | `response[0:4] != _PROTOCOL_SIGNATURE` compares a 4-byte slice with the 12-byte signature, so every binary response is refused as an invalid handshake | the 8-byte answer `b"gues"` followed by the 4 id bytes (or any other binary answer) | compare the first four bytes with the signature's first four bytes, as the 8-byte length and the `[4:8]` id slice call for, so the echo of the id is accepted | not executed | ServerConn.CheckResponseAsWritten | ServerConn.CheckResponse |
