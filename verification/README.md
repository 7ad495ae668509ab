# anon-ircd request handling, modelled in Dafny

anon-ircd is a tiny anonymous chat server that speaks a few IRC-shaped lines. The
numerics 001, 311, 353 and 376 follow section 5.1 of RFC 2812, but every reply is a fixed
template. This project models the per-line handling in `reloadable.py`:

- the `exchange` rewrite. Each case-insensitive "you" in a broadcast body has its middle
  letter replaced by a Cyrillic о (U+043E) or О (U+041E);
- the PRIVMSG/NOTICE pattern `VERB\s(?P<channel>.+?)\s:?(?P<msg>.+)`. It is written out
  as the order in which Python's backtracking `re.search` tries channel lengths and
  offsets;
- the reply templates of `Client.send_*`. Writing a line appends it to the client's
  output sequence;
- `count_channel_members`, and `process_message` with its verb dispatch, JOIN limit,
  PART error, broadcast loops and USER auto-join.

Files and modules:

| file | module | contents |
|---|---|---|
| wrappers.dfy | Wrappers | `Option` |
| lexing.dfy | Lexing | `str.strip()`, `str.split(" ")`, the decimal rendering of a count |
| exchange.dfy | Transform | `exchange`, as a reference function and as the match-by-match loop |
| parse.dfy | Parse | the pattern, `re.search`, the request classification |
| replies.dfy | Replies | line templates; class `Client` with `channels: set<string>` and `out: seq<string>` |
| dispatch.dfy | Dispatch | occupancy count, broadcast loop, `process_message` and its branches |

Modelling choices:

- A connected client is one `Client` object. It merges the Python `Client` wrapper with
  the transport's client object, whose `channels` set the wrapper exposes.
- `clients` is a `seq<Client>`, and the sender is compared by reference. If the list held
  a client twice, the broadcast loop would write to it twice. The model keeps this:
  `multiset(clients)[c]` copies are delivered.
- The default channels `{"#random", "#dev"}` are taken from the set with `:|`. The model
  therefore allows either join order, as Python's hash-dependent set order does.
- `\s` and `strip()` use Python's `str.isspace` set of characters, listed in
  `Lexing.IsSpace`. `.` is any character except `'\n'`. Under `re.I`, no character other
  than the two ASCII cases folds to `y`, `o` or `u`.
- Python's `KeyError` from `set.remove` becomes the result `Status.KeyError(channel)`. Nothing
  is changed or sent before it is raised.
- Behaviour kept exactly as the code has it:
  - The JOIN guard is `len(channels) > 25`. A client holding exactly 25 channels may join
    a 26th, so JOIN alone bounds a set at 26, not 25.
  - `exchange` is idempotent. The replacement letters are not `o`/`O`, so they never
    match again (`Transform.ExchangeIdempotent`).
  - PART of a channel the client does not hold raises, with no state change.
  - A PRIVMSG/NOTICE line that does not parse is dropped silently.

## Model

| member | source | states |
|---|---|---|
| `Transform.Exchange` | reloadable.py:18-28 | The finditer-style loop keeps the length. It changes exactly the characters one past the start of a case-insensitive "you": `o` becomes Cyrillic small о, anything else Cyrillic capital О. Its result equals the reference `Exchanged`. |
| `Transform.ExchangedHasNoYou` | reloadable.py:8-13 | The rewritten string holds no case-insensitive "you", which is the purpose the comment states. |
| `Transform.ExchangeIdempotent` | reloadable.py:18-28 | Rewriting twice gives the same string as rewriting once. |
| `Transform.NoYouUnchanged` | reloadable.py:18-28 | A string is returned unchanged if and only if it contains no "you". |
| `Lexing.SpaceClasses` | reloadable.py:151 | `Lexing.IsSpace` is Python's `str.isspace` set, which `strip()` and the pattern's `\s` use. The ASCII whitespace characters (space, tab, LF, VT, FF, CR) are in it. Letters, digits, `:` and `#` are not. |
| `Lexing.SpaceRun` | reloadable.py:151 | Scanning forward from a position passes only whitespace and stops at the end of the line or at a non-space character. |
| `Lexing.TextEnd` | reloadable.py:151 | Scanning backward from a position, not below a lower bound, passes only whitespace and stops at the bound or just after a non-space character. |
| `Lexing.Strip` | reloadable.py:151 | `strip()` returns a contiguous slice of the input with no whitespace at either end. Everything cut off on both sides is whitespace. |
| `Lexing.Split` | reloadable.py:152 | `split(" ")` yields at least one field, and no field contains a space. |
| `Lexing.JoinSplit` | reloadable.py:152 | Joining the fields with single spaces restores the line. |
| `Lexing.SplitJoin` | reloadable.py:152 | Splitting space-free fields joined by spaces recovers exactly those fields. |
| `Lexing.SplitCons` | reloadable.py:152-154 | If `a` has no space, the fields of `a + " " + b` are `a` followed by the fields of `b`. |
| `Lexing.SplitNoSpace` | reloadable.py:152 | A line without a space is a single field. |
| `Lexing.SplitFields` | reloadable.py:152-159 | A second field exists if and only if the line contains a space. The line is then the first field, a space, and the rest. |
| `Lexing.NatToString` | reloadable.py:184 | The count in the JOIN notice is a non-empty string of decimal digits with no leading zero. |
| `Lexing.DecimalRoundTrip` | reloadable.py:184 | The rendered count reads back as the same number. |
| `Parse.LineRun` | reloadable.py:14-15 | The greedy `.+` tail takes the longest prefix that contains no newline. |
| `Parse.Body` | reloadable.py:14-15 | `:?(?P<msg>.+)` matches exactly when the text starts with a character other than a newline. The body is non-empty and has no newline. |
| `Parse.BodyDropsColon` | reloadable.py:14-15 | On newline-free text the body is the whole text, with one leading `:` dropped unless the colon is all there is. |
| `Parse.MatchChannel` | reloadable.py:14-15 | The lazy channel is a non-empty prefix of the text after the verb, shorter than that text. The body is non-empty and contains no newline. |
| `Parse.MatchAtShape` | reloadable.py:14-15 | A match at offset p reads, from p: the verb, one whitespace character, a non-empty channel, one whitespace character, then a non-empty, newline-free body. |
| `Parse.SearchFrom` | reloadable.py:197 | A search result is the match of the pattern at some offset at or after the start. |
| `Parse.FirstMatchOffset` | reloadable.py:197 | The leftmost offset at or after the start where the pattern matches: the pattern matches there and at no earlier offset. One past the end of the line means it matches nowhere. |
| `Parse.SearchFromLeftmost` | reloadable.py:197 | `re.search` returns the match at the leftmost matching offset, and finds nothing if and only if the pattern matches at no offset. This holds for any line, including lines with inner newlines. |
| `Parse.Search` | reloadable.py:197 | A found message has a non-empty channel and a non-empty, newline-free body. |
| `Parse.ShortestSplit` | reloadable.py:14-15 | On text without newlines, the channel is the shortest non-empty prefix that is followed by whitespace and at least one more character. The body is the remainder with one leading `:` dropped, unless the remainder is just `:`. There is no match if and only if no such split exists. |
| `Parse.LaterMatch` | reloadable.py:197 | A match at a later offset of `VERB r` forces a split point in `r`. |
| `Parse.SearchAtFirstWord` | reloadable.py:197 | For a newline-free line `VERB r`, `re.search` over the whole line finds exactly what matching right after the verb finds. |
| `Parse.StepOver` | reloadable.py:14-15 | Where the character after a candidate channel cannot start the separator and body, the lazy channel takes one more character. |
| `Parse.SplitPointMatches` | reloadable.py:14-15 | At a split point the channel is everything before it. The body is the rest, with one leading `:` dropped unless the colon is all there is. |
| `Parse.PrivmsgParse` | reloadable.py:195-206 | `PRIVMSG r` without newlines is classified with the message that the split rule gives for `r`. |
| `Parse.NoticeParse` | reloadable.py:208-219 | `NOTICE r` without newlines is classified with the message that the split rule gives for `r`. |
| `Parse.Classify` | reloadable.py:152-223 | Dispatch is on the first field. A request is unknown if and only if that field is not one of the seven verbs. PING, JOIN and PART carry an argument if and only if the line has a space, and that argument contains no space. |
| `Replies.PrivmsgFields` | reloadable.py:89-90 | For a channel with no space in it, a broadcast line split the server's own way starts with the anonymous sender, `PRIVMSG` and the channel. The body follows the channel's ` :`. A parsed channel can contain spaces (`PRIVMSG  x y` gives channel `" x"`), and then the line has more fields. |
| `Replies.Client.Write` | reloadable.py:60-63 | Writing appends exactly one line to the client's output. |
| `Replies.Client.SendPing` | reloadable.py:65-66 | Appends `PING :001`. |
| `Replies.Client.SendPong` | reloadable.py:68-69 | Appends `PONG <token>`. |
| `Replies.Client.SendWhois` | reloadable.py:71-74 | Appends the fixed numeric 311 line. |
| `Replies.Client.SendWelcome` | reloadable.py:76-84 | Appends the six welcome lines in order. |
| `Replies.Client.SendAdminNotice` | reloadable.py:86-87 | Appends `:Admin NOTICE <channel> :<msg>`. |
| `Replies.Client.SendPrivmsg` | reloadable.py:89-90 | Appends the anonymous PRIVMSG line. |
| `Replies.Client.SendNotice` | reloadable.py:92-93 | Appends the anonymous NOTICE line. |
| `Replies.Client.SendJoin` | reloadable.py:95-99 | Adds the channel to the set. Appends the TOPIC, JOIN and 353 lines in that order. |
| `Replies.Client.SendPart` | reloadable.py:101-102 | Appends `:You!anon@localhost PART :<channel>`. |
| `Replies.Client.SendServerNotice` | reloadable.py:104-105 | Appends `:Admin NOTICE : <msg>`. |
| `Dispatch.JoinWelcome` | reloadable.py:184 | The welcome text is `welcome to <channel>, there might be about `, then decimal digits that read back as the count, then ` people connected right now`. |
| `Dispatch.CountChannelMembers` | reloadable.py:142-143 | The count is the number of list positions whose client holds the channel, so it is at most the length of the list. |
| `Dispatch.CountAppend` | reloadable.py:142-143 | Counting over two lists placed one after the other gives the sum of the two counts. |
| `Dispatch.CountIncludesMember` | reloadable.py:142-143 | A listed client that holds the channel makes the count at least 1. |
| `Dispatch.CountWithout` | reloadable.py:142-143 | Dropping a client from the list (a disconnect) lowers the count by one if that client held the channel, and otherwise leaves it unchanged. No PART is needed. |
| `Dispatch.Broadcast` | reloadable.py:204-206 | No channel set changes. Every listed client that holds the channel and is not the sender gets the line once per time it is listed. The sender and non-members get nothing. |
| `Dispatch.ListedOnceMore` | reloadable.py:204 | Walking one entry further down the client list counts that entry once more and leaves every other client's count unchanged. |
| `Dispatch.Relay` | reloadable.py:205-206 | One turn of the loop sends the line to a client exactly when it holds the channel and is not the sender. Nothing else is sent. |
| `Dispatch.Deliver` | reloadable.py:199-219 | When the pattern matched, the body is rewritten by `exchange` and broadcast. When it did not match, nothing is sent. |
| `Dispatch.JoinDefaultChannels` | reloadable.py:164-166 | Adds `#random` and `#dev` without the JOIN limit. Sends their join lines in either order. |
| `Dispatch.JoinChannel` | reloadable.py:173-185 | If the client holds more than 25 channels, its set is unchanged and it gets only the "Too many channels joined" notice. Otherwise the channel is added and the client gets the join lines and then the admin welcome. The welcome carries the occupancy after the join, which counts the client itself. A set of at most 26 stays at most 26. |
| `Dispatch.PartChannel` | reloadable.py:187-193 | For a held channel: exactly that channel is removed and one PART line is sent. Otherwise a KeyError is returned and nothing changes. |
| `Dispatch.ProcessMessage` | reloadable.py:148-225 | Each verb's full effect on the sender's set and output is stated: PING with a token sends exactly `PONG <token>`, and a bare PING sends nothing. USER sends the welcome, then joins both defaults. WHOIS sends only the 311 line. JOIN and PART behave as above; a JOIN or PART without an argument does nothing. PRIVMSG/NOTICE deliver as above. Unknown verbs change nothing. Only PRIVMSG/NOTICE touch other clients. Only PART of a channel the sender does not hold fails. |

## Left out

- Prometheus collectors, `make_reloadable_collector` and every `.inc()`/`.set()`/`.dec()`
  call (reloadable.py:31-48, 108-139, 243-245). They are metrics with no effect on
  membership or replies. The occupancy counts that USER and PART compute feed only these
  gauges, so they are not modelled.
- The timing and exception-counting decorators on `write` and `process_message`. They are
  metrics as well.
- Byte I/O. The model does not cover `data.decode()` and its possible decoding error, the
  `\r\n` framing and encoding in `Client.write`, `writer.write`, or the `log` flag's
  `print`. A request is an already-decoded string, and output is a per-client sequence
  of lines.
- `on_client_connect` and `on_client_disconnect`: they only log and update gauges.
  `Dispatch.CountWithout` states what a disconnect does to occupancy.
- `reload`. It runs `git` through `subprocess`, and its announcement to `#dev` depends on
  that output.
- All `print` logging, including the UNKNOWN request line.
- Concurrency. Each call is modelled as one atomic step on the client objects.
