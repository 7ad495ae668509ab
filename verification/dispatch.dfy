/**
 * `process_message`: one request line from one client, handled against the list of
 * connected clients. Channel membership lives only in each client's channel set, so a
 * channel's occupancy is always counted afresh from the clients.
 */
module Dispatch {
  import opened Wrappers
  import opened Lexing
  import opened Transform
  import opened Parse
  import opened Replies

  /** JOIN is refused once a client already holds more than this many channels. */
  const MaxChannels := 25
  const TooManyChannels := "Too many channels joined"
  const DefaultChannels: set<string> := {"#random", "#dev"}

  /** The text of the admin notice that follows a successful JOIN. */
  function JoinWelcome(channel: string, clientsNum: nat): (text: string)
    ensures var head := "welcome to " + channel + ", there might be about ";
      var tail := " people connected right now";
      && |head| + |tail| < |text| && text[..|head|] == head && text[|text| - |tail|..] == tail
      && (forall i :: |head| <= i < |text| - |tail| ==> IsDigit(text[i]))
      && DecimalValue(text[|head|..|text| - |tail|]) == clientsNum
  {
    var head := "welcome to " + channel + ", there might be about ";
    var digits := NatToString(clientsNum);
    var text := head + digits + " people connected right now";
    DecimalRoundTrip(clientsNum);
    assert text[|head|..|head| + |digits|] == digits;
    text
  }

  /** A request either completes or raises, as `set.remove` does for a missing channel. */
  datatype Status = Done | KeyError(key: string)

  /** The positions in `clients` of the clients that hold `channel`. */
  ghost function MemberIndices(channel: string, clients: seq<Client>): set<nat>
    reads clients`channels
  {
    set i: nat | i < |clients| && channel in clients[i].channels
  }

  /** `count_channel_members`: how many entries of `clients` hold `channel`. */
  function CountChannelMembers(channel: string, clients: seq<Client>): (n: nat)
    reads clients`channels
    ensures n == |MemberIndices(channel, clients)|
    ensures n <= |clients|
    decreases |clients|
  {
    if clients == [] then 0
    else
      var last := |clients| - 1;
      var front := CountChannelMembers(channel, clients[..last]);
      assert MemberIndices(channel, clients) ==
        MemberIndices(channel, clients[..last]) + (if channel in clients[last].channels then {last} else {});
      front + (if channel in clients[last].channels then 1 else 0)
  }

  /** Counting over two lists of clients one after the other adds up. */
  lemma {:induction false} CountAppend(channel: string, a: seq<Client>, b: seq<Client>)
    ensures CountChannelMembers(channel, a + b)
         == CountChannelMembers(channel, a) + CountChannelMembers(channel, b)
    decreases |b|
  {
    if b == [] {
      assert a + b == a;
    } else {
      var last := |b| - 1;
      CountAppend(channel, a, b[..last]);
      assert (a + b)[..|a + b| - 1] == a + b[..last];
    }
  }

  /** A client that holds the channel is among those counted. */
  lemma CountIncludesMember(channel: string, clients: seq<Client>, c: Client)
    requires c in clients && channel in c.channels
    ensures CountChannelMembers(channel, clients) >= 1
  {
    var i :| 0 <= i < |clients| && clients[i] == c;
    assert i in MemberIndices(channel, clients);
  }

  /** A client dropped from the list (a disconnect) stops counting, with no PART. */
  lemma CountWithout(channel: string, clients: seq<Client>, i: nat)
    requires i < |clients|
    ensures CountChannelMembers(channel, clients[..i] + clients[i + 1..])
         == CountChannelMembers(channel, clients) - (if channel in clients[i].channels then 1 else 0)
  {
    assert clients == clients[..i] + ([clients[i]] + clients[i + 1..]);
    CountAppend(channel, clients[..i], [clients[i]] + clients[i + 1..]);
    CountAppend(channel, [clients[i]], clients[i + 1..]);
    CountAppend(channel, clients[..i], clients[i + 1..]);
    assert [clients[i]][..0] == [];
  }

  /** n copies of one line. */
  function Copies(line: string, n: nat): seq<string> {
    if n == 0 then [] else Copies(line, n - 1) + [line]
  }

  function BroadcastLine(notice: bool, channel: string, msg: string): string {
    if notice then NoticeLine(channel, msg) else PrivmsgLine(channel, msg)
  }

  /**
   * The delivery loop of PRIVMSG and NOTICE: every entry of `clients` that holds the
   * channel and is not the sender is sent the line, once per time it appears in the list.
   */
  method Broadcast(clients: seq<Client>, sender: Client, channel: string, msg: string, notice: bool)
    modifies clients
    ensures forall c :: c in clients ==> c.channels == old(c.channels)
    ensures forall c :: c in clients ==>
      c.out == old(c.out) + Copies(BroadcastLine(notice, channel, msg),
                                   if c != sender && channel in c.channels then multiset(clients)[c] else 0)
  {
    var line := BroadcastLine(notice, channel, msg);
    for i := 0 to |clients|
      invariant forall c :: c in clients ==> c.channels == old(c.channels)
      invariant forall c :: c in clients ==>
        c.out == old(c.out) + Copies(line, if c != sender && channel in c.channels then multiset(clients[..i])[c] else 0)
    {
      var c := clients[i];
      Relay(c, sender, channel, msg, notice);
      forall d | d in clients
        ensures d.out == old(d.out) + Copies(line, if d != sender && channel in d.channels then multiset(clients[..i + 1])[d] else 0)
      {
        var n := multiset(clients[..i])[d];
        ListedOnceMore(clients, i, d);
        if d == c && channel in c.channels && c != sender {
          assert Copies(line, n + 1) == Copies(line, n) + [line];
        }
      }
    }
    assert clients[..|clients|] == clients;
  }

  /** Extending the prefix by one entry counts that entry once more and no other client. */
  lemma ListedOnceMore(clients: seq<Client>, i: nat, d: Client)
    requires i < |clients|
    ensures multiset(clients[..i + 1])[d] == multiset(clients[..i])[d] + (if d == clients[i] then 1 else 0)
  {
    assert clients[..i + 1] == clients[..i] + [clients[i]];
  }

  /** One turn of the delivery loop: c is sent the line if it holds the channel and is not the sender. */
  method Relay(c: Client, sender: Client, channel: string, msg: string, notice: bool)
    modifies c`out
    ensures c.out == old(c.out) + (if channel in c.channels && c != sender then [BroadcastLine(notice, channel, msg)] else [])
  {
    if channel in c.channels && c != sender {
      if notice {
        c.SendNotice(channel, msg);
      } else {
        c.SendPrivmsg(channel, msg);
      }
    }
  }

  /** The USER branch after the welcome: join both default channels, in whichever order
      the set yields them, without the JOIN limit. */
  method JoinDefaultChannels(client: Client)
    modifies client
    ensures client.channels == old(client.channels) + DefaultChannels
    ensures || client.out == old(client.out) + JoinLines("#random") + JoinLines("#dev")
            || client.out == old(client.out) + JoinLines("#dev") + JoinLines("#random")
  {
    var pending := DefaultChannels;
    while pending != {}
      invariant pending <= DefaultChannels
      invariant client.channels == old(client.channels) + (DefaultChannels - pending)
      invariant pending == DefaultChannels ==> client.out == old(client.out)
      invariant pending == {"#dev"} ==> client.out == old(client.out) + JoinLines("#random")
      invariant pending == {"#random"} ==> client.out == old(client.out) + JoinLines("#dev")
      invariant pending == {} ==>
        || client.out == old(client.out) + JoinLines("#random") + JoinLines("#dev")
        || client.out == old(client.out) + JoinLines("#dev") + JoinLines("#random")
      decreases pending
    {
      var channel :| channel in pending;
      client.SendJoin(channel);
      pending := pending - {channel};
    }
  }

  /** The JOIN branch with a channel argument. */
  method JoinChannel(client: Client, clients: seq<Client>, channel: string)
    modifies client
    ensures |old(client.channels)| > MaxChannels ==>
      client.channels == old(client.channels)
      && client.out == old(client.out) + [ServerNoticeLine(TooManyChannels)]
    ensures |old(client.channels)| <= MaxChannels ==>
      var n := CountChannelMembers(channel, clients);
      && client.channels == old(client.channels) + {channel}
      && client.out == old(client.out) + JoinLines(channel) + [AdminNoticeLine(channel, JoinWelcome(channel, n))]
      && (client in clients ==> n >= 1)
    ensures old(|client.channels|) <= MaxChannels + 1 ==> |client.channels| <= MaxChannels + 1
  {
    if |client.channels| > MaxChannels {
      client.SendServerNotice(TooManyChannels);
    } else {
      client.SendJoin(channel);
      var clientsNum := CountChannelMembers(channel, clients);
      if client in clients {
        CountIncludesMember(channel, clients, client);
      }
      client.SendAdminNotice(channel, JoinWelcome(channel, clientsNum));
    }
  }

  /** The PART branch with a channel argument: `set.remove` raises on a channel the
      client does not hold, before anything is changed or sent. */
  method PartChannel(client: Client, channel: string) returns (status: Status)
    modifies client
    ensures status == (if channel in old(client.channels) then Done else KeyError(channel))
    ensures channel in old(client.channels) ==>
      client.channels == old(client.channels) - {channel}
      && client.out == old(client.out) + [PartLine(channel)]
    ensures channel !in old(client.channels) ==>
      client.channels == old(client.channels) && client.out == old(client.out)
  {
    if channel !in client.channels {
      return KeyError(channel);
    }
    client.channels := client.channels - {channel};
    client.SendPart(channel);
    status := Done;
  }

  /** The PRIVMSG and NOTICE branches once the line has been searched: rewrite the body
      and broadcast it when the pattern matched. */
  method Deliver(found: Option<Message>, notice: bool, client: Client, clients: seq<Client>)
    modifies clients
    ensures Delivered(found, notice, client, clients)
  {
    if found.Some? {
      var channel := found.value.channel;
      var msg := Exchange(found.value.body);
      Broadcast(clients, client, channel, msg, notice);
    }
  }

  /** `process_message`: strip the line, dispatch on its first field (`Classify` holds the
      comparisons of the verb and the argument checks), reply. */
  method ProcessMessage(data: string, client: Client, clients: seq<Client>) returns (status: Status)
    modifies client, clients
    ensures Handled(Classify(Strip(data)), status, client, clients)
  {
    var message := Strip(data);
    status := Done;
    match Classify(message)
    case Ping(token) =>
      if token.Some? {
        client.SendPong(token.value);
      }
    case User =>
      client.SendWelcome();
      JoinDefaultChannels(client);
    case Whois =>
      client.SendWhois();
    case Join(channel) =>
      if channel.Some? {
        JoinChannel(client, clients, channel.value);
      }
    case Part(channel) =>
      if channel.Some? {
        status := PartChannel(client, channel.value);
      }
    case Privmsg(found) =>
      Deliver(found, false, client, clients);
    case Notice(found) =>
      Deliver(found, true, client, clients);
    case Unknown =>
  }

  /** What handling one classified request does to the sender, to the other clients and
      to the result. */
  twostate predicate Handled(request: Request, status: Status, client: Client, clients: seq<Client>)
    reads client, clients
  {
    match request
    case Ping(token) =>
      && status == Done && OthersUnchanged(client, clients)
      && client.channels == old(client.channels)
      && client.out == old(client.out) + (if token.Some? then [PongLine(token.value)] else [])
    case User =>
      && status == Done && OthersUnchanged(client, clients)
      && client.channels == old(client.channels) + DefaultChannels
      && (|| client.out == old(client.out) + WelcomeLines + JoinLines("#random") + JoinLines("#dev")
          || client.out == old(client.out) + WelcomeLines + JoinLines("#dev") + JoinLines("#random"))
    case Whois =>
      && status == Done && OthersUnchanged(client, clients)
      && client.channels == old(client.channels) && client.out == old(client.out) + [WhoisLine]
    case Join(arg) =>
      && status == Done && OthersUnchanged(client, clients)
      // JOIN never grows a set that already exceeds the limit, so a client that
      // only JOINs stays within one channel past it
      && (old(|client.channels|) <= MaxChannels + 1 ==> |client.channels| <= MaxChannels + 1)
      && if arg.None? then
           client.channels == old(client.channels) && client.out == old(client.out)
         else if |old(client.channels)| > MaxChannels then
           client.channels == old(client.channels)
           && client.out == old(client.out) + [ServerNoticeLine(TooManyChannels)]
         else
           var n := CountChannelMembers(arg.value, clients);
           && client.channels == old(client.channels) + {arg.value}
           && client.out == old(client.out) + JoinLines(arg.value) + [AdminNoticeLine(arg.value, JoinWelcome(arg.value, n))]
           && (client in clients ==> n >= 1)
    case Part(arg) =>
      && OthersUnchanged(client, clients)
      && if arg.Some? && arg.value in old(client.channels) then
           && status == Done
           && client.channels == old(client.channels) - {arg.value}
           && client.out == old(client.out) + [PartLine(arg.value)]
         else
           // the only failing request: PART of a channel the client does not hold
           && status == (if arg.Some? then KeyError(arg.value) else Done)
           && client.channels == old(client.channels) && client.out == old(client.out)
    case Privmsg(m) => status == Done && Delivered(m, false, client, clients)
    case Notice(m) => status == Done && Delivered(m, true, client, clients)
    case Unknown =>
      && status == Done && OthersUnchanged(client, clients)
      && client.channels == old(client.channels) && client.out == old(client.out)
  }

  /** Every client other than the sender keeps its channels and its output. */
  twostate predicate OthersUnchanged(client: Client, clients: seq<Client>)
    reads clients
  {
    forall c :: c in clients && c != client ==> c.channels == old(c.channels) && c.out == old(c.out)
  }

  /**
   * The outcome of a PRIVMSG or NOTICE: no channel set changes; when the line parsed,
   * every other client holding the channel is sent the line with the body rewritten,
   * and the sender gets nothing; when it did not parse, nothing is sent.
   */
  twostate predicate Delivered(m: Option<Message>, notice: bool, client: Client, clients: seq<Client>)
    reads client, clients
  {
    && client.channels == old(client.channels)
    && (client !in clients ==> client.out == old(client.out))
    && (forall c :: c in clients ==> c.channels == old(c.channels))
    && (forall c :: c in clients ==>
         c.out == old(c.out) + if m.None? then [] else
           Copies(BroadcastLine(notice, m.value.channel, Exchanged(m.value.body)),
                  if c != client && m.value.channel in c.channels then multiset(clients)[c] else 0))
  }
}
