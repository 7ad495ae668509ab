/**
 * The fixed reply lines the server writes, and the connected client that receives
 * them. Writing a line appends it to the client's output; the CR LF framing and the
 * encoding belong to the transport and are not part of the line.
 */
module Replies {
  import opened Lexing

  const SelfClientIdent := "You!anon@localhost"
  const AnonClientIdent := "Anonymous!anon@localhost"

  const PingLine := "PING :001"

  function PongLine(token: string): string {
    "PONG " + token
  }

  /** Numeric 311: every WHOIS answers with the same anonymous identity. */
  const WhoisLine := ":thewired 311 navi Anonymous Anonymous anon@localhost * :Anonymous"

  /** Numeric 001 followed by the rules as numeric 376 lines. */
  const WelcomeLines: seq<string> := [
    ":thewired 001 You :Welcome to The Wired",
    ":thewired 376 :",
    ":thewired 376 :Rules:",
    ":thewired 376 :  0. Stay comfy",
    ":thewired 376 :",
    ":thewired 376 :Join #random for discussion, #dev for development chat"
  ]

  function AdminNoticeLine(channel: string, msg: string): string {
    ":Admin NOTICE " + channel + " :" + msg
  }

  function PrivmsgLine(channel: string, msg: string): string {
    ":" + AnonClientIdent + " PRIVMSG " + channel + " :" + msg
  }

  function NoticeLine(channel: string, msg: string): string {
    ":" + AnonClientIdent + " NOTICE " + channel + " :" + msg
  }

  /** The topic, the client's own JOIN echo and the numeric 353 names list. */
  function JoinLines(channel: string): seq<string> {
    [ ":" + AnonClientIdent + " TOPIC " + channel + " :" + channel,
      ":" + SelfClientIdent + " JOIN :" + channel,
      ":thewired 353 You = " + channel + " :You Anonymous" ]
  }

  function PartLine(channel: string): string {
    ":" + SelfClientIdent + " PART :" + channel
  }

  function ServerNoticeLine(msg: string): string {
    ":Admin NOTICE : " + msg
  }

  /**
   * A broadcast line read back with the server's own field split: a client sees the
   * anonymous sender, the verb and the channel as the first three fields, and the
   * body after the channel's " :".
   */
  lemma PrivmsgFields(channel: string, msg: string)
    requires ' ' !in channel
    ensures |Split(PrivmsgLine(channel, msg))| >= 3
    ensures Split(PrivmsgLine(channel, msg))[..3] == [":" + AnonClientIdent, "PRIVMSG", channel]
    ensures PrivmsgLine(channel, msg)[|":" + AnonClientIdent + " PRIVMSG " + channel + " :"|..] == msg
  {
    var rest := ":" + msg;
    assert PrivmsgLine(channel, msg) == (":" + AnonClientIdent) + " " + ("PRIVMSG" + " " + (channel + " " + rest));
    SplitCons(":" + AnonClientIdent, "PRIVMSG" + " " + (channel + " " + rest));
    SplitCons("PRIVMSG", channel + " " + rest);
    SplitCons(channel, rest);
  }

  /** A connected client: the channels it has joined and the lines written to it. */
  class Client {
    var channels: set<string>
    var out: seq<string>

    /** `write`: append one line to the client's output. */
    method Write(line: string)
      modifies this`out
      ensures out == old(out) + [line]
    {
      out := out + [line];
    }

    method SendPing()
      modifies this`out
      ensures out == old(out) + [PingLine]
    {
      Write(PingLine);
    }

    method SendPong(token: string)
      modifies this`out
      ensures out == old(out) + [PongLine(token)]
    {
      Write(PongLine(token));
    }

    method SendWhois()
      modifies this`out
      ensures out == old(out) + [WhoisLine]
    {
      Write(WhoisLine);
    }

    method SendWelcome()
      modifies this`out
      ensures out == old(out) + WelcomeLines
    {
      Write(WelcomeLines[0]);
      Write(WelcomeLines[1]);
      Write(WelcomeLines[2]);
      Write(WelcomeLines[3]);
      Write(WelcomeLines[4]);
      Write(WelcomeLines[5]);
    }

    method SendAdminNotice(channel: string, msg: string)
      modifies this`out
      ensures out == old(out) + [AdminNoticeLine(channel, msg)]
    {
      Write(AdminNoticeLine(channel, msg));
    }

    method SendPrivmsg(channel: string, msg: string)
      modifies this`out
      ensures out == old(out) + [PrivmsgLine(channel, msg)]
    {
      Write(PrivmsgLine(channel, msg));
    }

    method SendNotice(channel: string, msg: string)
      modifies this`out
      ensures out == old(out) + [NoticeLine(channel, msg)]
    {
      Write(NoticeLine(channel, msg));
    }

    /** `send_join` also records the membership, before the three lines go out. */
    method SendJoin(channel: string)
      modifies this
      ensures channels == old(channels) + {channel}
      ensures out == old(out) + JoinLines(channel)
    {
      channels := channels + {channel};
      Write(JoinLines(channel)[0]);
      Write(JoinLines(channel)[1]);
      Write(JoinLines(channel)[2]);
    }

    method SendPart(channel: string)
      modifies this`out
      ensures out == old(out) + [PartLine(channel)]
    {
      Write(PartLine(channel));
    }

    method SendServerNotice(msg: string)
      modifies this`out
      ensures out == old(out) + [ServerNoticeLine(msg)]
    {
      Write(ServerNoticeLine(msg));
    }
  }
}
