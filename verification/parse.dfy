/**
 * Reading one request line: the verb is the first space-separated field, and a
 * PRIVMSG or NOTICE line is split into a channel and a body by the pattern
 * `VERB\s(?P<channel>.+?)\s:?(?P<msg>.+)`, searched for anywhere in the line.
 */
module Parse {
  import opened Wrappers
  import opened Lexing

  datatype Message = Message(channel: string, body: string)

  /** `.+` at the end of the pattern: the longest run of characters other than '\n'. */
  function LineRun(t: string): (r: string)
    ensures |r| <= |t| && r == t[..|r|]
    ensures '\n' !in r
    ensures |r| < |t| ==> t[|r|] == '\n'
    decreases |t|
  {
    if t == [] || t[0] == '\n' then [] else [t[0]] + LineRun(t[1..])
  }

  /** `:?(?P<msg>.+)` at the start of t: a leading colon is skipped only when the body
      after it is non-empty; otherwise the colon itself is the body. */
  function Body(t: string): (b: Option<string>)
    ensures b.Some? <==> t != [] && t[0] != '\n'
    ensures b.Some? ==> b.value != [] && '\n' !in b.value
  {
    if |t| >= 2 && t[0] == ':' && t[1] != '\n' then Some(LineRun(t[1..]))
    else if |t| >= 1 && t[0] != '\n' then Some(LineRun(t))
    else None
  }

  /**
   * `(?P<channel>.+?)\s:?(?P<msg>.+)` at the start of r, with the lazy channel already
   * known to be longer than k - 1 characters: try channel r[..k], and if whitespace and
   * a body do not follow, lengthen it by one character, as the backtracking engine does.
   */
  function MatchChannel(r: string, k: nat): (m: Option<Message>)
    requires 1 <= k
    ensures m.Some? ==> k <= |m.value.channel| < |r| && m.value.channel == r[..|m.value.channel|]
    ensures m.Some? ==> m.value.body != [] && '\n' !in m.value.body
    ensures m.Some? ==> IsSpace(r[|m.value.channel|])
    decreases |r| - k
  {
    if k >= |r| || r[k - 1] == '\n' then None
    else if IsSpace(r[k]) && Body(r[k + 1..]).Some? then
      Some(Message(r[..k], Body(r[k + 1..]).value))
    else MatchChannel(r, k + 1)
  }

  /** The whole pattern tried at offset p of the line. */
  function MatchAt(verb: string, line: string, p: nat): Option<Message>
    requires p <= |line|
  {
    if p + |verb| < |line| && line[p..p + |verb|] == verb && IsSpace(line[p + |verb|])
    then MatchChannel(line[p + |verb| + 1..], 1)
    else None
  }

  /** What a match at offset p reads, from p on: the verb, one whitespace character, a
      non-empty channel, one whitespace character, and a non-empty body without '\n'. */
  lemma MatchAtShape(verb: string, line: string, p: nat)
    requires p <= |line|
    ensures var m := MatchAt(verb, line, p);
      m.Some? ==>
      var c := p + |verb| + 1 + |m.value.channel|;
      && c < |line| && m.value.channel != []
      && line[p..p + |verb|] == verb && IsSpace(line[p + |verb|])
      && line[p + |verb| + 1..c] == m.value.channel && IsSpace(line[c])
      && m.value.body != [] && '\n' !in m.value.body
  {
    var m := MatchAt(verb, line, p);
    if m.Some? {
      var rest := line[p + |verb| + 1..];
      var c := p + |verb| + 1 + |m.value.channel|;
      assert line[p + |verb| + 1..c] == rest[..|m.value.channel|];
      assert line[c] == rest[|m.value.channel|];
    }
  }

  /** `re.search` from offset p on: the first offset where the pattern matches. */
  function SearchFrom(verb: string, line: string, p: nat): (m: Option<Message>)
    requires p <= |line|
    ensures m.Some? ==> exists q :: p <= q <= |line| && MatchAt(verb, line, q) == m
    decreases |line| - p
  {
    var here := MatchAt(verb, line, p);
    if here.Some? || p == |line| then here else SearchFrom(verb, line, p + 1)
  }

  /** The leftmost offset at or after p where the pattern matches; |line| + 1 when it
      matches nowhere. */
  ghost function FirstMatchOffset(verb: string, line: string, p: nat): (q: nat)
    requires p <= |line|
    ensures p <= q <= |line| + 1
    ensures q <= |line| ==> MatchAt(verb, line, q).Some?
    ensures forall q' :: p <= q' < q && q' <= |line| ==> MatchAt(verb, line, q').None?
    decreases |line| - p
  {
    if MatchAt(verb, line, p).Some? then p
    else if p == |line| then p + 1
    else FirstMatchOffset(verb, line, p + 1)
  }

  /** `re.search` returns the match at the leftmost matching offset, and finds nothing
      exactly when the pattern matches at no offset. */
  lemma {:induction false} SearchFromLeftmost(verb: string, line: string, p: nat)
    requires p <= |line|
    ensures var q := FirstMatchOffset(verb, line, p);
      SearchFrom(verb, line, p) == if q <= |line| then MatchAt(verb, line, q) else None
    decreases |line| - p
  {
    if MatchAt(verb, line, p).None? && p < |line| {
      SearchFromLeftmost(verb, line, p + 1);
    }
  }

  function Search(verb: string, line: string): (m: Option<Message>)
    ensures m.Some? ==> m.value.channel != [] && m.value.body != [] && '\n' !in m.value.body
  {
    SearchFrom(verb, line, 0)
  }

  /** Offset k of r splits it into a non-empty channel, one whitespace character and
      at least one more character. */
  predicate SplitPoint(r: string, k: int) {
    1 <= k && k + 1 < |r| && IsSpace(r[k])
  }

  /** The body: one leading colon dropped, unless the colon is all there is. */
  function DropColon(t: string): string {
    if |t| >= 2 && t[0] == ':' then t[1..] else t
  }

  /**
   * On a line without '\n', the lazy channel is the shortest channel that can be split
   * off: MatchChannel finds the first split point at or after k, and finds nothing
   * exactly when there is none.
   */
  lemma {:induction false} ShortestSplit(r: string, k: nat)
    requires 1 <= k && '\n' !in r
    ensures MatchChannel(r, k).None? <==> forall j :: k <= j ==> !SplitPoint(r, j)
    ensures MatchChannel(r, k).Some? ==>
      var m := MatchChannel(r, k).value;
      && SplitPoint(r, |m.channel|)
      && (forall j :: k <= j < |m.channel| ==> !SplitPoint(r, j))
      && m.body == DropColon(r[|m.channel| + 1..])
    decreases |r| - k
  {
    if k < |r| {
      if SplitPoint(r, k) {
        SplitPointMatches(r, k);
        assert |r[..k]| == k;
      } else {
        StepOver(r, k);
        ShortestSplit(r, k + 1);
      }
    }
  }

  /** Where r[k] does not start a split, the lazy channel grows by one character. */
  lemma StepOver(r: string, k: nat)
    requires 1 <= k < |r| && '\n' !in r && !SplitPoint(r, k)
    ensures MatchChannel(r, k) == MatchChannel(r, k + 1)
  {
    assert r[k - 1] != '\n';
    assert IsSpace(r[k]) ==> r[k + 1..] == [];
  }

  /** At a split point the pattern matches with the colon rule applied to the rest. */
  lemma SplitPointMatches(r: string, k: nat)
    requires SplitPoint(r, k) && '\n' !in r
    ensures MatchChannel(r, k) == Some(Message(r[..k], DropColon(r[k + 1..])))
  {
    var t := r[k + 1..];
    assert r[k - 1] != '\n' && t != [] && t[0] != '\n';
    BodyDropsColon(t);
  }

  /** Without newlines, `:?(?P<msg>.+)` takes all of the text, minus one leading colon
      when something follows it. */
  lemma BodyDropsColon(t: string)
    requires '\n' !in t
    ensures Body(t) == (if t == [] then None else Some(DropColon(t)))
  {
    if t != [] {
      NoNewlineRun(t);
      if |t| >= 2 && t[0] == ':' {
        NoNewlineRun(t[1..]);
      }
    }
  }

  lemma {:induction false} NoNewlineRun(t: string)
    requires '\n' !in t
    ensures LineRun(t) == t
    decreases |t|
  {
    if t != [] {
      NoNewlineRun(t[1..]);
      assert [t[0]] + t[1..] == t;
    }
  }

  /** A match of the pattern at offset q > 0 of `VERB r` needs whitespace at offset
      q - 1 of r with a channel before it and text after it. */
  lemma LaterMatch(verb: string, r: string, q: nat)
    requires verb != [] && ' ' !in verb
    requires 1 <= q <= |verb| + 1 + |r|
    ensures MatchAt(verb, verb + " " + r, q).Some? ==> SplitPoint(r, q - 1)
  {
    var line := verb + " " + r;
    // the verb cannot start again at offset 1: its last letter would be the space
    assert line[|verb|] == ' ' && verb[|verb| - 1] in verb;
    if MatchAt(verb, line, q).Some? {
      assert line[q + |verb|] == r[q - 1];
    }
  }

  /**
   * For a line `VERB r` without '\n', searching anywhere in the line finds what
   * matching right after the verb finds: a later occurrence of the verb would give
   * the first one a split point too.
   */
  lemma SearchAtFirstWord(verb: string, r: string)
    requires verb != [] && ' ' !in verb && '\n' !in r
    ensures Search(verb, verb + " " + r) == MatchChannel(r, 1)
  {
    var line := verb + " " + r;
    assert line[0..|verb|] == verb && line[|verb| + 1..] == r;
    if MatchChannel(r, 1).None? {
      ShortestSplit(r, 1);
      forall q | 1 <= q <= |line|
        ensures MatchAt(verb, line, q).None?
      {
        LaterMatch(verb, r, q);
      }
      SearchFromLeftmost(verb, line, 1);
    }
  }

  /** A request line, classified by its first field as `process_message` does. */
  datatype Request =
    | Ping(token: Option<string>)
    | User
    | Whois
    | Join(channel: Option<string>)
    | Part(channel: Option<string>)
    | Privmsg(message: Option<Message>)
    | Notice(message: Option<Message>)
    | Unknown

  const KnownVerbs: set<string> := {"PING", "USER", "WHOIS", "JOIN", "PART", "PRIVMSG", "NOTICE"}

  /** Dispatch on the first field of the stripped line; the second field, when there
      is one, is the PING token or the JOIN/PART channel. */
  function Classify(line: string): (req: Request)
    ensures req.Unknown? <==> Split(line)[0] !in KnownVerbs
    ensures req.Ping? ==> (req.token.Some? <==> ' ' in line)
    ensures req.Join? || req.Part? ==> (req.channel.Some? <==> ' ' in line)
    ensures req.Ping? && req.token.Some? ==> ' ' !in req.token.value
    ensures (req.Join? || req.Part?) && req.channel.Some? ==> ' ' !in req.channel.value
  {
    var parts := Split(line);
    SplitFields(line);
    var arg := if |parts| > 1 then Some(parts[1]) else None;
    match parts[0]
    case "PING" => Ping(arg)
    case "USER" => User
    case "WHOIS" => Whois
    case "JOIN" => Join(arg)
    case "PART" => Part(arg)
    case "PRIVMSG" => Privmsg(if |parts| >= 2 then Search("PRIVMSG", line) else None)
    case "NOTICE" => Notice(if |parts| >= 2 then Search("NOTICE", line) else None)
    case _ => Unknown
  }

  /** A PRIVMSG line without '\n' is parsed by the shortest-split rule on the text after
      the verb and its space. */
  lemma PrivmsgParse(r: string)
    requires '\n' !in r
    ensures Classify("PRIVMSG " + r) == Privmsg(MatchChannel(r, 1))
  {
    SplitCons("PRIVMSG", r);
    assert "PRIVMSG" + " " + r == "PRIVMSG " + r;
    SearchAtFirstWord("PRIVMSG", r);
  }

  /** The same for NOTICE. */
  lemma NoticeParse(r: string)
    requires '\n' !in r
    ensures Classify("NOTICE " + r) == Notice(MatchChannel(r, 1))
  {
    SplitCons("NOTICE", r);
    assert "NOTICE" + " " + r == "NOTICE " + r;
    SearchAtFirstWord("NOTICE", r);
  }
}
