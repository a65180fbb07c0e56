/** The text formats: command parameters, the line a client receives, the payload one node
    forwards to another, and the splitters that take them apart. Strings are byte strings. */
module Text {
  import opened Mongo
  import Storage

  // ---- Splitting at spaces --------------------------------------------------------------

  predicate NoSpace(s: string) {
    ' ' !in s
  }

  function FirstSpace(s: string): (i: nat)
    ensures i <= |s| && (i < |s| ==> s[i] == ' ')
  {
    if s == "" then 0 else if s[0] == ' ' then 0 else 1 + FirstSpace(s[1..])
  }

  lemma {:induction false} BeforeFirstSpace(s: string)
    ensures NoSpace(s[..FirstSpace(s)])
    decreases |s|
  {
    if s != "" && s[0] != ' ' {
      BeforeFirstSpace(s[1..]);
      assert s[..FirstSpace(s)] == [s[0]] + s[1..][..FirstSpace(s[1..])];
    }
  }

  /** strings.SplitN with a space and a positive count. */
  function SplitN(s: string, n: nat): (r: seq<string>)
    requires n > 0
    ensures 0 < |r| <= n
    decreases n
  {
    var i := FirstSpace(s);
    if n == 1 || i == |s| then [s] else [s[..i]] + SplitN(s[i + 1..], n - 1)
  }

  /** All parts but the last are space-free, and so is the last unless the count ran out. */
  lemma {:induction false} SplitParts(s: string, n: nat, k: nat)
    requires n > 0 && k < |SplitN(s, n)|
    ensures k < |SplitN(s, n)| - 1 || |SplitN(s, n)| < n ==> NoSpace(SplitN(s, n)[k])
    decreases n
  {
    var i := FirstSpace(s);
    BeforeFirstSpace(s);
    if n > 1 && i < |s| {
      var rest := SplitN(s[i + 1..], n - 1);
      assert SplitN(s, n) == [s[..i]] + rest;
      if k > 0 { SplitParts(s[i + 1..], n - 1, k - 1); }
    } else {
      assert SplitN(s, n) == [s] && s[..|s|] == s;
    }
  }

  function Join(parts: seq<string>, sep: string): string
    requires parts != []
    decreases |parts|
  {
    if |parts| == 1 then parts[0] else parts[0] + (sep + Join(parts[1..], sep))
  }

  /** Joining undoes splitting. */
  lemma {:induction false} JoinSplit(s: string, n: nat)
    requires n > 0
    ensures Join(SplitN(s, n), " ") == s
    decreases n
  {
    var i := FirstSpace(s);
    if n > 1 && i < |s| {
      var rest := SplitN(s[i + 1..], n - 1);
      JoinSplit(s[i + 1..], n - 1);
      var parts := [s[..i]] + rest;
      assert parts[1..] == rest && parts[0] == s[..i];
      assert Join(parts, " ") == s[..i] + (" " + s[i + 1..]);
    }
  }

  lemma {:induction false} FirstSpaceAfter(a: string, rest: string)
    requires NoSpace(a)
    ensures FirstSpace(a + (" " + rest)) == |a|
    decreases |a|
  {
    if a != "" {
      assert (a + (" " + rest))[1..] == a[1..] + (" " + rest);
      FirstSpaceAfter(a[1..], rest);
    }
  }

  /** A space-free first part comes off whole. */
  lemma SplitFirst(a: string, rest: string, n: nat)
    requires NoSpace(a) && n > 1
    ensures SplitN(a + (" " + rest), n) == [a] + SplitN(rest, n - 1)
  {
    var s := a + (" " + rest);
    FirstSpaceAfter(a, rest);
    assert s[..|a|] == a && s[|a| + 1..] == rest;
  }

  lemma SplitCons(parts: seq<string>)
    requires |parts| > 1 && NoSpace(parts[0])
    requires SplitN(Join(parts[1..], " "), |parts| - 1) == parts[1..]
    ensures SplitN(Join(parts, " "), |parts|) == parts
  {
    SplitFirst(parts[0], Join(parts[1..], " "), |parts|);
    assert parts == [parts[0]] + parts[1..];
  }

  /** All parts but the last are space-free. */
  ghost predicate Parts(parts: seq<string>) {
    parts != [] && forall i :: 0 <= i < |parts| - 1 ==> NoSpace(parts[i])
  }

  lemma TailParts(parts: seq<string>)
    requires Parts(parts) && |parts| > 1
    ensures NoSpace(parts[0]) && Parts(parts[1..])
  {
  }

  /** Splitting undoes joining, when only the last part may hold spaces. */
  lemma {:induction false} SplitJoin(parts: seq<string>)
    requires Parts(parts)
    ensures SplitN(Join(parts, " "), |parts|) == parts
    decreases |parts|
  {
    if |parts| == 1 {
      assert parts == [parts[0]];
    } else {
      var rest := parts[1..];
      TailParts(parts);
      SplitJoin(rest);
      SplitCons(parts);
    }
  }

  // ---- Numbers --------------------------------------------------------------------------

  const DIGITS := "0123456789"

  predicate IsDigit(c: char) {
    '0' <= c <= '9'
  }

  function Digits(n: nat): (s: string)
    ensures s != "" && NoSpace(s) && forall i :: 0 <= i < |s| ==> IsDigit(s[i])
  {
    if n < 10 then [DIGITS[n]] else Digits(n / 10) + [DIGITS[n % 10]]
  }

  /** %d */
  function Itoa(n: int): (s: string)
    ensures NoSpace(s)
  {
    if n < 0 then "-" + Digits(-n) else Digits(n)
  }

  function Value(s: string): nat
    requires forall i :: 0 <= i < |s| ==> IsDigit(s[i])
  {
    if s == "" then 0
    else
      assert IsDigit(s[|s| - 1]);
      Value(s[..|s| - 1]) * 10 + (s[|s| - 1] as int - '0' as int)
  }

  const INT64_LIMIT := 0x8000_0000_0000_0000

  predicate AllDigits(s: string) {
    s != "" && forall i :: 0 <= i < |s| ==> IsDigit(s[i])
  }

  /** strconv.ParseInt(s, 10, 64): an optional sign, at least one digit, 64 bits. */
  function ParseInt(s: string): Option<int> {
    var signed := s != "" && (s[0] == '-' || s[0] == '+');
    var digits := if signed then s[1..] else s;
    if !AllDigits(digits) then None
    else
      var v: int := if signed && s[0] == '-' then 0 - Value(digits) else Value(digits);
      if -INT64_LIMIT <= v < INT64_LIMIT then Some(v) else None
  }

  /** Decimal, the most significant digit first. */
  lemma ValueAppend(s: string, d: nat)
    requires d < 10 && forall i :: 0 <= i < |s| ==> IsDigit(s[i])
    ensures Value(s + [DIGITS[d]]) == 10 * Value(s) + d
  {
    assert (s + [DIGITS[d]])[..|s|] == s;
  }

  lemma {:induction false} ValueOfDigits(n: nat)
    ensures Value(Digits(n)) == n
  {
    if n < 10 {
      assert Digits(n)[..0] == "";
    } else {
      ValueOfDigits(n / 10);
      assert Digits(n)[..|Digits(n)| - 1] == Digits(n / 10);
    }
  }

  lemma ParseItoa(n: int)
    ensures ParseInt(Itoa(n)) == if -0x8000_0000_0000_0000 <= n < 0x8000_0000_0000_0000 then Some(n) else None
  {
    var digits := Digits(if n < 0 then -n else n);
    ValueOfDigits(if n < 0 then -n else n);
    assert AllDigits(digits);
    assert ("-" + digits)[1..] == digits;
    assert IsDigit(digits[0]);
  }

  // ---- The published line and the forwarded payload -------------------------------------

  /** Publish: "0 channel user ts msgId text". */
  function ClientMsg(channel: string, user: string, ts: int, msgId: int, text: string): string {
    Join(["0", channel, user, Itoa(ts), Itoa(msgId), text], " ")
  }

  /** PublishStrMsg: what is forwarded to the peers. */
  function Payload(channel: string, message: string): string {
    channel + (" " + message)
  }

  /** The receiving peer's split. */
  function PeerSplit(payload: string): Option<(string, string)> {
    var params := SplitN(payload, 2);
    if |params| != 2 then None else Some((params[0], params[1]))
  }

  /** The peer recovers the origin's channel and message exactly when the channel is
      space-free. */
  lemma PeerRecovers(channel: string, message: string)
    ensures PeerSplit(Payload(channel, message)) == Some((channel, message)) <==> NoSpace(channel)
  {
    if NoSpace(channel) {
      SplitFirst(channel, message, 2);
      assert SplitN(message, 1) == [message];
    } else if |SplitN(Payload(channel, message), 2)| == 2 {
      SplitParts(Payload(channel, message), 2, 0);
    }
  }

  /** A client can take the line apart again: with a space-free channel and user its six
      parts are what went in, and its numbers parse back. */
  lemma LineSplits(channel: string, user: string, ts: int, msgId: int, text: string)
    requires NoSpace(channel) && NoSpace(user)
    ensures SplitN(ClientMsg(channel, user, ts, msgId, text), 6) == ["0", channel, user, Itoa(ts), Itoa(msgId), text]
  {
    SplitJoin(["0", channel, user, Itoa(ts), Itoa(msgId), text]);
  }

  predicate Int64(n: int) {
    -0x8000_0000_0000_0000 <= n < 0x8000_0000_0000_0000
  }

  /** Two lines are equal only if everything in them is. */
  lemma LineDetermines(
    c: string, u: string, ts: int, id: int, text: string, c': string, u': string, ts': int, id': int, text': string)
    requires NoSpace(c) && NoSpace(u) && NoSpace(c') && NoSpace(u')
    requires Int64(ts) && Int64(id) && Int64(ts') && Int64(id')
    requires ClientMsg(c, u, ts, id, text) == ClientMsg(c', u', ts', id', text')
    ensures (c, u, ts, id, text) == (c', u', ts', id', text')
  {
    LineSplits(c, u, ts, id, text);
    LineSplits(c', u', ts', id', text');
    var p, q := ["0", c, u, Itoa(ts), Itoa(id), text], ["0", c', u', Itoa(ts'), Itoa(id'), text'];
    assert p == q;
    assert p[1] == q[1] && p[2] == q[2] && p[3] == q[3] && p[4] == q[4] && p[5] == q[5];
    ParseItoa(ts);
    ParseItoa(ts');
    ParseItoa(id);
    ParseItoa(id');
  }

  // ---- sendmsg --------------------------------------------------------------------------

  datatype Send = BadParams | Resent(msgId: int) | Published(channel: string, msgId: int, line: string, payload: string)

  /** A message of this user with this id is in the channel's log. */
  predicate Logged(log: seq<Storage.Msg>, channel: string, user: string, msgId: int) {
    exists i :: 0 <= i < |log| && log[i].channel == channel && log[i].uuid == user && log[i].msgId == msgId
  }

  /** The sendmsg command: "resend channel msgId text". A resend of a message that is already
      in the log is acknowledged and not published again. */
  function SendMsg(params: string, user: string, ts: int, log: seq<Storage.Msg>): Send {
    var p := SplitN(params, 4);
    if |p| < 4 then BadParams
    else
      var id := ParseInt(p[2]);
      if id.None? then BadParams
      else if p[0] == "Y" && Logged(log, p[1], user, id.value) then Resent(id.value)
      else
        var line := ClientMsg(p[1], user, ts, id.value, p[3]);
        Published(p[1], id.value, line, Payload(p[1], line))
  }

  /** Which reply a line gets. */
  lemma SendReplies(params: string, user: string, ts: int, log: seq<Storage.Msg>)
    ensures var p, s := SplitN(params, 4), SendMsg(params, user, ts, log);
            && (s.BadParams? <==> |p| < 4 || ParseInt(p[2]).None?)
            && (s.Resent? <==> (
                  && |p| == 4 && ParseInt(p[2]).Some? && p[0] == "Y"
                  && exists i :: 0 <= i < |log| && log[i].channel == p[1] && log[i].uuid == user
                                 && log[i].msgId == ParseInt(p[2]).value))
            && (s.Resent? ==> s.msgId == ParseInt(p[2]).value)
            && (s.Published? ==> s.channel == p[1] && s.msgId == ParseInt(p[2]).value)
  {
  }

  /** The line a client sends. */
  function SendLine(flag: string, channel: string, id: int, text: string): string {
    Join([flag, channel, Itoa(id), text], " ")
  }

  lemma SendLineSplits(flag: string, channel: string, id: int, text: string)
    requires NoSpace(flag) && NoSpace(channel)
    ensures SplitN(SendLine(flag, channel, id, text), 4) == [flag, channel, Itoa(id), text]
  {
    SplitJoin([flag, channel, Itoa(id), text]);
  }

  /** From what a client puts into its line to what everybody gets out: a message that is not a
      logged resend is published in the channel named, under the id given; every peer gets the
      channel and the line, and every reader of the line channel, author, time, id and text. */
  lemma SentIsPublished(
    flag: string, channel: string, id: int, text: string, user: string, ts: int, log: seq<Storage.Msg>)
    requires NoSpace(flag) && NoSpace(channel) && Int64(id)
    requires flag == "Y" ==>
               forall i :: 0 <= i < |log| ==> !(log[i].channel == channel && log[i].uuid == user && log[i].msgId == id)
    ensures var s := SendMsg(SendLine(flag, channel, id, text), user, ts, log);
            && s.Published? && s.channel == channel && s.msgId == id
            && PeerSplit(s.payload) == Some((channel, s.line))
            && (NoSpace(user) ==> SplitN(s.line, 6) == ["0", channel, user, Itoa(ts), Itoa(id), text])
  {
    var line := SendLine(flag, channel, id, text);
    SendLineSplits(flag, channel, id, text);
    ParseItoa(id);
    SendReplies(line, user, ts, log);
    SentIsRecovered(line, user, ts, log);
  }

  /** A resend of a logged message is acknowledged under its id and not published. */
  lemma LoggedIsResent(channel: string, id: int, text: string, user: string, ts: int, log: seq<Storage.Msg>, k: nat)
    requires NoSpace(channel) && Int64(id)
    requires k < |log| && log[k].channel == channel && log[k].uuid == user && log[k].msgId == id
    ensures SendMsg(SendLine("Y", channel, id, text), user, ts, log) == Resent(id)
  {
    SendLineSplits("Y", channel, id, text);
    ParseItoa(id);
    SendReplies(SendLine("Y", channel, id, text), user, ts, log);
  }

  /** Whatever a client sends: if it is published, every peer recovers the origin's channel and
      line, and a client with a space-free id can be told apart as the author. */
  lemma SentIsRecovered(params: string, user: string, ts: int, log: seq<Storage.Msg>)
    requires SendMsg(params, user, ts, log).Published?
    ensures var s := SendMsg(params, user, ts, log);
            && PeerSplit(s.payload) == Some((s.channel, s.line))
            && |SplitN(params, 4)| == 4
            && (NoSpace(user) ==>
                  SplitN(s.line, 6) == ["0", s.channel, user, Itoa(ts), Itoa(s.msgId), SplitN(params, 4)[3]])
            && Int64(s.msgId)
  {
    var p := SplitN(params, 4);
    SplitParts(params, 4, 1);
    SendReplies(params, user, ts, log);
    LineOfParts(p, user, ts, SendMsg(params, user, ts, log));
  }

  lemma LineOfParts(p: seq<string>, user: string, ts: int, s: Send)
    requires |p| == 4 && NoSpace(p[1]) && s.Published? && s.channel == p[1]
    requires s.line == ClientMsg(p[1], user, ts, s.msgId, p[3]) && s.payload == Payload(p[1], s.line)
    ensures PeerSplit(s.payload) == Some((s.channel, s.line))
    ensures NoSpace(user) ==> SplitN(s.line, 6) == ["0", s.channel, user, Itoa(ts), Itoa(s.msgId), p[3]]
  {
    PeerRecovers(s.channel, s.line);
    if NoSpace(user) { LineSplits(s.channel, user, ts, s.msgId, p[3]); }
  }

  /** strings.Split with a space. */
  function SplitAll(s: string): (r: seq<string>)
    ensures r != []
    decreases |s|
  {
    var i := FirstSpace(s);
    if i == |s| then [s] else [s[..i]] + SplitAll(s[i + 1..])
  }

  lemma {:induction false} SplitAllPlain(s: string, k: nat)
    requires k < |SplitAll(s)|
    ensures NoSpace(SplitAll(s)[k])
    decreases |s|
  {
    var i := FirstSpace(s);
    BeforeFirstSpace(s);
    if i == |s| {
      assert s[..|s|] == s;
    } else if k > 0 {
      SplitAllPlain(s[i + 1..], k - 1);
    }
  }

  /** Nothing is lost, and the pieces are in order. */
  lemma {:induction false} JoinSplitAll(s: string)
    ensures Join(SplitAll(s), " ") == s
    decreases |s|
  {
    var i := FirstSpace(s);
    if i < |s| {
      JoinSplitAll(s[i + 1..]);
      JoinCons(s[..i], SplitAll(s[i + 1..]));
      CutAt(s, i);
    }
  }

  lemma CutAt(s: string, i: nat)
    requires i < |s|
    ensures s == s[..i] + ([s[i]] + s[i + 1..])
  {
  }

  lemma JoinCons(a: string, rest: seq<string>)
    requires rest != []
    ensures Join([a] + rest, " ") == a + (" " + Join(rest, " "))
  {
    assert ([a] + rest)[1..] == rest;
  }

  lemma SplitAllFirst(a: string, rest: string)
    requires NoSpace(a)
    ensures SplitAll(a + (" " + rest)) == [a] + SplitAll(rest)
  {
    var s := a + (" " + rest);
    FirstSpaceAfter(a, rest);
    assert s[..|a|] == a && s[|a| + 1..] == rest;
  }

  lemma NoSpaceWhole(a: string)
    requires NoSpace(a)
    ensures FirstSpace(a) == |a|
  {
    assert forall i :: 0 <= i < |a| ==> a[i] in a;
  }

  lemma SplitAllWhole(a: string)
    requires NoSpace(a)
    ensures SplitAll(a) == [a]
  {
    NoSpaceWhole(a);
  }

  /** The user id that setuuid takes from its line. */
  function AcceptedId(line: string): Option<string> {
    var params := SplitAll(line);
    if |params| < 2 || params[1] == "" then None else Some(params[1])
  }

  lemma AcceptedPlain(line: string)
    requires AcceptedId(line).Some?
    ensures AcceptedId(line).value != "" && NoSpace(AcceptedId(line).value)
  {
    SplitAllPlain(line, 1);
  }

  /** The second piece, whatever stands around it; and only a line with a space and something
      right behind the first one is accepted. */
  lemma AcceptedIs(x: string, id: string, more: string)
    requires NoSpace(x) && NoSpace(id)
    ensures AcceptedId(x) == None
    ensures AcceptedId(x + (" " + id)) == if id == "" then None else Some(id)
    ensures AcceptedId(x + (" " + (id + (" " + more)))) == if id == "" then None else Some(id)
  {
    SplitAllWhole(x);
    SplitAllWhole(id);
    SplitAllFirst(x, id);
    SplitAllFirst(x, id + (" " + more));
    SplitAllFirst(id, more);
  }

  /** So for a client that got its id by setuuid, whatever it sends and is published: a reader
      of the line gets back its id, the numbers and the text it sent, and every peer the line. */
  lemma SentByAccepted(line: string, params: string, ts: int, log: seq<Storage.Msg>)
    requires AcceptedId(line).Some? && SendMsg(params, AcceptedId(line).value, ts, log).Published?
    ensures var user := AcceptedId(line).value;
            var s := SendMsg(params, user, ts, log);
            && |SplitN(params, 4)| == 4
            && SplitN(s.line, 6) == ["0", s.channel, user, Itoa(ts), Itoa(s.msgId), SplitN(params, 4)[3]]
            && PeerSplit(s.payload) == Some((s.channel, s.line))
  {
    AcceptedPlain(line);
    SentIsRecovered(params, AcceptedId(line).value, ts, log);
  }

  // ---- The byte scan --------------------------------------------------------------------

  /** The loop that looks for the first space; it reports 0 when there is none. */
  method ScanSpace(params: string) returns (index: nat)
    ensures index == if FirstSpace(params) == |params| then 0 else FirstSpace(params)
  {
    index := 0;
    for i := 0 to |params|
      invariant index == 0 && NoSpace(params[..i])
    {
      if params[i] == ' ' {
        FirstSpaceIs(params, i);
        return i;
      }
      assert params[..i + 1] == params[..i] + [params[i]];
    }
    assert params[..|params|] == params;
  }

  lemma FirstSpaceIs(s: string, i: nat)
    requires i < |s| && s[i] == ' ' && NoSpace(s[..i])
    ensures FirstSpace(s) == i
  {
    assert s == s[..i] + (" " + s[i + 1..]);
    FirstSpaceAfter(s[..i], s[i + 1..]);
  }

  datatype Action = Error | Ignored | Subscribe(channel: string) | Unsubscribe(channel: string)
                  | PushBin(channel: string, message: string) | PushStr(channel: string, message: string)

  /** The peer's command switch. A pushed message is never forwarded again. */
  method ProcessCmd(cmd: string, params: string) returns (a: Action)
    ensures a.Error? <==>
              || params == ""
              || (cmd == "push_bin_msg" && (FirstSpace(params) == |params| || FirstSpace(params) == 0))
              || (cmd == "push_str_msg" && PeerSplit(params).None?)
    ensures a.PushStr? ==> cmd == "push_str_msg" && PeerSplit(params) == Some((a.channel, a.message))
    ensures a.PushBin? ==> cmd == "push_bin_msg" && params == Payload(a.channel, a.message) && NoSpace(a.channel)
    ensures a.Subscribe? ==> cmd == "sub" && a.channel == params
    ensures a.Unsubscribe? ==> cmd == "unsub" && a.channel == params
    ensures a.Ignored? <==> params != "" && cmd !in {"sub", "unsub", "push_bin_msg", "push_str_msg"}
  {
    if |params| == 0 {
      return Error;
    }
    if cmd == "sub" {
      return Subscribe(params);
    } else if cmd == "unsub" {
      return Unsubscribe(params);
    } else if cmd == "push_bin_msg" {
      var index1 := ScanSpace(params);
      if index1 == 0 {
        return Error;
      }
      assert params == params[..index1] + (" " + params[index1 + 1..]);
      BeforeFirstSpace(params);
      return PushBin(params[..index1], params[index1 + 1..]);
    } else if cmd == "push_str_msg" {
      var p := SplitN(params, 2);
      if |p| != 2 {
        return Error;
      }
      return PushStr(p[0], p[1]);
    }
    return Ignored;
  }

  /** A binary message is forwarded under the client's command name, which no peer handles:
      whatever the channel and message, the peer ignores it. Under the name the peer does
      handle, the scan would have recovered channel and message. */
  method BinaryAtPeer(channel: string, message: string) returns (sent: Action, intended: Action)
    requires channel != "" && NoSpace(channel)
    ensures sent == Ignored
    ensures intended == PushBin(channel, message)
  {
    var payload := Payload(channel, message);
    sent := ProcessCmd("vido", payload);
    FirstSpaceAfter(channel, message);
    intended := ProcessCmd("push_bin_msg", payload);
    if intended.PushBin? {
      FirstSpaceAfter(intended.channel, intended.message);
      assert payload[..|channel|] == channel && payload[|channel| + 1..] == message;
      assert payload[..|intended.channel|] == intended.channel;
    }
  }
}
