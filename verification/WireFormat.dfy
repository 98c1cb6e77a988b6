/**
  The text form of control messages and of peer exchange records
  (src/transport/rdma_transport.cc): one `key=value` line per field, numbers in
  decimal. Numbers are read the way std::stoi, std::stoul and std::stoull read
  them: leading white space and a sign are accepted, trailing text is ignored,
  and a value without digits or out of range throws.
 */
module WireFormat {
  import opened Types

  const TWO_16 := 0x1_0000
  const TWO_31 := 0x8000_0000
  const TWO_32 := 0x1_0000_0000
  const TWO_64 := 0x1_0000_0000_0000_0000

  datatype Outcome<+R> = Parsed(value: R) | Rejected | Thrown

  // ------------------------------------------------------------- decimal text

  predicate IsDigit(c: char) {
    '0' <= c <= '9'
  }

  predicate AllDigits(s: string) {
    forall i :: 0 <= i < |s| ==> IsDigit(s[i])
  }

  predicate IsSpace(c: char) {
    c == ' ' || '\t' <= c <= '\r'
  }

  function Decimal(n: nat): (s: string)
    ensures s != [] && AllDigits(s)
  {
    var digit := [(n % 10) as char + '0'];
    if n < 10 then digit else Decimal(n / 10) + digit
  }

  function Show(i: int): string {
    if i < 0 then "-" + Decimal(-i) else Decimal(i)
  }

  /** The number a run of digits stands for. */
  function Value(s: string): nat
    requires AllDigits(s)
  {
    if s == [] then 0 else 10 * Value(s[..|s| - 1]) + (s[|s| - 1] - '0') as nat
  }

  /** How many characters at the front of `s` are digits. */
  function DigitRun(s: string): (n: nat)
    ensures n <= |s| && AllDigits(s[..n])
    ensures n < |s| ==> !IsDigit(s[n])
  {
    if s == [] || !IsDigit(s[0]) then 0
    else
      var n := DigitRun(s[1..]);
      assert s[..1 + n] == [s[0]] + s[1..][..n];
      1 + n
  }

  function SkipSpace(s: string): string {
    if s != [] && IsSpace(s[0]) then SkipSpace(s[1..]) else s
  }

  /** Sign and magnitude of the number at the front of `s`, if there is one. */
  function Number(s: string): Option<(bool, nat)>
  {
    var t := SkipSpace(s);
    var signed := t != [] && (t[0] == '-' || t[0] == '+');
    var digits := if signed then t[1..] else t;
    var n := DigitRun(digits);
    if n == 0 then None else Some((signed && t[0] == '-', Value(digits[..n])))
  }

  /** std::stoull, and std::stoul where unsigned long has 64 bits: a minus sign negates modulo 2^64. */
  function Stoull(s: string): Option<nat>
  {
    match Number(s)
    case None => None
    case Some((negative, v)) =>
      if v >= TWO_64 then None else Some(if negative && v > 0 then TWO_64 - v else v)
  }

  function Stoi(s: string): Option<int>
  {
    match Number(s)
    case None => None
    case Some((negative, v)) =>
      var i: int := if negative then 0 - v else v;
      if -TWO_31 <= i < TWO_31 then Some(i) else None
  }

  lemma {:induction false} ValueOfDecimal(n: nat)
    ensures Value(Decimal(n)) == n
  {
    if n >= 10 {
      ValueOfDecimal(n / 10);
      var s := Decimal(n / 10) + [(n % 10) as char + '0'];
      assert s[..|s| - 1] == Decimal(n / 10);
    }
  }

  lemma {:induction false} DigitRunAll(s: string)
    requires AllDigits(s)
    ensures DigitRun(s) == |s|
  {
    if s != [] {
      DigitRunAll(s[1..]);
    }
  }

  /** Reading a printed number gives the number back. */
  lemma ShowRoundTrip(i: int)
    ensures 0 <= i < TWO_64 ==> Stoull(Show(i)) == Some(i)
    ensures -TWO_31 <= i < TWO_31 ==> Stoi(Show(i)) == Some(i)
  {
    hide Decimal, Value, DigitRun;
    var d := Decimal(if i < 0 then -i else i);
    ValueOfDecimal(if i < 0 then -i else i);
    DigitRunAll(d);
    assert d[..|d|] == d;
    if i < 0 {
      assert Show(i)[1..] == d && SkipSpace(Show(i)) == Show(i);
    } else {
      assert IsDigit(d[0]) && SkipSpace(d) == d;
    }
  }

  predicate Without(s: string, c: char) {
    forall i :: 0 <= i < |s| ==> s[i] != c
  }

  lemma ShowIsPlain(i: int, c: char)
    requires c == '\n' || c == '=' || c == ':'
    ensures Show(i) != [] && Without(Show(i), c)
  {
    var d := Decimal(if i < 0 then -i else i);
    assert forall k :: 0 <= k < |d| ==> IsDigit(d[k]);
  }

  // ------------------------------------------------------------ lines and fields

  /** The first position of `c`, or the length. */
  function Find(s: string, c: char): (i: nat)
    ensures i <= |s| && Without(s[..i], c)
    ensures i < |s| ==> s[i] == c
  {
    if s == [] || s[0] == c then 0
    else
      var i := Find(s[1..], c);
      assert s[..1 + i] == [s[0]] + s[1..][..i];
      1 + i
  }

  /** What repeated std::getline calls with this separator return. */
  function Split(s: string, c: char): seq<string>
    decreases |s|
  {
    if s == [] then []
    else
      var i := Find(s, c);
      if i == |s| then [s] else [s[..i]] + Split(s[i + 1..], c)
  }

  lemma {:induction false} FindAfter(a: string, c: char, rest: string)
    requires Without(a, c)
    ensures Find(a + [c] + rest, c) == |a|
  {
    if a != [] {
      assert (a + [c] + rest)[1..] == a[1..] + [c] + rest;
      FindAfter(a[1..], c, rest);
    }
  }

  lemma SplitFirst(a: string, c: char, rest: string)
    requires Without(a, c)
    ensures Split(a + [c] + rest, c) == [a] + Split(rest, c)
  {
    FindAfter(a, c, rest);
    var s := a + [c] + rest;
    assert s[..|a|] == a && s[|a| + 1..] == rest;
  }

  lemma SplitStep(s: string, c: char)
    requires s != []
    ensures var i := Find(s, c);
            && Split(s, c) != [] && Split(s, c)[0] == s[..i]
            && Split(s, c)[1..] == Split(if i == |s| then [] else s[i + 1..], c)
  {
    hide Find;
    var i := Find(s, c);
    if i < |s| {
      assert ([s[..i]] + Split(s[i + 1..], c))[1..] == Split(s[i + 1..], c);
    }
  }

  /** The loop over lines: lines without '=' are skipped, the others set a field or throw. */
  function Fields<R>(lines: seq<string>, r: R, assign: (R, string, string) -> Option<R>): Option<R>
  {
    if lines == [] then Some(r)
    else
      var pos := Find(lines[0], '=');
      if pos == |lines[0]| then Fields(lines[1..], r, assign)
      else
        match assign(r, lines[0][..pos], lines[0][pos + 1..])
        case None => None
        case Some(next) => Fields(lines[1..], next, assign)
  }

  function Line(key: string, value: string): string {
    key + "=" + value + "\n"
  }

  /** Reading a printed line sets its field and goes on with the rest of the text. */
  lemma LineSetsField<R>(key: string, value: string, rest: string, r: R, assign: (R, string, string) -> Option<R>, next: R)
    requires Without(key, '\n') && Without(key, '=') && Without(value, '\n')
    requires assign(r, key, value) == Some(next)
    ensures Fields(Split(Line(key, value) + rest, '\n'), r, assign) == Fields(Split(rest, '\n'), next, assign)
  {
    var line := key + "=" + value;
    assert Without(line, '\n');
    assert Line(key, value) + rest == line + ['\n'] + rest;
    SplitFirst(line, '\n', rest);
    FindAfter(key, '=', value);
    assert line == key + ['='] + value;
    assert line[..|key|] == key && line[|key| + 1..] == value;
    assert ([line] + Split(rest, '\n'))[1..] == Split(rest, '\n');
  }

  // ---------------------------------------------------------- control messages

  /** The message as it is printed: enumerators by value, so a parsed one need not be a named enumerator. */
  datatype WireMessage = WireMessage(
    opcode: int, source: nat, target: nat, id: nat, firstRegion: nat, firstBlock: nat,
    lastRegion: nat, lastBlock: nat, version: nat, mode: int)
  {
    predicate InRange() {
      && -TWO_31 <= opcode < TWO_31 && -TWO_31 <= mode < TWO_31
      && source < TWO_16 && target < TWO_16 && firstRegion < TWO_16 && lastRegion < TWO_16
      && id < TWO_64 && firstBlock < TWO_64 && lastBlock < TWO_64 && version < TWO_64
    }
  }

  const BLANK_MESSAGE := WireMessage(0, INVALID_NODE, INVALID_NODE, 0, 0, 0, 0, 0, 0, 1)

  function Then<T, R>(o: Option<T>, f: T -> R): Option<R> {
    match o
    case None => None
    case Some(v) => Some(f(v))
  }

  function SetMessage(m: WireMessage, key: string, value: string): Option<WireMessage>
  {
    if key == "opcode" then Then(Stoi(value), v => m.(opcode := v))
    else if key == "source_node" then Then(Stoull(value), v => m.(source := v % TWO_16))
    else if key == "target_node" then Then(Stoull(value), v => m.(target := v % TWO_16))
    else if key == "request_id" then Then(Stoull(value), v => m.(id := v))
    else if key == "first_region" then Then(Stoull(value), v => m.(firstRegion := v % TWO_16))
    else if key == "first_block" then Then(Stoull(value), v => m.(firstBlock := v))
    else if key == "last_region" then Then(Stoull(value), v => m.(lastRegion := v % TWO_16))
    else if key == "last_block" then Then(Stoull(value), v => m.(lastBlock := v))
    else if key == "version" then Then(Stoull(value), v => m.(version := v))
    else if key == "mode" then Then(Stoi(value), v => m.(mode := v))
    else Some(m)
  }

  function FormatControlMessage(m: WireMessage): string
  {
    Line("opcode", Show(m.opcode)) + (
      Line("source_node", Show(m.source)) + (
        Line("target_node", Show(m.target)) + (
          Line("request_id", Show(m.id)) + (
            Line("first_region", Show(m.firstRegion)) + FormatBlocks(m)))))
  }

  /** The second half of the text. */
  function FormatBlocks(m: WireMessage): string
  {
    Line("first_block", Show(m.firstBlock)) + (
      Line("last_region", Show(m.lastRegion)) + (
        Line("last_block", Show(m.lastBlock)) + (
          Line("version", Show(m.version)) + (
            Line("mode", Show(m.mode)) + ""))))
  }

  ghost function ParsedMessage(text: string): Outcome<WireMessage>
  {
    match Fields(Split(text, '\n'), BLANK_MESSAGE, SetMessage)
    case None => Thrown
    case Some(m) => if m.source == INVALID_NODE || m.target == INVALID_NODE then Rejected else Parsed(m)
  }

  method ParseControlMessage(text: string) returns (out: Outcome<WireMessage>)
    ensures out == ParsedMessage(text)
  {
    hide SetMessage, Find, Split;
    var msg, rest := BLANK_MESSAGE, text;
    while rest != []
      invariant Fields(Split(rest, '\n'), msg, SetMessage) == Fields(Split(text, '\n'), BLANK_MESSAGE, SetMessage)
      decreases |rest|
    {
      var end := Find(rest, '\n');
      var line := rest[..end];
      SplitStep(rest, '\n');
      rest := if end == |rest| then [] else rest[end + 1..];
      var pos := Find(line, '=');
      if pos == |line| {
        continue;
      }
      var next := SetMessage(msg, line[..pos], line[pos + 1..]);
      if next.None? {
        return Thrown;
      }
      msg := next.value;
    }
    NoLines(msg, SetMessage);
    if msg.source == INVALID_NODE || msg.target == INVALID_NODE {
      return Rejected;
    }
    return Parsed(msg);
  }

  /** Length and first letter tell the keys apart. */
  lemma KeyNames()
    ensures |"opcode"| == 6 && |"source_node"| == 11 && |"target_node"| == 11 && |"request_id"| == 10
    ensures |"first_region"| == 12 && |"first_block"| == 11 && |"last_region"| == 11 && |"last_block"| == 10
    ensures |"version"| == 7 && |"mode"| == 4
    ensures "source_node"[0] == 's' && "target_node"[0] == 't' && "request_id"[0] == 'r'
    ensures "first_block"[0] == 'f' && "last_region"[0] == 'l' && "last_block"[0] == 'l'
  {
  }

  lemma PrintedNumberSets<R>(key: string, i: int, rest: string, r: R, assign: (R, string, string) -> Option<R>, next: R)
    requires Without(key, '\n') && Without(key, '=') && assign(r, key, Show(i)) == Some(next)
    ensures Fields(Split(Line(key, Show(i)) + rest, '\n'), r, assign) == Fields(Split(rest, '\n'), next, assign)
  {
    ShowIsPlain(i, '\n');
    LineSetsField(key, Show(i), rest, r, assign, next);
  }

  /** What the first and the second half of the text set. */
  lemma SecondHalfParses(m: WireMessage, r: WireMessage)
    requires m.InRange()
    ensures Fields(Split(FormatBlocks(m), '\n'), r, SetMessage) ==
            Some(r.(firstBlock := m.firstBlock, lastRegion := m.lastRegion, lastBlock := m.lastBlock,
                 version := m.version, mode := m.mode))
  {
    hide Split, Fields, Show, Line, Stoull, Stoi;
    KeyNames();
    var t5 := Line("mode", Show(m.mode)) + "";
    var t4 := Line("version", Show(m.version)) + t5;
    var t3 := Line("last_block", Show(m.lastBlock)) + t4;
    var t2 := Line("last_region", Show(m.lastRegion)) + t3;
    ShowRoundTrip(m.firstBlock);
    var r1 := r.(firstBlock := m.firstBlock);
    PrintedNumberSets("first_block", m.firstBlock, t2, r, SetMessage, r1);
    ShowRoundTrip(m.lastRegion);
    var r2 := r1.(lastRegion := m.lastRegion);
    PrintedNumberSets("last_region", m.lastRegion, t3, r1, SetMessage, r2);
    ShowRoundTrip(m.lastBlock);
    var r3 := r2.(lastBlock := m.lastBlock);
    PrintedNumberSets("last_block", m.lastBlock, t4, r2, SetMessage, r3);
    ShowRoundTrip(m.version);
    var r4 := r3.(version := m.version);
    PrintedNumberSets("version", m.version, t5, r3, SetMessage, r4);
    ShowRoundTrip(m.mode);
    var r5 := r4.(mode := m.mode);
    PrintedNumberSets("mode", m.mode, "", r4, SetMessage, r5);
    NoLines(r5, SetMessage);
  }

  lemma NoLines<R>(r: R, assign: (R, string, string) -> Option<R>)
    ensures Fields(Split("", '\n'), r, assign) == Some(r)
  {
  }

  lemma FirstHalfParses(m: WireMessage, r: WireMessage)
    requires m.InRange()
    ensures Fields(Split(FormatControlMessage(m), '\n'), r, SetMessage) ==
            Fields(Split(FormatBlocks(m), '\n'),
                   r.(opcode := m.opcode, source := m.source, target := m.target, id := m.id,
                   firstRegion := m.firstRegion), SetMessage)
  {
    hide Split, Fields, Show, Line, Stoull, Stoi, FormatBlocks;
    KeyNames();
    var t5 := Line("first_region", Show(m.firstRegion)) + FormatBlocks(m);
    var t4 := Line("request_id", Show(m.id)) + t5;
    var t3 := Line("target_node", Show(m.target)) + t4;
    var t2 := Line("source_node", Show(m.source)) + t3;
    ShowRoundTrip(m.opcode);
    var r1 := r.(opcode := m.opcode);
    PrintedNumberSets("opcode", m.opcode, t2, r, SetMessage, r1);
    ShowRoundTrip(m.source);
    var r2 := r1.(source := m.source);
    PrintedNumberSets("source_node", m.source, t3, r1, SetMessage, r2);
    ShowRoundTrip(m.target);
    var r3 := r2.(target := m.target);
    PrintedNumberSets("target_node", m.target, t4, r2, SetMessage, r3);
    ShowRoundTrip(m.id);
    var r4 := r3.(id := m.id);
    PrintedNumberSets("request_id", m.id, t5, r3, SetMessage, r4);
    ShowRoundTrip(m.firstRegion);
    PrintedNumberSets("first_region", m.firstRegion, FormatBlocks(m), r4, SetMessage, r4.(firstRegion := m.firstRegion));
  }

  /**
    Round trip: the text of a message parses back to the message, unless its
    source or target is the invalid node, in which case it is rejected.
   */
  lemma ControlMessageRoundTrip(m: WireMessage)
    requires m.InRange()
    ensures ParsedMessage(FormatControlMessage(m)) ==
            if m.source == INVALID_NODE || m.target == INVALID_NODE then Rejected else Parsed(m)
  {
    FirstHalfParses(m, BLANK_MESSAGE);
    SecondHalfParses(m, BLANK_MESSAGE.(opcode := m.opcode, source := m.source, target := m.target, id := m.id,
                     firstRegion := m.firstRegion));
  }

  // ------------------------------------------------------ peer exchange records

  type Gid = g: seq<byte> | |g| == 16 witness seq(16, _ => 0)

  datatype PeerInfo = PeerInfo(
    node: nat, qpn: nat, psn: nat, lid: nat, remoteAddr: nat, rkey: nat, length: nat, hasGid: bool, gid: Gid)
  {
    predicate InRange() {
      && node < TWO_16 && lid < TWO_16 && qpn < TWO_32 && psn < TWO_32 && rkey < TWO_32
      && remoteAddr < TWO_64 && length < TWO_64
    }
  }

  const BLANK_PEER := PeerInfo(INVALID_NODE, 0, 0, 0, 0, 0, 0, false, Zeros(16))

  /** Bytes in decimal, each after a colon. */
  function ColonText(bytes: seq<byte>): string
  {
    if bytes == [] then [] else ":" + Show(bytes[0] as int) + ColonText(bytes[1..])
  }

  /** Bytes in decimal, separated by colons. */
  function GidText(bytes: seq<byte>): string
  {
    if bytes == [] then [] else Show(bytes[0] as int) + ColonText(bytes[1..])
  }

  /** The loop that fills the gid: at most 16 tokens are read, missing ones leave the old byte. */
  function SetGid(tokens: seq<string>, i: nat, gid: Gid): Option<Gid>
    requires i <= 16
  {
    if tokens == [] || i == 16 then Some(gid)
    else
      match Stoull(tokens[0])
      case None => None
      case Some(v) => SetGid(tokens[1..], i + 1, gid[i := (v % 256) as byte])
  }

  function SetPeer(p: PeerInfo, key: string, value: string): Option<PeerInfo>
  {
    if key == "node_id" then Then(Stoull(value), v => p.(node := v % TWO_16))
    else if key == "qpn" then Then(Stoull(value), v => p.(qpn := v % TWO_32))
    else if key == "psn" then Then(Stoull(value), v => p.(psn := v % TWO_32))
    else if key == "lid" then Then(Stoull(value), v => p.(lid := v % TWO_16))
    else if key == "remote_addr" then Then(Stoull(value), v => p.(remoteAddr := v))
    else if key == "rkey" then Then(Stoull(value), v => p.(rkey := v % TWO_32))
    else if key == "length" then Then(Stoull(value), v => p.(length := v))
    else if key == "has_gid" then Some(p.(hasGid := value == "1"))
    else if key == "gid" then Then(SetGid(Split(value, ':'), 0, p.gid), g => p.(gid := g))
    else Some(p)
  }

  function FormatPeerTail(p: PeerInfo): string
  {
    Line("remote_addr", Show(p.remoteAddr)) + (
      Line("rkey", Show(p.rkey)) + (
        Line("length", Show(p.length)) + (
          Line("has_gid", if p.hasGid then "1" else "0") + (
            Line("gid", GidText(p.gid)) + ""))))
  }

  function PeerText(p: PeerInfo): string
  {
    Line("node_id", Show(p.node)) + (
      Line("qpn", Show(p.qpn)) + (
        Line("psn", Show(p.psn)) + (
          Line("lid", Show(p.lid)) + FormatPeerTail(p))))
  }

  ghost function ParsedPeer(text: string): Outcome<PeerInfo>
  {
    match Fields(Split(text, '\n'), BLANK_PEER, SetPeer)
    case None => Thrown
    case Some(p) => if p.node == INVALID_NODE || p.qpn == 0 then Rejected else Parsed(p)
  }

  /** The gid text from byte i on. */
  function GidRest(gid: Gid, i: nat): string
    requires i <= 16
  {
    if i == 0 then GidText(gid) else ColonText(gid[i..])
  }

  method FormatGid(gid: Gid) returns (text: string)
    ensures text == GidText(gid)
  {
    hide Show, GidRest, GidText;
    text := "";
    GidEnds(gid);
    for i := 0 to 16
      invariant text + GidRest(gid, i) == GidText(gid)
    {
      GidStep(gid, i);
      ghost var before, digits, rest := text, Show(gid[i] as int), GidRest(gid, i + 1);
      if i != 0 {
        text := text + ":";
      }
      text := text + Show(gid[i] as int);
      Regroup(before, if i == 0 then "" else ":", digits, rest);
    }
    assert text + [] == text;
  }

  lemma Regroup(a: string, b: string, c: string, d: string)
    ensures a + (b + c + d) == a + b + c + d && a + "" == a
  {
  }

  lemma GidEnds(gid: Gid)
    ensures "" + GidRest(gid, 0) == GidText(gid) && GidRest(gid, 16) == []
  {
  }

  lemma GidStep(gid: Gid, i: nat)
    requires i < 16
    ensures GidRest(gid, i) == (if i == 0 then "" else ":") + Show(gid[i] as int) + GidRest(gid, i + 1)
  {
    hide Show;
    assert gid[i..][1..] == gid[i + 1..];
  }

  method FormatExchangeInfo(p: PeerInfo) returns (text: string)
    ensures text == PeerText(p)
  {
    hide Show, Line, GidText;
    var gid := FormatGid(p.gid);
    text := Line("gid", gid) + "";
    text := Line("has_gid", if p.hasGid then "1" else "0") + text;
    text := Line("length", Show(p.length)) + text;
    text := Line("rkey", Show(p.rkey)) + text;
    text := Line("remote_addr", Show(p.remoteAddr)) + text;
    text := Line("lid", Show(p.lid)) + text;
    text := Line("psn", Show(p.psn)) + text;
    text := Line("qpn", Show(p.qpn)) + text;
    text := Line("node_id", Show(p.node)) + text;
  }

  method ParseExchangeInfo(text: string) returns (out: Outcome<PeerInfo>)
    ensures out == ParsedPeer(text)
  {
    hide SetPeer, Find, Split;
    var info, rest := BLANK_PEER, text;
    while rest != []
      invariant Fields(Split(rest, '\n'), info, SetPeer) == Fields(Split(text, '\n'), BLANK_PEER, SetPeer)
      decreases |rest|
    {
      var end := Find(rest, '\n');
      var line := rest[..end];
      SplitStep(rest, '\n');
      rest := if end == |rest| then [] else rest[end + 1..];
      var pos := Find(line, '=');
      if pos == |line| {
        continue;
      }
      var next := SetPeer(info, line[..pos], line[pos + 1..]);
      if next.None? {
        return Thrown;
      }
      info := next.value;
    }
    NoLines(info, SetPeer);
    if info.node == INVALID_NODE || info.qpn == 0 {
      return Rejected;
    }
    return Parsed(info);
  }

  // ---------------------------------------------------------- gid round trip

  function Tokens(bytes: seq<byte>): (ts: seq<string>)
    ensures |ts| == |bytes| && forall i :: 0 <= i < |bytes| ==> ts[i] == Show(bytes[i] as int)
  {
    seq(|bytes|, i requires 0 <= i < |bytes| => Show(bytes[i] as int))
  }

  lemma {:induction false} SplitGid(bytes: seq<byte>)
    ensures Split(GidText(bytes), ':') == Tokens(bytes)
  {
    hide Show;
    if bytes != [] {
      var head, rest := Show(bytes[0] as int), bytes[1..];
      ShowIsPlain(bytes[0] as int, ':');
      if rest == [] {
        assert GidText(bytes) == head;
        assert Find(head, ':') == |head|;
        assert Tokens(bytes) == [head];
      } else {
        assert ColonText(rest) == [':'] + GidText(rest);
        assert GidText(bytes) == head + [':'] + GidText(rest);
        SplitFirst(head, ':', GidText(rest));
        SplitGid(rest);
        assert Tokens(bytes) == [head] + Tokens(rest);
      }
    }
  }

  lemma {:induction false} SetGidAll(bytes: Gid, i: nat, gid: Gid)
    requires i <= 16 && gid[..i] == bytes[..i]
    ensures SetGid(Tokens(bytes)[i..], i, gid) == Some(bytes)
    decreases 16 - i
  {
    hide Show, Stoull;
    if i < 16 {
      ShowRoundTrip(bytes[i] as int);
      assert Tokens(bytes)[i..][1..] == Tokens(bytes)[i + 1..];
      SetGidAll(bytes, i + 1, gid[i := bytes[i]]);
    } else {
      assert gid[..16] == gid && bytes[..16] == bytes;
    }
  }

  lemma {:induction false} GidIsPlain(bytes: seq<byte>)
    ensures Without(ColonText(bytes), '\n') && Without(GidText(bytes), '\n')
  {
    if bytes != [] {
      ShowIsPlain(bytes[0] as int, '\n');
      GidIsPlain(bytes[1..]);
    }
  }

  lemma PeerKeyNames()
    ensures |"node_id"| == 7 && |"qpn"| == 3 && |"psn"| == 3 && |"lid"| == 3 && |"remote_addr"| == 11
    ensures |"rkey"| == 4 && |"length"| == 6 && |"has_gid"| == 7 && |"gid"| == 3
    ensures "qpn"[0] == 'q' && "psn"[0] == 'p' && "lid"[0] == 'l' && "gid"[0] == 'g'
    ensures "node_id"[0] == 'n' && "has_gid"[0] == 'h'
  {
  }

  lemma PeerTailParses(p: PeerInfo, r: PeerInfo)
    requires p.InRange()
    ensures Fields(Split(FormatPeerTail(p), '\n'), r, SetPeer) ==
            Some(r.(remoteAddr := p.remoteAddr, rkey := p.rkey, length := p.length, hasGid := p.hasGid, gid := p.gid))
  {
    hide Split, Fields, Show, Line, Stoull, SetGid, GidText, Tokens;
    PeerKeyNames();
    var flag := if p.hasGid then "1" else "0";
    var t5 := Line("gid", GidText(p.gid)) + "";
    var t4 := Line("has_gid", flag) + t5;
    var t3 := Line("length", Show(p.length)) + t4;
    var t2 := Line("rkey", Show(p.rkey)) + t3;
    ShowRoundTrip(p.remoteAddr);
    var r1 := r.(remoteAddr := p.remoteAddr);
    PrintedNumberSets("remote_addr", p.remoteAddr, t2, r, SetPeer, r1);
    ShowRoundTrip(p.rkey);
    var r2 := r1.(rkey := p.rkey);
    PrintedNumberSets("rkey", p.rkey, t3, r1, SetPeer, r2);
    ShowRoundTrip(p.length);
    var r3 := r2.(length := p.length);
    PrintedNumberSets("length", p.length, t4, r2, SetPeer, r3);
    var r4 := r3.(hasGid := p.hasGid);
    assert flag == "1" <==> p.hasGid by {
      assert "0"[0] != "1"[0];
    }
    LineSetsField("has_gid", flag, t5, r3, SetPeer, r4);
    GidIsPlain(p.gid);
    SplitGid(p.gid);
    SetGidAll(p.gid, 0, r4.gid);
    assert Tokens(p.gid)[0..] == Tokens(p.gid);
    LineSetsField("gid", GidText(p.gid), "", r4, SetPeer, r4.(gid := p.gid));
    NoLines(r4.(gid := p.gid), SetPeer);
  }

  lemma PeerHeadParses(p: PeerInfo, r: PeerInfo)
    requires p.InRange()
    ensures Fields(Split(PeerText(p), '\n'), r, SetPeer) ==
            Fields(Split(FormatPeerTail(p), '\n'), r.(node := p.node, qpn := p.qpn, psn := p.psn, lid := p.lid), SetPeer)
  {
    hide Split, Fields, Show, Line, Stoull, SetGid, FormatPeerTail;
    PeerKeyNames();
    var t4 := Line("lid", Show(p.lid)) + FormatPeerTail(p);
    var t3 := Line("psn", Show(p.psn)) + t4;
    var t2 := Line("qpn", Show(p.qpn)) + t3;
    ShowRoundTrip(p.node);
    var r1 := r.(node := p.node);
    PrintedNumberSets("node_id", p.node, t2, r, SetPeer, r1);
    ShowRoundTrip(p.qpn);
    var r2 := r1.(qpn := p.qpn);
    PrintedNumberSets("qpn", p.qpn, t3, r1, SetPeer, r2);
    ShowRoundTrip(p.psn);
    var r3 := r2.(psn := p.psn);
    PrintedNumberSets("psn", p.psn, t4, r2, SetPeer, r3);
    ShowRoundTrip(p.lid);
    PrintedNumberSets("lid", p.lid, FormatPeerTail(p), r3, SetPeer, r3.(lid := p.lid));
  }

  /**
    Round trip: the text of a record parses back to the record with all 16 gid
    bytes, unless the node is invalid or the queue pair number is zero.
   */
  lemma ExchangeInfoRoundTrip(p: PeerInfo)
    requires p.InRange()
    ensures ParsedPeer(PeerText(p)) == if p.node == INVALID_NODE || p.qpn == 0 then Rejected else Parsed(p)
  {
    hide Split, Fields, SetPeer, PeerText, FormatPeerTail;
    PeerHeadParses(p, BLANK_PEER);
    PeerTailParses(p, BLANK_PEER.(node := p.node, qpn := p.qpn, psn := p.psn, lid := p.lid));
  }
}
