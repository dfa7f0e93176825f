/**
 Trace capabilities: tokens that carry a grant and its MAC in unpadded base64url (section 5 of RFC 4648),
 and how long a session accepts them.

 The canonical JSON of a grant and the keyed MAC are parameters of the authority.
 */
module TraceTokens {
  import opened Wrappers
  import opened Recovery
  import opened Session
  import SR = SessionRuns
  import SE = SessionEpochs

  type Byte = n: int | 0 <= n < 256

  type Sextet = n: int | 0 <= n < 64

  // ---------------------------------------------------------------- base64url

  function CharOf(n: Sextet): char {
    if n < 26 then ('A' as int + n) as char
    else if n < 52 then ('a' as int + (n - 26)) as char
    else if n < 62 then ('0' as int + (n - 52)) as char
    else if n == 62 then '-'
    else '_'
  }

  function SextetOf(c: char): Option<Sextet> {
    if 'A' <= c <= 'Z' then Some(c as int - 'A' as int)
    else if 'a' <= c <= 'z' then Some(c as int - 'a' as int + 26)
    else if '0' <= c <= '9' then Some(c as int - '0' as int + 52)
    else if c == '-' then Some(62)
    else if c == '_' then Some(63)
    else None
  }

  lemma CharRoundTrip(n: Sextet)
    ensures SextetOf(CharOf(n)) == Some(n)
    ensures CharOf(n) != '=' && CharOf(n) != '.'
  {
  }

  // One to three bytes, as four characters.
  function EncodeGroup(b: seq<Byte>): (r: string)
    requires 1 <= |b| <= 3
    ensures |r| == 4
  {
    var first := CharOf(b[0] / 4);
    if |b| == 1 then [first, CharOf(b[0] % 4 * 16), '=', '=']
    else
      var second := CharOf(b[0] % 4 * 16 + b[1] / 16);
      if |b| == 2 then [first, second, CharOf(b[1] % 16 * 4), '=']
      else [first, second, CharOf(b[1] % 16 * 4 + b[2] / 64), CharOf(b[2] % 64)]
  }

  function Encode(b: seq<Byte>): string {
    if b == [] then ""
    else if |b| <= 3 then EncodeGroup(b)
    else EncodeGroup(b[..3]) + Encode(b[3..])
  }

  // One group of four characters: three bytes, or fewer when it ends in padding.
  function DecodeGroup(s: string): Option<seq<Byte>>
    requires |s| == 4
  {
    var a, b, c, d := SextetOf(s[0]), SextetOf(s[1]), SextetOf(s[2]), SextetOf(s[3]);
    if a.None? || b.None? then None
    else
      var first: Byte := a.value * 4 + b.value / 16;
      if s[2] == '=' && s[3] == '=' then Some([first])
      else if c.None? then None
      else
        var second: Byte := b.value % 16 * 16 + c.value / 4;
        if s[3] == '=' then Some([first, second])
        else if d.None? then None
        else
          var third: Byte := c.value % 4 * 64 + d.value;
          Some([first, second, third])
  }

  function Decode(s: string): Option<seq<Byte>> {
    if |s| == 0 then Some([])
    else if |s| < 4 then None
    else
      var group := DecodeGroup(s[..4]);
      if group.None? then None
      else if |group.value| < 3 && |s| > 4 then None
      else
        var rest := Decode(s[4..]);
        if rest.None? then None else Some(group.value + rest.value)
  }

  // rstrip("=")
  function Stripped(s: string): string {
    if s != "" && s[|s| - 1] == '=' then Stripped(s[..|s| - 1]) else s
  }

  // The missing padding, restored from the length alone.
  function Padded(s: string): string {
    var missing := (4 - |s| % 4) % 4;
    s + seq(missing, _ => '=')
  }

  predicate PlainText(s: string) {
    forall i :: 0 <= i < |s| ==> s[i] != '=' && s[i] != '.'
  }

  lemma StrippedPlain(s: string, tail: string)
    requires PlainText(s) && (tail == "" || tail == "=" || tail == "==")
    ensures Stripped(s + tail) == s
  {
    assert Stripped(s) == s;
    var one := s + "=";
    assert one[..|s|] == s && one[|s|] == '=';
    var two := s + "==";
    assert two[..|one|] == one && two[|one|] == '=';
    assert s + "" == s;
  }

  // The quotients and remainders that split bytes into sextets put them together again.
  lemma SplitBytes(x: Byte, y: Byte, z: Byte)
    ensures x == x / 4 * 4 + x % 4 && y == y / 16 * 16 + y % 16 && z == z / 64 * 64 + z % 64
    ensures (x % 4 * 16 + y / 16) / 16 == x % 4 && (x % 4 * 16 + y / 16) % 16 == y / 16
    ensures (y % 16 * 4 + z / 64) / 4 == y % 16 && (y % 16 * 4 + z / 64) % 4 == z / 64
    ensures (x % 4 * 16) / 16 == x % 4 && (y % 16 * 4) / 4 == y % 16
  {
  }

  lemma GroupRoundTrip(b: seq<Byte>)
    requires 1 <= |b| <= 3
    ensures DecodeGroup(EncodeGroup(b)) == Some(b)
  {
    hide CharOf, SextetOf;
    var x, y, z := b[0], if |b| > 1 then b[1] else 0, if |b| > 2 then b[2] else 0;
    SplitBytes(x, y, z);
    CharRoundTrip(x / 4);
    CharRoundTrip(x % 4 * 16);
    CharRoundTrip(x % 4 * 16 + y / 16);
    CharRoundTrip(y % 16 * 4);
    CharRoundTrip(y % 16 * 4 + z / 64);
    CharRoundTrip(z % 64);
    PadIsNoSextet();
    var g := EncodeGroup(b);
    if |b| == 1 {
      assert DecodeGroup(g) == Some([x]);
      assert b == [x];
    } else if |b| == 2 {
      assert DecodeGroup(g) == Some([x, y]);
      assert b == [x, y];
    } else {
      assert DecodeGroup(g) == Some([x, y, z]);
      assert b == [x, y, z];
    }
  }

  lemma PadIsNoSextet()
    ensures SextetOf('=') == None
  {
  }

  lemma GroupShape(b: seq<Byte>)
    requires 1 <= |b| <= 3
    ensures var g := EncodeGroup(b);
      PlainText(g[..|b| + 1]) && g[|b| + 1..] == (if |b| == 1 then "==" else if |b| == 2 then "=" else "")
  {
    hide CharOf;
    CharRoundTrip(b[0] / 4);
    CharRoundTrip(b[0] % 4 * 16);
    if |b| > 1 {
      CharRoundTrip(b[0] % 4 * 16 + b[1] / 16);
      CharRoundTrip(b[1] % 16 * 4);
    }
    if |b| > 2 {
      CharRoundTrip(b[1] % 16 * 4 + b[2] / 64);
      CharRoundTrip(b[2] % 64);
    }
  }

  lemma PlainAppend(s: string, t: string)
    requires PlainText(s) && PlainText(t)
    ensures PlainText(s + t)
  {
  }

  lemma NothingIsPlain()
    ensures PlainText("")
  {
  }

  // An encoding is plain text followed by the padding its length calls for.
  lemma {:induction false} EncodingShape(b: seq<Byte>) returns (text: string, tail: string)
    ensures Encode(b) == text + tail && PlainText(text)
    ensures tail == "" || tail == "=" || tail == "=="
    ensures |tail| == (4 - |text| % 4) % 4
  {
    hide EncodeGroup, PlainText;
    if b == [] {
      text, tail := "", "";
      assert PlainText("") by { NothingIsPlain(); }
    } else if |b| <= 3 {
      GroupShape(b);
      text, tail := EncodeGroup(b)[..|b| + 1], EncodeGroup(b)[|b| + 1..];
    } else {
      GroupShape(b[..3]);
      var rest;
      rest, tail := EncodingShape(b[3..]);
      var group := EncodeGroup(b[..3]);
      assert group[..4] == group;
      text := group + rest;
      PlainAppend(group, rest);
      assert group + (rest + tail) == text + tail;
      assert (|rest| + 4) % 4 == |rest| % 4;
    }
  }

  lemma {:induction false} DecodeEncoded(b: seq<Byte>)
    ensures Decode(Encode(b)) == Some(b)
  {
    hide EncodeGroup, DecodeGroup;
    if |b| > 3 {
      DecodeEncoded(b[3..]);
      GroupRoundTrip(b[..3]);
      var group := EncodeGroup(b[..3]);
      assert Encode(b)[..4] == group && Encode(b)[4..] == Encode(b[3..]);
      assert b == b[..3] + b[3..];
    } else if |b| > 0 {
      GroupRoundTrip(b);
      assert Encode(b)[..4] == Encode(b) && Encode(b)[4..] == "";
      assert b + [] == b;
    }
  }

  function Urlsafe(b: seq<Byte>): string {
    Stripped(Encode(b))
  }

  function DecodeUrlsafe(s: string): Option<seq<Byte>> {
    Decode(Padded(s))
  }

  /** Stripping the padding loses nothing: it is restored from the length, and the bytes come back. */
  lemma UrlsafeRoundTrip(b: seq<Byte>)
    ensures DecodeUrlsafe(Urlsafe(b)) == Some(b) && PlainText(Urlsafe(b))
  {
    hide Encode, Decode, Stripped;
    var text, tail := EncodingShape(b);
    StrippedPlain(text, tail);
    assert Padded(text) == text + tail;
    DecodeEncoded(b);
  }

  // ---------------------------------------------------------------- grants

  // A null value in a selector names nothing.
  type Selector = map<string, Option<string>>

  // What a token carries; a token may also decode to some other JSON object.
  datatype Grant =
    | Grant(sessionId: string, epoch: int, runId: int, workloadId: string, alias: string, tick: int,
            selectors: seq<Selector>, views: set<string>)
    | OtherObject(text: string)

  // `mac` is the text of the keyed MAC of a body; JSON texts that are no object decode to nothing.
  datatype Authority = Authority(
    toBytes: Grant -> seq<Byte>, ofBytes: seq<Byte> -> Option<Grant>, mac: seq<Byte> -> seq<Byte>)

  ghost predicate Sound(a: Authority) {
    && (forall g :: a.ofBytes(a.toBytes(g)) == Some(g))
    && (forall b, i :: 0 <= i < |a.mac(b)| ==> a.mac(b)[i] < 128)
  }

  predicate IsAscii(b: seq<Byte>) {
    forall i :: 0 <= i < |b| ==> b[i] < 128
  }

  function Issue(a: Authority, g: Grant): string {
    var body := a.toBytes(g);
    Urlsafe(body) + "." + Urlsafe(a.mac(body))
  }

  // Where the first full stop stands, or the length.
  function FirstStop(s: string): (n: nat)
    ensures n <= |s|
    ensures forall i :: 0 <= i < n ==> s[i] != '.'
    ensures n < |s| ==> s[n] == '.'
  {
    if s == "" || s[0] == '.' then 0 else 1 + FirstStop(s[1..])
  }

  function Parse(a: Authority, token: string): Option<Grant> {
    var n := FirstStop(token);
    if n == |token| then None
    else
      var body, mac := DecodeUrlsafe(token[..n]), DecodeUrlsafe(token[n + 1..]);
      if body.None? || mac.None? || !IsAscii(mac.value) then None
      else
        var grant := a.ofBytes(body.value);
        if grant.None? then None
        else if a.mac(a.toBytes(grant.value)) != mac.value then None
        else grant
  }

  lemma FirstStopAt(text: string, rest: string)
    requires PlainText(text)
    ensures FirstStop(text + "." + rest) == |text|
  {
    var s := text + "." + rest;
    assert s[|text|] == '.';
    forall i | 0 <= i < |text| ensures s[i] != '.' {
      assert s[i] == text[i];
    }
  }

  /** What was issued parses to exactly the grant it was issued for. */
  lemma ParseIssued(a: Authority, g: Grant)
    requires Sound(a)
    ensures Parse(a, Issue(a, g)) == Some(g)
  {
    hide Urlsafe, DecodeUrlsafe;
    var body := a.toBytes(g);
    var text, tag := Urlsafe(body), Urlsafe(a.mac(body));
    UrlsafeRoundTrip(body);
    UrlsafeRoundTrip(a.mac(body));
    FirstStopAt(text, tag);
    var token := Issue(a, g);
    assert token[..|text|] == text && token[|text| + 1..] == tag;
  }

  /** Tokens of different grants are different. */
  lemma IssueIsInjective(a: Authority, g: Grant, h: Grant)
    requires Sound(a) && Issue(a, g) == Issue(a, h)
    ensures g == h
  {
    hide Issue, Parse;
    ParseIssued(a, g);
    ParseIssued(a, h);
  }

  ghost predicate IdealMac(a: Authority) {
    forall b, c :: a.mac(b) == a.mac(c) ==> b == c
  }

  /** Under an ideal MAC the tag of a grant opens nothing else: with any other body in front it is refused. */
  lemma TagOpensOneGrant(a: Authority, g: Grant, text: string)
    requires Sound(a) && IdealMac(a) && FirstStop(text) == |text|
    ensures var r := Parse(a, text + "." + Urlsafe(a.mac(a.toBytes(g)))); r == None || r == Some(g)
  {
    hide Urlsafe, DecodeUrlsafe;
    var tag := Urlsafe(a.mac(a.toBytes(g)));
    var token := text + "." + tag;
    UrlsafeRoundTrip(a.mac(a.toBytes(g)));
    assert token[|text|] == '.';
    forall i | 0 <= i < |text| ensures token[i] != '.' {
      assert token[i] == text[i];
    }
    assert FirstStop(token) == |text| && token[|text| + 1..] == tag;
    var r := Parse(a, token);
    if r.Some? {
      assert a.ofBytes(a.toBytes(r.value)) == Some(r.value) && a.ofBytes(a.toBytes(g)) == Some(g);
    }
  }

  // An allowed selector covers a request when it has every value the request names.
  predicate Covers(allowed: Selector, request: Selector) {
    forall key :: key in request && request[key].Some? ==> key in allowed && allowed[key] == request[key]
  }

  // dict.get: a missing key and a null value both read as nothing.
  function ValueOf(s: Selector, key: string): Option<string> {
    if key in s then s[key] else None
  }

  /** An allowed selector covers a request exactly if reading any key the request names gives the same value. */
  lemma CoversExactly(allowed: Selector, request: Selector)
    ensures Covers(allowed, request) <==>
      forall key :: ValueOf(request, key).Some? ==> ValueOf(allowed, key) == ValueOf(request, key)
  {
    if forall key :: ValueOf(request, key).Some? ==> ValueOf(allowed, key) == ValueOf(request, key) {
      forall key | key in request && request[key].Some? ensures key in allowed && allowed[key] == request[key] {
        assert ValueOf(request, key).Some?;
      }
    }
  }

  predicate NamesSomething(request: Selector) {
    exists key :: key in request && request[key].Some?
  }

  predicate Permits(g: Grant, sessionId: string, epoch: int, view: string, selector: Option<Selector>) {
    && g.Grant? && g.sessionId == sessionId && g.epoch == epoch && view in g.views
    && (selector.Some? ==>
          && NamesSomething(selector.value)
          && exists i :: 0 <= i < |g.selectors| && Covers(g.selectors[i], selector.value))
  }

  /** Validation: parse, then compare the session, the epoch, the view and, in order, the selectors. */
  method Validate(a: Authority, token: string, sessionId: string, epoch: int, view: string, selector: Option<Selector>)
    returns (grant: Option<Grant>)
    ensures grant ==
      if Parse(a, token).Some? && Permits(Parse(a, token).value, sessionId, epoch, view, selector) then Parse(a, token)
      else None
  {
    hide Parse, Covers, NamesSomething;
    var g := Parse(a, token);
    if g.None? || g.value.OtherObject? { return None; }
    if g.value.sessionId != sessionId || g.value.epoch != epoch || view !in g.value.views { return None; }
    if selector.None? { return g; }
    if !NamesSomething(selector.value) { return None; }
    for i := 0 to |g.value.selectors|
      invariant forall k :: 0 <= k < i ==> !Covers(g.value.selectors[k], selector.value)
    {
      if Covers(g.value.selectors[i], selector.value) { return g; }
    }
    return None;
  }

  predicate Accepts(a: Authority, token: string, sessionId: string, epoch: int, view: string, selector: Option<Selector>) {
    var g := Parse(a, token);
    g.Some? && Permits(g.value, sessionId, epoch, view, selector)
  }

  // ---------------------------------------------------------------- handles of log queries

  ghost predicate IsFirstAccepted(a: Authority, handles: seq<string>, handle: string, sessionId: string, epoch: int) {
    exists i :: 0 <= i < |handles| && handles[i] == handle && Accepts(a, handle, sessionId, epoch, "trace", None)
      && forall k :: 0 <= k < i ==> !Accepts(a, handles[k], sessionId, epoch, "trace", None)
  }

  function GrantEpoch(g: Grant): Option<int> {
    if g.Grant? then Some(g.epoch) else None
  }

  /** Looks through the handles in order and returns the first that is valid now. */
  method FirstValidHandle(a: Authority, handles: seq<string>, sessionId: string, epoch: int) returns (handle: Option<string>)
    ensures handle.None? <==> forall i :: 0 <= i < |handles| ==> !Accepts(a, handles[i], sessionId, epoch, "trace", None)
    ensures handle.Some? ==> IsFirstAccepted(a, handles, handle.value, sessionId, epoch)
    ensures handle.Some? ==> Parse(a, handle.value).Some? && GrantEpoch(Parse(a, handle.value).value) == Some(epoch)
  {
    hide Parse;
    for i := 0 to |handles|
      invariant forall k :: 0 <= k < i ==> !Accepts(a, handles[k], sessionId, epoch, "trace", None)
    {
      var g := Validate(a, handles[i], sessionId, epoch, "trace", None);
      if g.Some? { return Some(handles[i]); }
    }
    return None;
  }

  // ---------------------------------------------------------------- the life of a token in a session

  /**
   A token issued in a session, at the epoch of step m, is accepted at the epoch of step n exactly if no
   restore, rollback, deploy, resume or close came between, and its grant allows the view and selector.
   */
  lemma TokenLivesUntilEpochEnds(a: Authority, auth: Recovery.Authority, s: Session, tools: seq<Tool>, m: nat,
                                 g: Grant, view: string, selector: Option<Selector>)
    requires Sound(a) && Ready(s) && m <= |tools|
    requires g.Grant? && g.epoch == SR.RunAll(auth, s, tools[..m]).epoch
    ensures Accepts(a, Issue(a, g), g.sessionId, SR.RunAll(auth, s, tools).epoch, view, selector) <==>
      && (forall i :: m <= i < |tools| ==> !SE.EndsEpoch(SR.History(auth, s, tools)[i]))
      && Permits(g, g.sessionId, g.epoch, view, selector)
  {
    hide Parse, Issue, Ready, Covers, NamesSomething, SR.RunAll, SR.History, SE.EndsEpoch;
    ParseIssued(a, g);
    SE.EpochStandsUntilEnded(auth, s, tools, m);
  }
}
