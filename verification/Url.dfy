/** Canonical URLs: normalize_url of app/search/aggregator.py, on the URL functions of Python 3.12.

A text is the sequence of its UTF-8 bytes, written as characters below 256. */
module Url {
  import Records

  type Byte = c: char | c as int < 256 witness 'a'
  type Text = seq<Byte>

  datatype Pair = Pair(name: Text, value: Text)

  datatype Parts = Parts(scheme: Text, netloc: Text, path: Text, query: Text, fragment: Text)

  const TRACKING_PARAMS: set<string> :=
    {"utm_source", "utm_medium", "utm_campaign", "utm_term", "utm_content", "gclid", "fbclid", "ref"}

  /** Schemes whose URLs are written with an authority even if it is empty. */
  const USES_NETLOC: set<string> :=
    {"ftp", "http", "gopher", "nntp", "telnet", "imap", "wais", "file", "mms", "https", "shttp", "snews", "prospero",
     "rtsp", "rtsps", "rtspu", "rsync", "svn", "svn+ssh", "sftp", "nfs", "git", "git+ssh", "ws", "wss", "itms-services"}

  // ---- taking a URL apart and putting it together ----

  /** The first place of a byte, or the length. */
  function Find(s: Text, c: Byte): (n: nat)
    ensures n <= |s| && (n < |s| ==> s[n] == c)
    ensures forall k :: 0 <= k < n ==> s[k] != c
  {
    if s == [] || s[0] == c then 0 else 1 + Find(s[1..], c)
  }

  predicate EndsHost(c: Byte) {
    c == '/' || c == '?' || c == '#'
  }

  function HostLength(s: Text): (n: nat)
    ensures n <= |s| && (n < |s| ==> EndsHost(s[n]))
    ensures forall k :: 0 <= k < n ==> !EndsHost(s[k])
  {
    if s == [] || EndsHost(s[0]) then 0 else 1 + HostLength(s[1..])
  }

  predicate Letter(c: Byte) {
    'a' <= c <= 'z' || 'A' <= c <= 'Z'
  }

  predicate Digit(c: Byte) {
    '0' <= c <= '9'
  }

  predicate SchemeChar(c: Byte) {
    Letter(c) || Digit(c) || c == '+' || c == '-' || c == '.'
  }

  predicate IsScheme(s: Text) {
    s != [] && Letter(s[0]) && forall k :: 0 <= k < |s| ==> SchemeChar(s[k])
  }

  function LowerByte(c: Byte): Byte {
    if 'A' <= c <= 'Z' then (c as int + 32) as char else c
  }

  function Lower(s: Text): (r: Text)
    ensures |r| == |s| && forall k :: 0 <= k < |s| ==> r[k] == LowerByte(s[k])
    ensures forall k :: 0 <= k < |s| ==> r[k] as int == s[k] as int + if 65 <= s[k] as int <= 90 then 32 else 0
  {
    if s == [] then [] else [LowerByte(s[0])] + Lower(s[1..])
  }

  /** Length of the scheme a URL starts with, if it has one. */
  function SchemeLength(url: Text): (n: nat)
    ensures n < |url| || n == 0
  {
    var n := Find(url, ':');
    if n < |url| && IsScheme(url[..n]) then n else 0
  }

  /** What follows scheme and colon. */
  function AfterScheme(url: Text): Text {
    if SchemeLength(url) == 0 then url else url[SchemeLength(url) + 1..]
  }

  function Netloc(rest: Text): Text {
    if "//" <= rest then rest[2..2 + HostLength(rest[2..])] else []
  }

  function AfterNetloc(rest: Text): Text {
    if "//" <= rest then rest[2 + HostLength(rest[2..])..] else rest
  }

  function BeforeMark(s: Text, mark: Byte): Text {
    s[..Find(s, mark)]
  }

  function AfterMark(s: Text, mark: Byte): Text {
    if Find(s, mark) < |s| then s[Find(s, mark) + 1..] else []
  }

  /** `urlsplit`: the fragment is cut off first, then the query. */
  function Split(url: Text): Parts {
    var rest := AfterScheme(url);
    var tail := AfterNetloc(rest);
    var body := BeforeMark(tail, '#');
    Parts(Lower(url[..SchemeLength(url)]), Netloc(rest),
          BeforeMark(body, '?'), AfterMark(body, '?'), AfterMark(tail, '#'))
  }

  function Prefixed(mark: Byte, s: Text): Text {
    if s == [] then [] else [mark] + s
  }

  function Tail(p: Parts): Text {
    p.path + Prefixed('?', p.query) + Prefixed('#', p.fragment)
  }

  function Hosted(netloc: Text, tail: Text): Text {
    "//" + netloc + tail
  }

  function Headed(scheme: Text, rest: Text): Text {
    if scheme == [] then rest else scheme + ":" + rest
  }

  /** Is an authority written, if only an empty one? */
  predicate Slashed(p: Parts) {
    || p.netloc != []
    || (|p.path| >= 2 && p.path[0] == '/' && p.path[1] == '/')
    || (p.scheme in USES_NETLOC && (p.path == [] || p.path[0] == '/'))
  }

  /** `urlunsplit`. */
  function Unsplit(p: Parts): Text {
    var slash: Text := if p.netloc != [] && p.path != [] && p.path[0] != '/' then "/" else "";
    Headed(p.scheme, if Slashed(p) then Hosted(p.netloc, slash + Tail(p)) else Tail(p))
  }

  /** The parts a URL can have. */
  predicate WellFormed(p: Parts) {
    && (p.scheme == [] || IsScheme(p.scheme))
    && (forall k :: 0 <= k < |p.netloc| ==> !EndsHost(p.netloc[k]))
    && '?' !in p.path && '#' !in p.path && '#' !in p.query
    && (p.netloc != [] ==> p.path == [] || p.path[0] == '/')
    && (p.netloc == [] && p.scheme == [] ==> SchemeLength(p.path) == 0)
  }

  lemma FindAt(s: Text, c: Byte, n: nat)
    requires n <= |s| && (n < |s| ==> s[n] == c) && forall k :: 0 <= k < n ==> s[k] != c
    ensures Find(s, c) == n
  {
  }

  lemma HostLengthAt(s: Text, n: nat)
    requires n <= |s| && (n < |s| ==> EndsHost(s[n])) && forall k :: 0 <= k < n ==> !EndsHost(s[k])
    ensures HostLength(s) == n
  {
  }

  lemma SchemeWellFormed(url: Text)
    ensures var scheme := Lower(url[..SchemeLength(url)]);
            (scheme == [] || IsScheme(scheme)) && Lower(scheme) == scheme
  {
    var given := url[..SchemeLength(url)];
    assert given == [] || IsScheme(given);
    assert Lower(Lower(given)) == Lower(given);
  }

  lemma NetlocWellFormed(rest: Text)
    ensures forall k :: 0 <= k < |Netloc(rest)| ==> !EndsHost(Netloc(rest)[k])
    ensures "//" <= rest ==> AfterNetloc(rest) == [] || EndsHost(AfterNetloc(rest)[0])
    ensures !("//" <= rest) ==> Netloc(rest) == [] && AfterNetloc(rest) == rest
  {
  }

  /** Cutting a text without a scheme short gives it none. */
  lemma NoSchemeInPrefix(s: Text, prefix: Text)
    requires prefix <= s && SchemeLength(s) == 0
    ensures SchemeLength(prefix) == 0
  {
    var n := Find(prefix, ':');
    if n < |prefix| {
      FindAt(s, ':', n);
      assert prefix[..n] == s[..n];
    }
  }

  lemma BeforeMarkMeans(s: Text, mark: Byte)
    ensures BeforeMark(s, mark) <= s && mark !in BeforeMark(s, mark)
    ensures forall c :: c !in s ==> c !in BeforeMark(s, mark) && c !in AfterMark(s, mark)
  {
  }

  /** A path without a scheme, after a rest that has none. */
  lemma PathWellFormed(rest: Text, path: Text)
    requires path <= AfterNetloc(rest) && SchemeLength(rest) == 0
    ensures SchemeLength(path) == 0
  {
    if "//" <= rest {
      NetlocWellFormed(rest);
      assert path == [] || EndsHost(path[0]);
    } else {
      NoSchemeInPrefix(rest, path);
    }
  }

  lemma SplitWellFormed(url: Text)
    ensures WellFormed(Split(url)) && Lower(Split(url).scheme) == Split(url).scheme
  {
    var p, rest := Split(url), AfterScheme(url);
    var tail := AfterNetloc(rest);
    SchemeWellFormed(url);
    NetlocWellFormed(rest);
    BeforeMarkMeans(tail, '#');
    BeforeMarkMeans(BeforeMark(tail, '#'), '?');
    assert p.path <= tail && |p.scheme| == SchemeLength(url);
    if p.scheme == [] {
      PathWellFormed(rest, p.path);
    }
    hide SchemeLength, AfterScheme, Netloc, AfterNetloc, Find, IsScheme, Lower, BeforeMark, AfterMark;
  }

  /** The first mark after a text without it. */
  lemma MarkAt(head: Text, mark: Byte, s: Text)
    requires mark !in head
    ensures var whole := head + ([mark] + s);
            Find(whole, mark) == |head| && whole[..|head|] == head && whole[|head| + 1..] == s
  {
    var whole := head + ([mark] + s);
    assert whole[..|head|] == head && whole[|head| + 1..] == s;
    FindAt(whole, mark, |head|);
  }

  lemma MarkSplits(head: Text, mark: Byte, s: Text)
    requires mark !in head
    ensures BeforeMark(head + Prefixed(mark, s), mark) == head && AfterMark(head + Prefixed(mark, s), mark) == s
  {
    if s == [] {
      assert head + [] == head;
      FindAt(head, mark, |head|);
    } else {
      MarkAt(head, mark, s);
    }
  }

  lemma SchemeSplits(scheme: Text, rest: Text)
    requires if scheme == [] then SchemeLength(rest) == 0 else IsScheme(scheme)
    ensures var url := Headed(scheme, rest);
            url[..SchemeLength(url)] == scheme && AfterScheme(url) == rest
  {
    var url := Headed(scheme, rest);
    if scheme != [] {
      assert url[..|scheme|] == scheme;
      FindAt(url, ':', |scheme|);
      assert url[|scheme| + 1..] == rest;
    }
  }

  lemma NetlocSplits(netloc: Text, tail: Text)
    requires forall k :: 0 <= k < |netloc| ==> !EndsHost(netloc[k])
    requires tail == [] || EndsHost(tail[0])
    ensures Netloc(Hosted(netloc, tail)) == netloc && AfterNetloc(Hosted(netloc, tail)) == tail
  {
    var rest := Hosted(netloc, tail);
    assert rest[2..] == netloc + tail;
    HostLengthAt(rest[2..], |netloc|);
  }

  lemma UnsplitSlashed(p: Parts)
    requires WellFormed(p)
    ensures Unsplit(p) == Headed(p.scheme, if Slashed(p) then Hosted(p.netloc, Tail(p)) else Tail(p))
  {
    assert [] + Tail(p) == Tail(p);
  }

  /** What begins with a byte no scheme has brings no scheme. */
  lemma NoSchemeAfter(path: Text, rest: Text)
    requires SchemeLength(path) == 0 && rest != [] && !SchemeChar(rest[0]) && rest[0] != ':'
    ensures SchemeLength(path + rest) == 0
  {
    var whole := path + rest;
    var n := Find(whole, ':');
    assert forall k :: 0 <= k < |path| ==> whole[k] == path[k];
    if n < |path| {
      FindAt(path, ':', n);
      assert whole[..n] == path[..n];
    } else if n < |whole| {
      assert whole[|path|] == rest[0];
      assert !SchemeChar(whole[..n][|path|]);
    }
  }

  /** A query or fragment after a path brings no scheme. */
  lemma NoSchemeInTail(p: Parts)
    requires SchemeLength(p.path) == 0
    ensures SchemeLength(Tail(p)) == 0
  {
    var rest := Prefixed('?', p.query) + Prefixed('#', p.fragment);
    assert Tail(p) == p.path + rest;
    hide SchemeLength, Tail;
    if rest == [] {
      assert p.path + rest == p.path;
    } else {
      assert rest[0] == '?' || rest[0] == '#';
      NoSchemeAfter(p.path, rest);
    }
  }

  lemma RestSplits(p: Parts)
    requires WellFormed(p)
    ensures var rest := if Slashed(p) then Hosted(p.netloc, Tail(p)) else Tail(p);
            && Netloc(rest) == p.netloc && AfterNetloc(rest) == Tail(p)
            && (p.scheme == [] ==> SchemeLength(rest) == 0)
  {
    if Slashed(p) {
      assert Tail(p) == [] || EndsHost(Tail(p)[0]);
      NetlocSplits(p.netloc, Tail(p));
      assert Hosted(p.netloc, Tail(p))[0] == '/';
    } else {
      assert Tail(p) == p.path + (Prefixed('?', p.query) + Prefixed('#', p.fragment));
      assert |Tail(p)| >= 2 ==> !(Tail(p)[0] == '/' && Tail(p)[1] == '/');
      if p.scheme == [] {
        NoSchemeInTail(p);
      }
    }
  }

  lemma TailReads(p: Parts)
    requires WellFormed(p)
    ensures var body := BeforeMark(Tail(p), '#');
            && BeforeMark(body, '?') == p.path && AfterMark(body, '?') == p.query
            && AfterMark(Tail(p), '#') == p.fragment
  {
    var body := p.path + Prefixed('?', p.query);
    assert '#' !in body;
    hide BeforeMark, AfterMark;
    MarkSplits(body, '#', p.fragment);
    MarkSplits(p.path, '?', p.query);
  }

  /** Taking apart undoes putting together, up to the case of the scheme. */
  lemma SplitUnsplit(p: Parts)
    requires WellFormed(p)
    ensures Split(Unsplit(p)) == p.(scheme := Lower(p.scheme))
  {
    UnsplitSlashed(p);
    RestSplits(p);
    TailReads(p);
    var rest := if Slashed(p) then Hosted(p.netloc, Tail(p)) else Tail(p);
    assert if p.scheme == [] then SchemeLength(rest) == 0 else IsScheme(p.scheme);
    hide SchemeLength, AfterScheme, Netloc, AfterNetloc, BeforeMark, AfterMark;
    hide Headed, Hosted, Tail, Unsplit, Slashed, WellFormed, IsScheme, Lower;
    SchemeSplits(p.scheme, rest);
  }

  // ---- form encoding ----

  predicate Unreserved(c: Byte) {
    Letter(c) || Digit(c) || c == '_' || c == '.' || c == '-' || c == '~'
  }

  function HexDigit(n: nat): Byte
    requires n < 16
  {
    if n < 10 then (n + 48) as char else (n + 55) as char
  }

  /** The value of a hexadecimal digit in either case. */
  function HexValue(c: Byte): (n: nat)
    ensures n <= 16
  {
    if '0' <= c <= '9' then c as int - 48
    else if 'A' <= c <= 'F' then c as int - 55
    else if 'a' <= c <= 'f' then c as int - 87
    else 16
  }

  function Encoded(c: Byte): Text {
    if Unreserved(c) then [c]
    else if c == ' ' then "+"
    else ['%', HexDigit(c as int / 16), HexDigit(c as int % 16)]
  }

  /** `quote_plus` with no safe characters of its own. */
  function QuotePlus(s: Text): Text {
    if s == [] then [] else Encoded(s[0]) + QuotePlus(s[1..])
  }

  function Unplus(s: Text): Text {
    if s == [] then [] else [if s[0] == '+' then ' ' else s[0]] + Unplus(s[1..])
  }

  predicate Escape(s: Text) {
    |s| >= 3 && s[0] == '%' && HexValue(s[1]) < 16 && HexValue(s[2]) < 16
  }

  /** `unquote`: a percent sign that starts no escape stands for itself. */
  function Unquote(s: Text): Text {
    if s == [] then []
    else if Escape(s) then [(HexValue(s[1]) * 16 + HexValue(s[2])) as char] + Unquote(s[3..])
    else [s[0]] + Unquote(s[1..])
  }

  function Decode(s: Text): Text {
    Unquote(Unplus(s))
  }

  lemma {:induction false} UnplusAppend(a: Text, b: Text)
    ensures Unplus(a + b) == Unplus(a) + Unplus(b)
  {
    if a == [] {
      assert a + b == b;
    } else {
      assert (a + b)[1..] == a[1..] + b;
      UnplusAppend(a[1..], b);
    }
  }

  lemma EscapeUnplus(hi: Byte, lo: Byte)
    requires hi != '+' && lo != '+'
    ensures Unplus(['%', hi, lo]) == ['%', hi, lo]
  {
    assert ['%', hi, lo] == ['%'] + ([hi] + [lo]);
    UnplusAppend(['%'], [hi] + [lo]);
    UnplusAppend([hi], [lo]);
  }

  lemma HexRoundTrip(c: Byte)
    ensures var hi, lo := HexDigit(c as int / 16), HexDigit(c as int % 16);
            HexValue(hi) < 16 && HexValue(lo) < 16 && (HexValue(hi) * 16 + HexValue(lo)) as char == c
  {
  }

  /** One byte's encoding decodes to that byte, whatever follows. */
  lemma DecodeEncoded(c: Byte, rest: Text)
    ensures Unquote(Unplus(Encoded(c)) + rest) == [c] + Unquote(rest)
  {
    if Unreserved(c) || c == ' ' {
      assert Unplus(Encoded(c)) == [c];
      assert ([c] + rest)[1..] == rest;
    } else {
      HexRoundTrip(c);
      var hi, lo := HexDigit(c as int / 16), HexDigit(c as int % 16);
      EscapeUnplus(hi, lo);
      hide HexValue, HexDigit, Unplus, Unreserved;
      assert (['%', hi, lo] + rest)[3..] == rest;
    }
  }

  lemma {:induction false} DecodeQuotePlus(s: Text)
    ensures Decode(QuotePlus(s)) == s
  {
    if s != [] {
      UnplusAppend(Encoded(s[0]), QuotePlus(s[1..]));
      DecodeEncoded(s[0], Unplus(QuotePlus(s[1..])));
      DecodeQuotePlus(s[1..]);
    }
  }

  /** Bytes an encoded name or value can contain. */
  predicate Plain(c: Byte) {
    Unreserved(c) || c == '+' || c == '%'
  }

  lemma {:induction false} QuotePlusPlain(s: Text)
    ensures forall c :: c in QuotePlus(s) ==> Plain(c)
    ensures s != [] ==> QuotePlus(s) != []
  {
    if s != [] {
      QuotePlusPlain(s[1..]);
    }
  }

  // ---- queries ----

  function Fields(query: Text): (r: seq<Text>)
    ensures r != []
  {
    var n := Find(query, '&');
    if n == |query| then [query] else [query[..n]] + Fields(query[n + 1..])
  }

  /** A field without an equals sign, or with nothing after it, yields no pair. */
  function FieldPairs(field: Text): seq<Pair> {
    var n := Find(field, '=');
    if n + 1 >= |field| then [] else [Pair(Decode(field[..n]), Decode(field[n + 1..]))]
  }

  function PairsOf(fields: seq<Text>): seq<Pair> {
    if fields == [] then [] else FieldPairs(fields[0]) + PairsOf(fields[1..])
  }

  /** `parse_qsl`. */
  function ParseQuery(query: Text): seq<Pair> {
    PairsOf(Fields(query))
  }

  function PairText(p: Pair): Text {
    QuotePlus(p.name) + (['='] + QuotePlus(p.value))
  }

  function Texts(ps: seq<Pair>): seq<Text> {
    if ps == [] then [] else [PairText(ps[0])] + Texts(ps[1..])
  }

  function JoinFields(fields: seq<Text>): Text {
    if fields == [] then [] else if |fields| == 1 then fields[0] else fields[0] + (['&'] + JoinFields(fields[1..]))
  }

  /** `urlencode`. */
  function EncodeQuery(ps: seq<Pair>): Text {
    JoinFields(Texts(ps))
  }

  lemma {:induction false} FieldsOfJoin(fields: seq<Text>)
    requires fields != [] && forall f :: f in fields ==> '&' !in f
    ensures Fields(JoinFields(fields)) == fields
  {
    assert '&' !in fields[0];
    if |fields| == 1 {
      FindAt(fields[0], '&', |fields[0]|);
    } else {
      MarkAt(fields[0], '&', JoinFields(fields[1..]));
      hide Find;
      FieldsOfJoin(fields[1..]);
    }
  }

  lemma EqualsSplits(name: Text, value: Text)
    requires forall c :: c in name + value ==> Plain(c)
    ensures var field := name + (['='] + value);
            && Find(field, '=') == |name| && field[..|name|] == name && field[|name| + 1..] == value
            && '&' !in field && '#' !in field
  {
    var field := name + (['='] + value);
    assert forall c :: c in name ==> c in name + value;
    MarkAt(name, '=', value);
    forall c | c in field ensures Plain(c) || c == '=' {
      if c in name || c in value {
        assert c in name + value;
      }
    }
  }

  lemma PairOfText(p: Pair)
    requires p.value != []
    ensures FieldPairs(PairText(p)) == [p] && '&' !in PairText(p) && '#' !in PairText(p)
  {
    QuotePlusPlain(p.name);
    QuotePlusPlain(p.value);
    DecodeQuotePlus(p.name);
    DecodeQuotePlus(p.value);
    EqualsSplits(QuotePlus(p.name), QuotePlus(p.value));
    hide QuotePlus, Decode, Find, Plain;
  }

  lemma {:induction false} PairsOfTexts(ps: seq<Pair>)
    requires forall p :: p in ps ==> p.value != []
    ensures PairsOf(Texts(ps)) == ps && |Texts(ps)| == |ps|
    ensures forall f :: f in Texts(ps) ==> '&' !in f && '#' !in f
  {
    if ps != [] {
      hide PairText, FieldPairs;
      PairOfText(ps[0]);
      PairsOfTexts(ps[1..]);
    }
  }

  /** Parsing an encoded query gives back its pairs, whatever bytes they hold. */
  lemma FormRoundTrip(ps: seq<Pair>)
    requires forall p :: p in ps ==> p.value != []
    ensures ParseQuery(EncodeQuery(ps)) == ps
  {
    PairsOfTexts(ps);
    if ps == [] {
      assert Fields([]) == [[]];
    } else {
      FieldsOfJoin(Texts(ps));
    }
  }

  lemma {:induction false} UnquoteNotEmpty(s: Text)
    requires s != []
    ensures Unquote(s) != []
  {
  }

  lemma {:induction false} ParsedValues(fields: seq<Text>)
    ensures forall p :: p in PairsOf(fields) ==> p.value != []
  {
    if fields != [] {
      var field := fields[0];
      var n := Find(field, '=');
      if n + 1 < |field| {
        UnplusLength(field[n + 1..]);
        UnquoteNotEmpty(Unplus(field[n + 1..]));
      }
      ParsedValues(fields[1..]);
    }
  }

  lemma {:induction false} UnplusLength(s: Text)
    ensures |Unplus(s)| == |s|
  {
    if s != [] {
      UnplusLength(s[1..]);
    }
  }

  lemma {:induction false} JoinFieldsBytes(fields: seq<Text>, c: Byte)
    requires c != '&' && forall f :: f in fields ==> c !in f
    ensures c !in JoinFields(fields)
  {
    if fields != [] {
      JoinFieldsBytes(fields[1..], c);
    }
  }

  // ---- the order of pairs ----

  predicate TextLeq(a: Text, b: Text) {
    a == [] || (b != [] && (a[0] < b[0] || (a[0] == b[0] && TextLeq(a[1..], b[1..]))))
  }

  predicate PairLeq(p: Pair, q: Pair) {
    if p.name == q.name then TextLeq(p.value, q.value) else TextLeq(p.name, q.name)
  }

  lemma {:induction false} TextLeqIsTotalOrder(a: Text, b: Text, c: Text)
    ensures TextLeq(a, b) || TextLeq(b, a)
    ensures TextLeq(a, b) && TextLeq(b, a) ==> a == b
    ensures TextLeq(a, b) && TextLeq(b, c) ==> TextLeq(a, c)
  {
    if a != [] && b != [] {
      TextLeqIsTotalOrder(a[1..], b[1..], if c == [] then [] else c[1..]);
      assert a == [a[0]] + a[1..] && b == [b[0]] + b[1..];
    }
  }

  lemma PairLeqIsTotalOrder(p: Pair, q: Pair, r: Pair)
    ensures PairLeq(p, q) || PairLeq(q, p)
    ensures PairLeq(p, q) && PairLeq(q, p) ==> p == q
    ensures PairLeq(p, q) && PairLeq(q, r) ==> PairLeq(p, r)
  {
    TextLeqIsTotalOrder(p.name, q.name, r.name);
    TextLeqIsTotalOrder(p.value, q.value, r.value);
    TextLeqIsTotalOrder(q.name, r.name, p.name);
    TextLeqIsTotalOrder(r.name, p.name, q.name);
  }

  ghost predicate Ascending(ps: seq<Pair>) {
    forall j, k :: 0 <= j < k < |ps| ==> PairLeq(ps[j], ps[k])
  }

  function InsertPair(sorted: seq<Pair>, p: Pair): seq<Pair> {
    if sorted == [] || PairLeq(p, sorted[0]) then [p] + sorted else [sorted[0]] + InsertPair(sorted[1..], p)
  }

  /** `sorted` on pairs of strings. */
  function SortPairs(ps: seq<Pair>): seq<Pair> {
    if ps == [] then [] else InsertPair(SortPairs(ps[1..]), ps[0])
  }

  lemma {:induction false} InsertPairSorts(sorted: seq<Pair>, p: Pair)
    requires Ascending(sorted)
    ensures Ascending(InsertPair(sorted, p)) && multiset(InsertPair(sorted, p)) == multiset(sorted) + multiset{p}
  {
    if sorted == [] {
    } else if PairLeq(p, sorted[0]) {
      forall k | 0 <= k < |sorted| ensures PairLeq(p, sorted[k]) {
        PairLeqIsTotalOrder(p, sorted[0], sorted[k]);
      }
    } else {
      var rest := InsertPair(sorted[1..], p);
      InsertPairSorts(sorted[1..], p);
      PairLeqIsTotalOrder(p, sorted[0], p);
      assert sorted == [sorted[0]] + sorted[1..];
      forall k | 0 <= k < |rest| ensures PairLeq(sorted[0], rest[k]) {
        assert rest[k] in multiset(rest);
      }
    }
  }

  lemma {:induction false} SortPairsSorts(ps: seq<Pair>)
    ensures Ascending(SortPairs(ps)) && multiset(SortPairs(ps)) == multiset(ps)
  {
    if ps != [] {
      SortPairsSorts(ps[1..]);
      InsertPairSorts(SortPairs(ps[1..]), ps[0]);
      assert ps == [ps[0]] + ps[1..];
    }
  }

  lemma LeastFirst(a: seq<Pair>, p: Pair)
    requires Ascending(a) && p in multiset(a)
    ensures a != [] && PairLeq(a[0], p)
  {
    var k :| 0 <= k < |a| && a[k] == p;
    PairLeqIsTotalOrder(p, p, p);
  }

  lemma SameRest(a: seq<Pair>, b: seq<Pair>)
    requires a != [] && b != [] && a[0] == b[0] && multiset(a) == multiset(b)
    ensures multiset(a[1..]) == multiset(b[1..])
  {
    assert a == [a[0]] + a[1..] && b == [b[0]] + b[1..];
    assert multiset(a[1..]) == multiset(a) - multiset{a[0]};
    assert multiset(b[1..]) == multiset(b) - multiset{b[0]};
  }

  /** A bag of pairs has one ascending listing. */
  lemma {:induction false} AscendingUnique(a: seq<Pair>, b: seq<Pair>)
    requires Ascending(a) && Ascending(b) && multiset(a) == multiset(b)
    ensures a == b
  {
    if a == [] {
      assert |multiset(b)| == 0;
    } else {
      assert a[0] in multiset(b);
      LeastFirst(b, a[0]);
      assert b[0] in multiset(a);
      LeastFirst(a, b[0]);
      PairLeqIsTotalOrder(a[0], b[0], a[0]);
      hide PairLeq;
      SameRest(a, b);
      AscendingUnique(a[1..], b[1..]);
    }
  }

  /** Before in byte order: the first difference decides, and a text comes before its extensions. */
  ghost predicate ByteOrder(a: Text, b: Text) {
    a <= b || exists k :: 0 <= k < |a| && k < |b| && a[..k] == b[..k] && a[k] as int < b[k] as int
  }

  lemma {:induction false} TextLeqMeans(a: Text, b: Text)
    requires TextLeq(a, b)
    ensures ByteOrder(a, b)
  {
    if a != [] && a[0] == b[0] {
      TextLeqMeans(a[1..], b[1..]);
      assert a == [a[0]] + a[1..] && b == [b[0]] + b[1..];
      if !(a[1..] <= b[1..]) {
        var k :| 0 <= k < |a[1..]| && k < |b[1..]| && a[1..][..k] == b[1..][..k] && a[1..][k] as int < b[1..][k] as int;
        assert a[..k + 1] == [a[0]] + a[1..][..k] && b[..k + 1] == [b[0]] + b[1..][..k];
      }
    } else if a != [] {
      assert a[..0] == b[..0];
    }
  }

  /** The pairs come in the byte order of their names, and those of one name in that of their values. */
  lemma SortedByName(ps: seq<Pair>, j: nat, k: nat)
    requires j < k < |SortPairs(ps)|
    ensures var p, q := SortPairs(ps)[j], SortPairs(ps)[k];
            ByteOrder(p.name, q.name) && (p.name == q.name ==> ByteOrder(p.value, q.value))
  {
    SortPairsSorts(ps);
    var p, q := SortPairs(ps)[j], SortPairs(ps)[k];
    assert PairLeq(p, q);
    if p.name == q.name {
      TextLeqMeans(p.value, q.value);
    } else {
      TextLeqMeans(p.name, q.name);
    }
  }

  // ---- canonical URLs ----

  predicate Kept(p: Pair) {
    Lower(p.name) !in TRACKING_PARAMS
  }

  /** The pairs that are not tracking parameters. */
  function KeptPairs(ps: seq<Pair>): seq<Pair> {
    if ps == [] then [] else (if Kept(ps[0]) then [ps[0]] else []) + KeptPairs(ps[1..])
  }

  /** `rstrip("/")`. */
  function StripSlashes(s: Text): Text {
    if s != [] && s[|s| - 1] == '/' then StripSlashes(s[..|s| - 1]) else s
  }

  /** The query pairs that make a difference, as the source sorts them. */
  function QueryPairs(url: Text): seq<Pair> {
    SortPairs(KeptPairs(ParseQuery(Split(url).query)))
  }

  function Normalize(url: Text): Text {
    var parts := Split(url);
    StripSlashes(Unsplit(Parts(Lower(parts.scheme), Lower(parts.netloc), parts.path, EncodeQuery(QueryPairs(url)), [])))
  }

  /** The parts of the canonical URL: only a path that no query follows loses its trailing slashes. */
  function Canonical(url: Text): Parts {
    var parts := Split(url);
    Parts(parts.scheme, Lower(parts.netloc),
          if QueryPairs(url) == [] then StripSlashes(parts.path) else parts.path,
          EncodeQuery(QueryPairs(url)), [])
  }

  lemma {:induction false} StripSlashesMeans(s: Text)
    ensures StripSlashes(s) <= s
    ensures StripSlashes(s) != [] ==> StripSlashes(s)[|StripSlashes(s)| - 1] != '/'
    ensures StripSlashes(StripSlashes(s)) == StripSlashes(s)
  {
    if s != [] && s[|s| - 1] == '/' {
      StripSlashesMeans(s[..|s| - 1]);
    }
  }

  lemma {:induction false} KeptPairsMeans(ps: seq<Pair>)
    ensures forall p :: p in KeptPairs(ps) <==> p in ps && Kept(p)
    ensures (forall p :: p in ps ==> Kept(p)) ==> KeptPairs(ps) == ps
  {
    if ps != [] {
      KeptPairsMeans(ps[1..]);
    }
  }

  /** What the query of the canonical URL holds. */
  lemma QueryPairsMeans(url: Text)
    ensures Ascending(QueryPairs(url)) && multiset(QueryPairs(url)) == multiset(KeptPairs(ParseQuery(Split(url).query)))
    ensures forall p :: p in QueryPairs(url) ==> Kept(p) && p.value != []
  {
    var parsed := ParseQuery(Split(url).query);
    SortPairsSorts(KeptPairs(parsed));
    KeptPairsMeans(parsed);
    ParsedValues(Fields(Split(url).query));
    forall p | p in QueryPairs(url) ensures p in KeptPairs(parsed) {
      assert p in multiset(QueryPairs(url));
    }
  }

  /** An encoded query holds no slash and no hash, and is empty only if there are no pairs. */
  lemma EncodedQueryBytes(ps: seq<Pair>)
    ensures '#' !in EncodeQuery(ps) && '/' !in EncodeQuery(ps)
    ensures EncodeQuery(ps) == [] <==> ps == []
  {
    TextsBytes(ps);
    JoinFieldsBytes(Texts(ps), '#');
    JoinFieldsBytes(Texts(ps), '/');
  }

  lemma PairTextBytes(p: Pair)
    ensures '#' !in PairText(p) && '/' !in PairText(p) && PairText(p) != []
  {
    QuotePlusPlain(p.name);
    QuotePlusPlain(p.value);
  }

  lemma {:induction false} TextsBytes(ps: seq<Pair>)
    ensures forall f :: f in Texts(ps) ==> '#' !in f && '/' !in f && f != []
  {
    if ps != [] {
      PairTextBytes(ps[0]);
      hide PairText;
      TextsBytes(ps[1..]);
    }
  }

  lemma LowerTwice(s: Text)
    ensures Lower(Lower(s)) == Lower(s)
  {
  }

  lemma LowerKeepsHost(netloc: Text)
    requires forall k :: 0 <= k < |netloc| ==> !EndsHost(netloc[k])
    ensures (Lower(netloc) == [] <==> netloc == []) && forall k :: 0 <= k < |netloc| ==> !EndsHost(Lower(netloc)[k])
  {
  }

  lemma StripWellFormed(p: Parts)
    requires WellFormed(p)
    ensures WellFormed(p.(path := StripSlashes(p.path)))
  {
    StripSlashesMeans(p.path);
    if p.scheme == [] && p.netloc == [] {
      NoSchemeInPrefix(p.path, StripSlashes(p.path));
    }
  }

  lemma CanonicalWellFormed(url: Text)
    ensures WellFormed(Canonical(url)) && Lower(Canonical(url).scheme) == Canonical(url).scheme
  {
    var p := Split(url);
    SplitWellFormed(url);
    LowerKeepsHost(p.netloc);
    EncodedQueryBytes(QueryPairs(url));
    var lowered := Parts(p.scheme, Lower(p.netloc), p.path, EncodeQuery(QueryPairs(url)), []);
    assert WellFormed(lowered);
    StripWellFormed(lowered);
  }

  lemma {:induction false} StripSlashesAppend(head: Text, s: Text)
    ensures StripSlashes(head + s) == if StripSlashes(s) == [] then StripSlashes(head) else head + StripSlashes(s)
  {
    if s == [] {
      assert head + s == head;
    } else if s[|s| - 1] == '/' {
      assert (head + s)[..|head + s| - 1] == head + s[..|s| - 1];
      StripSlashesAppend(head, s[..|s| - 1]);
    }
  }

  /** Everything in front of the path. */
  function Front(p: Parts): Text {
    Headed(p.scheme, if Slashed(p) then Hosted(p.netloc, []) else [])
  }

  lemma HeadedAppend(scheme: Text, a: Text, b: Text)
    ensures Headed(scheme, a + b) == Headed(scheme, a) + b
  {
    if scheme != [] {
      assert scheme + ":" + (a + b) == scheme + ":" + a + b;
    }
  }

  lemma HostedAppend(netloc: Text, tail: Text)
    ensures Hosted(netloc, tail) == Hosted(netloc, []) + tail
  {
    assert "//" + netloc + tail == "//" + netloc + [] + tail;
  }

  lemma UnsplitFront(p: Parts)
    requires WellFormed(p)
    ensures Unsplit(p) == Front(p) + Tail(p)
  {
    hide Headed, Hosted, Slashed, Tail, WellFormed, Unsplit;
    UnsplitSlashed(p);
    if Slashed(p) {
      HostedAppend(p.netloc, Tail(p));
      HeadedAppend(p.scheme, Hosted(p.netloc, []), Tail(p));
    } else {
      HeadedAppend(p.scheme, [], Tail(p));
      assert [] + Tail(p) == Tail(p);
    }
  }

  /** Trimmed, the front keeps its host, and without a host at most the scheme. */
  lemma StripFront(p: Parts)
    requires WellFormed(p)
    ensures StripSlashes(Front(p)) == if p.netloc == [] then Headed(p.scheme, []) else Front(p)
  {
    var head := Headed(p.scheme, []);
    if p.netloc != [] {
      var whole := Front(p);
      assert whole[|whole| - 1] == p.netloc[|p.netloc| - 1];
    } else {
      var slashes: Text := if Slashed(p) then Hosted([], []) else [];
      assert StripSlashes(slashes) == [] by {
        assert StripSlashes(['/']) == StripSlashes([]);
        assert ['/', '/'][..1] == ['/'];
        assert Hosted([], []) == ['/', '/'];
      }
      HeadedAppend(p.scheme, [], slashes);
      assert [] + slashes == slashes;
      StripSlashesAppend(head, slashes);
      assert StripSlashes(head) == head;
    }
  }

  /** A path without trailing slashes, or a query, ends the text. */
  lemma StripTail(p: Parts)
    requires p.fragment == [] && '/' !in p.query
    ensures StripSlashes(Tail(p)) == if p.query == [] then StripSlashes(p.path) else Tail(p)
  {
    if p.query == [] {
      assert Tail(p) == p.path;
    } else {
      var tail := p.path + (['?'] + p.query);
      assert Tail(p) == tail;
      assert tail[|tail| - 1] == p.query[|p.query| - 1] && p.query[|p.query| - 1] in p.query;
    }
  }

  /** A path that is more than slashes starts the same after the trim. */
  lemma SameFront(p: Parts)
    requires StripSlashes(p.path) != [] || p.netloc != []
    ensures Front(p.(path := StripSlashes(p.path))) == Front(p)
  {
    hide Headed, Hosted;
    StripSlashesMeans(p.path);
  }

  /** Trimming the whole text comes to trimming the path of a URL left without a query. */
  lemma StripUnsplit(p: Parts)
    requires WellFormed(p) && p.fragment == [] && p.query == []
    ensures StripSlashes(Unsplit(p)) == StripSlashes(Unsplit(p.(path := StripSlashes(p.path))))
  {
    var path := StripSlashes(p.path);
    var stripped := p.(path := path);
    StripWellFormed(p);
    StripSlashesMeans(p.path);
    UnsplitFront(p);
    UnsplitFront(stripped);
    assert Tail(p) == p.path && Tail(stripped) == path;
    hide Front, Tail, Unsplit, WellFormed, StripSlashes;
    StripSlashesAppend(Front(p), p.path);
    StripSlashesAppend(Front(stripped), path);
    if path != [] || p.netloc != [] {
      SameFront(p);
    } else {
      StripFront(p);
      StripFront(stripped);
    }
  }

  lemma StripCanonical(can: Parts)
    requires WellFormed(can) && can.fragment == [] && '/' !in can.query
    requires can.query == [] ==> StripSlashes(can.path) == can.path
    ensures StripSlashes(Unsplit(can)) ==
            if can.netloc == [] && Tail(can) == [] then Headed(can.scheme, []) else Unsplit(can)
  {
    UnsplitFront(can);
    StripTail(can);
    StrippedTail(can);
    StripFront(can);
    hide Front, Tail, Unsplit, WellFormed, StripSlashes, Headed;
    StripSlashesAppend(Front(can), Tail(can));
    assert Front(can) + [] == Front(can);
  }

  lemma StrippedTail(p: Parts)
    requires p.fragment == [] && (p.query == [] ==> StripSlashes(p.path) == p.path)
    ensures p.query == [] ==> Tail(p) == p.path
  {
  }

  /** The canonical URL is the canonical parts put together; without a host, path and query the empty
  authority is trimmed off as well. */
  lemma NormalizeIsCanonical(url: Text)
    ensures Normalize(url) == StripSlashes(Unsplit(Canonical(url)))
    ensures var can := Canonical(url);
            Normalize(url) == if can.netloc == [] && Tail(can) == [] then Headed(can.scheme, []) else Unsplit(can)
  {
    var parts, can := Split(url), Canonical(url);
    SplitWellFormed(url);
    LowerKeepsHost(parts.netloc);
    EncodedQueryBytes(QueryPairs(url));
    var given := Parts(parts.scheme, Lower(parts.netloc), parts.path, can.query, []);
    assert WellFormed(given) && Normalize(url) == StripSlashes(Unsplit(given));
    StripSlashesMeans(parts.path);
    if can.query == [] {
      StripUnsplit(given);
    }
    CanonicalWellFormed(url);
    hide Split, WellFormed, Unsplit, StripSlashes, Tail, Lower;
    StripCanonical(can);
  }

  lemma SplitScheme(scheme: Text)
    requires scheme == [] || IsScheme(scheme)
    ensures Split(Headed(scheme, [])) == Parts(Lower(scheme), [], [], [], [])
  {
    SchemeSplits(scheme, []);
  }

  /** Reading the canonical URL back gives the canonical parts. */
  lemma CanonicalReadsBack(url: Text)
    ensures Split(Normalize(url)) == Canonical(url)
    ensures ParseQuery(Split(Normalize(url)).query) == QueryPairs(url) == QueryPairs(Normalize(url))
  {
    var can := Canonical(url);
    NormalizeIsCanonical(url);
    CanonicalWellFormed(url);
    SplitUnsplit(can);
    SplitScheme(can.scheme);
    assert Tail(can) == [] ==> can.path == [] && can.query == [];
    QueryPairsMeans(url);
    FormRoundTrip(QueryPairs(url));
    KeptPairsMeans(QueryPairs(url));
    SortPairsSorts(QueryPairs(url));
    AscendingUnique(SortPairs(QueryPairs(url)), QueryPairs(url));
  }

  /** Normalising twice is normalising once, for every URL. */
  lemma Idempotent(url: Text)
    ensures Normalize(Normalize(url)) == Normalize(url)
  {
    CanonicalReadsBack(url);
    NormalizeIsCanonical(url);
    NormalizeIsCanonical(Normalize(url));
    LowerTwice(Split(url).netloc);
    StripSlashesMeans(Split(url).path);
  }

  /** Same scheme and host up to case, same bag of pairs that count, and the same path; trailing
  slashes of the path count only in front of a query. */
  ghost predicate SameResource(u: Text, v: Text) {
    var p, q := Split(u), Split(v);
    && p.scheme == q.scheme && Lower(p.netloc) == Lower(q.netloc)
    && multiset(KeptPairs(ParseQuery(p.query))) == multiset(KeptPairs(ParseQuery(q.query)))
    && if KeptPairs(ParseQuery(p.query)) == [] then StripSlashes(p.path) == StripSlashes(q.path) else p.path == q.path
  }

  lemma NoPairs(ps: seq<Pair>, qs: seq<Pair>)
    requires multiset(ps) == multiset(qs)
    ensures ps == [] <==> qs == []
  {
    assert |multiset(ps)| == |ps| && |multiset(qs)| == |qs|;
  }

  /** Two URLs normalise to the same text exactly if they name the same resource. */
  lemma SameCanonicalIff(u: Text, v: Text)
    ensures Normalize(u) == Normalize(v) <==> SameResource(u, v)
  {
    NormalizeIsCanonical(u);
    NormalizeIsCanonical(v);
    QueryPairsMeans(u);
    QueryPairsMeans(v);
    NoPairs(KeptPairs(ParseQuery(Split(u).query)), QueryPairs(u));
    if Normalize(u) == Normalize(v) {
      CanonicalReadsBack(u);
      CanonicalReadsBack(v);
    }
    if SameResource(u, v) {
      AscendingUnique(QueryPairs(u), QueryPairs(v));
    }
  }

  // ---- what does not matter ----

  /** Fields that put a pair into the canonical query: not blank, and not a tracking parameter. */
  function Telling(fields: seq<Text>): seq<Text> {
    if fields == [] then []
    else (if KeptPairs(FieldPairs(fields[0])) != [] then [fields[0]] else []) + Telling(fields[1..])
  }

  lemma {:induction false} KeptPairsAppend(ps: seq<Pair>, qs: seq<Pair>)
    ensures KeptPairs(ps + qs) == KeptPairs(ps) + KeptPairs(qs)
  {
    if ps == [] {
      assert ps + qs == qs;
    } else {
      assert (ps + qs)[1..] == ps[1..] + qs;
      KeptPairsAppend(ps[1..], qs);
    }
  }

  lemma {:induction false} PairsOfAppend(fs: seq<Text>, gs: seq<Text>)
    ensures PairsOf(fs + gs) == PairsOf(fs) + PairsOf(gs)
  {
    if fs == [] {
      assert fs + gs == gs;
    } else {
      assert (fs + gs)[1..] == fs[1..] + gs;
      PairsOfAppend(fs[1..], gs);
    }
  }

  function KeptOf(fields: seq<Text>): seq<Pair> {
    KeptPairs(PairsOf(fields))
  }

  lemma KeptOfAppend(fs: seq<Text>, gs: seq<Text>)
    ensures KeptOf(fs + gs) == KeptOf(fs) + KeptOf(gs)
  {
    PairsOfAppend(fs, gs);
    KeptPairsAppend(PairsOf(fs), PairsOf(gs));
  }

  lemma KeptOfOne(field: Text)
    ensures KeptOf([field]) == KeptPairs(FieldPairs(field))
  {
    assert PairsOf([field]) == FieldPairs(field) + [];
  }

  lemma {:induction false} TellingPairs(fields: seq<Text>)
    ensures KeptOf(fields) == KeptOf(Telling(fields))
  {
    if fields != [] {
      var rest := Telling(fields[1..]);
      TellingPairs(fields[1..]);
      KeptOfOne(fields[0]);
      KeptOfAppend([fields[0]], fields[1..]);
      KeptOfAppend([fields[0]], rest);
      assert fields == [fields[0]] + fields[1..];
      assert Telling(fields) == if KeptPairs(FieldPairs(fields[0])) != [] then [fields[0]] + rest else rest;
    }
  }

  lemma KeptOfMiddle(fs: seq<Text>, k: nat)
    requires k < |fs|
    ensures multiset(KeptOf(fs)) == multiset(KeptOf([fs[k]])) + multiset(KeptOf(fs[..k] + fs[k + 1..]))
  {
    assert fs == fs[..k] + ([fs[k]] + fs[k + 1..]);
    KeptOfAppend(fs[..k], [fs[k]] + fs[k + 1..]);
    KeptOfAppend([fs[k]], fs[k + 1..]);
    KeptOfAppend(fs[..k], fs[k + 1..]);
  }

  /** The order of the fields does not matter for the bag of pairs. */
  lemma {:induction false} KeptOfBag(fs: seq<Text>, gs: seq<Text>)
    requires multiset(fs) == multiset(gs)
    ensures multiset(KeptOf(fs)) == multiset(KeptOf(gs))
    decreases fs
  {
    if fs == [] {
      assert |multiset(gs)| == 0;
    } else {
      hide KeptOf;
      var k := Records.FindFirst(fs, gs);
      KeptOfMiddle(fs, 0);
      KeptOfMiddle(gs, k);
      assert fs[..0] + fs[1..] == fs[1..];
      KeptOfBag(fs[1..], gs[..k] + gs[k + 1..]);
    }
  }

  /** Scheme and host may change case, the fragment may be anything, and the query fields may be
  permuted, with blank ones and tracking parameters added or removed anywhere. */
  lemma Invariance(p: Parts, q: Parts, fs: seq<Text>, gs: seq<Text>)
    requires WellFormed(p) && WellFormed(q)
    requires Lower(p.scheme) == Lower(q.scheme) && Lower(p.netloc) == Lower(q.netloc) && p.path == q.path
    requires (forall f :: f in fs ==> '&' !in f) && (forall g :: g in gs ==> '&' !in g)
    requires p.query == JoinFields(fs) && q.query == JoinFields(gs)
    requires multiset(Telling(fs)) == multiset(Telling(gs))
    ensures Normalize(Unsplit(p)) == Normalize(Unsplit(q))
  {
    SplitUnsplit(p);
    SplitUnsplit(q);
    ParseJoined(fs);
    ParseJoined(gs);
    TellingPairs(fs);
    TellingPairs(gs);
    KeptOfBag(Telling(fs), Telling(gs));
    NoPairs(KeptOf(fs), KeptOf(gs));
    SameCanonicalIff(Unsplit(p), Unsplit(q));
  }

  lemma ParseJoined(fields: seq<Text>)
    requires forall f :: f in fields ==> '&' !in f
    ensures ParseQuery(JoinFields(fields)) == PairsOf(fields)
  {
    if fields == [] {
      assert Fields([]) == [[]];
    } else {
      FieldsOfJoin(fields);
    }
  }

  /** Exactly eight names are tracking parameters, in any case. */
  lemma {:induction false} KeptByName(ps: seq<Pair>, p: Pair)
    ensures var name := Lower(p.name);
            p in KeptPairs(ps) <==>
              && p in ps
              && name != "utm_source" && name != "utm_medium" && name != "utm_campaign" && name != "utm_term"
              && name != "utm_content" && name != "gclid" && name != "fbclid" && name != "ref"
  {
    KeptPairsMeans(ps);
  }

  /** Bytes that need no escape stand for themselves, a space is a plus, and every other byte is a percent
  sign and two upper-case digits. Read back, digits of either case do. */
  lemma EncodingInNumbers(c: Byte, rest: Text)
    ensures var n := c as int;
            if 48 <= n <= 57 || 65 <= n <= 90 || 97 <= n <= 122 || c in "_.-~" then QuotePlus([c]) == [c]
            else if c == ' ' then QuotePlus([c]) == "+"
            else && |QuotePlus([c])| == 3 && QuotePlus([c])[0] == '%'
                 && (forall k :: 1 <= k <= 2 ==> QuotePlus([c])[k] in "0123456789ABCDEF")
                 && Decode(Lower(QuotePlus([c])) + rest) == [c] + Decode(rest)
  {
    assert QuotePlus([c]) == Encoded(c) + [];
    if !Unreserved(c) && c != ' ' {
      LowerHex(c as int / 16);
      LowerHex(c as int % 16);
      EscapeReads(c, LowerByte(HexDigit(c as int / 16)), LowerByte(HexDigit(c as int % 16)), rest);
      assert Lower(QuotePlus([c])) == ['%', LowerByte(HexDigit(c as int / 16)), LowerByte(HexDigit(c as int % 16))];
      hide HexDigit, HexValue, LowerByte, Decode;
    }
  }

  lemma EscapeReads(c: Byte, hi: Byte, lo: Byte, rest: Text)
    requires HexValue(hi) == c as int / 16 && HexValue(lo) == c as int % 16 && hi != '+' && lo != '+'
    ensures Decode(['%', hi, lo] + rest) == [c] + Decode(rest)
  {
    UnplusAppend(['%', hi, lo], rest);
    EscapeUnplus(hi, lo);
    hide HexValue, Unplus;
    assert (['%', hi, lo] + Unplus(rest))[3..] == Unplus(rest);
  }

  lemma LowerHex(n: nat)
    requires n < 16
    ensures HexValue(LowerByte(HexDigit(n))) == n && LowerByte(HexDigit(n)) != '+'
    ensures HexDigit(n) in "0123456789ABCDEF"
  {
    assert HexDigit(n) == "0123456789ABCDEF"[n];
  }

  /** The canonical URL of an ordinary URL, written out: scheme and host in lower case, the path, and the
  query pairs that count. */
  lemma WrittenOut(p: Parts)
    requires WellFormed(p) && p.scheme != [] && p.netloc != []
    ensures var pairs := SortPairs(KeptPairs(ParseQuery(p.query)));
            Normalize(Unsplit(p)) ==
              Lower(p.scheme) + [':', '/', '/'] + Lower(p.netloc)
              + if pairs == [] then StripSlashes(p.path) else p.path + ['?'] + EncodeQuery(pairs)
  {
    var url, pairs := Unsplit(p), SortPairs(KeptPairs(ParseQuery(p.query)));
    SplitUnsplit(p);
    LowerKeepsHost(p.netloc);
    NormalizeIsCanonical(url);
    CanonicalWellFormed(url);
    EncodedQueryBytes(pairs);
    var can := Canonical(url);
    assert QueryPairs(url) == pairs;
    assert can == Parts(Lower(p.scheme), Lower(p.netloc), if pairs == [] then StripSlashes(p.path) else p.path,
                        EncodeQuery(pairs), []);
    UnsplitSlashed(can);
    hide Unsplit, Split, Normalize, Canonical, QueryPairs, SortPairs, KeptPairs, ParseQuery, EncodeQuery, StripSlashes;
    hide WellFormed, Headed, Hosted, Tail, Lower;
    Assembled(can);
  }

  lemma Assembled(p: Parts)
    requires p.scheme != [] && p.fragment == []
    ensures Headed(p.scheme, Hosted(p.netloc, Tail(p))) ==
            p.scheme + [':', '/', '/'] + p.netloc + if p.query == [] then p.path else p.path + ['?'] + p.query
  {
    var end := if p.query == [] then p.path else p.path + ['?'] + p.query;
    assert Tail(p) == end;
    assert Hosted(p.netloc, end) == ['/', '/'] + p.netloc + end;
    assert p.scheme + ":" + (['/', '/'] + p.netloc + end) == p.scheme + [':', '/', '/'] + p.netloc + end;
  }

  /** A field is split at its first equals sign; without one, or with nothing after it, it counts for nothing. */
  lemma FieldReads(name: Text, value: Text)
    requires '=' !in name
    ensures FieldPairs(name) == []
    ensures FieldPairs(name + (['='] + value)) == if value == [] then [] else [Pair(Decode(name), Decode(value))]
  {
    FindAt(name, '=', |name|);
    MarkAt(name, '=', value);
  }

  /** A tracking parameter is told by its name alone, in any case and however it is written. */
  lemma TrackingIsSilent(name: Text, value: Text)
    requires '=' !in name && Lower(Decode(name)) in TRACKING_PARAMS
    ensures Telling([name + (['='] + value)]) == []
  {
    var field := name + (['='] + value);
    FieldReads(name, value);
    assert KeptPairs([Pair(Decode(name), Decode(value))]) == [];
    hide FieldPairs, Decode, Kept;
    assert KeptPairs(FieldPairs(field)) == [];
  }
}
