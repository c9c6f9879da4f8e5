/** The plain-text message of app/delivery/telegram.py. */
module TelegramMessage {
  import opened Records
  import opened Text

  const MESSAGE_LIMIT := 4096

  function Max(a: int, b: int): int {
    if a < b then b else a
  }

  /** `_shorten`: trim, and cut what is too long, marking the cut. */
  function Shorten(value: string, limit: nat, space: Space): string {
    var text := Strip(value, space);
    if |text| <= limit then text
    else StripRight(text[..Max(0, limit - 3)], space) + "..."
  }

  /** A field of the payload as the message uses it: empty or missing gives the fallback. */
  function Or(value: Option<string>, fallback: string): string {
    if value.Some? && value.value != "" then value.value else fallback
  }

  datatype Score = Number(value: real) | Words(text: string) | Missing

  datatype News = News(
    title: Option<string>, summary: Option<string>, url: Option<string>, source: Option<string>,
    published: Option<string>, impact: Option<string>, relevance: Score, credibility: Score)

  function Digit(d: nat): char
    requires d < 10
  {
    "0123456789"[d]
  }

  function Decimal(n: nat): string {
    if n < 10 then [Digit(n)] else Decimal(n / 10) + [Digit(n % 10)]
  }

  /** The `.2f` format. */
  function Fixed2(x: real): string {
    var h := ((if x < 0.0 then -x else x) * 100.0 + 0.5).Floor;
    (if x < 0.0 then "-" else "") + Decimal(h / 100) + "." + [Digit(h / 10 % 10), Digit(h % 10)]
  }

  /** A score that is not formatted as a number; zero counts as missing, as in the source. */
  function Loose(s: Score, show: real -> string): string {
    match s
    case Number(x) => if x == 0.0 then "unknown" else show(x)
    case Words(t) => if t == "" then "unknown" else t
    case Missing => "unknown"
  }

  function Scores(news: News, show: real -> string): string {
    if news.relevance.Number? && news.credibility.Number?
    then "Relevance: " + Fixed2(news.relevance.value) + " | Credibility: " + Fixed2(news.credibility.value)
    else "Relevance: " + Loose(news.relevance, show) + " | Credibility: " + Loose(news.credibility, show)
  }

  function Head(market: string, news: News, space: Space): string {
    "New market news\nMarket: " + Shorten(market, 300, space) + "\n\n"
    + Shorten(Or(news.title, "Untitled news"), 700, space)
  }

  /** The lines about the article before its URL. */
  function Lines(news: News, space: Space, show: real -> string): string {
    "Source: " + Shorten(Or(news.source, "unknown"), 200, space)
    + " | Published: " + Shorten(Or(news.published, "unknown"), 80, space) + "\n"
    + "Impact: " + Shorten(Or(news.impact, "unknown"), 80, space) + " | " + Scores(news, show) + "\n"
  }

  function Tail(news: News, space: Space, show: real -> string): string {
    Lines(news, space, show) + Shorten(Or(news.url, ""), 1000, space)
  }

  /** What the fixed parts and the blank lines leave for the summary. */
  function Room(market: string, news: News, space: Space, show: real -> string): int {
    MESSAGE_LIMIT - |Head(market, news, space)| - |Tail(news, space, show)| - 4
  }

  function Body(market: string, news: News, space: Space, show: real -> string): string {
    Head(market, news, space) + "\n\n"
    + Shorten(Or(news.summary, ""), Max(0, Room(market, news, space, show)), space) + "\n\n"
  }

  /** The message before the final slice. */
  function Unsliced(market: string, news: News, space: Space, show: real -> string): string {
    Body(market, news, space, show) + Tail(news, space, show)
  }

  function Format(market: string, news: News, space: Space, show: real -> string): string {
    var message := Unsliced(market, news, space, show);
    if |message| <= MESSAGE_LIMIT then message else message[..MESSAGE_LIMIT]
  }

  // ---- lengths ----

  /** What is shortened is the trimmed value; a cut keeps all that fits before the mark but trailing space. */
  lemma ShortenMeans(value: string, limit: nat, space: Space) returns (kept: string)
    ensures kept <= Strip(value, space)
    ensures Shorten(value, limit, space) == if |Strip(value, space)| <= limit then kept else kept + "..."
    ensures var text, room := Strip(value, space), if limit < 3 then 0 else limit - 3;
            if |text| <= limit then kept == text
            else |kept| <= room && (kept != "" ==> !space(kept[|kept| - 1]))
                 && forall k :: |kept| <= k < room ==> space(text[k])
  {
    var text := Strip(value, space);
    if |text| <= limit {
      kept := text;
    } else {
      var front := text[..Max(0, limit - 3)];
      var trail := StripRightMeans(front, space);
      kept := StripRight(front, space);
      forall k | |kept| <= k < |front| ensures space(text[k]) {
        assert text[k] == front[k] == trail[k - |kept|];
      }
    }
  }

  /** The text a decimal numeral stands for. */
  ghost function Reads(digits: string): int {
    if digits == "" then 0 else 10 * Reads(digits[..|digits| - 1]) + (digits[|digits| - 1] as int - 48)
  }

  lemma DigitReads(d: nat)
    requires d < 10
    ensures Digit(d) as int == 48 + d
  {
  }

  lemma {:induction false} DecimalReads(n: nat)
    ensures Reads(Decimal(n)) == n
  {
    DigitReads(n % 10);
    if n < 10 {
      assert [Digit(n)][..0] == "";
    } else {
      DecimalReads(n / 10);
      var s := Decimal(n);
      assert s[..|s| - 1] == Decimal(n / 10);
    }
  }

  lemma TwoDigitsRead(whole: string, tenth: char, hundredth: char)
    ensures Reads(whole + [tenth, hundredth]) ==
            100 * Reads(whole) + 10 * (tenth as int - 48) + (hundredth as int - 48)
  {
    var s := whole + [tenth, hundredth];
    assert s[..|s| - 1] == whole + [tenth] && (whole + [tenth])[..|whole|] == whole;
  }

  lemma Rounded(x: real, h: int)
    requires h == (x * 100.0 + 0.5).Floor
    ensures -0.005 <= h as real / 100.0 - x <= 0.005
  {
  }

  lemma LowDigits(h: nat)
    ensures 100 * (h / 100) + 10 * (h / 10 % 10) + h % 10 == h
  {
  }

  lemma HundredthsRead(h: nat)
    ensures Reads(Decimal(h / 100) + [Digit(h / 10 % 10), Digit(h % 10)]) == h
  {
    hide Reads, Decimal, Digit;
    DecimalReads(h / 100);
    DigitReads(h / 10 % 10);
    DigitReads(h % 10);
    TwoDigitsRead(Decimal(h / 100), Digit(h / 10 % 10), Digit(h % 10));
    LowDigits(h);
  }

  /** A score is shown with two decimals and off by at most half of the last one. */
  lemma Fixed2Means(x: real) returns (whole: string, tenth: char, hundredth: char)
    requires x >= 0.0
    ensures Fixed2(x) == whole + "." + [tenth, hundredth]
    ensures var shown := Reads(whole + [tenth, hundredth]) as real / 100.0; -0.005 <= shown - x <= 0.005
  {
    hide Reads, Decimal, Digit;
    var h := (x * 100.0 + 0.5).Floor;
    whole, tenth, hundredth := Decimal(h / 100), Digit(h / 10 % 10), Digit(h % 10);
    Rounded(x, h);
    HundredthsRead(h);
  }

  function JoinLines(lines: seq<string>): string {
    if lines == [] then "" else if |lines| == 1 then lines[0] else lines[0] + "\n" + JoinLines(lines[1..])
  }

  lemma {:induction false} JoinAppend(a: seq<string>, b: seq<string>)
    requires a != [] && b != []
    ensures JoinLines(a + b) == JoinLines(a) + "\n" + JoinLines(b)
  {
    assert (a + b)[1..] == a[1..] + b;
    if |a| > 1 {
      JoinAppend(a[1..], b);
    }
  }

  lemma ThreeLines(a: string, b: string, c: string)
    ensures JoinLines([a, b, c]) == a + "\n" + b + "\n" + c
  {
    assert [a, b, c][1..] == [b, c] && [b, c][1..] == [c];
    assert JoinLines([b, c]) == b + "\n" + c;
    assert a + "\n" + (b + "\n" + c) == a + "\n" + b + "\n" + c;
  }

  lemma HeadLines(market: string, news: News, space: Space)
    ensures Head(market, news, space) ==
            JoinLines(["New market news", "Market: " + Shorten(market, 300, space), ""]
                      + [Shorten(Or(news.title, "Untitled news"), 700, space)])
  {
    var m, title := Shorten(market, 300, space), Shorten(Or(news.title, "Untitled news"), 700, space);
    hide Shorten, JoinLines;
    JoinAppend(["New market news", "Market: " + m, ""], [title]);
    ThreeLines("New market news", "Market: " + m, "");
    OneLine(title);
    HeadText(m, title);
  }

  lemma OneLine(line: string)
    ensures JoinLines([line]) == line
  {
  }

  lemma HeadText(m: string, title: string)
    ensures "New market news" + "\n" + ("Market: " + m) + "\n" + "" + "\n" + title ==
            "New market news\nMarket: " + m + "\n\n" + title
  {
    assert "New market news\nMarket: " == "New market news" + "\n" + "Market: ";
    assert "\n\n" == "\n" + "" + "\n";
  }

  lemma TailLines(news: News, space: Space, show: real -> string)
    ensures var source := Shorten(Or(news.source, "unknown"), 200, space);
            var published := Shorten(Or(news.published, "unknown"), 80, space);
            var impact, url := Shorten(Or(news.impact, "unknown"), 80, space), Shorten(Or(news.url, ""), 1000, space);
            Tail(news, space, show) ==
              JoinLines(["Source: " + source + " | Published: " + published,
                         "Impact: " + impact + " | " + Scores(news, show), url])
  {
    var source := Shorten(Or(news.source, "unknown"), 200, space);
    var published := Shorten(Or(news.published, "unknown"), 80, space);
    var impact, url := Shorten(Or(news.impact, "unknown"), 80, space), Shorten(Or(news.url, ""), 1000, space);
    var first := "Source: " + source + " | Published: " + published;
    var second := "Impact: " + impact + " | " + Scores(news, show);
    ThreeLines(first, second, url);
    hide Shorten, JoinLines, Scores;
    assert Lines(news, space, show) == first + "\n" + second + "\n";
  }

  /** The message, line by line. */
  lemma MessageLines(market: string, news: News, space: Space, show: real -> string)
    ensures var summary := Shorten(Or(news.summary, ""), Max(0, Room(market, news, space, show)), space);
            var source := Shorten(Or(news.source, "unknown"), 200, space);
            var published := Shorten(Or(news.published, "unknown"), 80, space);
            var impact, url := Shorten(Or(news.impact, "unknown"), 80, space), Shorten(Or(news.url, ""), 1000, space);
            Unsliced(market, news, space, show) == JoinLines(
              (["New market news", "Market: " + Shorten(market, 300, space), ""]
               + [Shorten(Or(news.title, "Untitled news"), 700, space)])
              + (["", summary, ""]
                 + ["Source: " + source + " | Published: " + published,
                    "Impact: " + impact + " | " + Scores(news, show), url]))
    ensures news.relevance.Number? && news.credibility.Number? ==>
              Scores(news, show) == "Relevance: " + Fixed2(news.relevance.value)
                                    + " | Credibility: " + Fixed2(news.credibility.value)
  {
    var summary := Shorten(Or(news.summary, ""), Max(0, Room(market, news, space, show)), space);
    var source := Shorten(Or(news.source, "unknown"), 200, space);
    var published := Shorten(Or(news.published, "unknown"), 80, space);
    var impact, url := Shorten(Or(news.impact, "unknown"), 80, space), Shorten(Or(news.url, ""), 1000, space);
    var top := ["New market news", "Market: " + Shorten(market, 300, space), ""]
               + [Shorten(Or(news.title, "Untitled news"), 700, space)];
    var bottom := ["Source: " + source + " | Published: " + published,
                   "Impact: " + impact + " | " + Scores(news, show), url];
    HeadLines(market, news, space);
    TailLines(news, space, show);
    ThreeLines("", summary, "");
    JoinAppend(["", summary, ""], bottom);
    JoinAppend(top, ["", summary, ""] + bottom);
    assert Unsliced(market, news, space, show) == JoinLines(top) + "\n\n" + summary + "\n\n" + JoinLines(bottom);
    Blank(JoinLines(top), summary, JoinLines(bottom));
    hide Shorten, JoinLines, Unsliced, Fixed2;
  }

  lemma Blank(a: string, b: string, c: string)
    ensures a + "\n\n" + b + "\n\n" + c == a + "\n" + ("" + "\n" + b + "\n" + "" + "\n" + c)
  {
    assert "\n\n" == "\n" + "" + "\n";
  }

  /** The limit is kept exactly when there is room for the mark, or nothing to cut. */
  lemma ShortenKeepsLimitIff(value: string, limit: nat, space: Space)
    ensures |Shorten(value, limit, space)| <= limit <==> limit >= 3 || |Strip(value, space)| <= limit
  {
    var text := Strip(value, space);
    if |text| > limit {
      StripRightLength(text[..Max(0, limit - 3)], space);
    }
  }

  lemma UnitScore(x: real)
    requires 0.0 <= x <= 1.0
    ensures |Fixed2(x)| == 4
  {
    var h := (x * 100.0 + 0.5).Floor;
    assert 0 <= h <= 100;
  }

  lemma HeadLength(market: string, news: News, space: Space)
    ensures |Head(market, news, space)| <= 1026
  {
    ShortenKeepsLimitIff(market, 300, space);
    ShortenKeepsLimitIff(Or(news.title, "Untitled news"), 700, space);
  }

  lemma TailLength(news: News, space: Space, show: real -> string)
    ensures |Tail(news, space, show)| <= 1395 + |Scores(news, show)|
  {
    ShortenKeepsLimitIff(Or(news.source, "unknown"), 200, space);
    ShortenKeepsLimitIff(Or(news.published, "unknown"), 80, space);
    ShortenKeepsLimitIff(Or(news.impact, "unknown"), 80, space);
    ShortenKeepsLimitIff(Or(news.url, ""), 1000, space);
  }

  /** Exactly when the final slice removes nothing: the fixed parts fit, and the summary can be cut to
  what remains or is short enough as it is. */
  lemma FitsIff(market: string, news: News, space: Space, show: real -> string)
    ensures var room := Room(market, news, space, show);
            |Unsliced(market, news, space, show)| <= MESSAGE_LIMIT <==>
            room >= 0 && (room >= 3 || |Strip(Or(news.summary, ""), space)| <= room)
  {
    var room := Room(market, news, space, show);
    ShortenKeepsLimitIff(Or(news.summary, ""), Max(0, room), space);
  }

  lemma AppendEnds(head: string, tail: string, end: string)
    requires EndsWith(tail, end)
    ensures EndsWith(head + tail, end)
  {
  }

  /** Whatever the other fields are, as long as the scores take at most 1668 characters the message is
  complete: within Telegram's limit before the slice, and ending with the whole shortened URL. */
  lemma MessageComplete(market: string, news: News, space: Space, show: real -> string)
    requires |Scores(news, show)| <= 1668
    ensures |Unsliced(market, news, space, show)| <= MESSAGE_LIMIT
    ensures Format(market, news, space, show) == Unsliced(market, news, space, show)
    ensures EndsWith(Format(market, news, space, show), Shorten(Or(news.url, ""), 1000, space))
  {
    HeadLength(market, news, space);
    TailLength(news, space, show);
    FitsIff(market, news, space, show);
    UnslicedEnds(market, news, space, show);
  }

  lemma UnslicedEnds(market: string, news: News, space: Space, show: real -> string)
    ensures EndsWith(Unsliced(market, news, space, show), Shorten(Or(news.url, ""), 1000, space))
  {
    var url := Shorten(Or(news.url, ""), 1000, space);
    AppendEnds(Lines(news, space, show), url, url);
    AppendEnds(Body(market, news, space, show), Tail(news, space, show), url);
  }

  /** In particular for numeric scores between 0 and 1, which is what the pipeline stores. */
  lemma StoredNewsComplete(market: string, news: News, space: Space, show: real -> string)
    requires news.relevance.Number? && 0.0 <= news.relevance.value <= 1.0
    requires news.credibility.Number? && 0.0 <= news.credibility.value <= 1.0
    ensures |Unsliced(market, news, space, show)| <= MESSAGE_LIMIT
    ensures EndsWith(Format(market, news, space, show), Shorten(Or(news.url, ""), 1000, space))
  {
    UnitScore(news.relevance.value);
    UnitScore(news.credibility.value);
    MessageComplete(market, news, space, show);
  }

  lemma LongLines(news: News, space: Space, show: real -> string)
    requires news.relevance.Words? && |news.relevance.text| >= MESSAGE_LIMIT
    ensures |Lines(news, space, show)| > MESSAGE_LIMIT
  {
    assert |Scores(news, show)| > MESSAGE_LIMIT;
    hide Scores, Shorten;
  }

  /** A score handed over as text is not shortened, so a long one can push the end of the message over
  the limit, and the slice then takes part of the text and the whole URL. */
  lemma LongScoresCut(market: string, news: News, space: Space, show: real -> string, url: string)
    requires news.relevance.Words? && |news.relevance.text| >= MESSAGE_LIMIT
    requires url == Shorten(Or(news.url, ""), 1000, space)
    ensures |Unsliced(market, news, space, show)| > MESSAGE_LIMIT
    ensures Format(market, news, space, show) <= Body(market, news, space, show) + Lines(news, space, show)
    ensures |Format(market, news, space, show)| < |Body(market, news, space, show) + Lines(news, space, show)|
  {
    hide Body, Lines, Shorten, Scores;
    LongLines(news, space, show);
    var front, whole := Body(market, news, space, show) + Lines(news, space, show), Unsliced(market, news, space, show);
    assert whole == front + url;
    assert whole[..MESSAGE_LIMIT] == front[..MESSAGE_LIMIT];
  }
}
