/** The text helpers of src/lib/utils.ts: currency symbol selection, relative day
    wording, initials and the public quote link. */
module Utils {
  import opened Wrappers
  import opened Text
  import Decimal

  /** `CURRENCY_SYMBOLS[code] ?? code`: the four supported currencies have their own
      symbol, any other code stands for itself. */
  function CurrencySymbol(code: string): (r: string)
    ensures code == "JMD" ==> r == "J$"
    ensures code == "USD" ==> r == "$"
    ensures code == "TTD" ==> r == "TT$"
    ensures code == "BBD" ==> r == "Bds$"
    ensures code !in {"JMD", "USD", "TTD", "BBD"} ==> r == code
  {
    var symbols := map["JMD" := "J$", "USD" := "$", "TTD" := "TT$", "BBD" := "Bds$"];
    if code in symbols then symbols[code] else code
  }

  /** `formatCurrency(amount, currency = 'JMD')`, with the locale rendering of the amount
      (`toLocaleString`) supplied as `amountText`. */
  function FormatCurrency(amountText: string, currency: Option<string>): (r: string)
    ensures var sym := CurrencySymbol(currency.GetOr("JMD"));
      |sym| <= |r| && r[..|sym|] == sym && r[|sym|..] == amountText
  {
    CurrencySymbol(currency.GetOr("JMD")) + amountText
  }

  /** Without a currency the amount is shown in Jamaican dollars. */
  lemma FormatCurrencyDefaultsToJmd(amountText: string)
    ensures FormatCurrency(amountText, None) == "J$" + amountText
  {
  }

  /** The four supported currencies are told apart by the first character of the text. */
  lemma KnownSymbolsDistinguishable(a: string, b: string, x: string, y: string)
    requires a in {"JMD", "USD", "TTD", "BBD"} && b in {"JMD", "USD", "TTD", "BBD"}
    requires FormatCurrency(x, Some(a))[0] == FormatCurrency(y, Some(b))[0]
    ensures a == b
  {
  }

  /** `relativeTime` from the whole number of calendar days between the quote's day and today;
      `dateText` is the short date shown for older days. */
  function RelativeTime(diffDays: int, dateText: string): (r: string)
    ensures diffDays == 0 ==> r == "Today"
    ensures diffDays == 1 ==> r == "Yesterday"
    ensures diffDays < 7 && diffDays != 0 && diffDays != 1 ==> r == Decimal.Show(diffDays) + "d ago"
    ensures diffDays >= 7 ==> r == dateText
  {
    if diffDays == 0 then "Today"
    else if diffDays == 1 then "Yesterday"
    else if diffDays < 7 then Decimal.Show(diffDays) + "d ago"
    else dateText
  }

  /** Within the last week (and for future dates) the wording names the day difference
      unambiguously: equal wording means an equal day difference. */
  lemma RelativeTimeDistinguishesRecentDays(d1: int, d2: int, dateText: string)
    requires d1 < 7 && d2 < 7
    requires RelativeTime(d1, dateText) == RelativeTime(d2, dateText)
    ensures d1 == d2
  {
    var r1 := RelativeTime(d1, dateText);
    var r2 := RelativeTime(d2, dateText);
    Decimal.ShowInjective(d1, d2);
    if d1 !in {0, 1} {
      var s1 := Decimal.Show(d1);
      assert r1 == s1 + "d ago" && |s1| > 0;
      assert r1[..|r1| - 5] == s1;
      assert r2 != "Today" && r2 != "Yesterday" by {
        assert r1[|r1| - 5..] == "d ago";
      }
      var s2 := Decimal.Show(d2);
      assert r2 == s2 + "d ago";
      assert r2[..|r2| - 5] == s2;
      assert s1 == s2;
    } else if d2 in {0, 1} {
      assert |RelativeTime(0, dateText)| != |RelativeTime(1, dateText)|;
    } else {
      AgoIsNotAWord(d2, dateText);
    }
  }

  /** "N d ago" wording never coincides with "Today" or "Yesterday". */
  lemma AgoIsNotAWord(d: int, dateText: string)
    ensures d < 7 && d !in {0, 1} ==> RelativeTime(d, dateText) !in {"Today", "Yesterday"}
  {
  }

  /** The first character of a word, or nothing for an empty word (`w[0]` is `undefined`,
      which `join` renders as empty). */
  function FirstChar(w: string): (r: string)
    ensures |r| <= 1
  {
    if |w| > 0 then [w[0]] else ""
  }

  /** `name.split(' ').map(w => w[0]).slice(0, 2).join('').toUpperCase()`. */
  function Initials(name: string): (r: string)
    ensures |r| <= 2
  {
    var words := Split(name, ' ');
    var first := FirstChar(words[0]);
    var second := if |words| > 1 then FirstChar(words[1]) else "";
    ToUpper(first + second)
  }

  /** A one-word name gives the upper-cased first letter. */
  lemma InitialsOneWord(name: string)
    requires |name| > 0 && ' ' !in name
    ensures Initials(name) == [UpperChar(name[0])]
  {
  }

  /** "first last" gives the upper-cased first letters of both words. */
  lemma InitialsTwoWords(first: string, last: string)
    requires |first| > 0 && |last| > 0 && ' ' !in first && last[0] != ' '
    ensures Initials(first + " " + last) == [UpperChar(first[0]), UpperChar(last[0])]
  {
    var name := first + " " + last;
    var i := |first|;
    assert name[i] == ' ' && name[..i] == first;
    FindAt(name, ' ', i);
    assert name[..i] == first;
    assert name[i + 1..] == last;
    var words := Split(name, ' ');
    assert words[0] == first;
    assert words[1] == Split(last, ' ')[0];
    SplitFirst(last, ' ');
    if ' ' in last {
      assert Find(last, ' ') > 0;
    }
  }

  /** The site origin used for public links: the browser's origin when running in a
      browser, else the configured application URL, else the deployed default. */
  function PublicBase(windowOrigin: Option<string>, appUrl: Option<string>): (r: string)
    ensures windowOrigin.Some? ==> r == windowOrigin.value
    ensures windowOrigin.None? && appUrl.Some? ==> r == appUrl.value
    ensures windowOrigin.None? && appUrl.None? ==> r == "https://quote-flow-phi.vercel.app"
  {
    if windowOrigin.Some? then windowOrigin.value
    else appUrl.GetOr("https://quote-flow-phi.vercel.app")
  }

  /** `quotePublicUrl`: `base + "/q/" + token`. */
  function QuotePublicUrl(base: string, shareToken: string): (r: string)
    ensures |r| == |base| + 3 + |shareToken|
    ensures r[..|base|] == base && r[|base|..|base| + 3] == "/q/" && r[|base| + 3..] == shareToken
  {
    base + "/q/" + shareToken
  }

  /** The router's reading of a public link: the share token after `base/q/`. */
  function ShareTokenOf(base: string, url: string): Option<string> {
    var prefix := base + "/q/";
    if |prefix| <= |url| && url[..|prefix|] == prefix then Some(url[|prefix|..]) else None
  }

  /** The public link of a token leads back to exactly that token. */
  lemma PublicUrlRoundTrip(base: string, shareToken: string)
    ensures ShareTokenOf(base, QuotePublicUrl(base, shareToken)) == Some(shareToken)
  {
  }

  /** Whatever the environment, distinct share tokens get distinct public links. */
  lemma PublicLinksDistinct(windowOrigin: Option<string>, appUrl: Option<string>, t1: string, t2: string)
    ensures var base := PublicBase(windowOrigin, appUrl);
      QuotePublicUrl(base, t1) == QuotePublicUrl(base, t2) ==> t1 == t2
  {
    var base := PublicBase(windowOrigin, appUrl);
    PublicUrlRoundTrip(base, t1);
    PublicUrlRoundTrip(base, t2);
  }
}
