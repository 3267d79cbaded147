/**
 * String helpers with Python's semantics, and the exchange instrument-name
 * normalisation used before every spot-price request.
 */
module Symbols {

  /** `s.endswith(suffix)` */
  predicate EndsWith(s: string, suffix: string)
  {
    |suffix| <= |s| && s[|s| - |suffix|..] == suffix
  }

  /** `s.replace(pat, rep)`: every non-overlapping occurrence, scanned left to right. */
  function Replace(s: string, pat: string, rep: string): string
    requires pat != []
    decreases |s|
  {
    if |s| < |pat| then s
    else if s[..|pat|] == pat then rep + Replace(s[|pat|..], pat, rep)
    else [s[0]] + Replace(s[1..], pat, rep)
  }

  /** `c.upper()` for ASCII letters; every other character is kept. */
  function UpperChar(c: char): char
  {
    if 'a' <= c <= 'z' then (c as int - 32) as char else c
  }

  function Upper(s: string): (r: string)
    ensures |r| == |s|
    ensures forall i :: 0 <= i < |s| ==> r[i] == UpperChar(s[i])
  {
    seq(|s|, i requires 0 <= i < |s| => UpperChar(s[i]))
  }

  const Quote: string := "USDT"
  const QuoteSuffix: string := "-USDT"

  /**
   * The instrument id sent to the ticker endpoint (main.py:189-193):
   * a name that already contains a dash is kept, a name ending in the quote
   * currency gets a dash inserted before it, anything else is upper-cased and
   * gets "-USDT" appended.
   */
  function Instrument(symbol: string): string
  {
    if '-' in symbol then symbol
    else if !EndsWith(symbol, Quote) then Upper(symbol) + QuoteSuffix
    else Replace(symbol, Quote, QuoteSuffix)
  }

  /** The bare asset name used for the price and volatility tables (main.py:257, main.py:305). */
  function BaseSymbol(symbol: string): string
  {
    Upper(Replace(Replace(symbol, QuoteSuffix, ""), Quote, ""))
  }

  /** A string that starts and ends with `pat` and is shorter than two copies of it
      makes the head of `pat` recur inside `pat`. */
  lemma OverlapRepeatsHead(s: string, pat: string)
    requires |pat| < |s| < 2 * |pat|
    requires s[..|pat|] == pat && EndsWith(s, pat)
    ensures pat[|s| - |pat|] == pat[0]
  {
    var k := |s| - |pat|;
    assert s[k] == s[|s| - |pat|..][0];
    assert s[k] == s[..|pat|][k];
  }

  /**
   * When the pattern's first character does not recur inside it (true of
   * "USDT"), a trailing occurrence is always one of the occurrences replaced,
   * so the result ends with the replacement.
   */
  lemma {:induction false} ReplaceAtEnd(s: string, pat: string, rep: string)
    requires pat != []
    requires forall k :: 0 < k < |pat| ==> pat[k] != pat[0]
    requires EndsWith(s, pat)
    ensures EndsWith(Replace(s, pat, rep), rep)
  {
    if s[..|pat|] == pat {
      if |s| == |pat| {
        assert s[|pat|..] == [];
        assert Replace(s, pat, rep) == rep + [];
      } else if |s| < 2 * |pat| {
        OverlapRepeatsHead(s, pat);
        assert false;
      } else {
        var t := s[|pat|..];
        assert t[|t| - |pat|..] == s[|s| - |pat|..];
        ReplaceAtEnd(t, pat, rep);
      }
    } else {
      var t := s[1..];
      assert t[|t| - |pat|..] == s[|s| - |pat|..];
      ReplaceAtEnd(t, pat, rep);
      ConsKeepsSuffix(s[0], Replace(t, pat, rep), rep);
    }
  }

  /** Putting a character in front keeps a suffix. */
  lemma ConsKeepsSuffix(c: char, t: string, suffix: string)
    requires EndsWith(t, suffix)
    ensures EndsWith([c] + t, suffix)
  {
    var r := [c] + t;
    assert r[|r| - |suffix|..] == t[|t| - |suffix|..];
  }

  /**
   * Every normalised name carries a dash; a name without one comes out
   * quoted in USDT; and normalising twice changes nothing.
   */
  lemma InstrumentQuoted(symbol: string)
    ensures '-' in Instrument(symbol)
    ensures '-' !in symbol ==> EndsWith(Instrument(symbol), QuoteSuffix)
    ensures '-' in symbol ==> Instrument(symbol) == symbol
    ensures Instrument(Instrument(symbol)) == Instrument(symbol)
  {
    var r := Instrument(symbol);
    if '-' !in symbol {
      if EndsWith(symbol, Quote) {
        ReplaceAtEnd(symbol, Quote, QuoteSuffix);
      } else {
        assert r[|r| - |QuoteSuffix|..] == QuoteSuffix;
      }
      assert r[|r| - 5] == '-';
    }
  }

  /** A prefix holding no first character of the pattern passes through unchanged. */
  lemma {:induction false} ReplaceSkipsPrefix(b: string, t: string, pat: string, rep: string)
    requires pat != [] && forall i :: 0 <= i < |b| ==> b[i] != pat[0]
    ensures Replace(b + t, pat, rep) == b + Replace(t, pat, rep)
    decreases |b|
  {
    if b != [] {
      var s := b + t;
      ReplaceSkipsPrefix(b[1..], t, pat, rep);
      assert s[1..] == b[1..] + t;
      if |s| >= |pat| {
        assert s[..|pat|][0] == b[0];
        assert Replace(s, pat, rep) == [b[0]] + Replace(s[1..], pat, rep);
      } else {
        assert |t| < |pat| && Replace(t, pat, rep) == t;
      }
      assert [b[0]] + (b[1..] + Replace(t, pat, rep)) == b + Replace(t, pat, rep);
    } else {
      assert b + t == t;
    }
  }

  /**
   * A bare name followed by the quote currency, with neither a dash nor a
   * 'U' in the bare part, gets exactly one dash, before the quote.
   */
  lemma InstrumentSplitsQuote(b: string)
    requires '-' !in b && Quote[0] !in b
    ensures Instrument(b + Quote) == b + QuoteSuffix
  {
    var s := b + Quote;
    assert '-' !in s by {
      forall i | 0 <= i < |s| ensures s[i] != '-' {
        if i >= |b| { assert s[i] == Quote[i - |b|]; }
      }
    }
    assert s[|s| - |Quote|..] == Quote;
    ReplaceSkipsPrefix(b, Quote, Quote, QuoteSuffix);
    assert Quote[..|Quote|] == Quote && Quote[|Quote|..] == "";
  }

  /** Example: "BTCUSDT" becomes "BTC-USDT". */
  lemma InstrumentInsertsDash()
    ensures Instrument("BTCUSDT") == "BTC-USDT"
  {
    assert "BTCUSDT" == "BTC" + Quote;
    InstrumentSplitsQuote("BTC");
  }

  /** Example: a lower-case bare name is upper-cased and quoted. */
  lemma InstrumentQuotesBare()
    ensures Instrument("eth") == "ETH-USDT"
  {
    assert !EndsWith("eth", Quote);
    assert Upper("eth") == "ETH";
  }

  /** Example: a name with a dash is sent as it is. */
  lemma InstrumentKeepsDashed()
    ensures Instrument("SOL-USDT") == "SOL-USDT"
  {
    assert "SOL-USDT"[3] == '-';
  }

  /** Replacing a character by a string without it leaves no occurrence of that character. */
  lemma {:induction false} ReplaceCharRemoves(s: string, c: char, rep: string)
    requires c !in rep
    ensures c !in Replace(s, [c], rep)
    decreases |s|
  {
    if |s| >= 1 {
      ReplaceCharRemoves(s[1..], c, rep);
      if s[..1] != [c] {
        assert s[0] != c by { assert s[..1][0] == s[0]; }
      }
    }
  }

  /** Example: an upper-case quote is stripped together with its dash. */
  lemma BaseSymbolStripsQuote()
    ensures BaseSymbol("BTC-USDT") == "BTC"
  {
    var b := "BTC";
    assert b + QuoteSuffix == "BTC-USDT" && b + "" == b;
    ReplaceSkipsPrefix(b, QuoteSuffix, QuoteSuffix, "");
    assert QuoteSuffix[..|QuoteSuffix|] == QuoteSuffix && QuoteSuffix[|QuoteSuffix|..] == "";
    ReplaceSkipsPrefix(b, "", Quote, "");
    assert Upper(b) == b;
  }

  /** Example: a lower-case quote is kept, because stripping comes before upper-casing. */
  lemma BaseSymbolKeepsLowerQuote()
    ensures BaseSymbol("ethusdt") == "ETHUSDT"
  {
    var e := "ethusdt";
    assert e + "" == e;
    ReplaceSkipsPrefix(e, "", QuoteSuffix, "");
    ReplaceSkipsPrefix(e, "", Quote, "");
    assert Upper(e) == "ETHUSDT";
  }

  /** Replacing a one-character pattern works piece by piece: no occurrence straddles a join. */
  lemma {:induction false} ReplaceCharConcat(x: string, y: string, c: char, rep: string)
    ensures Replace(x + y, [c], rep) == Replace(x, [c], rep) + Replace(y, [c], rep)
    decreases |x|
  {
    if x == [] {
      assert x + y == y;
    } else {
      var s := x + y;
      assert s[1..] == x[1..] + y;
      assert s[..1] == x[..1];
      ReplaceCharConcat(x[1..], y, c, rep);
      if x[..1] == [c] {
        assert rep + (Replace(x[1..], [c], rep) + Replace(y, [c], rep))
          == (rep + Replace(x[1..], [c], rep)) + Replace(y, [c], rep);
      } else {
        assert [x[0]] + (Replace(x[1..], [c], rep) + Replace(y, [c], rep))
          == ([x[0]] + Replace(x[1..], [c], rep)) + Replace(y, [c], rep);
      }
    }
  }
}
