/** Properties of ticker normalisation and of the two upstream URLs in
    Netlify/functions/yahoo.js. */
module YahooLemmas {
  import opened Yahoo

  /** Text without lower-case letters is its own upper-case form. */
  lemma ToUpperKeepsUpper(s: string)
    requires NoLower(s)
    ensures ToUpper(s) == s
  {
  }

  /** Upper-casing twice is upper-casing once. */
  lemma ToUpperIdempotent(s: string)
    ensures ToUpper(ToUpper(s)) == ToUpper(s)
  {
    ToUpperKeepsUpper(ToUpper(s));
  }

  /** Normalising an already normalised ticker returns it unchanged. */
  lemma NormalizeIdempotent(sym: string)
    ensures Normalize(Normalize(sym)) == Normalize(sym)
  {
    ToUpperKeepsUpper(Normalize(sym));
  }

  /** Case does not matter: a symbol and its upper-case form normalise to the
      same ticker. */
  lemma NormalizeIgnoresCase(sym: string)
    ensures Normalize(ToUpper(sym)) == Normalize(sym)
  {
    ToUpperIdempotent(sym);
  }

  /** `abc.bo` is recognised as a Bombay listing once upper-cased. */
  lemma LowerCaseBombaySuffixKept()
    ensures Normalize("abc.bo") == "ABC.BO"
  {
    var upper := ToUpper("abc.bo");
    assert upper[0] == 'A' && upper[1] == 'B' && upper[2] == 'C';
    assert upper[3] == '.' && upper[4] == 'B' && upper[5] == 'O';
    assert upper == "ABC.BO";
    assert EndsWith(upper, ".BO");
  }

  /** A bare symbol gets the National Stock Exchange suffix. */
  lemma BareSymbolGetsNseSuffix()
    ensures Normalize("tcs") == "TCS.NS"
  {
    var upper := ToUpper("tcs");
    assert upper[0] == 'T' && upper[1] == 'C' && upper[2] == 'S';
    assert upper == "TCS";
    assert !EndsWith(upper, ".NS") && !EndsWith(upper, ".BO") by {
      assert upper[|upper| - 3..][0] == 'T';
    }
  }

  /** The chart and all-time-high URLs agree everywhere except at the one
      character where `2y` and `5y` differ. */
  lemma ChartAndAthUrlsDifferOnlyInRange(ticker: string)
    ensures |ChartUrl(ticker, "2y")| == |ChartUrl(ticker, "5y")|
    ensures ChartUrl(ticker, "2y")[|ChartEndpoint| + |ticker| + 7] == '2'
    ensures ChartUrl(ticker, "5y")[|ChartEndpoint| + |ticker| + 7] == '5'
    ensures forall k :: 0 <= k < |ChartUrl(ticker, "2y")| && k != |ChartEndpoint| + |ticker| + 7 ==>
      ChartUrl(ticker, "2y")[k] == ChartUrl(ticker, "5y")[k]
  {
    var head := ChartEndpoint + ticker + "?range=";
    assert ChartUrl(ticker, "2y") == head + "2y&interval=1d";
    assert ChartUrl(ticker, "5y") == head + "5y&interval=1d";
  }
}
