/** String parsing helpers of src/simbot/utils.py. */
module Utils {
  import opened Wrappers
  import opened Text

  /** The spellings read as true, after stripping and lower-casing. */
  const TrueStrings: set<string> := {"true", "yes", "y", "on", "1", "set", "ye"}

  /** The spellings read as false, after stripping and lower-casing. */
  const FalseStrings: set<string> := {"false", "no", "n", "off", "0", "clear", "clr"}

  /** No spelling is both true and false (the module checks this when it loads). */
  lemma TrueFalseDisjoint()
    ensures TrueStrings !! FalseStrings
  {
  }

  /**
   * str_parse_boolean: Some(true) or Some(false) for a known spelling of
   * either truth value, None for any other text.
   */
  function StrParseBoolean(text: string): (r: Option<bool>)
    ensures r == Some(true) <==> Lower(Strip(text)) in TrueStrings
    ensures r == Some(false) <==> Lower(Strip(text)) in FalseStrings
    ensures r == None <==> Lower(Strip(text)) !in TrueStrings + FalseStrings
  {
    TrueFalseDisjoint();
    var t := Lower(Strip(text));
    if t in TrueStrings then Some(true)
    else if t in FalseStrings then Some(false)
    else None
  }

  /** The answer depends only on the stripped, lower-cased text, whichever order the two are applied in. */
  lemma StrParseBooleanNormalized(text: string)
    ensures StrParseBoolean(Strip(Lower(text))) == StrParseBoolean(text)
    ensures StrParseBoolean(Lower(Strip(text))) == StrParseBoolean(text)
  {
    var t := Lower(Strip(text));
    StripLower(text);
    assert Strip(Lower(text)) == t;
    StripLower(Strip(text));
    StripIdempotent(text);
    LowerIgnoresCase(Strip(text));
    assert Lower(Strip(t)) == t;
  }

  /** Upper- or lower-casing the input does not change the answer. */
  lemma StrParseBooleanIgnoresCase(text: string)
    ensures StrParseBoolean(Upper(text)) == StrParseBoolean(text)
    ensures StrParseBoolean(Lower(text)) == StrParseBoolean(text)
  {
    StripUpper(text);
    StripLower(Upper(text));
    StripLower(text);
    LowerIgnoresCase(Strip(text));
    assert Lower(Strip(Upper(text))) == Lower(Upper(Strip(text)));
    StripLower(Lower(text));
    assert Lower(Strip(Lower(text))) == Lower(Lower(Strip(text)));
  }

  /** White space around the input does not change the answer. */
  lemma StrParseBooleanPadding(left: string, text: string, right: string)
    requires AllSpace(left) && AllSpace(right)
    ensures StrParseBoolean(left + text + right) == StrParseBoolean(text)
  {
    StripPadding(left, text, right);
  }
}
