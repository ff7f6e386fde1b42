/**
 * What the mode table, the resolver and the two carrier front ends of
 * `DecodeFormatManager` promise, stated over the model and proved.
 */
module DecodeFormatProperties {
  import opened Wrappers
  import opened BarcodeFormats
  import CommaSplit
  import opened DecodeFormatManager

  /** The table has exactly the six mode names as keys. */
  lemma ModeTableKeys()
    ensures FORMATS_FOR_MODE.Keys ==
      {ONE_D_MODE, PRODUCT_MODE, QR_CODE_MODE, DATA_MATRIX_MODE, AZTEC_MODE, PDF417_MODE}
  {
  }

  /** Every group in the table is non-empty and drawn from the catalogue. */
  lemma ModeGroupsWellFormed(mode: string)
    requires mode in FORMATS_FOR_MODE
    ensures FORMATS_FOR_MODE[mode] != {}
    // Holds by construction: the catalogue lists every constructor.
    ensures FORMATS_FOR_MODE[mode] <= AllFormats
  {
  }

  /**
   * The product and industrial groups are disjoint, so the one-dimensional
   * group, their union, has 6 + 5 = 11 members.
   */
  lemma OneDimensionalGroupSize()
    ensures |PRODUCT_FORMATS| == 6 && |INDUSTRIAL_FORMATS| == 5
    ensures PRODUCT_FORMATS !! INDUSTRIAL_FORMATS
    ensures |ONE_D_FORMATS| == 11
  {
  }

  /** The group each mode name selects. */
  lemma ModeGroups()
    ensures FormatsForMode(PRODUCT_MODE) == Some({UPC_A, UPC_E, EAN_13, EAN_8, RSS_14, RSS_EXPANDED})
    ensures FormatsForMode(ONE_D_MODE) == Some(PRODUCT_FORMATS + INDUSTRIAL_FORMATS)
    ensures FormatsForMode(QR_CODE_MODE) == Some({QR_CODE})
    ensures FormatsForMode(DATA_MATRIX_MODE) == Some({DATA_MATRIX})
    ensures FormatsForMode(AZTEC_MODE) == Some({AZTEC})
    ensures FormatsForMode(PDF417_MODE) == Some({PDF_417})
  {
  }

  /**
   * A present token list whose every token parses decides the result,
   * whatever the mode: exactly the formats the tokens name.
   */
  lemma ExplicitListWins(tokens: seq<string>, decodeMode: Option<string>)
    requires forall i :: 0 <= i < |tokens| ==> ValueOf(tokens[i]).Some?
    ensures Resolve(Some(tokens), decodeMode).Some?
    ensures forall f :: f in Resolve(Some(tokens), decodeMode).value <==> Named(tokens, f)
  {
    forall f ensures f in ParseAll(tokens).value <==> Named(tokens, f) {
      ParseAllMembers(tokens, f);
    }
  }

  /**
   * Order and repetition of the tokens do not matter: two lists holding the
   * same tokens resolve alike.
   */
  lemma TokenOrderIrrelevant(a: seq<string>, b: seq<string>, decodeMode: Option<string>)
    requires forall t :: t in a <==> t in b
    ensures Resolve(Some(a), decodeMode) == Resolve(Some(b), decodeMode)
  {
    if forall i :: 0 <= i < |a| ==> ValueOf(a[i]).Some? {
      assert forall i :: 0 <= i < |b| ==> ValueOf(b[i]).Some? by {
        forall i | 0 <= i < |b| ensures ValueOf(b[i]).Some? {
          assert b[i] in a;
        }
      }
      forall f ensures f in ParseAll(a).value <==> f in ParseAll(b).value {
        ParseAllMembers(a, f);
        ParseAllMembers(b, f);
        if Named(a, f) {
          var i :| 0 <= i < |a| && ValueOf(a[i]) == Some(f);
          assert a[i] in b;
        }
        if Named(b, f) {
          var i :| 0 <= i < |b| && ValueOf(b[i]) == Some(f);
          assert b[i] in a;
        }
      }
      assert ParseAll(a).value == ParseAll(b).value;
    } else {
      var i :| 0 <= i < |a| && ValueOf(a[i]).None?;
      assert a[i] in b;
    }
  }

  /**
   * One token that is not a format name discards the whole list, with no
   * partial result: the request resolves as if it carried no list at all.
   */
  lemma InvalidTokenFallsBackToMode(tokens: seq<string>, i: nat, decodeMode: Option<string>)
    requires i < |tokens| && ValueOf(tokens[i]).None?
    ensures Resolve(Some(tokens), decodeMode) == Resolve(None, decodeMode)
    ensures Resolve(Some(tokens), decodeMode) ==
      if decodeMode.Some? then FormatsForMode(decodeMode.value) else None
  {
  }

  /** A present but empty token list selects no format at all, not "absent". */
  lemma EmptyListGivesEmptySet(decodeMode: Option<string>)
    ensures Resolve(Some([]), decodeMode) == Some({})
  {
  }

  /** No list and no mode, or no list and an unknown mode, give "absent". */
  lemma AbsentOrUnknownModeGivesAbsent(mode: string)
    ensures Resolve(None, None) == None
    ensures mode !in FORMATS_FOR_MODE ==> Resolve(None, Some(mode)) == None
  {
  }

  /**
   * The result is present exactly when the list is present and fully valid
   * or the mode is one of the six names; a present result always lies
   * within the catalogue.
   */
  lemma ResolvePresentExactly(scanFormats: Option<seq<string>>, decodeMode: Option<string>)
    ensures Resolve(scanFormats, decodeMode).Some? <==>
      (scanFormats.Some? && forall i :: 0 <= i < |scanFormats.value| ==> ValueOf(scanFormats.value[i]).Some?)
      || (decodeMode.Some? && decodeMode.value in FORMATS_FOR_MODE)
    // Holds by construction: the catalogue lists every constructor.
    ensures Resolve(scanFormats, decodeMode).Some? ==> Resolve(scanFormats, decodeMode).value <= AllFormats
  {
    var r := Resolve(scanFormats, decodeMode);
    if r.Some? {
      forall f | f in r.value ensures f in AllFormats {
        CatalogueIsClosed(f);
      }
    }
  }

  /** Parsing one more token: the set grows by its format, or parsing fails. */
  lemma ParseAllAppend(tokens: seq<string>, t: string)
    ensures ParseAll(tokens + [t]) ==
      if ParseAll(tokens).Some? && ValueOf(t).Some?
      then Some(ParseAll(tokens).value + {ValueOf(t).value})
      else None
  {
    assert (tokens + [t])[..|tokens|] == tokens;
  }

  /** Two tokens naming formats `f` and `g` resolve to `{f, g}`, whatever the mode. */
  lemma TwoNamesResolve(f: Format, g: Format, decodeMode: Option<string>)
    ensures Resolve(Some([Name(f), Name(g)]), decodeMode) == Some({f, g})
  {
    ValueOfName(f);
    ValueOfName(g);
    ParseAllAppend([], Name(f));
    ParseAllAppend([Name(f)], Name(g));
    assert [] + [Name(f)] == [Name(f)];
    assert [Name(f)] + [Name(g)] == [Name(f), Name(g)];
    assert ParseAll([]) == Some({});
    assert {} + {f} + {g} == {f, g};
  }

  /** An explicit list beats the mode: `["QR_CODE", "AZTEC"]` gives exactly those two. */
  lemma ExplicitListOverModeExample(decodeMode: Option<string>)
    ensures Resolve(Some(["QR_CODE", "AZTEC"]), decodeMode) == Some({QR_CODE, AZTEC})
  {
    TwoNamesResolve(QR_CODE, AZTEC, decodeMode);
  }

  /** A repeated name collapses: `["EAN_8", "EAN_8"]` gives `{EAN_8}`. */
  lemma RepeatedNameExample(decodeMode: Option<string>)
    ensures Resolve(Some(["EAN_8", "EAN_8"]), decodeMode) == Some({EAN_8})
  {
    TwoNamesResolve(EAN_8, EAN_8, decodeMode);
    assert {EAN_8, EAN_8} == {EAN_8};
  }

  /** An unknown name falls back to the mode: `["NOT_A_FORMAT"]` with QR mode gives `{QR_CODE}`. */
  // The token is a parameter fixed by `requires` rather than a literal, so the
  // prover does not unroll the name lookup on a literal string.
  lemma UnknownNameFallsBackExample(token: string)
    requires token == "NOT_A_FORMAT"
    ensures Resolve(Some([token]), Some(QR_CODE_MODE)) == Some({QR_CODE})
  {
    forall f ensures Name(f) != token {
      NameIsNot(f, token);
    }
    ValueOfUnknown(token);
    InvalidTokenFallsBackToMode([token], 0, Some(QR_CODE_MODE));
  }

  /** No constant is called `NOT_A_FORMAT`. */
  // `s` is a parameter fixed by `requires` for the same reason as above.
  lemma NameIsNot(f: Format, s: string)
    requires s == "NOT_A_FORMAT"
    ensures Name(f) != s
  {
  }

  /** With no list, the one-dimensional mode gives the product and industrial groups together. */
  lemma OneDimensionalModeExample()
    ensures Resolve(None, Some(ONE_D_MODE)) == Some(PRODUCT_FORMATS + INDUSTRIAL_FORMATS)
  {
  }

  /** Intent: with no format extra the mode alone decides. */
  lemma IntentWithoutFormatsUsesMode(modeExtra: Option<string>)
    ensures Resolve(IntentTokens(Intent(None, modeExtra)), modeExtra) == Resolve(None, modeExtra)
  {
  }

  /**
   * Intent: an empty format extra splits into one empty token, which is not
   * a format name, so the mode decides.
   */
  lemma IntentEmptyFormats(modeExtra: Option<string>)
    ensures Resolve(IntentTokens(Intent(Some(""), modeExtra)), modeExtra) == Resolve(None, modeExtra)
  {
    CommaSplit.SplitIgnoresTrailingComma("");
    if ValueOf("").Some? {
      ParsedTokenShape("");
    }
    var tokens: seq<string> := [""];
    InvalidTokenFallsBackToMode(tokens, 0, modeExtra);
  }

  /** Intent: a lone comma splits into no tokens and selects no format at all. */
  lemma IntentLoneComma(modeExtra: Option<string>)
    ensures Resolve(IntentTokens(Intent(Some(","), modeExtra)), modeExtra) == Some({})
  {
    CommaSplit.SplitIgnoresTrailingComma("");
  }

  /** Intent: a name with a leading space is not trimmed and does not parse. */
  lemma IntentSpacesNotTrimmed(modeExtra: Option<string>)
    ensures Resolve(IntentTokens(Intent(Some(" EAN_8"), modeExtra)), modeExtra) == Resolve(None, modeExtra)
  {
    var s: string := " EAN_8";
    assert CommaSplit.CommaFree(s) by {
      assert s == [' ', 'E', 'A', 'N', '_', '8'];
    }
    assert s[0] == ' ';
    ValueOfRejectsSeparators(s);
    var tokens: seq<string> := [s];
    InvalidTokenFallsBackToMode(tokens, 0, modeExtra);
  }

  /**
   * Intent round trip: format names joined with commas resolve as the list
   * of those names does, to exactly the formats they name, whatever the mode.
   */
  lemma IntentJoinedNames(names: seq<string>, modeExtra: Option<string>)
    requires |names| >= 1
    requires forall i :: 0 <= i < |names| ==> ValueOf(names[i]).Some?
    ensures Resolve(IntentTokens(Intent(Some(CommaSplit.Join(names)), modeExtra)), modeExtra)
         == Resolve(Some(names), modeExtra)
    ensures forall f :: f in Resolve(Some(names), modeExtra).value <==> Named(names, f)
  {
    forall k | 0 <= k < |names| ensures CommaSplit.CommaFree(names[k]) && names[k] != "" {
      ParsedTokenShape(names[k]);
    }
    CommaSplit.SplitOfJoin(names);
    ExplicitListWins(names, modeExtra);
  }

  /** URI: a single value is split on commas exactly as the intent extra is. */
  lemma UriSingleValueLikeIntent(value: string, mode: Option<string>)
    ensures Resolve(UriTokens(Uri(Some([value]), mode)), mode)
         == Resolve(IntentTokens(Intent(Some(value), mode)), mode)
  {
  }

  /**
   * URI: one value `"EAN_13,EAN_8"`, or any single joined value of
   * comma-free tokens ending in a non-empty one, resolves the same as the
   * tokens given as repeated values.
   */
  lemma UriSingleValueSplitLikeRepeated(tokens: seq<string>, modeParam: Option<string>)
    requires |tokens| >= 2
    requires forall k :: 0 <= k < |tokens| ==> CommaSplit.CommaFree(tokens[k])
    requires tokens[|tokens| - 1] != ""
    ensures Resolve(UriTokens(Uri(Some([CommaSplit.Join(tokens)]), modeParam)), modeParam)
         == Resolve(UriTokens(Uri(Some(tokens), modeParam)), modeParam)
  {
    CommaSplit.SplitOfJoin(tokens);
  }

  /** The concrete case: `"EAN_13,EAN_8"` as one value or as two. */
  lemma UriEanExample(modeParam: Option<string>)
    ensures Resolve(UriTokens(Uri(Some(["EAN_13,EAN_8"]), modeParam)), modeParam)
         == Resolve(UriTokens(Uri(Some(["EAN_13", "EAN_8"]), modeParam)), modeParam)
         == Some({EAN_13, EAN_8})
  {
    var ts: seq<string> := [Name(EAN_13), Name(EAN_8)];
    assert ts == ["EAN_13", "EAN_8"];
    var joined := CommaSplit.Join(ts);
    assert joined == "EAN_13,EAN_8" by {
      assert ts[1..] == ["EAN_8"];
      assert joined == "EAN_13" + "," + "EAN_8";
    }
    ValueOfName(EAN_13);
    ValueOfName(EAN_8);
    ParsedTokenShape(ts[0]);
    ParsedTokenShape(ts[1]);
    UriSingleValueSplitLikeRepeated(ts, modeParam);
    TwoNamesResolve(EAN_13, EAN_8, modeParam);
  }

  /**
   * URI: among several values none is split, so a value holding a comma is
   * one invalid token and the whole list gives way to the mode.
   */
  lemma UriRepeatedValuesNotSplit(values: seq<string>, i: nat, modeParam: Option<string>)
    requires |values| >= 2 && i < |values| && !CommaSplit.CommaFree(values[i])
    ensures Resolve(UriTokens(Uri(Some(values), modeParam)), modeParam) == Resolve(None, modeParam)
  {
    ValueOfRejectsSeparators(values[i]);
  }

  /**
   * URI: a present but empty list of values selects no format, and the mode
   * is not consulted.
   */
  lemma UriNoValuesGivesEmptySet(modeParam: Option<string>)
    ensures Resolve(UriTokens(Uri(Some([]), modeParam)), modeParam) == Some({})
  {
  }
}
