/**
 * `DecodeFormatManager`: the fixed symbology groups, the table from scan
 * mode names to groups, and the resolver that turns a scan request into the
 * set of formats the decoder should try (`None` meaning "try every format").
 */
module DecodeFormatManager {
  import opened Wrappers
  import opened BarcodeFormats
  import CommaSplit

  // The mode names (`Scan.*_MODE`).
  const ONE_D_MODE: string := "ONE_D_MODE"
  const PRODUCT_MODE: string := "PRODUCT_MODE"
  const QR_CODE_MODE: string := "QR_CODE_MODE"
  const DATA_MATRIX_MODE: string := "DATA_MATRIX_MODE"
  const AZTEC_MODE: string := "AZTEC_MODE"
  const PDF417_MODE: string := "PDF417_MODE"

  // The fixed symbology groups built once by the static initialisers.
  const PRODUCT_FORMATS: set<Format> := {UPC_A, UPC_E, EAN_13, EAN_8, RSS_14, RSS_EXPANDED}
  const INDUSTRIAL_FORMATS: set<Format> := {CODE_39, CODE_93, CODE_128, ITF, CODABAR}
  /** A copy of the product group with the industrial group added to it. */
  const ONE_D_FORMATS: set<Format> := PRODUCT_FORMATS + INDUSTRIAL_FORMATS
  const QR_CODE_FORMATS: set<Format> := {QR_CODE}
  const DATA_MATRIX_FORMATS: set<Format> := {DATA_MATRIX}
  const AZTEC_FORMATS: set<Format> := {AZTEC}
  const PDF417_FORMATS: set<Format> := {PDF_417}

  /** `FORMATS_FOR_MODE`: the six mode names and their groups. */
  const FORMATS_FOR_MODE: map<string, set<Format>> := map[
    ONE_D_MODE := ONE_D_FORMATS,
    PRODUCT_MODE := PRODUCT_FORMATS,
    QR_CODE_MODE := QR_CODE_FORMATS,
    DATA_MATRIX_MODE := DATA_MATRIX_FORMATS,
    AZTEC_MODE := AZTEC_FORMATS,
    PDF417_MODE := PDF417_FORMATS]

  /** `FORMATS_FOR_MODE.get(mode)`: the mode's group, or `None` for any other name. */
  function FormatsForMode(mode: string): (r: Option<set<Format>>)
    ensures r.Some? <==>
      (mode in {ONE_D_MODE, PRODUCT_MODE, QR_CODE_MODE, DATA_MATRIX_MODE, AZTEC_MODE, PDF417_MODE})
    // `<= AllFormats` holds by construction: the catalogue lists every constructor.
    ensures r.Some? ==> r.value != {} && r.value <= AllFormats
  {
    if mode in FORMATS_FOR_MODE then Some(FORMATS_FOR_MODE[mode]) else None
  }

  /**
   * The formats named by `tokens`, when every token is a format name, and
   * `None` as soon as one is not (where `valueOf` throws).
   */
  function ParseAll(tokens: seq<string>): (r: Option<set<Format>>)
    ensures r.Some? <==> forall i :: 0 <= i < |tokens| ==> ValueOf(tokens[i]).Some?
  {
    if |tokens| == 0 then Some({})
    else
      var last := |tokens| - 1;
      match ParseAll(tokens[..last])
      case None => None
      case Some(fs) =>
        match ValueOf(tokens[last])
        case None => None
        case Some(f) => Some(fs + {f})
  }

  /** Some token of `tokens` is the name of `f`. */
  predicate Named(tokens: seq<string>, f: Format)
  {
    exists i :: 0 <= i < |tokens| && ValueOf(tokens[i]) == Some(f)
  }

  /** A token list names `f` when its prefix does or its last token does. */
  lemma NamedSplitLast(tokens: seq<string>, f: Format)
    requires |tokens| > 0
    ensures Named(tokens, f) <==>
      Named(tokens[..|tokens| - 1], f) || ValueOf(tokens[|tokens| - 1]) == Some(f)
  {
  }

  /**
   * When every token parses, the result holds exactly the formats the
   * tokens name: duplicates collapse into one member.
   */
  lemma {:induction false} ParseAllMembers(tokens: seq<string>, f: Format)
    requires ParseAll(tokens).Some?
    ensures f in ParseAll(tokens).value <==> Named(tokens, f)
  {
    if |tokens| > 0 {
      var init := tokens[..|tokens| - 1];
      ParseAllMembers(init, f);
      NamedSplitLast(tokens, f);
    }
  }

  /**
   * The resolution rule: a present token list whose every token parses wins
   * outright; otherwise the mode decides; otherwise the result is absent.
   */
  function Resolve(scanFormats: Option<seq<string>>, decodeMode: Option<string>): Option<set<Format>>
  {
    if scanFormats.Some? && ParseAll(scanFormats.value).Some? then ParseAll(scanFormats.value)
    else if decodeMode.Some? then FormatsForMode(decodeMode.value)
    else None
  }

  /**
   * The `for` loop over the tokens: adds each parsed format to an initially
   * empty set and gives up at the first token that is not a format name.
   */
  method TryParseAll(tokens: seq<string>) returns (r: Option<set<Format>>)
    ensures r == ParseAll(tokens)
  {
    var formats: set<Format> := {};
    var i := 0;
    while i < |tokens|
      invariant 0 <= i <= |tokens|
      invariant ParseAll(tokens[..i]) == Some(formats)
    {
      var parsed := ValueOf(tokens[i]);
      if parsed.None? {
        assert ParseAll(tokens).None? by {
          assert tokens[..i + 1][i] == tokens[i];
          assert ParseAll(tokens[..i + 1]) == None;
        }
        return None;
      }
      assert tokens[..i + 1][..i] == tokens[..i];
      formats := formats + {parsed.value};
      i := i + 1;
    }
    assert tokens[..i] == tokens;
    return Some(formats);
  }

  /** The core `parseDecodeFormats(Iterable<String>, String)`. */
  method ParseDecodeFormats(scanFormats: Option<seq<string>>, decodeMode: Option<string>)
    returns (r: Option<set<Format>>)
    ensures r == Resolve(scanFormats, decodeMode)
  {
    if scanFormats.Some? {
      var formats := TryParseAll(scanFormats.value);
      if formats.Some? {
        return formats;
      }
    }
    if decodeMode.Some? {
      return FormatsForMode(decodeMode.value);
    }
    return None;
  }

  /**
   * An application intent, reduced to the two string extras the resolver
   * reads: `SCAN_FORMATS` and `SCAN_MODE`, each absent or present.
   */
  datatype Intent = Intent(formatsExtra: Option<string>, modeExtra: Option<string>)

  /**
   * A URI, reduced to its query: every value of `SCAN_FORMATS` in order
   * (absent when the accessor yields `null`) and the value of `SCAN_MODE`.
   */
  datatype Uri = Uri(formatsParams: Option<seq<string>>, modeParam: Option<string>)

  /** The token list the intent front end hands to the resolver. */
  function IntentTokens(intent: Intent): Option<seq<string>>
  {
    match intent.formatsExtra
    case None => None
    case Some(s) => Some(CommaSplit.Split(s))
  }

  /**
   * The token list the URI front end hands to the resolver: exactly one
   * value is comma-split; none, or several, are passed on unsplit.
   */
  function UriTokens(uri: Uri): Option<seq<string>>
  {
    match uri.formatsParams
    case Some(values) =>
      if |values| == 1 then Some(CommaSplit.Split(values[0])) else Some(values)
    case None => None
  }

  /** `parseDecodeFormats(Intent)`. */
  method ParseIntentFormats(intent: Intent) returns (r: Option<set<Format>>)
    ensures r == Resolve(IntentTokens(intent), intent.modeExtra)
  {
    var scanFormats: Option<seq<string>> := None;
    if intent.formatsExtra.Some? {
      scanFormats := Some(CommaSplit.Split(intent.formatsExtra.value));
    }
    r := ParseDecodeFormats(scanFormats, intent.modeExtra);
  }

  /** `parseDecodeFormats(Uri)`. */
  method ParseUriFormats(uri: Uri) returns (r: Option<set<Format>>)
    ensures r == Resolve(UriTokens(uri), uri.modeParam)
  {
    var formats := uri.formatsParams;
    if formats.Some? && |formats.value| == 1 {
      formats := Some(CommaSplit.Split(formats.value[0]));
    }
    r := ParseDecodeFormats(formats, uri.modeParam);
  }
}
