/**
 * The symbology catalogue: ZXing's `BarcodeFormat` enum, treated as a closed
 * enumeration of constant names, and its `valueOf` name lookup.
 */
module BarcodeFormats {
  import opened Wrappers

  /** One constructor per constant of `com.google.zxing.BarcodeFormat`. */
  datatype Format =
    | AZTEC
    | CODABAR
    | CODE_39
    | CODE_93
    | CODE_128
    | DATA_MATRIX
    | EAN_8
    | EAN_13
    | ITF
    | MAXICODE
    | PDF_417
    | QR_CODE
    | RSS_14
    | RSS_EXPANDED
    | UPC_A
    | UPC_E
    | UPC_EAN_EXTENSION

  /**
   * The whole catalogue. It lists every constructor, so membership in it
   * holds by construction; facts of the form `<= AllFormats` are sanity
   * checks on the datatype, not properties of the resolver.
   */
  const AllFormats: set<Format> :=
    {AZTEC, CODABAR, CODE_39, CODE_93, CODE_128, DATA_MATRIX, EAN_8, EAN_13, ITF,
     MAXICODE, PDF_417, QR_CODE, RSS_14, RSS_EXPANDED, UPC_A, UPC_E, UPC_EAN_EXTENSION}

  /** The Java constant name of a format (`Enum.name()`). */
  function Name(f: Format): string
  {
    match f
    case AZTEC => "AZTEC"
    case CODABAR => "CODABAR"
    case CODE_39 => "CODE_39"
    case CODE_93 => "CODE_93"
    case CODE_128 => "CODE_128"
    case DATA_MATRIX => "DATA_MATRIX"
    case EAN_8 => "EAN_8"
    case EAN_13 => "EAN_13"
    case ITF => "ITF"
    case MAXICODE => "MAXICODE"
    case PDF_417 => "PDF_417"
    case QR_CODE => "QR_CODE"
    case RSS_14 => "RSS_14"
    case RSS_EXPANDED => "RSS_EXPANDED"
    case UPC_A => "UPC_A"
    case UPC_E => "UPC_E"
    case UPC_EAN_EXTENSION => "UPC_EAN_EXTENSION"
  }

  /** `BarcodeFormat.values()`: every constant, in declaration order. */
  const VALUES: seq<Format> :=
    [AZTEC, CODABAR, CODE_39, CODE_93, CODE_128, DATA_MATRIX, EAN_8, EAN_13, ITF,
     MAXICODE, PDF_417, QR_CODE, RSS_14, RSS_EXPANDED, UPC_A, UPC_E, UPC_EAN_EXTENSION]

  /** The first constant of `fs` whose name is exactly `s`, if any. */
  function Lookup(s: string, fs: seq<Format>): Option<Format>
  {
    if |fs| == 0 then None
    else if Name(fs[0]) == s then Some(fs[0])
    else Lookup(s, fs[1..])
  }

  /**
   * `BarcodeFormat.valueOf(s)`: an exact, case-sensitive match against the
   * constant names, with no trimming. Where Java throws
   * `IllegalArgumentException`, the result is `None`.
   */
  function ValueOf(s: string): Option<Format>
  {
    Lookup(s, VALUES)
  }

  /**
   * The lookup finds a constant exactly when one of `fs` is named `s`, and
   * what it finds is named `s`.
   */
  lemma {:induction false} LookupSound(s: string, fs: seq<Format>)
    ensures Lookup(s, fs).Some? ==> Lookup(s, fs).value in fs && Name(Lookup(s, fs).value) == s
    ensures Lookup(s, fs).None? ==> forall i :: 0 <= i < |fs| ==> Name(fs[i]) != s
  {
    if |fs| > 0 && Name(fs[0]) != s {
      LookupSound(s, fs[1..]);
      if Lookup(s, fs).None? {
        forall i | 0 <= i < |fs| ensures Name(fs[i]) != s {
          if i > 0 {
            assert fs[i] == fs[1..][i - 1];
          }
        }
      }
    }
  }

  /** What `valueOf` finds carries exactly the requested name. */
  lemma ValueOfSound(s: string)
    ensures ValueOf(s).Some? ==> Name(ValueOf(s).value) == s
  {
    LookupSound(s, VALUES);
  }

  /** Position of a constant in `VALUES`; a proof helper for `ValueOfName`. */
  function Ordinal(f: Format): nat
  {
    match f
    case AZTEC => 0
    case CODABAR => 1
    case CODE_39 => 2
    case CODE_93 => 3
    case CODE_128 => 4
    case DATA_MATRIX => 5
    case EAN_8 => 6
    case EAN_13 => 7
    case ITF => 8
    case MAXICODE => 9
    case PDF_417 => 10
    case QR_CODE => 11
    case RSS_14 => 12
    case RSS_EXPANDED => 13
    case UPC_A => 14
    case UPC_E => 15
    case UPC_EAN_EXTENSION => 16
  }

  /** Proof helper: `VALUES` holds every constant, each at its own position. */
  lemma ValuesAtOrdinal(f: Format)
    ensures Ordinal(f) < |VALUES| && VALUES[Ordinal(f)] == f
  {
  }

  /**
   * Constant names are Java identifiers in upper case: non-empty, made of
   * capital letters, digits and underscores.
   */
  lemma NameShape(f: Format)
    ensures |Name(f)| > 0
    ensures forall c :: c in Name(f) ==> 'A' <= c <= 'Z' || '0' <= c <= '9' || c == '_'
  {
  }

  /** `valueOf` inverts `name`: every constant is found under its own name. */
  lemma ValueOfName(f: Format)
    ensures ValueOf(Name(f)) == Some(f)
  {
    ValuesAtOrdinal(f);
    LookupSound(Name(f), VALUES);
    assert Name(VALUES[Ordinal(f)]) == Name(f);
    NameInjective(ValueOf(Name(f)).value, f);
  }

  /** Distinct constants have distinct names. */
  lemma NameInjective(f: Format, g: Format)
    requires Name(f) == Name(g)
    ensures f == g
  {
  }

  /** No constant name holds a comma or a space, so such a token never parses. */
  lemma ValueOfRejectsSeparators(s: string)
    requires ',' in s || ' ' in s
    ensures ValueOf(s) == None
  {
    if ValueOf(s).Some? {
      ValueOfSound(s);
      NameShape(ValueOf(s).value);
    }
  }

  /** A token that parses is non-empty and holds no comma and no space. */
  lemma ParsedTokenShape(s: string)
    requires ValueOf(s).Some?
    ensures s != "" && ',' !in s && ' ' !in s
  {
    ValueOfSound(s);
    NameShape(ValueOf(s).value);
  }

  /** A string that is no constant's name does not parse. */
  lemma ValueOfUnknown(s: string)
    requires forall f :: Name(f) != s
    ensures ValueOf(s) == None
  {
    ValueOfSound(s);
  }

  /** The catalogue holds every format (by construction of `AllFormats`). */
  lemma CatalogueIsClosed(f: Format)
    ensures f in AllFormats
  {
  }
}
