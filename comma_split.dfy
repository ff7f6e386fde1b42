/**
 * The comma tokeniser: `Pattern.compile(",").split(s)`, that is Java's
 * `Pattern.split` with limit 0, written out directly on strings.
 */
module CommaSplit {

  /** True when the string holds no comma. */
  predicate CommaFree(s: string)
  {
    forall i :: 0 <= i < |s| ==> s[i] != ','
  }

  /** The strings joined with a comma between each neighbouring pair. */
  function Join(ts: seq<string>): string
    requires |ts| >= 1
  {
    if |ts| == 1 then ts[0] else ts[0] + "," + Join(ts[1..])
  }

  /**
   * Every piece of `s` between commas, empty ones included, in order:
   * one more piece than `s` has commas.
   */
  function Pieces(s: string): (ps: seq<string>)
    ensures |ps| >= 1
    ensures forall k :: 0 <= k < |ps| ==> CommaFree(ps[k])
  {
    if |s| == 0 then [""]
    else
      var rest := Pieces(s[1..]);
      if s[0] == ',' then [""] + rest else [[s[0]] + rest[0]] + rest[1..]
  }

  /** Drops the empty strings at the end of `ps`, and only those. */
  function DropTrailingEmpty(ps: seq<string>): (r: seq<string>)
    ensures |r| <= |ps| && r == ps[..|r|]
    ensures forall k :: |r| <= k < |ps| ==> ps[k] == ""
    ensures r == [] || r[|r| - 1] != ""
  {
    if |ps| == 0 then []
    else if ps[|ps| - 1] == "" then DropTrailingEmpty(ps[..|ps| - 1])
    else ps
  }

  /**
   * `COMMA_PATTERN.split(s)`: when `s` has no comma the result is `[s]`
   * (so `""` gives `[""]`); otherwise it is the pieces between commas with
   * the trailing empty pieces removed (so `"A,"` gives `["A"]`, `","` gives
   * `[]` and `"A,,B"` keeps its interior empty piece).
   */
  function Split(s: string): (r: seq<string>)
    ensures CommaFree(s) ==> r == [s]
    ensures !CommaFree(s) ==> var ps := Pieces(s);
      |r| <= |ps| && r == ps[..|r|] &&
      (forall k :: |r| <= k < |ps| ==> ps[k] == "") &&
      (r == [] || r[|r| - 1] != "")
    ensures forall k :: 0 <= k < |r| ==> CommaFree(r[k])
  {
    if CommaFree(s) then [s] else DropTrailingEmpty(Pieces(s))
  }

  /** Splitting a comma-free head off the front of a joined string. */
  lemma {:induction false} PiecesOfCons(t: string, rest: string)
    requires CommaFree(t)
    ensures Pieces(t + "," + rest) == [t] + Pieces(rest)
  {
    if |t| == 0 {
      assert t + "," + rest == [','] + rest;
      assert (t + "," + rest)[1..] == rest;
    } else {
      var tail := t[1..];
      assert CommaFree(tail);
      assert (t + "," + rest)[1..] == tail + "," + rest;
      PiecesOfCons(tail, rest);
      assert [t[0]] + tail == t;
    }
  }

  /** `Pieces` inverts `Join` on comma-free strings. */
  lemma {:induction false} PiecesOfJoin(ts: seq<string>)
    requires |ts| >= 1
    requires forall k :: 0 <= k < |ts| ==> CommaFree(ts[k])
    ensures Pieces(Join(ts)) == ts
  {
    if |ts| > 1 {
      PiecesOfJoin(ts[1..]);
      PiecesOfCons(ts[0], Join(ts[1..]));
      assert [ts[0]] + ts[1..] == ts;
    } else {
      PiecesOfCommaFree(ts[0]);
    }
  }

  /** `Join` inverts `Pieces`: no character of the input is lost. */
  lemma {:induction false} JoinOfPieces(s: string)
    ensures Join(Pieces(s)) == s
  {
    if |s| > 0 {
      JoinOfPieces(s[1..]);
      var rest := Pieces(s[1..]);
      if s[0] == ',' {
        assert ([""] + rest)[1..] == rest;
      } else {
        var ps := [[s[0]] + rest[0]] + rest[1..];
        if |rest| > 1 {
          assert ps[1..] == rest[1..];
          assert Join(rest) == rest[0] + "," + Join(rest[1..]);
        }
        assert s == [s[0]] + s[1..];
      }
    }
  }

  /**
   * Round trip: comma-free tokens whose last one is not empty (or a single
   * token) come back unchanged from splitting their comma-joined form.
   */
  lemma SplitOfJoin(ts: seq<string>)
    requires |ts| >= 1
    requires forall k :: 0 <= k < |ts| ==> CommaFree(ts[k])
    requires |ts| == 1 || ts[|ts| - 1] != ""
    ensures Split(Join(ts)) == ts
  {
    if |ts| > 1 {
      assert Join(ts)[|ts[0]|] == ',';
      PiecesOfJoin(ts);
    }
  }

  /** A comma-free string is its own single piece. */
  lemma {:induction false} PiecesOfCommaFree(s: string)
    requires CommaFree(s)
    ensures Pieces(s) == [s]
  {
    if |s| > 0 {
      PiecesOfCommaFree(s[1..]);
      assert [s[0]] + s[1..] == s;
    }
  }

  /** Appending a comma appends one empty piece. */
  lemma {:induction false} PiecesOfTrailingComma(s: string)
    ensures Pieces(s + ",") == Pieces(s) + [""]
  {
    if |s| == 0 {
      assert ("" + ",")[1..] == "";
    } else {
      assert (s + ",")[1..] == s[1..] + ",";
      PiecesOfTrailingComma(s[1..]);
      var rest := Pieces(s[1..]);
      if s[0] != ',' {
        assert ([[s[0]] + rest[0]] + rest[1..]) + [""] == [[s[0]] + rest[0]] + (rest + [""])[1..];
      }
    }
  }

  /**
   * A trailing comma is ignored after a non-empty string (`"A,"` splits as
   * `"A"` does); after the empty string it is not: `","` gives no tokens,
   * where `""` gives one empty token.
   */
  lemma SplitIgnoresTrailingComma(s: string)
    ensures s != "" ==> Split(s + ",") == Split(s)
    ensures Split(",") == [] && Split("") == [""]
  {
    assert (s + ",")[|s|] == ',';
    PiecesOfTrailingComma(s);
    var ps := Pieces(s);
    assert (ps + [""])[..|ps|] == ps;
    if CommaFree(s) {
      PiecesOfCommaFree(s);
    }
    PiecesOfTrailingComma("");
    assert "" + "," == ",";
    assert !CommaFree(",");
  }
}
