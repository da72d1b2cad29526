/**
 * Reading a character id out of a profile URL such as
 * "https://zkillboard.com/character/454518485/": split the URL on '/', then
 * parse the last segment as a `long`.
 */
module SearchHelper {
  import opened Wrappers
  import opened Strings

  /** The URL's path separator. */
  const Slash: char := '/'

  /**
   * Every piece between separators, empty ones included: a string with k
   * separators has k + 1 pieces.
   */
  function Pieces(s: string): (r: seq<string>)
    ensures |r| >= 1
    decreases |s|
  {
    if s == [] then [""]
    else
      var init := Pieces(s[..|s| - 1]);
      var c := s[|s| - 1];
      if c == Slash then init + [""]
      else init[..|init| - 1] + [init[|init| - 1] + [c]]
  }

  /** Drops the empty pieces at the end. */
  function DropTrailingEmpty(pieces: seq<string>): (r: seq<string>)
    ensures |r| <= |pieces| && r == pieces[..|r|]
    ensures r != [] ==> r[|r| - 1] != ""
    ensures forall i :: |r| <= i < |pieces| ==> pieces[i] == ""
  {
    if pieces != [] && pieces[|pieces| - 1] == "" then DropTrailingEmpty(pieces[..|pieces| - 1])
    else pieces
  }

  /**
   * Java's `String.split("/")`: a string without a separator is returned whole
   * (so "" gives [""]); otherwise its pieces, less the trailing empty ones.
   */
  function Split(s: string): seq<string> {
    if Slash !in s then [s] else DropTrailingEmpty(Pieces(s))
  }

  /** The outcomes of `extractCharacterIdFromUrl`. */
  datatype Extraction =
    | Extracted(id: int)   // the parsed id
    | NullId               // the NumberFormatException case: null is returned
    | IndexOutOfBounds     // no segment at all: the exception is not caught and escapes

  /** The id in `url`: its last `/`-separated segment, parsed as a `long`. */
  function ExtractCharacterIdFromUrl(url: string): Extraction {
    var segments := Split(url);
    if |segments| == 0 then IndexOutOfBounds
    else match ParseLong(segments[|segments| - 1])
      case Some(n) => Extracted(n)
      case None => NullId
  }

  /** How a parse outcome reads as an extraction. */
  function FromParse(p: Option<int>): Extraction {
    match p
    case Some(n) => Extracted(n)
    case None => NullId
  }

  /** Appending text without a separator extends the last piece. */
  lemma {:induction false} PiecesAppendSegment(s: string, segment: string)
    requires Slash !in segment
    ensures Pieces(s + segment) == Pieces(s)[..|Pieces(s)| - 1] + [Pieces(s)[|Pieces(s)| - 1] + segment]
    decreases |segment|
  {
    if segment == [] {
      var p := Pieces(s);
      assert s + segment == s;
      assert p[|p| - 1] + segment == p[|p| - 1];
      assert p[..|p| - 1] + [p[|p| - 1]] == p;
    } else {
      var init := segment[..|segment| - 1];
      var c := segment[|segment| - 1];
      assert (s + segment)[..|s + segment| - 1] == s + init;
      PiecesAppendSegment(s, init);
      var p := Pieces(s);
      var q := Pieces(s + init);
      assert q[..|q| - 1] == p[..|p| - 1];
      assert q[|q| - 1] == p[|p| - 1] + init;
      var t := s + segment;
      assert c in segment;
      assert t[|t| - 1] == c && c != Slash;
      assert Pieces(t) == q[..|q| - 1] + [q[|q| - 1] + [c]];
      assert init + [c] == segment;
      assert q[|q| - 1] + [c] == p[|p| - 1] + segment;
    }
  }

  /** A string without a separator is a single piece. */
  lemma PiecesOfSegment(segment: string)
    requires Slash !in segment
    ensures Pieces(segment) == [segment]
  {
    PiecesAppendSegment([], segment);
    assert [] + segment == segment;
  }

  /** After a prefix that is empty or ends in '/', a segment without '/' is the last one. */
  lemma SplitEndsWithSegment(prefix: string, segment: string)
    requires prefix == [] || prefix[|prefix| - 1] == Slash
    requires segment != [] && Slash !in segment
    ensures |Split(prefix + segment)| > 0
    ensures Split(prefix + segment)[|Split(prefix + segment)| - 1] == segment
  {
    if prefix == [] {
      assert prefix + segment == segment;
    } else {
      PiecesAppendSegment(prefix, segment);
      var pieces := Pieces(prefix);
      assert pieces == Pieces(prefix[..|prefix| - 1]) + [""];
      var t := prefix + segment;
      assert t[|prefix| - 1] == Slash;
      assert Slash in t;
      var tp := Pieces(t);
      assert tp == pieces[..|pieces| - 1] + [[] + segment];
      assert tp[|tp| - 1] == segment;
      assert DropTrailingEmpty(tp) == tp;
    }
  }

  /** One trailing '/' after a non-empty last segment does not change the segments. */
  lemma SplitIgnoresTrailingSlash(s: string)
    requires s != [] && s[|s| - 1] != Slash
    ensures Split(s + [Slash]) == Split(s)
  {
    var t := s + [Slash];
    assert t[..|t| - 1] == s;
    assert Pieces(t) == Pieces(s) + [""];
    assert DropTrailingEmpty(Pieces(s) + [""]) == DropTrailingEmpty(Pieces(s));
    if Slash !in s {
      PiecesOfSegment(s);
    }
  }

  /**
   * Only the last segment is read: after a prefix that is empty or ends in '/',
   * a non-empty segment without '/' (with or without one trailing '/') is what
   * gets parsed, whatever the earlier segments hold.
   */
  lemma LastSegmentDecides(prefix: string, segment: string)
    requires prefix == [] || prefix[|prefix| - 1] == Slash
    requires segment != [] && Slash !in segment
    ensures ExtractCharacterIdFromUrl(prefix + segment) == FromParse(ParseLong(segment))
    ensures ExtractCharacterIdFromUrl(prefix + segment + [Slash]) == FromParse(ParseLong(segment))
  {
    SplitEndsWithSegment(prefix, segment);
    assert (prefix + segment)[|prefix + segment| - 1] == segment[|segment| - 1];
    SplitIgnoresTrailingSlash(prefix + segment);
  }

  /** Round trip: a `long` printed after any prefix ending in '/', followed by '/', reads back. */
  lemma ExtractRoundTrip(prefix: string, n: int)
    requires prefix == [] || prefix[|prefix| - 1] == Slash
    requires IsLong(n)
    ensures ExtractCharacterIdFromUrl(prefix + LongToString(n) + [Slash]) == Extracted(n)
  {
    LongToStringHasNoSlash(n);
    LastSegmentDecides(prefix, LongToString(n));
    ParseLongOfLongToString(n);
  }

  /**
   * The placeholder URL of the search field, "https://zkillboard.com/character/454518485/"
   * (written as its three parts), yields its character id.
   */
  lemma PlaceholderUrl()
    ensures ExtractCharacterIdFromUrl("https://zkillboard.com/character/" + "454518485" + [Slash]) == Extracted(454518485)
  {
    assert LongToString(454518485) == "454518485" by {
      NatToStringLastDigit(45, "4");
      NatToStringLastDigit(454, "45");
      NatToStringLastDigit(4545, "454");
      NatToStringLastDigit(45451, "4545");
      NatToStringLastDigit(454518, "45451");
      NatToStringLastDigit(4545184, "454518");
      NatToStringLastDigit(45451848, "4545184");
      NatToStringLastDigit(454518485, "45451848");
    }
    ExtractRoundTrip("https://zkillboard.com/character/", 454518485);
  }

  /**
   * A last segment that is not a `long` gives null, with or without a trailing
   * '/', whatever comes before it.
   */
  lemma NonNumericSegmentGivesNull(prefix: string, segment: string)
    requires prefix == [] || prefix[|prefix| - 1] == Slash
    requires segment != [] && Slash !in segment && ParseLong(segment).None?
    ensures ExtractCharacterIdFromUrl(prefix + segment) == NullId
    ensures ExtractCharacterIdFromUrl(prefix + segment + [Slash]) == NullId
  {
    LastSegmentDecides(prefix, segment);
  }

  /** The empty input has one empty segment, which does not parse: null. */
  lemma EmptyUrlGivesNull()
    ensures ExtractCharacterIdFromUrl("") == NullId
  {
  }

  /** The pieces of a string made only of separators are all empty. */
  lemma {:induction false} PiecesOfSeparators(s: string)
    requires forall i :: 0 <= i < |s| ==> s[i] == Slash
    ensures forall i :: 0 <= i < |Pieces(s)| ==> Pieces(s)[i] == ""
    decreases |s|
  {
    if s != [] {
      PiecesOfSeparators(s[..|s| - 1]);
    }
  }

  /** A non-empty input made only of '/' has no segment: the index exception escapes. */
  lemma OnlySeparatorsThrows(url: string)
    requires url != [] && forall i :: 0 <= i < |url| ==> url[i] == Slash
    ensures ExtractCharacterIdFromUrl(url) == IndexOutOfBounds
  {
    PiecesOfSeparators(url);
    assert url[0] == Slash;
  }
}
