/**
  The symbol-list handling of the back end's `/api/stock` endpoint: the
  `tickers` query parameter (default `"NVDA"`) is split on commas, each piece
  is stripped of surrounding whitespace and upper-cased, empty pieces are
  dropped, and the list is refused when empty or longer than 50 symbols.
  Characters are treated as ASCII: whitespace is Python's `str.isspace` on
  ASCII and upper-casing maps only `a`-`z`.
*/
module Tickers {
  import opened Wrappers

  const DefaultTickersParam: string := "NVDA"
  const MaxSymbols: nat := 50
  const NoSymbolsError: string := "No ticker symbols provided."
  const TooManySymbolsError: string := "Maximum of 50 ticker symbols allowed."

  /** Python's `str.isspace` on ASCII: `\t \n \v \f \r`, the separators `\x1c`-`\x1f`, and space. */
  predicate IsSpace(c: char) {
    9 <= c as int <= 13 || 28 <= c as int <= 32
  }

  predicate IsLower(c: char) {
    'a' <= c <= 'z'
  }

  /** Python's `str.upper` on one ASCII character. */
  function UpperChar(c: char): (u: char)
    ensures !IsLower(u)
    ensures IsSpace(u) <==> IsSpace(c)
    ensures u == ',' <==> c == ','
    ensures !IsLower(c) ==> u == c
    ensures IsLower(c) ==> 'A' <= u <= 'Z' && u as int == c as int - 32
  {
    if IsLower(c) then (c as int - 32) as char else c
  }

  /** Python's `str.upper`. */
  function Upper(s: string): (r: string)
    ensures |r| == |s|
    ensures forall i :: 0 <= i < |s| ==> r[i] == UpperChar(s[i])
  {
    if s == [] then [] else [UpperChar(s[0])] + Upper(s[1..])
  }

  /** Where the kept run starts: the first non-whitespace index at or after `i`, or `|s|`. */
  function SkipSpaces(s: string, i: nat): (j: nat)
    requires i <= |s|
    ensures i <= j <= |s|
    ensures forall k :: i <= k < j ==> IsSpace(s[k])
    ensures j < |s| ==> !IsSpace(s[j])
    decreases |s| - i
  {
    if i < |s| && IsSpace(s[i]) then SkipSpaces(s, i + 1) else i
  }

  /** Where the kept run ends: just past the last non-whitespace index in `[i, j)`, or `i`. */
  function BackOverSpaces(s: string, i: nat, j: nat): (k: nat)
    requires i <= j <= |s|
    ensures i <= k <= j
    ensures forall m :: k <= m < j ==> IsSpace(s[m])
    ensures k > i ==> !IsSpace(s[k - 1])
  {
    if j > i && IsSpace(s[j - 1]) then BackOverSpaces(s, i, j - 1) else j
  }

  /**
    Python's `str.strip()`: the result keeps no whitespace at either end, is
    empty exactly when the input is all whitespace, and is the run of the
    input that starts at its first non-whitespace character and is followed
    only by whitespace.
  */
  function Strip(s: string): (r: string)
    ensures r == [] || (!IsSpace(r[0]) && !IsSpace(r[|r| - 1]))
    ensures r == [] <==> forall i :: 0 <= i < |s| ==> IsSpace(s[i])
    ensures |r| <= |s| - SkipSpaces(s, 0)
    ensures forall i :: 0 <= i < |r| ==> r[i] == s[SkipSpaces(s, 0) + i]
    ensures forall i :: SkipSpaces(s, 0) + |r| <= i < |s| ==> IsSpace(s[i])
  {
    var a := SkipSpaces(s, 0);
    s[a..BackOverSpaces(s, a, |s|)]
  }

  /** Python's `str.split(sep)`: the pieces between separators, always at least one. */
  function Split(s: string, sep: char): (pieces: seq<string>)
    ensures |pieces| >= 1
  {
    if s == [] then [[]]
    else
      var rest := Split(s[1..], sep);
      if s[0] == sep then [[]] + rest
      else [[s[0]] + rest[0]] + rest[1..]
  }

  /** No piece holds the separator. */
  lemma {:induction false} SplitPiecesLackSeparator(s: string, sep: char)
    ensures forall k :: 0 <= k < |Split(s, sep)| ==> sep !in Split(s, sep)[k]
  {
    if s != [] {
      SplitPiecesLackSeparator(s[1..], sep);
      var rest := Split(s[1..], sep);
      if s[0] != sep {
        var pieces := Split(s, sep);
        assert pieces[0] == [s[0]] + rest[0];
        assert forall k :: 1 <= k < |pieces| ==> pieces[k] == rest[k];
      }
    }
  }

  /** Python's `sep.join(pieces)`. */
  function Join(pieces: seq<string>, sep: char): string {
    if pieces == [] then []
    else if |pieces| == 1 then pieces[0]
    else pieces[0] + [sep] + Join(pieces[1..], sep)
  }

  /** How many times `c` occurs in `s`. */
  function Occurrences(s: string, c: char): nat {
    if s == [] then 0 else (if s[0] == c then 1 else 0) + Occurrences(s[1..], c)
  }

  /** What the endpoint accepts as a symbol once a piece has been cleaned up. */
  predicate IsSymbol(s: string) {
    && s != []
    && !IsSpace(s[0]) && !IsSpace(s[|s| - 1])
    && ',' !in s
    && forall i :: 0 <= i < |s| ==> !IsLower(s[i])
  }

  /** Every entry is a well-formed symbol. */
  predicate AllSymbols(symbols: seq<string>) {
    forall k :: 0 <= k < |symbols| ==> IsSymbol(symbols[k])
  }

  /** No piece holds a comma. */
  predicate CommaFree(pieces: seq<string>) {
    forall k :: 0 <= k < |pieces| ==> ',' !in pieces[k]
  }

  /** Stripping and upper-casing a non-blank, comma-free piece gives a well-formed symbol. */
  lemma CleanedIsSymbol(piece: string)
    requires Strip(piece) != []
    ensures ',' !in piece ==> IsSymbol(Upper(Strip(piece)))
  {
    var t := Strip(piece);
    var u := Upper(t);
    assert u[0] == UpperChar(t[0]) && u[|u| - 1] == UpperChar(t[|t| - 1]);
    if ',' !in piece {
      var a := SkipSpaces(piece, 0);
      forall i | 0 <= i < |u| ensures u[i] != ',' {
        assert t[i] == piece[a + i];
      }
    }
  }

  /** One piece of the comprehension: dropped if it strips to nothing, else stripped and upper-cased. */
  function CleanPiece(piece: string): (symbols: seq<string>)
    ensures |symbols| <= 1
    ensures ',' !in piece ==> AllSymbols(symbols)
  {
    var t := Strip(piece);
    if t == [] then []
    else
      CleanedIsSymbol(piece);
      [Upper(t)]
  }

  /** The list comprehension over the pieces, in order. */
  function CleanPieces(pieces: seq<string>): (symbols: seq<string>)
    ensures |symbols| <= |pieces|
  {
    if pieces == [] then [] else CleanPiece(pieces[0]) + CleanPieces(pieces[1..])
  }

  lemma AllSymbolsConcat(a: seq<string>, b: seq<string>)
    requires AllSymbols(a) && AllSymbols(b)
    ensures AllSymbols(a + b)
  {
    forall k | 0 <= k < |a + b| ensures IsSymbol((a + b)[k]) {
      if k < |a| {
        assert (a + b)[k] == a[k];
      } else {
        assert (a + b)[k] == b[k - |a|];
      }
    }
  }

  /** Cleaning comma-free pieces yields only well-formed symbols. */
  lemma {:induction false} CleanPiecesAreSymbols(pieces: seq<string>)
    requires CommaFree(pieces)
    ensures AllSymbols(CleanPieces(pieces))
  {
    if pieces != [] {
      var tail := pieces[1..];
      assert CommaFree(tail) by {
        forall k | 0 <= k < |tail| ensures ',' !in tail[k] {
          assert tail[k] == pieces[k + 1];
        }
      }
      CleanPiecesAreSymbols(tail);
      assert ',' !in pieces[0];
      AllSymbolsConcat(CleanPiece(pieces[0]), CleanPieces(tail));
    }
  }

  /** `[t.strip().upper() for t in param.split(",") if t.strip()]` */
  function ParseSymbols(param: string): (symbols: seq<string>)
    ensures |symbols| <= Occurrences(param, ',') + 1
    ensures AllSymbols(symbols)
  {
    SplitCount(param, ',');
    SplitPiecesLackSeparator(param, ',');
    CleanPiecesAreSymbols(Split(param, ','));
    CleanPieces(Split(param, ','))
  }

  /**
    The endpoint's checks on the `tickers` parameter (`None` when absent):
    either the symbols to fetch, between 1 and 50 of them, or one of the two
    error messages.
  */
  function ParseTickers(tickers: Option<string>): (r: Result<seq<string>, string>)
    ensures r.Success? ==> 1 <= |r.value| <= MaxSymbols
    ensures r.Success? ==> AllSymbols(r.value)
    ensures r.Failure? ==> r.error in {NoSymbolsError, TooManySymbolsError}
  {
    var param := match tickers case Some(p) => p case None => DefaultTickersParam;
    var symbols := ParseSymbols(param);
    if symbols == [] then Failure(NoSymbolsError)
    else if |symbols| > MaxSymbols then Failure(TooManySymbolsError)
    else Success(symbols)
  }

  /** Splitting yields one more piece than there are separators. */
  lemma {:induction false} SplitCount(s: string, sep: char)
    ensures |Split(s, sep)| == Occurrences(s, sep) + 1
  {
    if s != [] {
      SplitCount(s[1..], sep);
    }
  }

  /** Joining the pieces with the separator gives back the input. */
  lemma {:induction false} JoinSplit(s: string, sep: char)
    ensures Join(Split(s, sep), sep) == s
  {
    if s != [] {
      var c, t := s[0], s[1..];
      JoinSplit(t, sep);
      assert s == [c] + t;
      SplitCons(c, t, sep);
      if c == sep {
        JoinPrependEmpty(Split(t, sep), sep);
      } else {
        JoinExtendFirst([c], Split(t, sep), sep);
      }
    }
  }

  /** An empty first piece contributes only the separator that follows it. */
  lemma JoinPrependEmpty(pieces: seq<string>, sep: char)
    requires |pieces| >= 1
    ensures Join([[]] + pieces, sep) == [sep] + Join(pieces, sep)
  {
    assert ([[]] + pieces)[1..] == pieces;
  }

  /** Extending the first piece extends the joined string at its front. */
  lemma JoinExtendFirst(x: string, pieces: seq<string>, sep: char)
    requires |pieces| >= 1
    ensures Join([x + pieces[0]] + pieces[1..], sep) == x + Join(pieces, sep)
  {
    var longer := [x + pieces[0]] + pieces[1..];
    if |pieces| > 1 {
      assert longer[1..] == pieces[1..];
      assert Join(longer, sep) == x + pieces[0] + [sep] + Join(pieces[1..], sep);
    }
  }

  /** One step of `Split`: a leading separator opens a new piece, any other character joins the first one. */
  lemma SplitCons(c: char, t: string, sep: char)
    ensures Split([c] + t, sep) ==
      if c == sep then [[]] + Split(t, sep)
      else [[c] + Split(t, sep)[0]] + Split(t, sep)[1..]
  {
    assert ([c] + t)[0] == c && ([c] + t)[1..] == t;
  }

  /** Extending the first piece of `ra + tail` is extending the first piece of `ra`. */
  lemma ExtendFirstPiece<T>(x: seq<T>, ra: seq<seq<T>>, tail: seq<seq<T>>)
    requires |ra| >= 1
    ensures [x + (ra + tail)[0]] + (ra + tail)[1..] == ([x + ra[0]] + ra[1..]) + tail
  {
    assert (ra + tail)[0] == ra[0];
    assert (ra + tail)[1..] == ra[1..] + tail;
  }

  /** Prepending a piece to `ra + tail` is prepending it to `ra`. */
  lemma PrependPiece<T>(x: seq<T>, ra: seq<seq<T>>, tail: seq<seq<T>>)
    ensures [x] + (ra + tail) == ([x] + ra) + tail
  {
  }

  /** The inductive step of `SplitConcat`: prefixing one character to both sides keeps their pieces related. */
  lemma SplitConcatStep(c: char, rest: string, t: string, tail: seq<string>, sep: char)
    requires Split(t, sep) == Split(rest, sep) + tail
    ensures Split([c] + t, sep) == Split([c] + rest, sep) + tail
  {
    var ra := Split(rest, sep);
    SplitCons(c, t, sep);
    SplitCons(c, rest, sep);
    if c != sep {
      ExtendFirstPiece([c], ra, tail);
    } else {
      PrependPiece([], ra, tail);
    }
  }

  /** Splitting at one separator splits the two sides independently. */
  lemma {:induction false} SplitConcat(a: string, b: string, sep: char)
    ensures Split(a + [sep] + b, sep) == Split(a, sep) + Split(b, sep)
  {
    if a == [] {
      assert a + [sep] + b == [sep] + b;
      SplitCons(sep, b, sep);
    } else {
      var rest := a[1..];
      SplitConcat(rest, b, sep);
      SplitConcatStep(a[0], rest, rest + [sep] + b, Split(b, sep), sep);
      assert a == [a[0]] + rest;
      assert a + [sep] + b == [a[0]] + (rest + [sep] + b);
    }
  }

  /** A string without the separator is a single piece. */
  lemma {:induction false} SplitWithoutSeparator(s: string, sep: char)
    requires sep !in s
    ensures Split(s, sep) == [s]
  {
    if s != [] {
      SplitWithoutSeparator(s[1..], sep);
      assert s == [s[0]] + s[1..];
    }
  }

  /** Cleaning a concatenation of piece lists cleans each list in order. */
  lemma {:induction false} CleanPiecesConcat(p: seq<string>, q: seq<string>)
    ensures CleanPieces(p + q) == CleanPieces(p) + CleanPieces(q)
  {
    if p != [] {
      assert (p + q)[0] == p[0];
      assert (p + q)[1..] == p[1..] + q;
      CleanPiecesConcat(p[1..], q);
      assert CleanPieces(p + q) == CleanPiece(p[0]) + CleanPieces(p[1..] + q);
    } else {
      assert p + q == q;
    }
  }

  /**
    Order and duplicates are kept: the symbols of `a,b` are the symbols of
    `a` followed by those of `b`.
  */
  lemma ParseSymbolsConcat(a: string, b: string)
    ensures ParseSymbols(a + [','] + b) == ParseSymbols(a) + ParseSymbols(b)
  {
    SplitConcat(a, b, ',');
    CleanPiecesConcat(Split(a, ','), Split(b, ','));
  }

  /**
    A comma-free piece gives nothing when it is all whitespace and otherwise
    its stripped, upper-cased self.
  */
  lemma ParseSymbolsPiece(p: string)
    requires ',' !in p
    ensures ParseSymbols(p) == if Strip(p) == [] then [] else [Upper(Strip(p))]
  {
    SplitWithoutSeparator(p, ',');
    assert CleanPieces([p]) == CleanPiece(p) + CleanPieces([]);
  }

  /** Nothing but commas and whitespace. */
  predicate IsBlank(s: string) {
    forall i :: 0 <= i < |s| ==> s[i] == ',' || IsSpace(s[i])
  }

  /** A string is blank exactly when both sides of one of its commas are. */
  lemma BlankAroundComma(s: string, i: nat)
    requires i < |s| && s[i] == ','
    ensures IsBlank(s) <==> IsBlank(s[..i]) && IsBlank(s[i + 1..])
  {
    var a, b := s[..i], s[i + 1..];
    if IsBlank(a) && IsBlank(b) {
      forall j | 0 <= j < |s| ensures s[j] == ',' || IsSpace(s[j]) {
        if j < i {
          assert s[j] == a[j];
        } else if j > i {
          assert s[j] == b[j - i - 1];
        }
      }
    }
  }

  /** The symbol list is empty exactly when the parameter holds only commas and whitespace. */
  lemma {:induction false} ParseSymbolsEmpty(s: string)
    ensures ParseSymbols(s) == [] <==> IsBlank(s)
    decreases |s|
  {
    if ',' in s {
      var i :| 0 <= i < |s| && s[i] == ',';
      var a, b := s[..i], s[i + 1..];
      assert s == a + [','] + b;
      ParseSymbolsConcat(a, b);
      ParseSymbolsEmpty(a);
      ParseSymbolsEmpty(b);
      BlankAroundComma(s, i);
    } else {
      ParseSymbolsPiece(s);
    }
  }

  /** A symbol is left alone by stripping and upper-casing. */
  lemma SymbolIsClean(s: string)
    requires IsSymbol(s)
    ensures Strip(s) == s && Upper(s) == s
  {
    assert SkipSpaces(s, 0) == 0;
    assert BackOverSpaces(s, 0, |s|) == |s|;
    assert s[0..|s|] == s;
  }

  /** A lone well-formed symbol parses to itself. */
  lemma ParseSingleSymbol(symbol: string)
    requires IsSymbol(symbol)
    ensures ParseSymbols(symbol) == [symbol]
  {
    SymbolIsClean(symbol);
    ParseSymbolsPiece(symbol);
  }

  lemma AllSymbolsTail(symbols: seq<string>)
    requires symbols != [] && AllSymbols(symbols)
    ensures IsSymbol(symbols[0]) && AllSymbols(symbols[1..])
  {
    var tail := symbols[1..];
    forall k | 0 <= k < |tail| ensures IsSymbol(tail[k]) {
      assert tail[k] == symbols[k + 1];
    }
  }

  /** Parsing the comma-joined form of a list of symbols gives the list back. */
  lemma {:induction false} ParseJoinedSymbols(symbols: seq<string>)
    requires AllSymbols(symbols)
    ensures ParseSymbols(Join(symbols, ',')) == symbols
  {
    if symbols != [] {
      var head, tail := symbols[0], symbols[1..];
      AllSymbolsTail(symbols);
      ParseSingleSymbol(head);
      HeadTail(symbols);
      if tail != [] {
        ParseJoinedSymbols(tail);
        assert Join(symbols, ',') == head + [','] + Join(tail, ',');
        ParseSymbolsConcat(head, Join(tail, ','));
      }
    }
  }

  lemma HeadTail<T>(s: seq<T>)
    requires s != []
    ensures s == [s[0]] + s[1..]
  {
  }

  /** Without a `tickers` parameter the endpoint fetches NVDA alone. */
  lemma DefaultIsNvda()
    ensures ParseTickers(None) == Success(["NVDA"])
  {
    assert IsSymbol(DefaultTickersParam);
    SymbolIsClean(DefaultTickersParam);
    ParseSymbolsPiece(DefaultTickersParam);
  }

  /**
    On a comma-joined list of symbols the endpoint refuses the empty list,
    refuses more than 50 symbols, and accepts anything from 1 to 50 as is.
  */
  lemma ParseTickersLimits(symbols: seq<string>)
    requires AllSymbols(symbols)
    ensures ParseTickers(Some(Join(symbols, ','))) ==
      if symbols == [] then Failure(NoSymbolsError)
      else if |symbols| > MaxSymbols then Failure(TooManySymbolsError)
      else Success(symbols)
  {
    ParseJoinedSymbols(symbols);
  }

  /**
    For any parameter the outcome is decided by the parsed list alone: it is
    accepted exactly when it holds 1 to 50 symbols, and then carried as is;
    the "too many" error comes exactly for more than 50.
  */
  lemma ParseTickersOutcome(s: string)
    ensures ParseTickers(Some(s)) == Failure(TooManySymbolsError) <==> |ParseSymbols(s)| > MaxSymbols
    ensures ParseTickers(Some(s)).Success? <==> 1 <= |ParseSymbols(s)| <= MaxSymbols
    ensures ParseTickers(Some(s)).Success? ==> ParseTickers(Some(s)).value == ParseSymbols(s)
  {
    assert NoSymbolsError != TooManySymbolsError;
  }

  /** Upper-casing the two example symbols. */
  lemma UpperAapl()
    ensures Upper("aapl") == "AAPL"
  {
  }

  lemma UpperMsft()
    ensures Upper("msft") == "MSFT"
  {
  }

  /** Stripping the two example pieces. */
  lemma StripLeadingSpace()
    ensures Strip(" aapl") == "aapl"
  {
    var a := " aapl";
    assert SkipSpaces(a, 0) == 1 && BackOverSpaces(a, 1, |a|) == |a|;
  }

  lemma StripTrailingSpace()
    ensures Strip("msft ") == "msft"
  {
    var b := "msft ";
    assert SkipSpaces(b, 0) == 0 && BackOverSpaces(b, 0, |b|) == 4;
  }

  /** Each example piece parses to its stripped capitals. */
  lemma ParseLeadingSpacePiece()
    ensures ParseSymbols(" aapl") == ["AAPL"]
  {
    ParseSymbolsPiece(" aapl");
    StripLeadingSpace();
    UpperAapl();
  }

  lemma ParseTrailingSpacePiece()
    ensures ParseSymbols("msft ") == ["MSFT"]
  {
    ParseSymbolsPiece("msft ");
    StripTrailingSpace();
    UpperMsft();
  }

  /** The example parameter is its two pieces around a comma. */
  lemma MixedCaseSplit()
    ensures " aapl,msft " == " aapl" + [','] + "msft "
  {
  }

  /** The example parameter parses to both symbols in capitals, in order. */
  lemma ParseMixedCaseSymbols()
    ensures ParseSymbols(" aapl,msft ") == ["AAPL", "MSFT"]
  {
    MixedCaseSplit();
    ParseSymbolsConcat(" aapl", "msft ");
    ParseLeadingSpacePiece();
    ParseTrailingSpacePiece();
  }

  /** Lower-case, space-padded symbols are accepted in capitals, in order. */
  lemma MixedCaseParameter()
    ensures ParseTickers(Some(" aapl,msft ")) == Success(["AAPL", "MSFT"])
  {
    ParseMixedCaseSymbols();
  }

  /** The "no symbols" error comes exactly for a parameter of nothing but commas and whitespace. */
  lemma BlankParameterRefused(s: string)
    ensures ParseTickers(Some(s)) == Failure(NoSymbolsError) <==> IsBlank(s)
  {
    ParseSymbolsEmpty(s);
  }
}
