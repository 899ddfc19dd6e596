/** Turning the user's request into ticker symbols: the clean-up of the language model's
    comma-separated reply, the fallback that maps company names found in the text to
    tickers, and the cap on how many symbols are analysed.

    `toUpperCase` is modelled on ASCII letters and `trim` on the fixed set of JavaScript
    white-space and line-terminator characters.
 */
module Symbols {
  import opened Values

  // ---------------------------------------------------------------------------------------
  // Characters and strings

  /** The characters JavaScript's `trim` removes: white space and line terminators. */
  predicate IsSpace(c: char) {
    || c == ' ' || c == '\t' || c == '\n' || c == '\r' || c == '\U{000B}' || c == '\U{000C}'
    || c == '\U{00A0}' || c == '\U{1680}' || ('\U{2000}' <= c <= '\U{200A}')
    || c == '\U{2028}' || c == '\U{2029}' || c == '\U{202F}' || c == '\U{205F}'
    || c == '\U{3000}' || c == '\U{FEFF}'
  }

  predicate IsUpperLetter(c: char) {
    'A' <= c <= 'Z'
  }

  function Upper(c: char): (u: char)
    ensures 'a' <= c <= 'z' ==> IsUpperLetter(u)
    ensures !('a' <= c <= 'z') ==> u == c
  {
    if 'a' <= c <= 'z' then (c as int - 'a' as int + 'A' as int) as char else c
  }

  /** `toUpperCase` on ASCII letters. */
  function ToUpper(s: string): (u: string)
    ensures |u| == |s|
    ensures forall i :: 0 <= i < |s| ==> u[i] == Upper(s[i])
  {
    seq(|s|, i requires 0 <= i < |s| => Upper(s[i]))
  }

  /** Upper-casing twice changes nothing more. */
  lemma ToUpperIdempotent(s: string)
    ensures ToUpper(ToUpper(s)) == ToUpper(s)
  {
  }

  /** The number of white-space characters at the start of `s`. */
  function LeadingSpaces(s: string): (n: nat)
    ensures n <= |s|
    ensures forall i :: 0 <= i < n ==> IsSpace(s[i])
    ensures n < |s| ==> !IsSpace(s[n])
    decreases |s|
  {
    if |s| > 0 && IsSpace(s[0]) then 1 + LeadingSpaces(s[1..]) else 0
  }

  function TrimEnd(s: string): (t: string)
    ensures |t| <= |s| && t == s[..|t|]
    ensures |t| > 0 ==> !IsSpace(t[|t| - 1])
    ensures forall i :: |t| <= i < |s| ==> IsSpace(s[i])
    decreases |s|
  {
    if |s| > 0 && IsSpace(s[|s| - 1]) then TrimEnd(s[..|s| - 1]) else s
  }

  /** `trim`: the slice of `s` after its leading white space, with no white space at either
      end, everything cut off being white space. */
  function Trim(s: string): (t: string)
    ensures LeadingSpaces(s) + |t| <= |s|
    ensures t == s[LeadingSpaces(s)..LeadingSpaces(s) + |t|]
    ensures |t| > 0 ==> !IsSpace(t[0]) && !IsSpace(t[|t| - 1])
    ensures forall i :: LeadingSpaces(s) + |t| <= i < |s| ==> IsSpace(s[i])
    ensures |t| == 0 <==> forall i :: 0 <= i < |s| ==> IsSpace(s[i])
  {
    var n := LeadingSpaces(s);
    TrimEnd(s[n..])
  }

  /** A string with no white space at either end is its own trim. */
  lemma TrimmedIsFixed(s: string)
    requires |s| > 0 ==> !IsSpace(s[0]) && !IsSpace(s[|s| - 1])
    ensures Trim(s) == s
  {
    assert LeadingSpaces(s) == 0;
    assert s[0..] == s;
  }

  /** Trimming a trimmed string changes nothing. */
  lemma TrimIdempotent(s: string)
    ensures Trim(Trim(s)) == Trim(s)
  {
    TrimmedIsFixed(Trim(s));
  }

  // ---------------------------------------------------------------------------------------
  // Splitting

  /** `split(sep)` for a one-character separator: the pieces between separators, including
      empty ones, and always at least one. */
  function Split(s: string, sep: char): (pieces: seq<string>)
    ensures |pieces| >= 1
    ensures forall i :: 0 <= i < |pieces| ==> sep !in pieces[i]
    decreases |s|
  {
    if |s| == 0 then [""]
    else
      var rest := Split(s[1..], sep);
      if s[0] == sep then [""] + rest
      else [[s[0]] + rest[0]] + rest[1..]
  }

  /** `join(sep)`, the inverse of `Split`. */
  function Join(pieces: seq<string>, sep: char): string
    requires |pieces| >= 1
    decreases |pieces|
  {
    if |pieces| == 1 then pieces[0] else pieces[0] + [sep] + Join(pieces[1..], sep)
  }

  lemma {:induction false} JoinSplit(s: string, sep: char)
    ensures Join(Split(s, sep), sep) == s
    decreases |s|
  {
    if |s| > 0 {
      var rest := Split(s[1..], sep);
      JoinSplit(s[1..], sep);
      if s[0] != sep {
        var pieces := Split(s, sep);
        assert pieces[1..] == rest[1..];
        if |rest| == 1 {
          assert Join(pieces, sep) == [s[0]] + rest[0];
        } else {
          assert Join(pieces, sep) == [s[0]] + rest[0] + [sep] + Join(rest[1..], sep);
        }
      }
    }
  }

  lemma {:induction false} SplitJoin(pieces: seq<string>, sep: char)
    requires |pieces| >= 1
    requires forall i :: 0 <= i < |pieces| ==> sep !in pieces[i]
    ensures Split(Join(pieces, sep), sep) == pieces
    decreases |pieces|, |pieces[0]|
  {
    var p := pieces[0];
    if |p| == 0 {
      if |pieces| > 1 {
        var tail := Join(pieces[1..], sep);
        assert Join(pieces, sep) == [sep] + tail;
        assert ([sep] + tail)[1..] == tail;
        SplitJoin(pieces[1..], sep);
        assert [""] + pieces[1..] == pieces;
      }
    } else {
      var shorter := [p[1..]] + pieces[1..];
      assert shorter[1..] == pieces[1..];
      assert Join(pieces, sep) == [p[0]] + Join(shorter, sep);
      SplitJoin(shorter, sep);
      assert ([p[0]] + Join(shorter, sep))[1..] == Join(shorter, sep);
      assert [p[0]] + p[1..] == p;
      assert [[p[0]] + p[1..]] + pieces[1..] == pieces;
    }
  }

  // ---------------------------------------------------------------------------------------
  // The model's reply

  /** A ticker as the handler accepts it: one to five capital letters A-Z. */
  predicate IsTicker(s: string) {
    1 <= |s| <= 5 && forall i :: 0 <= i < |s| ==> IsUpperLetter(s[i])
  }

  /** The reply filter: non-empty, not the model's "NULL" answer, and a ticker. */
  predicate Accepted(s: string) {
    |s| > 0 && s != "NULL" && IsTicker(s)
  }

  /** `xs` is `ys` with some elements removed, order kept. */
  ghost predicate IsSubsequence<T>(xs: seq<T>, ys: seq<T>)
    decreases |ys|
  {
    if |xs| == 0 then true
    else if |ys| == 0 then false
    else if xs[0] == ys[0] then IsSubsequence(xs[1..], ys[1..])
    else IsSubsequence(xs, ys[1..])
  }

  /** `filter(Accepted)`. */
  function KeepAccepted(pieces: seq<string>): (kept: seq<string>)
    ensures |kept| <= |pieces|
    ensures forall i :: 0 <= i < |kept| ==> Accepted(kept[i])
    ensures forall p :: p in pieces && Accepted(p) ==> p in kept
    ensures forall p :: p in kept ==> p in pieces
    decreases |pieces|
  {
    if |pieces| == 0 then []
    else
      var rest := KeepAccepted(pieces[1..]);
      assert forall p :: p in pieces ==> p == pieces[0] || p in pieces[1..];
      if Accepted(pieces[0]) then [pieces[0]] + rest else rest
  }

  /** The filter works piece by piece: an accepted piece is kept, any other dropped, and the
      result for a concatenation is the concatenation of the results, so repeats are kept. */
  lemma KeepAcceptedOfOne(p: string)
    ensures Accepted(p) ==> KeepAccepted([p]) == [p]
    ensures !Accepted(p) ==> KeepAccepted([p]) == []
  {
    assert [p][1..] == [];
  }

  lemma {:induction false} KeepAcceptedAppend(p: seq<string>, q: seq<string>)
    ensures KeepAccepted(p + q) == KeepAccepted(p) + KeepAccepted(q)
    decreases |p|
  {
    if |p| > 0 {
      assert (p + q)[1..] == p[1..] + q;
      KeepAcceptedAppend(p[1..], q);
    } else {
      assert p + q == q;
    }
  }

  lemma {:induction false} KeepAcceptedIsSubsequence(pieces: seq<string>)
    ensures IsSubsequence(KeepAccepted(pieces), pieces)
    decreases |pieces|
  {
    if |pieces| > 0 {
      KeepAcceptedIsSubsequence(pieces[1..]);
      var rest := KeepAccepted(pieces[1..]);
      if Accepted(pieces[0]) {
        assert ([pieces[0]] + rest)[1..] == rest;
      } else {
        SubsequenceOfTail(rest, pieces);
      }
    }
  }

  lemma {:induction false} SubsequenceOfTail<T>(xs: seq<T>, ys: seq<T>)
    requires |ys| > 0 && IsSubsequence(xs, ys[1..])
    ensures IsSubsequence(xs, ys)
    decreases |ys|, 0
  {
    if |xs| > 0 && xs[0] == ys[0] {
      SubsequenceDropFirst(xs, ys[1..]);
    }
  }

  /** Dropping the first element of a subsequence keeps it a subsequence. */
  lemma {:induction false} SubsequenceDropFirst<T>(xs: seq<T>, ys: seq<T>)
    requires |xs| > 0 && IsSubsequence(xs, ys)
    ensures IsSubsequence(xs[1..], ys)
    decreases |ys|, 1
  {
    if |ys| > 0 {
      if xs[0] == ys[0] {
        if |xs| > 1 {
          SubsequenceDropFirst(xs[1..], ys[1..]);
          SubsequenceOfTail(xs[1..], ys);
        }
      } else {
        SubsequenceDropFirst(xs, ys[1..]);
        SubsequenceOfTail(xs[1..], ys);
      }
    }
  }

  lemma {:induction false} PrefixIsSubsequence<T>(xs: seq<T>, n: nat)
    requires n <= |xs|
    ensures IsSubsequence(xs[..n], xs)
    decreases n
  {
    if n > 0 {
      assert xs[..n][1..] == xs[1..][..n - 1];
      PrefixIsSubsequence(xs[1..], n - 1);
    }
  }

  lemma {:induction false} SubsequenceTransitive<T>(xs: seq<T>, ys: seq<T>, zs: seq<T>)
    requires IsSubsequence(xs, ys) && IsSubsequence(ys, zs)
    ensures IsSubsequence(xs, zs)
    decreases |zs|
  {
    if |xs| > 0 && |zs| > 0 {
      if ys[0] == zs[0] {
        if xs[0] == ys[0] {
          SubsequenceTransitive(xs[1..], ys[1..], zs[1..]);
        } else {
          SubsequenceTransitive(xs, ys[1..], zs[1..]);
        }
      } else {
        SubsequenceTransitive(xs, ys, zs[1..]);
        SubsequenceOfTail(xs, zs);
      }
    }
  }

  function Take<T>(xs: seq<T>, n: nat): (t: seq<T>)
    ensures |t| == if |xs| < n then |xs| else n
    ensures t == xs[..|t|]
  {
    if |xs| < n then xs else xs[..n]
  }

  /** The pieces of the reply: trimmed, upper-cased, split on commas, each trimmed. */
  function ReplyPieces(reply: string): (pieces: seq<string>)
    ensures |pieces| >= 1
  {
    var parts := Split(ToUpper(Trim(reply)), ',');
    seq(|parts|, i requires 0 <= i < |parts| => Trim(parts[i]))
  }

  const MaxExtracted: nat := 8
  const NoValidSymbols: string := "No valid stock symbols found"

  /** `extractSymbols` applied to the model's reply. */
  function ExtractSymbols(reply: string): (r: Result<seq<string>, string>)
    ensures r.Failure? <==> |KeepAccepted(ReplyPieces(reply))| == 0
    ensures r.Failure? ==> r.error == NoValidSymbols
    ensures r.Success? ==> r.value == Take(KeepAccepted(ReplyPieces(reply)), MaxExtracted)
  {
    var kept := KeepAccepted(ReplyPieces(reply));
    if |kept| == 0 then Failure(NoValidSymbols) else Success(Take(kept, MaxExtracted))
  }

  /** Every extracted symbol is an accepted ticker, there are one to eight of them, and they
      appear in the reply's pieces in the same order. */
  lemma ExtractedSymbolsValid(reply: string)
    ensures var r := ExtractSymbols(reply);
      r.Success? ==>
        && 1 <= |r.value| <= MaxExtracted
        && (forall i :: 0 <= i < |r.value| ==> IsTicker(r.value[i]) && r.value[i] != "NULL")
        && IsSubsequence(r.value, ReplyPieces(reply))
  {
    var pieces := ReplyPieces(reply);
    var kept := KeepAccepted(pieces);
    if |kept| > 0 {
      var t := Take(kept, MaxExtracted);
      KeepAcceptedIsSubsequence(pieces);
      PrefixIsSubsequence(kept, |t|);
      SubsequenceTransitive(t, kept, pieces);
    }
  }

  /** A reply whose every piece is accepted comes back unchanged, up to eight symbols. */
  lemma ExtractAcceptedReply(tickers: seq<string>)
    requires 1 <= |tickers| <= MaxExtracted
    requires forall i :: 0 <= i < |tickers| ==> Accepted(tickers[i])
    ensures ExtractSymbols(Join(tickers, ',')) == Success(tickers)
  {
    ReplyPiecesOfTickers(tickers);
    ExtractOfAcceptedPieces(Join(tickers, ','), tickers);
  }

  lemma ExtractOfAcceptedPieces(reply: string, tickers: seq<string>)
    requires ReplyPieces(reply) == tickers
    requires 1 <= |tickers| <= MaxExtracted
    requires forall i :: 0 <= i < |tickers| ==> Accepted(tickers[i])
    ensures ExtractSymbols(reply) == Success(tickers)
  {
    AllAcceptedKept(tickers);
    assert Take(tickers, MaxExtracted) == tickers;
  }

  /** Joining accepted tickers with commas and cutting the reply up again gives them back. */
  lemma ReplyPiecesOfTickers(tickers: seq<string>)
    requires |tickers| >= 1
    requires forall i :: 0 <= i < |tickers| ==> Accepted(tickers[i])
    ensures ReplyPieces(Join(tickers, ',')) == tickers
  {
    var reply := Join(tickers, ',');
    ReplyNormalised(tickers);
    TickersAreCommaFree(tickers);
    SplitJoin(tickers, ',');
    PiecesTrimmed(tickers);
  }

  /** The comma-joined tickers are their own trimmed, upper-cased form. */
  lemma ReplyNormalised(tickers: seq<string>)
    requires |tickers| >= 1
    requires forall i :: 0 <= i < |tickers| ==> Accepted(tickers[i])
    ensures ToUpper(Trim(Join(tickers, ','))) == Join(tickers, ',')
  {
    JoinOfTickers(tickers);
    LettersAndCommasNormalised(Join(tickers, ','));
  }

  lemma LettersAndCommasNormalised(s: string)
    requires LettersAndCommas(s)
    requires |s| > 0 && IsUpperLetter(s[0]) && IsUpperLetter(s[|s| - 1])
    ensures ToUpper(Trim(s)) == s
  {
    TrimmedIsFixed(s);
    UpperFixed(s);
  }

  /** Trimming each accepted ticker changes none. */
  lemma PiecesTrimmed(tickers: seq<string>)
    requires forall i :: 0 <= i < |tickers| ==> Accepted(tickers[i])
    ensures seq(|tickers|, i requires 0 <= i < |tickers| => Trim(tickers[i])) == tickers
  {
    forall i | 0 <= i < |tickers| ensures Trim(tickers[i]) == tickers[i] {
      TrimmedIsFixed(tickers[i]);
    }
  }

  lemma TickersAreCommaFree(tickers: seq<string>)
    requires forall i :: 0 <= i < |tickers| ==> Accepted(tickers[i])
    ensures forall i :: 0 <= i < |tickers| ==> ',' !in tickers[i]
  {
    forall i | 0 <= i < |tickers| ensures ',' !in tickers[i] {
      var p := tickers[i];
      assert forall k :: 0 <= k < |p| ==> p[k] != ',';
    }
  }

  /** Capital letters and commas only. */
  predicate LettersAndCommas(s: string) {
    forall i :: 0 <= i < |s| ==> IsUpperLetter(s[i]) || s[i] == ','
  }

  /** The comma-joined tickers are capital letters and commas, starting and ending with a
      letter. */
  lemma {:induction false} JoinOfTickers(tickers: seq<string>)
    requires |tickers| >= 1
    requires forall i :: 0 <= i < |tickers| ==> Accepted(tickers[i])
    ensures LettersAndCommas(Join(tickers, ','))
    ensures |Join(tickers, ',')| > 0 && IsUpperLetter(Join(tickers, ',')[0])
    ensures IsUpperLetter(Join(tickers, ',')[|Join(tickers, ',')| - 1])
    decreases |tickers|
  {
    if |tickers| > 1 {
      JoinOfTickers(tickers[1..]);
      var head := tickers[0];
      var tail := Join(tickers[1..], ',');
      var s := head + [','] + tail;
      assert Join(tickers, ',') == s;
      forall i | 0 <= i < |s| ensures IsUpperLetter(s[i]) || s[i] == ',' {
        if i < |head| {
          assert s[i] == head[i];
        } else if i > |head| {
          assert s[i] == tail[i - |head| - 1];
        }
      }
      assert s[|s| - 1] == tail[|tail| - 1];
    }
  }

  /** `toUpperCase` leaves capital letters and commas alone. */
  lemma UpperFixed(s: string)
    requires LettersAndCommas(s)
    ensures ToUpper(s) == s
  {
  }

  lemma {:induction false} AllAcceptedKept(pieces: seq<string>)
    requires forall i :: 0 <= i < |pieces| ==> Accepted(pieces[i])
    ensures KeepAccepted(pieces) == pieces
    decreases |pieces|
  {
    if |pieces| > 0 {
      AllAcceptedKept(pieces[1..]);
    }
  }

  // ---------------------------------------------------------------------------------------
  // The fallback: company names in the text

  /** The company names the fallback recognises and their tickers. The name with an
      underscore can never be matched, since tokens are runs of the letters A-Z only. */
  function NameToTicker(name: string): (t: Option<string>)
    ensures t.Some? ==> IsTicker(t.value)
  {
    if name == "TESLA" then Some("TSLA")
    else if name == "APPLE" then Some("AAPL")
    else if name == "MICROSOFT" then Some("MSFT")
    else if name == "GOOGLE" then Some("GOOGL")
    else if name == "ALPHABET" then Some("GOOGL")
    else if name == "AMAZON" then Some("AMZN")
    else if name == "NVIDIA" then Some("NVDA")
    else if name == "META" then Some("META")
    else if name == "FACEBOOK" then Some("META")
    else if name == "FORD" then Some("F")
    else if name == "GENERAL_MOTORS" then Some("GM")
    else if name == "TOYOTA" then Some("TM")
    else None
  }

  /** `split(/[^A-Z]+/)`: the pieces between characters outside A-Z. Empty pieces, which
      the regular expression would merge away, are dropped later because no name is
      empty. */
  function Tokens(s: string): (tokens: seq<string>)
    ensures |tokens| >= 1
    ensures forall i :: 0 <= i < |tokens| ==>
      forall k :: 0 <= k < |tokens[i]| ==> IsUpperLetter(tokens[i][k])
    decreases |s|
  {
    if |s| == 0 then [""]
    else
      var rest := Tokens(s[1..]);
      if !IsUpperLetter(s[0]) then [""] + rest
      else [[s[0]] + rest[0]] + rest[1..]
  }

  /** `map[t]` for each token, unknown names dropped. */
  function MapNames(tokens: seq<string>): (tickers: seq<string>)
    ensures |tickers| <= |tokens|
    ensures forall i :: 0 <= i < |tickers| ==> IsTicker(tickers[i])
    ensures forall t :: t in tokens && NameToTicker(t).Some? ==> NameToTicker(t).value in tickers
    ensures forall i :: 0 <= i < |tickers| ==>
      exists t :: t in tokens && NameToTicker(t) == Some(tickers[i])
    decreases |tokens|
  {
    if |tokens| == 0 then []
    else
      var rest := MapNames(tokens[1..]);
      assert forall t :: t in tokens <==> t == tokens[0] || t in tokens[1..];
      match NameToTicker(tokens[0])
      case Some(x) => [x] + rest
      case None => rest
  }

  /** One token maps to its ticker, or to nothing when it names no company. */
  lemma MapNamesOfOne(t: string)
    ensures NameToTicker(t).Some? ==> MapNames([t]) == [NameToTicker(t).value]
    ensures NameToTicker(t).None? ==> MapNames([t]) == []
  {
    assert [t][1..] == [];
  }

  /** Mapping distributes over concatenation: tickers come in the order their names are
      mentioned, repeats included. */
  lemma {:induction false} MapNamesAppend(a: seq<string>, b: seq<string>)
    ensures MapNames(a + b) == MapNames(a) + MapNames(b)
    decreases |a|
  {
    if |a| > 0 {
      assert (a + b)[1..] == a[1..] + b;
      MapNamesAppend(a[1..], b);
    } else {
      assert a + b == b;
    }
  }

  /** `[...new Set(xs)]`: the first occurrence of each element, in order. */
  function Dedupe(xs: seq<string>): (d: seq<string>)
    ensures |d| <= |xs|
    ensures forall x :: x in d <==> x in xs
    ensures forall i, j :: 0 <= i < j < |d| ==> d[i] != d[j]
    decreases |xs|
  {
    if |xs| == 0 then []
    else
      var init := Dedupe(xs[..|xs| - 1]);
      assert forall x :: x in xs <==> x in xs[..|xs| - 1] || x == xs[|xs| - 1];
      if xs[|xs| - 1] in init then init else init + [xs[|xs| - 1]]
  }

  /** The index of the first occurrence of `x`. */
  function FirstIndex(xs: seq<string>, x: string): (i: nat)
    requires x in xs
    ensures i < |xs| && xs[i] == x && x !in xs[..i]
    decreases |xs|
  {
    if xs[0] == x then 0
    else
      var k := FirstIndex(xs[1..], x);
      assert xs[..k + 1] == [xs[0]] + xs[1..][..k];
      1 + k
  }

  /** An index holding `x` with no `x` before it is the first index. */
  lemma FirstIndexUnique(xs: seq<string>, x: string, i: nat)
    requires i < |xs| && xs[i] == x && x !in xs[..i]
    ensures FirstIndex(xs, x) == i
  {
  }

  /** Extending a sequence at the end moves no first occurrence and puts a new element at
      the end. */
  lemma FirstIndexInPrefix(xs: seq<string>, x: string)
    requires |xs| > 0 && x in xs
    ensures x in xs[..|xs| - 1] ==> FirstIndex(xs, x) == FirstIndex(xs[..|xs| - 1], x)
    ensures x !in xs[..|xs| - 1] ==> FirstIndex(xs, x) == |xs| - 1
  {
    var init := xs[..|xs| - 1];
    if x in init {
      var m := FirstIndex(init, x);
      assert init[..m] == xs[..m];
      FirstIndexUnique(xs, x, m);
    } else {
      assert xs[..|xs| - 1] == init;
      FirstIndexUnique(xs, x, |xs| - 1);
    }
  }

  /** The kept elements are ordered by their first occurrence, which pins `Dedupe` down. */
  lemma {:induction false} DedupeKeepsFirstOccurrenceOrder(xs: seq<string>)
    ensures forall i, j :: 0 <= i < j < |Dedupe(xs)| ==>
      FirstIndex(xs, Dedupe(xs)[i]) < FirstIndex(xs, Dedupe(xs)[j])
    decreases |xs|
  {
    if |xs| > 0 {
      var init := xs[..|xs| - 1];
      var last := xs[|xs| - 1];
      DedupeKeepsFirstOccurrenceOrder(init);
      var d := Dedupe(xs);
      var di := Dedupe(init);
      assert d == di || (d == di + [last] && last !in init);
      forall i, j | 0 <= i < j < |d| ensures FirstIndex(xs, d[i]) < FirstIndex(xs, d[j]) {
        assert d[i] == di[i] && di[i] in di;
        FirstIndexInPrefix(xs, d[i]);
        if j < |di| {
          assert d[j] == di[j] && di[j] in di;
          FirstIndexInPrefix(xs, d[j]);
          assert FirstIndex(init, di[i]) < FirstIndex(init, di[j]);
        } else {
          assert d[j] == last;
          FirstIndexInPrefix(xs, last);
          assert FirstIndex(xs, d[j]) == |xs| - 1;
          assert FirstIndex(xs, d[i]) == FirstIndex(init, d[i]) < |init|;
        }
      }
    }
  }

  /** Deduplicating twice changes nothing more. */
  lemma DedupeIdempotent(xs: seq<string>)
    ensures Dedupe(Dedupe(xs)) == Dedupe(xs)
  {
    NoDuplicatesDedupe(Dedupe(xs));
  }

  /** A sequence without repeats is left alone. */
  lemma {:induction false} NoDuplicatesDedupe(xs: seq<string>)
    requires forall i, j :: 0 <= i < j < |xs| ==> xs[i] != xs[j]
    ensures Dedupe(xs) == xs
    decreases |xs|
  {
    if |xs| > 0 {
      var init := xs[..|xs| - 1];
      NoDuplicatesDedupe(init);
      assert xs[|xs| - 1] !in init;
      assert init + [xs[|xs| - 1]] == xs;
    }
  }

  /** The fallback's tickers for a text. */
  function FallbackSymbols(text: string): (tickers: seq<string>)
    ensures forall i :: 0 <= i < |tickers| ==> IsTicker(tickers[i])
    ensures forall i, j :: 0 <= i < j < |tickers| ==> tickers[i] != tickers[j]
    ensures forall i :: 0 <= i < |tickers| ==>
      exists t :: t in Tokens(ToUpper(text)) && NameToTicker(t) == Some(tickers[i])
    ensures forall x :: x in tickers <==> x in MapNames(Tokens(ToUpper(text)))
  {
    var mapped := MapNames(Tokens(ToUpper(text)));
    var d := Dedupe(mapped);
    assert forall i :: 0 <= i < |d| ==> d[i] in mapped;
    d
  }

  /** The fallback's tickers follow the order in which their names are first mentioned. */
  lemma FallbackMentionOrder(text: string)
    ensures var mapped := MapNames(Tokens(ToUpper(text)));
      var tickers := FallbackSymbols(text);
      forall i, j :: 0 <= i < j < |tickers| ==>
        tickers[i] in mapped && tickers[j] in mapped &&
        FirstIndex(mapped, tickers[i]) < FirstIndex(mapped, tickers[j])
  {
    DedupeKeepsFirstOccurrenceOrder(MapNames(Tokens(ToUpper(text))));
  }

  /** The only name mapping to "GM" is the one with the underscore. */
  lemma GMName(t: string)
    ensures NameToTicker(t) == Some("GM") <==> t == "GENERAL_MOTORS"
    ensures NameToTicker(t) == Some("GM") ==> |t| > 7 && t[7] == '_'
  {
  }

  /** Tokens made of letters never map to "GM": its only name holds an underscore. */
  lemma {:induction false} WordsNeverMapToGM(tokens: seq<string>)
    requires forall i :: 0 <= i < |tokens| ==>
      forall k :: 0 <= k < |tokens[i]| ==> IsUpperLetter(tokens[i][k])
    ensures "GM" !in MapNames(tokens)
    decreases |tokens|
  {
    if |tokens| > 0 {
      WordsNeverMapToGM(tokens[1..]);
      var t := tokens[0];
      GMName(t);
    }
  }

  /** The fallback never yields "GM", whatever the text. */
  lemma FallbackNeverGM(text: string)
    ensures "GM" !in FallbackSymbols(text)
  {
    WordsNeverMapToGM(Tokens(ToUpper(text)));
  }

  /** A character that is not a letter separates tokens. */
  lemma {:induction false} TokensSeparated(a: string, b: string)
    requires |b| > 0 && !IsUpperLetter(b[0])
    ensures Tokens(a + b) == Tokens(a) + Tokens(b[1..])
    decreases |a|
  {
    if |a| == 0 {
      assert a + b == b;
    } else {
      assert (a + b)[1..] == a[1..] + b;
      TokensSeparated(a[1..], b);
    }
  }

  /** A run of capital letters is a single token. */
  lemma {:induction false} TokensOfWord(w: string)
    requires forall k :: 0 <= k < |w| ==> IsUpperLetter(w[k])
    ensures Tokens(w) == [w]
    decreases |w|
  {
    if |w| > 0 {
      TokensOfWord(w[1..]);
      assert [w[0]] + w[1..] == w;
    }
  }

  lemma ToUpperAppend(a: string, b: string)
    ensures ToUpper(a + b) == ToUpper(a) + ToUpper(b)
  {
  }

  /** A word of capital letters between non-letters (or the ends of the text) is a token. */
  lemma {:induction false} WordIsToken(p: string, w: string, q: string)
    requires forall k :: 0 <= k < |w| ==> IsUpperLetter(w[k])
    requires |p| > 0 ==> !IsUpperLetter(p[|p| - 1])
    requires |q| > 0 ==> !IsUpperLetter(q[0])
    ensures w in Tokens(p + w + q)
  {
    if |p| > 0 {
      var init := p[..|p| - 1];
      assert p + w + q == init + [p[|p| - 1]] + (w + q);
      WordAfterNonLetter(init, p[|p| - 1], w, q);
    } else {
      WordStartsTokens(w, q);
      assert p == [];
      assert p + w == w;
    }
  }

  lemma WordAfterNonLetter(init: string, c: char, w: string, q: string)
    requires !IsUpperLetter(c)
    requires forall k :: 0 <= k < |w| ==> IsUpperLetter(w[k])
    requires |q| > 0 ==> !IsUpperLetter(q[0])
    ensures w in Tokens(init + [c] + (w + q))
  {
    TokensAfterNonLetter(init, c, w + q);
    WordStartsTokens(w, q);
    assert Tokens(init + [c] + (w + q))[|Tokens(init)|] == w;
  }

  lemma TokensAfterNonLetter(a: string, c: char, b: string)
    requires !IsUpperLetter(c)
    ensures Tokens(a + [c] + b) == Tokens(a) + Tokens(b)
  {
    TokensSeparated(a, [c] + b);
    assert a + [c] + b == a + ([c] + b);
    assert ([c] + b)[1..] == b;
  }

  /** A word followed by a non-letter (or nothing) is the first token. */
  lemma WordStartsTokens(w: string, q: string)
    requires forall k :: 0 <= k < |w| ==> IsUpperLetter(w[k])
    requires |q| > 0 ==> !IsUpperLetter(q[0])
    ensures Tokens(w + q)[0] == w
  {
    TokensOfWord(w);
    if |q| > 0 {
      TokensSeparated(w, q);
    } else {
      assert w + q == w;
    }
  }

  /** A recognised company name standing as a word of its own, in any letter case, is found. */
  lemma NameFound(before: string, word: string, after: string)
    requires NameToTicker(ToUpper(word)).Some?
    requires forall k :: 0 <= k < |word| ==> IsUpperLetter(Upper(word[k]))
    requires |before| > 0 ==> !IsUpperLetter(Upper(before[|before| - 1]))
    requires |after| > 0 ==> !IsUpperLetter(Upper(after[0]))
    ensures NameToTicker(ToUpper(word)).value in FallbackSymbols(before + word + after)
  {
    var w := ToUpper(word);
    ToUpperAppend(before, word);
    ToUpperAppend(before + word, after);
    WordIsToken(ToUpper(before), w, ToUpper(after));
    var tokens := Tokens(ToUpper(before + word + after));
    assert w in tokens;
    assert NameToTicker(w).value in MapNames(tokens);
  }

  // ---------------------------------------------------------------------------------------
  // Resolving the request's symbols

  const MaxAnalysed: nat := 5
  const NoInputText: string := "No input text to analyze"
  const NoSymbolsDetected: string :=
    "Could not detect any valid stock symbols in your request. Please include tickers like AAPL or TSLA."

  /** The symbols detected in a request: the extraction's when it succeeds, the fallback's
      (possibly none) when the model call failed or its reply held no valid symbol. */
  function DetectedSymbols(text: string, reply: Option<string>): (symbols: seq<string>)
    ensures forall i :: 0 <= i < |symbols| ==> IsTicker(symbols[i])
    ensures reply.Some? && ExtractSymbols(reply.value).Success? ==>
      symbols == ExtractSymbols(reply.value).value
    ensures reply.None? || ExtractSymbols(reply.value).Failure? ==>
      symbols == FallbackSymbols(text)
  {
    if reply.Some? && ExtractSymbols(reply.value).Success? then
      ExtractedSymbolsValid(reply.value);
      ExtractSymbols(reply.value).value
    else FallbackSymbols(text)
  }

  /** Step 1 of the analysis run. `reply` is the model's answer to the extraction prompt, or
      None when the model call failed. */
  function ResolveSymbols(text: string, reply: Option<string>): (r: Result<seq<string>, string>)
    ensures |Trim(text)| == 0 ==> r == Failure(NoInputText)
    ensures |Trim(text)| > 0 ==> (r.Failure? <==> |DetectedSymbols(text, reply)| == 0)
    ensures r.Success? ==>
      && 1 <= |r.value| <= MaxAnalysed
      && r.value <= DetectedSymbols(text, reply)
      && forall i :: 0 <= i < |r.value| ==> IsTicker(r.value[i])
    ensures r.Success? && |DetectedSymbols(text, reply)| <= MaxAnalysed ==>
      r.value == DetectedSymbols(text, reply)
    ensures r.Success? && |DetectedSymbols(text, reply)| > MaxAnalysed ==> |r.value| == MaxAnalysed
    ensures r.Failure? ==> r.error == NoInputText || r.error == NoSymbolsDetected
  {
    if |Trim(text)| == 0 then Failure(NoInputText)
    else
      var symbols := DetectedSymbols(text, reply);
      if |symbols| == 0 then Failure(NoSymbolsDetected)
      else Success(Take(symbols, MaxAnalysed))
  }

  /** A reply naming at most five accepted tickers decides the symbols exactly. */
  lemma {:induction false} ResolveUsesReply(text: string, tickers: seq<string>)
    requires |Trim(text)| > 0
    requires 1 <= |tickers| <= MaxAnalysed
    requires forall i :: 0 <= i < |tickers| ==> Accepted(tickers[i])
    ensures ResolveSymbols(text, Some(Join(tickers, ','))) == Success(tickers)
  {
    var reply := Join(tickers, ',');
    ExtractAcceptedReply(tickers);
    assert DetectedSymbols(text, Some(reply)) == tickers;
    assert Take(tickers, MaxAnalysed) == tickers;
  }
}
