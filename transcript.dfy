/**
 * The transcript text logic of App.tsx: how streamed pieces accumulate in the
 * English (source) and Korean (target) buffers, the bounded view of each
 * buffer that is rendered, the whitespace trimming of the text box, and the
 * fixed strings of the question prompt.
 */
module Transcript {

  const Ellipsis: string := "..."
  const EnglishLimit: nat := 100
  const EnglishTail: nat := 90
  const KoreanLimit: nat := 80
  const KoreanTail: nat := 75

  predicate IsSuffix(t: string, s: string) {
    |t| <= |s| && s[|s| - |t|..] == t
  }

  predicate IsPrefix(t: string, s: string) {
    |t| <= |s| && s[..|t|] == t
  }

  // ---------------------------------------------------------------------
  // Bounded display slice
  // ---------------------------------------------------------------------

  /**
   * `buffer.length > limit ? '...' + buffer.slice(-tail) : buffer`.
   * JavaScript's slice(-0) would return the whole string, hence 0 < tail.
   */
  function DisplaySlice(buffer: string, limit: nat, tail: nat): (view: string)
    requires 0 < tail && tail + |Ellipsis| <= limit
    ensures |view| <= limit
    ensures |buffer| <= limit ==> view == buffer
    ensures limit < |buffer| ==>
              IsPrefix(Ellipsis, view) && |view| == |Ellipsis| + tail && IsSuffix(view[|Ellipsis|..], buffer)
  {
    if |buffer| > limit then Ellipsis + buffer[|buffer| - tail..] else buffer
  }

  /** The English line of the live transcript. */
  function EnglishView(buffer: string): (view: string)
    ensures |view| <= EnglishLimit
    ensures |buffer| <= EnglishLimit ==> view == buffer
    ensures EnglishLimit < |buffer| ==> view == Ellipsis + buffer[|buffer| - EnglishTail..]
  {
    DisplaySlice(buffer, EnglishLimit, EnglishTail)
  }

  /** The Korean line of the live transcript. */
  function KoreanView(buffer: string): (view: string)
    ensures |view| <= KoreanLimit
    ensures |buffer| <= KoreanLimit ==> view == buffer
    ensures KoreanLimit < |buffer| ==> view == Ellipsis + buffer[|buffer| - KoreanTail..]
  {
    DisplaySlice(buffer, KoreanLimit, KoreanTail)
  }

  /** Every view ends with the newest text: the last min(|buffer|, tail) characters. */
  lemma ViewKeepsNewestText(buffer: string, limit: nat, tail: nat)
    requires 0 < tail && tail + |Ellipsis| <= limit
    ensures var n := if |buffer| < tail then |buffer| else tail;
            IsSuffix(buffer[|buffer| - n..], DisplaySlice(buffer, limit, tail))
  {
    var view := DisplaySlice(buffer, limit, tail);
    var n := if |buffer| < tail then |buffer| else tail;
    if limit < |buffer| {
      assert view[|view| - n..] == view[|Ellipsis|..];
    }
  }

  // ---------------------------------------------------------------------
  // Accumulation of streamed pieces
  // ---------------------------------------------------------------------

  /** Appends a non-empty English piece, after a space when the buffer is non-empty. */
  function AppendSource(buffer: string, text: string): string {
    if text == "" then buffer else buffer + (if buffer == "" then "" else " ") + text
  }

  /** Appends a Korean piece directly; an empty piece changes nothing. */
  function AppendTarget(buffer: string, text: string): string {
    buffer + text
  }

  /**
   * An English piece keeps the buffer in front and ends it, with one space
   * between them only when both are non-empty.
   */
  lemma AppendSourceKeepsBuffer(buffer: string, text: string)
    ensures var r := AppendSource(buffer, text);
            IsPrefix(buffer, r) && IsSuffix(text, r) &&
            |r| == |buffer| + |text| + (if buffer != "" && text != "" then 1 else 0) &&
            (buffer != "" && text != "" ==> r[|buffer|] == ' ')
  {
  }

  /** A Korean piece keeps the buffer in front and follows it directly. */
  lemma AppendTargetKeepsBuffer(buffer: string, text: string)
    ensures var r := AppendTarget(buffer, text);
            IsPrefix(buffer, r) && r[|buffer|..] == text
  {
  }

  /** The English buffer after the pieces arrive one by one. */
  function AccumulateSource(buffer: string, pieces: seq<string>): string
    decreases |pieces|
  {
    if pieces == [] then buffer
    else AppendSource(AccumulateSource(buffer, pieces[..|pieces| - 1]), pieces[|pieces| - 1])
  }

  /** The Korean buffer after the pieces arrive one by one. */
  function AccumulateTarget(buffer: string, pieces: seq<string>): string
    decreases |pieces|
  {
    if pieces == [] then buffer
    else AppendTarget(AccumulateTarget(buffer, pieces[..|pieces| - 1]), pieces[|pieces| - 1])
  }

  /** Reference definition: the pieces joined with a separator between neighbours. */
  function Join(pieces: seq<string>, sep: string): string
    decreases |pieces|
  {
    if |pieces| == 0 then ""
    else if |pieces| == 1 then pieces[0]
    else pieces[0] + sep + Join(pieces[1..], sep)
  }

  /** Reference definition: the pieces one after another. */
  function Concat(pieces: seq<string>): string
    decreases |pieces|
  {
    if pieces == [] then "" else pieces[0] + Concat(pieces[1..])
  }

  /** The pieces that are not empty, in order. */
  function NonEmpty(pieces: seq<string>): (r: seq<string>)
    ensures forall i :: 0 <= i < |r| ==> r[i] != ""
    decreases |pieces|
  {
    if pieces == [] then []
    else (if pieces[0] == "" then [] else [pieces[0]]) + NonEmpty(pieces[1..])
  }

  lemma {:induction false} JoinSnoc(pieces: seq<string>, sep: string, last: string)
    ensures Join(pieces + [last], sep) == if pieces == [] then last else Join(pieces, sep) + sep + last
    decreases |pieces|
  {
    if |pieces| >= 2 {
      assert (pieces + [last])[1..] == pieces[1..] + [last];
      JoinSnoc(pieces[1..], sep, last);
    } else if |pieces| == 1 {
      assert (pieces + [last])[1..] == [last];
    }
  }

  lemma {:induction false} ConcatSnoc(pieces: seq<string>, last: string)
    ensures Concat(pieces + [last]) == Concat(pieces) + last
    decreases |pieces|
  {
    if pieces == [] {
      assert [last][1..] == [];
    } else {
      assert (pieces + [last])[1..] == pieces[1..] + [last];
      ConcatSnoc(pieces[1..], last);
    }
  }

  lemma {:induction false} NonEmptySnoc(pieces: seq<string>, last: string)
    ensures NonEmpty(pieces + [last]) == NonEmpty(pieces) + (if last == "" then [] else [last])
    decreases |pieces|
  {
    if pieces == [] {
      assert [last][1..] == [];
    } else {
      assert (pieces + [last])[1..] == pieces[1..] + [last];
      NonEmptySnoc(pieces[1..], last);
    }
  }

  /** Joining non-empty pieces gives the empty string only when there are none. */
  lemma {:induction false} JoinOfNonEmptyPieces(pieces: seq<string>, sep: string)
    requires forall i :: 0 <= i < |pieces| ==> pieces[i] != ""
    ensures Join(pieces, sep) == "" <==> pieces == []
    decreases |pieces|
  {
    if |pieces| >= 2 {
      assert |Join(pieces, sep)| >= |pieces[0]| > 0;
    }
  }

  /**
   * The English buffer, started empty, is the non-empty pieces joined by a
   * single space: empty pieces are dropped and no separator leads or doubles.
   */
  lemma {:induction false} SourceIsSpaceJoined(pieces: seq<string>)
    ensures AccumulateSource("", pieces) == Join(NonEmpty(pieces), " ")
    decreases |pieces|
  {
    if pieces != [] {
      var init, last := pieces[..|pieces| - 1], pieces[|pieces| - 1];
      assert pieces == init + [last];
      SourceIsSpaceJoined(init);
      NonEmptySnoc(init, last);
      var before := AccumulateSource("", init);
      assert AccumulateSource("", pieces) == AppendSource(before, last);
      if last == "" {
        assert NonEmpty(pieces) == NonEmpty(init);
      } else {
        assert NonEmpty(pieces) == NonEmpty(init) + [last];
        JoinSnoc(NonEmpty(init), " ", last);
        JoinOfNonEmptyPieces(NonEmpty(init), " ");
      }
    }
  }

  /** The Korean buffer is its starting text followed by every piece, with no separator. */
  lemma {:induction false} TargetIsConcatenated(buffer: string, pieces: seq<string>)
    ensures AccumulateTarget(buffer, pieces) == buffer + Concat(pieces)
    decreases |pieces|
  {
    if pieces != [] {
      var init, last := pieces[..|pieces| - 1], pieces[|pieces| - 1];
      assert pieces == init + [last];
      TargetIsConcatenated(buffer, init);
      ConcatSnoc(init, last);
    }
  }

  // ---------------------------------------------------------------------
  // String.prototype.trim
  // ---------------------------------------------------------------------

  /** The WhiteSpace and LineTerminator code points that String.prototype.trim removes. */
  predicate IsWhiteSpace(c: char) {
    c == ' ' || c == '\t' || c == '\n' || c == '\r' || c == '\U{B}' || c == '\U{C}' ||
    c == '\U{A0}' || c == '\U{1680}' || ('\U{2000}' <= c <= '\U{200A}') ||
    c == '\U{2028}' || c == '\U{2029}' || c == '\U{202F}' || c == '\U{205F}' ||
    c == '\U{3000}' || c == '\U{FEFF}'
  }

  function TrimStart(s: string): (r: string)
    ensures IsSuffix(r, s)
    ensures r == "" || !IsWhiteSpace(r[0])
    ensures forall i :: 0 <= i < |s| - |r| ==> IsWhiteSpace(s[i])
    decreases |s|
  {
    if s != "" && IsWhiteSpace(s[0]) then TrimStart(s[1..]) else s
  }

  function TrimEnd(s: string): (r: string)
    ensures IsPrefix(r, s)
    ensures r == "" || !IsWhiteSpace(r[|r| - 1])
    ensures forall i :: |r| <= i < |s| ==> IsWhiteSpace(s[i])
    decreases |s|
  {
    if s != "" && IsWhiteSpace(s[|s| - 1]) then TrimEnd(s[..|s| - 1]) else s
  }

  /** r is the slice of s at offset k, with nothing but whitespace around it. */
  predicate TrimmedAt(s: string, r: string, k: int) {
    0 <= k <= |s| - |r| && r == s[k..k + |r|] &&
    (forall i :: 0 <= i < k ==> IsWhiteSpace(s[i])) &&
    (forall i :: k + |r| <= i < |s| ==> IsWhiteSpace(s[i]))
  }

  /**
   * `s.trim()`: the text box counts as empty exactly when it holds only
   * whitespace; otherwise the trimmed text neither starts nor ends with it.
   */
  function Trim(s: string): (r: string)
    ensures r == "" <==> forall i :: 0 <= i < |s| ==> IsWhiteSpace(s[i])
    ensures r != "" ==> !IsWhiteSpace(r[0]) && !IsWhiteSpace(r[|r| - 1])
    ensures exists k :: TrimmedAt(s, r, k)
  {
    var t := TrimStart(s);
    var r := TrimEnd(t);
    assert r == "" ==> forall i :: 0 <= i < |s| ==> IsWhiteSpace(s[i]) by {
      if r == "" {
        assert t == "";
      }
    }
    assert r != "" ==> 0 < |t| && !IsWhiteSpace(s[|s| - |t|]) by {
      if r != "" {
        assert r[0] == t[0];
        assert t[0] == s[|s| - |t|];
      }
    }
    var k := |s| - |t|;
    assert TrimmedAt(s, r, k);
    r
  }

  // ---------------------------------------------------------------------
  // The text question
  // ---------------------------------------------------------------------

  const SyncingPlaceholder: string := "Syncing..."
  const PendingAnswerPlaceholder: string := "답변 준비 중..."

  const PromptOpening: string := "[Q]: \""
  const PromptClosing: string := "\" 이 질문에 대해 영어로 대답해줘."

  /** The instruction sent for a typed question: answer the quoted question in English. */
  function QuestionPrompt(query: string): string {
    PromptOpening + query + PromptClosing
  }

  /** The prompt opens with the marker and quote, carries the question verbatim, and closes with the instruction. */
  lemma QuestionPromptQuotesQuery(query: string)
    ensures var prompt := QuestionPrompt(query);
            |prompt| == |PromptOpening| + |query| + |PromptClosing| &&
            IsPrefix(PromptOpening, prompt) && IsSuffix(PromptClosing, prompt) &&
            prompt[|PromptOpening|..|PromptOpening| + |query|] == query
  {
  }
}
