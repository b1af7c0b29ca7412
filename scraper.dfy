/**
 * The fallback branch of `WebScraper.summarize_content`, taken when no text
 * processor was supplied: split the content on whitespace, keep the first
 * `max_length` words joined by single spaces, and append "..." when words
 * were dropped.
 */
module Scraper {

  /** The characters Python's `str.split()` with no argument splits on (`str.isspace`). */
  predicate IsSpace(c: char)
  {
    || ('\U{0009}' <= c <= '\U{000D}') || ('\U{001C}' <= c <= '\U{001F}') || c == ' '
    || c == '\U{0085}' || c == '\U{00A0}' || c == '\U{1680}' || ('\U{2000}' <= c <= '\U{200A}')
    || c == '\U{2028}' || c == '\U{2029}' || c == '\U{202F}' || c == '\U{205F}' || c == '\U{3000}'
  }

  /** A word as `str.split()` yields it: non-empty, no whitespace inside. */
  predicate IsWord(w: string)
  {
    |w| > 0 && forall i :: 0 <= i < |w| ==> !IsSpace(w[i])
  }

  /** The length of the run of non-whitespace characters that starts `s`. */
  function WordLength(s: string): (n: nat)
    ensures n <= |s|
    ensures forall i :: 0 <= i < n ==> !IsSpace(s[i])
    ensures n < |s| ==> IsSpace(s[n])
  {
    if s == [] || IsSpace(s[0]) then 0 else 1 + WordLength(s[1..])
  }

  /** `str.split()` with no argument: the maximal runs of non-whitespace, in order. */
  function Split(s: string): (ws: seq<string>)
    ensures forall k :: 0 <= k < |ws| ==> IsWord(ws[k])
    decreases |s|
  {
    if s == [] then []
    else if IsSpace(s[0]) then Split(s[1..])
    else
      var n := WordLength(s);
      [s[..n]] + Split(s[n..])
  }

  /** `" ".join(ws)`. */
  function Join(ws: seq<string>): string
  {
    if ws == [] then ""
    else if |ws| == 1 then ws[0]
    else ws[0] + " " + Join(ws[1..])
  }

  /** Python's slice `ws[:k]`, where a negative `k` counts from the end. */
  function PyPrefix(ws: seq<string>, k: int): (r: seq<string>)
    ensures k >= 0 ==> r == ws[..if k < |ws| then k else |ws|]
  {
    if k >= 0 then ws[..if k < |ws| then k else |ws|]
    else ws[..if |ws| + k > 0 then |ws| + k else 0]
  }

  /** The fallback branch of `summarize_content`. */
  function Summarize(content: string, maxLength: int): string
  {
    var words := Split(content);
    Join(PyPrefix(words, maxLength)) + (if |words| > maxLength then "..." else "")
  }

  /** No leading, trailing or repeated whitespace; the only whitespace is a single ' ' between words. */
  predicate Normalized(s: string)
  {
    && (|s| > 0 ==> !IsSpace(s[0]) && !IsSpace(s[|s| - 1]))
    && forall i :: 0 <= i < |s| && IsSpace(s[i]) ==> s[i] == ' ' && i + 1 < |s| && !IsSpace(s[i + 1])
  }

  predicate AllWords(ws: seq<string>)
  {
    forall k :: 0 <= k < |ws| ==> IsWord(ws[k])
  }

  lemma {:induction false} WordLengthOfWord(w: string, rest: string)
    requires IsWord(w) && (rest == [] || IsSpace(rest[0]))
    ensures WordLength(w + rest) == |w|
    decreases |w|
  {
    if |w| > 1 {
      assert (w + rest)[1..] == w[1..] + rest;
      WordLengthOfWord(w[1..], rest);
    } else {
      assert (w + rest)[1..] == rest;
    }
  }

  /** A word followed by whitespace or the end splits off as the first word. */
  lemma SplitWord(w: string, rest: string)
    requires IsWord(w) && (rest == [] || IsSpace(rest[0]))
    ensures Split(w + rest) == [w] + Split(rest)
  {
    WordLengthOfWord(w, rest);
    assert (w + rest)[..|w|] == w;
    assert (w + rest)[|w|..] == rest;
  }

  lemma JoinNonEmpty(ws: seq<string>)
    requires AllWords(ws) && ws != []
    ensures |Join(ws)| > 0 && !IsSpace(Join(ws)[0])
  {
    if |ws| > 1 {
      assert Join(ws)[0] == ws[0][0];
    }
  }

  /** A leading space is skipped. */
  lemma SplitSpace(rest: string)
    ensures Split(" " + rest) == Split(rest)
  {
    assert (" " + rest)[1..] == rest;
  }

  /** Splitting the joined words gives the words back. */
  lemma {:induction false} SplitJoin(ws: seq<string>)
    requires AllWords(ws)
    ensures Split(Join(ws)) == ws
  {
    if |ws| == 1 {
      SplitWord(ws[0], "");
      assert ws[0] + "" == ws[0];
    } else if |ws| > 1 {
      var rest := Join(ws[1..]);
      var t := " " + rest;
      assert Join(ws) == ws[0] + t;
      SplitWord(ws[0], t);
      SplitSpace(rest);
      SplitJoin(ws[1..]);
      assert ws == [ws[0]] + ws[1..];
    }
  }

  /** Joined words carry no leading, trailing or repeated whitespace. */
  lemma {:induction false} JoinNormalized(ws: seq<string>)
    requires AllWords(ws)
    ensures Normalized(Join(ws))
  {
    if |ws| > 1 {
      var w, rest := ws[0], Join(ws[1..]);
      JoinNormalized(ws[1..]);
      JoinNonEmpty(ws[1..]);
      var s := w + " " + rest;
      assert Join(ws) == s;
      assert forall i :: 0 <= i < |w| ==> s[i] == w[i];
      forall i | 0 <= i < |s| && IsSpace(s[i])
        ensures s[i] == ' ' && i + 1 < |s| && !IsSpace(s[i + 1])
      {
        if i > |w| {
          assert s[i] == rest[i - |w| - 1];
          assert s[i + 1] == rest[i - |w|];
        }
      }
      assert s[|s| - 1] == rest[|rest| - 1];
    }
  }

  /** Appending to the joined text extends its last word. */
  lemma {:induction false} JoinExtendLast(ws: seq<string>, tail: string)
    requires ws != []
    ensures Join(ws) + tail == Join(ws[..|ws| - 1] + [ws[|ws| - 1] + tail])
  {
    var ws' := ws[..|ws| - 1] + [ws[|ws| - 1] + tail];
    if |ws| > 1 {
      JoinExtendLast(ws[1..], tail);
      assert ws'[0] == ws[0];
      assert ws'[1..] == ws[1..][..|ws[1..]| - 1] + [ws[1..][|ws[1..]| - 1] + tail];
    }
  }

  /**
   * The text before any suffix consists of the first `min(n, max_length)`
   * words of the content, one space between each, and "..." follows exactly
   * when the content has more than `max_length` words.
   */
  lemma SummarizeWords(content: string, maxLength: nat)
    ensures var words := Split(content);
            var kept := if maxLength < |words| then maxLength else |words|;
            exists joined ::
              && Summarize(content, maxLength) == joined + (if |words| > maxLength then "..." else "")
              && Split(joined) == words[..kept]
              && Normalized(joined)
  {
    var words := Split(content);
    var kept := if maxLength < |words| then maxLength else |words|;
    var joined := Join(words[..kept]);
    SplitJoin(words[..kept]);
    JoinNormalized(words[..kept]);
    assert PyPrefix(words, maxLength) == words[..kept];
    assert Summarize(content, maxLength) == joined + (if |words| > maxLength then "..." else "");
  }

  /** With at most `max_length` words the result is the whitespace-normalised content, with no suffix. */
  lemma ShortContentNormalised(content: string, maxLength: nat)
    requires |Split(content)| <= maxLength
    ensures Summarize(content, maxLength) == Join(Split(content))
    ensures Normalized(Summarize(content, maxLength))
    ensures Split(Summarize(content, maxLength)) == Split(content)
  {
    var words := Split(content);
    assert words[..|words|] == words;
    SplitJoin(words);
    JoinNormalized(words);
  }

  /** Content with no words gives the empty string (for a non-negative `max_length`). */
  lemma NoWordsEmpty(content: string, maxLength: nat)
    requires forall i :: 0 <= i < |content| ==> IsSpace(content[i])
    ensures Summarize(content, maxLength) == ""
  {
    OnlySpacesNoWords(content);
  }

  lemma {:induction false} OnlySpacesNoWords(s: string)
    requires forall i :: 0 <= i < |s| ==> IsSpace(s[i])
    ensures Split(s) == []
    decreases |s|
  {
    if s != [] {
      OnlySpacesNoWords(s[1..]);
    }
  }

  /** A word with "..." appended is still a word. */
  lemma AppendEllipsisWord(w: string)
    requires IsWord(w)
    ensures IsWord(w + "...")
  {
    var e := w + "...";
    forall i | 0 <= i < |e| ensures !IsSpace(e[i]) {
      if i >= |w| {
        assert e[i] == '.';
      } else {
        assert e[i] == w[i];
      }
    }
  }

  /** The kept words with "..." on the last one. */
  function Extended(pre: seq<string>): seq<string>
    requires pre != []
  {
    pre[..|pre| - 1] + [pre[|pre| - 1] + "..."]
  }

  lemma ExtendedAllWords(pre: seq<string>)
    requires pre != [] && AllWords(pre)
    ensures AllWords(Extended(pre))
  {
    var ext := Extended(pre);
    AppendEllipsisWord(pre[|pre| - 1]);
    forall k | 0 <= k < |ext| ensures IsWord(ext[k]) {
      if k < |pre| - 1 {
        assert ext[k] == pre[k];
      }
    }
  }

  /** A truncated summary is the kept words joined, then "...". */
  lemma TruncatedText(content: string, maxLength: nat)
    requires 0 < maxLength < |Split(content)|
    ensures Summarize(content, maxLength) == Join(Split(content)[..maxLength]) + "..."
  {
    assert PyPrefix(Split(content), maxLength) == Split(content)[..maxLength];
  }

  /** A truncated summary splits into the kept words, the last one carrying the "...". */
  lemma TruncatedSplit(content: string, maxLength: nat)
    requires 0 < maxLength < |Split(content)|
    ensures Split(Summarize(content, maxLength)) == Extended(Split(content)[..maxLength])
    ensures Join(Extended(Split(content)[..maxLength])) == Summarize(content, maxLength)
  {
    var pre := Split(content)[..maxLength];
    TruncatedText(content, maxLength);
    JoinExtendLast(pre, "...");
    ExtendedAllWords(pre);
    SplitJoin(Extended(pre));
  }

  /** Summarising a summary with the same limit changes nothing. */
  lemma SummarizeIdempotent(content: string, maxLength: nat)
    ensures Summarize(Summarize(content, maxLength), maxLength) == Summarize(content, maxLength)
  {
    var words := Split(content);
    if |words| <= maxLength {
      ShortIdempotent(content, maxLength);
    } else if maxLength == 0 {
      EllipsisOnly(content);
    } else {
      TruncatedIdempotent(content, maxLength);
    }
  }

  lemma ShortIdempotent(content: string, maxLength: nat)
    requires |Split(content)| <= maxLength
    ensures Summarize(Summarize(content, maxLength), maxLength) == Summarize(content, maxLength)
  {
    var words := Split(content);
    var r := Summarize(content, maxLength);
    ShortContentNormalised(content, maxLength);
    assert Split(r) == words;
    assert PyPrefix(words, maxLength) == words;
  }

  /** "..." is a single word. */
  lemma SplitEllipsis()
    ensures Split("...") == ["..."]
  {
    var e := "...";
    assert IsWord(e) by {
      forall i | 0 <= i < |e| ensures !IsSpace(e[i]) {
        assert e[i] == '.';
      }
    }
    SplitWord(e, "");
    assert e + "" == e;
  }

  /** With a zero limit any content that has words becomes "...", which is one word. */
  lemma EllipsisOnly(content: string)
    requires |Split(content)| > 0
    ensures Summarize(content, 0) == "..."
    ensures Summarize("...", 0) == "..."
  {
    assert Join(PyPrefix(Split(content), 0)) == "";
    SplitEllipsis();
    assert Join(PyPrefix(["..."], 0)) == "";
  }

  lemma TruncatedIdempotent(content: string, maxLength: nat)
    requires 0 < maxLength < |Split(content)|
    ensures Summarize(Summarize(content, maxLength), maxLength) == Summarize(content, maxLength)
  {
    var r := Summarize(content, maxLength);
    TruncatedSplit(content, maxLength);
    var ext := Split(r);
    assert |ext| == maxLength;
    assert PyPrefix(ext, maxLength) == ext;
    assert Summarize(r, maxLength) == Join(ext) + "";
  }

  /** As in Python, a negative `max_length` drops words from the end and always appends "...". */
  lemma NegativeLimit(content: string, maxLength: int)
    requires maxLength < 0
    ensures var words := Split(content);
            Summarize(content, maxLength)
              == Join(words[..if |words| + maxLength > 0 then |words| + maxLength else 0]) + "..."
  {
  }
}
