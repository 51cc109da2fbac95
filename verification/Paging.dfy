/** `read_source_code`: a file read window by window, in whole lines. */
module Paging {
  import Envelope

  const WINDOW := 3200

  // ----------------------------------------------------- splitlines(keepends=True)

  predicate IsBreak(c: char) {
    c as int in {10, 11, 12, 13, 0x1c, 0x1d, 0x1e, 0x85, 0x2028, 0x2029}
  }

  /** The length of the first line, its line break included; CR LF is one break. */
  function LineLength(text: string): (n: nat)
    requires text != ""
    ensures 1 <= n <= |text|
  {
    if IsBreak(text[0]) then (if text[0] == '\r' && |text| > 1 && text[1] == '\n' then 2 else 1)
    else if |text| == 1 then 1
    else 1 + LineLength(text[1..])
  }

  function Lines(text: string): (lines: seq<string>)
    ensures forall i :: 0 <= i < |lines| ==> lines[i] != ""
  {
    if text == "" then []
    else [text[..LineLength(text)]] + Lines(text[LineLength(text)..])
  }

  function Join(lines: seq<string>): string {
    if lines == [] then "" else lines[0] + Join(lines[1..])
  }

  lemma {:induction false} LinesJoinToText(text: string)
    ensures Join(Lines(text)) == text
  {
    if text != "" {
      var n := LineLength(text);
      LinesJoinToText(text[n..]);
      var lines := Lines(text);
      assert lines[0] == text[..n] && lines[1..] == Lines(text[n..]);
    }
  }

  /** A line is everything up to and including its break, and nothing more. */
  predicate WholeLine(line: string, isLast: bool) {
    && line != ""
    && (isLast || IsBreak(line[|line| - 1]))
    && forall i :: 0 <= i < |line| - 1 ==>
         !IsBreak(line[i]) || (i == |line| - 2 && line[i] == '\r' && line[i + 1] == '\n')
  }

  lemma {:induction false} FirstLineIsWhole(text: string)
    requires text != ""
    ensures WholeLine(text[..LineLength(text)], LineLength(text) == |text|)
  {
    if !IsBreak(text[0]) && |text| > 1 {
      FirstLineIsWhole(text[1..]);
      var n := LineLength(text);
      var line, rest := text[..n], text[1..][..n - 1];
      assert rest == line[1..];
      forall i | 0 <= i < |line| - 1
        ensures !IsBreak(line[i]) || (i == |line| - 2 && line[i] == '\r' && line[i + 1] == '\n')
      {
        assert i > 0 ==> rest[i - 1] == line[i] && rest[i] == line[i + 1];
      }
    }
  }

  lemma {:induction false} LinesAreWhole(text: string, k: nat)
    requires k < |Lines(text)|
    ensures WholeLine(Lines(text)[k], k == |Lines(text)| - 1)
  {
    var n := LineLength(text);
    FirstLineIsWhole(text);
    if k > 0 {
      LinesAreWhole(text[n..], k - 1);
    }
  }

  lemma {:induction false} JoinSplit(lines: seq<string>, k: nat)
    requires k <= |lines|
    ensures Join(lines) == Join(lines[..k]) + Join(lines[k..])
  {
    if k > 0 {
      JoinSplit(lines[1..], k - 1);
      assert lines[..k][1..] == lines[1..][..k - 1];
    }
  }

  lemma JoinOneMore(lines: seq<string>, from: nat, index: nat)
    requires from <= index < |lines|
    ensures Join(lines[from..index + 1]) == Join(lines[from..index]) + lines[index]
  {
    var longer := lines[from..index + 1];
    JoinSplit(longer, index - from);
    assert longer[..index - from] == lines[from..index] && longer[index - from..] == [lines[index]];
    assert [lines[index]][1..] == [];
  }

  // ------------------------------------------------------------------- one window

  /** Where the window that starts at line index `from` ends, once it has reached `index`. */
  function Grow(lines: seq<string>, from: nat, index: nat): (end: nat)
    requires from <= index <= |lines|
    ensures index <= end <= |lines|
    decreases |lines| - index
  {
    if index == |lines| || (index > from && |Join(lines[from..index])| + |lines[index]| > WINDOW) then index
    else Grow(lines, from, index + 1)
  }

  /** As many whole lines as fit, and always at least one. */
  ghost predicate IsWindow(lines: seq<string>, from: nat, end: nat) {
    && from < end <= |lines|
    && (|Join(lines[from..end])| <= WINDOW || end == from + 1)
    && (end < |lines| ==> |Join(lines[from..end + 1])| > WINDOW)
  }

  lemma {:induction false} GrowIsWindow(lines: seq<string>, from: nat, index: nat)
    requires from <= index <= |lines| && from < |lines|
    requires index > from ==> |Join(lines[from..index])| <= WINDOW || index == from + 1
    ensures IsWindow(lines, from, Grow(lines, from, index))
    decreases |lines| - index
  {
    if index < |lines| {
      JoinOneMore(lines, from, index);
      if index == from || |Join(lines[from..index])| + |lines[index]| <= WINDOW {
        GrowIsWindow(lines, from, index + 1);
      }
    }
  }

  function Window(lines: seq<string>, from: nat): (end: nat)
    requires from < |lines|
    ensures IsWindow(lines, from, end)
  {
    GrowIsWindow(lines, from, from);
    Grow(lines, from, from)
  }

  datatype Reply = BadStartLine | Page(content: string, startLine: int, endLine: int, totalLines: nat, hasMore: bool)

  function PageAt(lines: seq<string>, from: nat): Reply
    requires from < |lines|
  {
    var end := Window(lines, from);
    Page(Join(lines[from..end]), from + 1, end, |lines|, end < |lines|)
  }

  /** `text` is the decoded file. */
  method ReadSource(text: string, firstLine: int) returns (reply: Reply)
    ensures firstLine < 1 ==> reply == BadStartLine
    ensures firstLine >= 1 && firstLine > |Lines(text)| ==>
              reply == Page("", firstLine, |Lines(text)|, |Lines(text)|, false)
    ensures 1 <= firstLine <= |Lines(text)| ==> reply == PageAt(Lines(text), firstLine - 1)
  {
    if firstLine < 1 {
      return BadStartLine;
    }
    var lines := Lines(text);
    if firstLine > |lines| {
      return Page("", firstLine, |lines|, |lines|, false);
    }
    var from := firstLine - 1;
    var index, window, size := from, [], 0;
    while index < |lines|
      invariant from <= index <= |lines| && window == lines[from..index] && size == |Join(window)|
      invariant Grow(lines, from, index) == Grow(lines, from, from)
    {
      var line := lines[index];
      if window != [] && size + |line| > WINDOW {
        break;
      }
      JoinOneMore(lines, from, index);
      window := window + [line];
      size := size + |line|;
      index := index + 1;
    }
    assert index == Window(lines, from);
    reply := Page(Join(window), firstLine, firstLine + |window| - 1, |lines|, index < |lines|);
  }

  // -------------------------------------------------------------- following pages

  /** The pages a reader gets from `from` on by asking for `endLine + 1` while there is more. */
  function Pages(lines: seq<string>, from: nat): seq<Reply>
    requires from <= |lines|
    decreases |lines| - from
  {
    if from == |lines| then [] else [PageAt(lines, from)] + Pages(lines, Window(lines, from))
  }

  function Contents(pages: seq<Reply>): string {
    if pages == [] then "" else (if pages[0].Page? then pages[0].content else "") + Contents(pages[1..])
  }

  lemma {:induction false} PagesJoin(lines: seq<string>, from: nat)
    requires from <= |lines|
    ensures Contents(Pages(lines, from)) == Join(lines[from..])
    decreases |lines| - from
  {
    if from < |lines| {
      var end := Window(lines, from);
      PagesJoin(lines, end);
      JoinSplit(lines[from..], end - from);
      assert lines[from..][..end - from] == lines[from..end] && lines[from..][end - from..] == lines[end..];
    }
  }

  /** Each page starts right after the one before, the last one ends at the last line. */
  ghost predicate Contiguous(pages: seq<Reply>, from: nat, total: nat) {
    && (forall i :: 0 <= i < |pages| ==>
          pages[i].Page? && pages[i].startLine <= pages[i].endLine && pages[i].totalLines == total)
    && (pages == [] ==> from == total)
    && (pages != [] ==> pages[0].startLine == from + 1 && pages[|pages| - 1].endLine == total)
    && (forall i :: 0 <= i < |pages| - 1 ==> pages[i + 1].startLine == pages[i].endLine + 1)
    && (forall i :: 0 <= i < |pages| ==> (pages[i].hasMore <==> i < |pages| - 1))
  }

  lemma {:induction false} PagesContiguous(lines: seq<string>, from: nat)
    requires from <= |lines|
    ensures Contiguous(Pages(lines, from), from, |lines|)
    decreases |lines| - from
  {
    if from < |lines| {
      PagesContiguous(lines, Window(lines, from));
    }
  }

  /**
    Paging round trip: following the pages from line 1 covers every line exactly once, in
    order, and the contents concatenate to the whole file.
  */
  lemma PagingRoundTrip(text: string)
    ensures var pages := Pages(Lines(text), 0);
            Contents(pages) == text && Contiguous(pages, 0, |Lines(text)|)
  {
    PagesJoin(Lines(text), 0);
    PagesContiguous(Lines(text), 0);
    LinesJoinToText(text);
    assert Lines(text)[0..] == Lines(text);
  }

  /** Two consecutive windows together exceed one window. */
  lemma NeighboursExceed(lines: seq<string>, from: nat)
    requires from < |lines| && Window(lines, from) < |lines|
    ensures |PageAt(lines, from).content| + |PageAt(lines, Window(lines, from)).content| > WINDOW
  {
    var mid := Window(lines, from);
    var end := Window(lines, mid);
    JoinOneMore(lines, from, mid);
    var next := lines[mid..end];
    assert next[0] == lines[mid];
    assert |Join(next)| >= |lines[mid]|;
  }

  lemma {:induction false} PairsOfPages(lines: seq<string>, from: nat)
    requires from <= |lines|
    ensures |Contents(Pages(lines, from))| >= (WINDOW + 1) * (|Pages(lines, from)| / 2)
    decreases |lines| - from
  {
    if from < |lines| && Window(lines, from) < |lines| {
      var mid := Window(lines, from);
      var end := Window(lines, mid);
      NeighboursExceed(lines, from);
      PairsOfPages(lines, end);
      var rest, tail := Pages(lines, mid), Pages(lines, end);
      assert rest == [PageAt(lines, mid)] + tail;
      assert Pages(lines, from)[1..] == rest && rest[1..] == tail;
      assert |Pages(lines, from)| / 2 == |tail| / 2 + 1;
    }
  }

  const MAX_SOURCE := 50_000

  /** A file takes at most one read more than two per 3,201 characters: 31 for the largest one allowed. */
  lemma ReadsBounded(text: string)
    ensures |Pages(Lines(text), 0)| <= 2 * (|text| / (WINDOW + 1)) + 1
    ensures |text| <= MAX_SOURCE ==> |Pages(Lines(text), 0)| <= 31
  {
    PagingRoundTrip(text);
    PairsOfPages(Lines(text), 0);
    var n := |Pages(Lines(text), 0)|;
    assert |text| >= 3201 * (n / 2);
    assert n / 2 <= |text| / 3201;
  }

  // ------------------------------------------------------ arriving at the model

  lemma {:induction false} JoinAtLeast(lines: seq<string>, k: nat)
    requires k < |lines|
    ensures |Join(lines)| >= |lines[k]|
  {
    if k > 0 {
      JoinAtLeast(lines[1..], k - 1);
    }
  }

  /** The envelope's cap on strings does not cut this page's content. */
  predicate ArrivesWhole(page: Reply, depth: nat) {
    page.Page? ==> Envelope.Bounded(Envelope.Str(page.content), depth) == Envelope.Str(page.content)
  }

  lemma PageArrivesWhole(lines: seq<string>, from: nat, depth: nat)
    requires from < |lines| && depth <= 10
    ensures ArrivesWhole(PageAt(lines, from), depth)
            <==> forall k :: from <= k < Window(lines, from) ==> |lines[k]| <= 4000
  {
    var end := Window(lines, from);
    forall k | from <= k < end
      ensures |Join(lines[from..end])| >= |lines[k]|
    {
      JoinAtLeast(lines[from..end], k - from);
    }
    JoinOneMore(lines, from, from);
    assert lines[from..from] == [];
  }

  /** Every page reaches the model uncut exactly when no line is longer than the cap of 4,000 characters. */
  lemma {:induction false} PagesArriveWhole(lines: seq<string>, from: nat, depth: nat)
    requires from <= |lines| && depth <= 10
    ensures (forall i :: 0 <= i < |Pages(lines, from)| ==> ArrivesWhole(Pages(lines, from)[i], depth))
            <==> (forall k :: from <= k < |lines| ==> |lines[k]| <= 4000)
    decreases |lines| - from
  {
    if from < |lines| {
      var pages, rest := Pages(lines, from), Pages(lines, Window(lines, from));
      PagesArriveWhole(lines, Window(lines, from), depth);
      PageArrivesWhole(lines, from, depth);
      assert pages[0] == PageAt(lines, from) && forall i :: 0 <= i < |rest| ==> pages[i + 1] == rest[i];
      assert forall i :: 1 <= i < |pages| ==> pages[i] == rest[i - 1];
    }
  }
}
