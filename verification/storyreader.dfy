/**
 * The picture-book reader of src/StoryReader.jsx (and its typed twin
 * src/StoryReader.tsx, which has the same logic): the fallback story, the
 * reading-progress percentage, the set of characters tapped so far, and
 * the debounced read-aloud that keeps at most one utterance pending.
 */
module StoryReader {
  import opened Wrappers
  import opened Data

  /** A story as handed in by the caller: it may be missing, or lack pages. */
  datatype RawStory = RawStory(title: string, pages: Option<seq<Page>>)

  const FallbackStory: Story := Story("未找到故事", [Page("", "暂无内容")])

  /** `validStory`: the story itself when it has a `pages` field, else a
      one-page placeholder. An empty page list is kept as it is, so the
      reader has a page exactly unless such a list was given. */
  function ValidStory(story: Option<RawStory>): (r: Story)
    ensures |r.pages| > 0 <==>
              (story.None? || story.value.pages.None? || |story.value.pages.value| > 0)
    ensures story.Some? && story.value.pages.Some? ==>
              r.title == story.value.title && r.pages == story.value.pages.value
    ensures (story.None? || story.value.pages.None?) ==>
              |r.pages| == 1 && r.pages[0].text == "暂无内容"
  {
    if story.Some? && story.value.pages.Some? then Story(story.value.title, story.value.pages.value)
    else FallbackStory
  }

  /** `totalChars`: the left fold adding the length of every page text. */
  function TotalChars(pages: seq<Page>): (r: nat)
    ensures pages == [] ==> r == 0
    ensures |pages| > 0 ==> r >= |pages[|pages| - 1].text|
  {
    if pages == [] then 0 else TotalChars(pages[..|pages| - 1]) + |pages[|pages| - 1].text|
  }

  /** The tappable positions (page, character) of row `p` with `m` characters. */
  function Row(p: int, m: nat): (r: set<(int, int)>)
    ensures forall q, c :: (q, c) in r <==> q == p && 0 <= c < m
    ensures |r| == m
  {
    if m == 0 then {} else Row(p, m - 1) + {(p, m - 1)}
  }

  /** Every position a reader can tap: one per character of every page. */
  function Positions(pages: seq<Page>): (r: set<(int, int)>)
    ensures forall p, c :: (p, c) in r <==> 0 <= p < |pages| && 0 <= c < |pages[p].text|
  {
    if pages == [] then {}
    else
      var init := pages[..|pages| - 1];
      assert forall p :: 0 <= p < |init| ==> init[p] == pages[p];
      Positions(init) + Row(|pages| - 1, |pages[|pages| - 1].text|)
  }

  /** There are exactly `totalChars` positions, so a full reading is 100%. */
  lemma {:induction false} PositionsCount(pages: seq<Page>)
    ensures |Positions(pages)| == TotalChars(pages)
  {
    if pages != [] {
      var init := pages[..|pages| - 1];
      var row := Row(|pages| - 1, |pages[|pages| - 1].text|);
      PositionsCount(init);
      assert Positions(init) * row == {} by {
        forall x | x in Positions(init) ensures x !in row {
          assert x.0 < |init|;
        }
      }
      assert Positions(pages) == Positions(init) + row;
    }
  }

  /** `Math.round(k / t * 100)` for `t > 0`, and 0 otherwise: the percentage
      closest to `k / t`, halves rounded up. */
  function Progress(k: nat, t: nat): (r: int)
    ensures t == 0 ==> r == 0
    ensures t > 0 ==> r * (2 * t) <= 200 * k + t < (r + 1) * (2 * t)
  {
    if t > 0 then (200 * k + t) / (2 * t) else 0
  }

  /** The bar never leaves 0..100 while at most `t` characters are read. */
  lemma ProgressBounds(k: nat, t: nat)
    requires k <= t
    ensures 0 <= Progress(k, t) <= 100
    ensures k == 0 ==> Progress(k, t) == 0
    ensures k == t && t > 0 ==> Progress(k, t) == 100
  {
    if t > 0 {
      var r := Progress(k, t);
      // r * 2t <= 200k + t <= 201t < 101 * 2t
      if r >= 101 {
        MulMono(101, r, 2 * t);
      }
      if r < 0 {
        MulMono(r + 1, 0, 2 * t);
      }
      if k == t && r <= 99 {
        MulMono(r + 1, 100, 2 * t);
      }
      if k == 0 && r >= 1 {
        MulMono(1, r, 2 * t);
      }
    }
  }

  /** Reading one more character never makes the bar go back. */
  lemma ProgressMonotone(k1: nat, k2: nat, t: nat)
    requires k1 <= k2
    ensures Progress(k1, t) <= Progress(k2, t)
  {
  }

  lemma MulMono(x: int, y: int, c: nat)
    requires x <= y
    ensures x * c <= y * c
  {
  }

  /** Punctuation and blanks are not read aloud. */
  const SilentMarks: seq<string> := ["，", "。", "！", "？", "“", "”", "：", " "]

  /** A pending `setTimeout` of `speak`, with the text it will say. */
  datatype PlayTimer = PlayTimer(handle: nat, text: string)

  class Reader {
    const story: Story
    var pageIndex: nat
    var readIds: set<(int, int)>
    var playTimer: Option<nat>
    var pending: seq<PlayTimer>
    var nextHandle: nat
    /** The utterance the speech engine is saying, if any. */
    var speaking: Option<string>

    /** A page is showing, every read mark names a real character, and at
        most one utterance waits, the one the ref can cancel. */
    predicate Valid()
      reads this
    {
      && 0 < |story.pages|
      && pageIndex < |story.pages|
      && readIds <= Positions(story.pages)
      && |pending| <= 1
      && (|pending| == 1 ==> playTimer == Some(pending[0].handle))
    }

    /** `progress` (src/StoryReader.jsx:30). */
    function Percent(): (r: int)
      reads this
      requires Valid()
      ensures 0 <= r <= 100
      ensures readIds == Positions(story.pages) && TotalChars(story.pages) > 0 ==> r == 100
      ensures readIds == {} ==> r == 0
    {
      var t := TotalChars(story.pages);
      PositionsCount(story.pages);
      SubsetCard(readIds, Positions(story.pages));
      ProgressBounds(|readIds|, t);
      Progress(|readIds|, t)
    }

    /** Mounting the reader on `story`. It renders its first page at once,
        so it needs a page to show. */
    constructor (raw: Option<RawStory>)
      requires |ValidStory(raw).pages| > 0
      ensures story == ValidStory(raw) && pageIndex == 0 && readIds == {}
      ensures playTimer.None? && pending == [] && speaking.None?
      ensures Valid()
    {
      story := ValidStory(raw);
      pageIndex := 0;
      readIds := {};
      playTimer := None;
      pending := [];
      nextHandle := 1;
      speaking := None;
    }

    /** `speak` (src/StoryReader.jsx:41-57): punctuation is skipped;
        otherwise the engine stops, the previous pending utterance is
        cancelled and a new one is scheduled 50 ms later. */
    method Speak(text: string)
      requires Valid()
      modifies this`speaking, this`playTimer, this`pending, this`nextHandle
      ensures Valid()
      ensures text in SilentMarks ==>
                speaking == old(speaking) && playTimer == old(playTimer)
                && pending == old(pending) && nextHandle == old(nextHandle)
      ensures text !in SilentMarks ==>
                && speaking.None? && pending == [PlayTimer(old(nextHandle), text)]
                && playTimer == Some(old(nextHandle)) && nextHandle == old(nextHandle) + 1
    {
      if text in SilentMarks {
        return;
      }
      speaking := None;
      if playTimer.Some? {
        pending := ClearTimeout(pending, playTimer.value);
      }
      var h := nextHandle;
      nextHandle := nextHandle + 1;
      pending := pending + [PlayTimer(h, text)];
      playTimer := Some(h);
    }

    /** The 50 ms timer runs: the engine starts the utterance. The ref keeps
        the spent handle. */
    method FirePlay()
      requires Valid() && |pending| > 0
      modifies this`speaking, this`pending
      ensures Valid()
      ensures speaking == Some(old(pending[0].text)) && pending == []
    {
      speaking := Some(pending[0].text);
      pending := [];
    }

    /** `handleCharClick` (src/StoryReader.jsx:60-69): the character is read
        aloud and its position marked read; marks are kept across pages. */
    method HandleCharClick(cIndex: nat)
      requires Valid() && cIndex < |story.pages[pageIndex].text|
      modifies this`speaking, this`playTimer, this`pending, this`nextHandle, this`readIds
      ensures Valid()
      ensures readIds == old(readIds) + {(pageIndex, cIndex)}
      ensures var ch := [story.pages[pageIndex].text[cIndex]];
              if ch in SilentMarks then pending == old(pending) && speaking == old(speaking)
              else pending == [PlayTimer(old(nextHandle), ch)] && speaking.None?
      ensures old(Percent()) <= Percent()
    {
      Speak([story.pages[pageIndex].text[cIndex]]);
      readIds := readIds + {(pageIndex, cIndex)};
      SubsetCard(old(readIds), readIds);
      ProgressMonotone(|old(readIds)|, |readIds|, TotalChars(story.pages));
    }

    /** `handlePrev` (src/StoryReader.jsx:72-75). */
    method HandlePrev()
      requires Valid()
      modifies this`pageIndex
      ensures Valid()
      ensures pageIndex == if old(pageIndex) > 0 then old(pageIndex) - 1 else 0
    {
      if pageIndex > 0 {
        pageIndex := pageIndex - 1;
      }
    }

    /** `handleNext` (src/StoryReader.jsx:77-84): turns the page, or on the
        last page hands control back (`onBack`). */
    method HandleNext() returns (back: bool)
      requires Valid()
      modifies this`pageIndex
      ensures Valid()
      ensures back <==> old(pageIndex) == |story.pages| - 1
      ensures back ==> pageIndex == old(pageIndex)
      ensures !back ==> pageIndex == old(pageIndex) + 1
    {
      if pageIndex < |story.pages| - 1 {
        pageIndex := pageIndex + 1;
        back := false;
      } else {
        back := true;
      }
    }

    /** The unmount cleanup (src/StoryReader.jsx:33-38): speech stops and a
        waiting utterance never starts. */
    method Unmount()
      requires Valid()
      modifies this`speaking, this`pending
      ensures speaking.None? && pending == []
    {
      speaking := None;
      if playTimer.Some? {
        pending := ClearTimeout(pending, playTimer.value);
      }
    }
  }

  /** `clearTimeout(handle)` on the pending list. */
  function ClearTimeout(pending: seq<PlayTimer>, handle: nat): (r: seq<PlayTimer>)
    ensures forall t :: t in r <==> t in pending && t.handle != handle
    ensures |r| <= |pending|
  {
    if pending == [] then []
    else (if pending[0].handle == handle then [] else [pending[0]]) + ClearTimeout(pending[1..], handle)
  }

  lemma SubsetCard<T>(a: set<T>, b: set<T>)
    requires a <= b
    ensures |a| <= |b|
  {
    assert b == a + (b - a);
  }
}
