/**
 * One character card of src/FlashCard.jsx: flipping, reading a character
 * aloud, the "learned" star, the pronunciation check through speech
 * recognition, and the two timers it starts (the 500 ms reward flip and the
 * 2 s highlight of a tapped character). The speech engines are outside the
 * model: what the card asks them to say is logged in `spoken`, and what the
 * recognizer reports arrives through the `On...` methods.
 */
module FlashCard {
  import opened Wrappers
  import opened Data

  const TryAgain: string := "好像不对哦，再试一次"
  const SpeakUp: string := "没听清，请大声一点"
  const WellRead: string := "读对啦！真棒！"
  const IntoTreasureBox: string := "太棒了！放入宝藏箱！"

  /** `haystack.includes(needle)`, scanning start positions left to right. */
  function Includes(haystack: string, needle: string): bool {
    needle <= haystack || (haystack != [] && Includes(haystack[1..], needle))
  }

  /** `needle` occurs in `haystack` starting at index `i`. */
  predicate OccursAt(haystack: string, needle: string, i: int) {
    0 <= i && i + |needle| <= |haystack| && haystack[i..i + |needle|] == needle
  }

  /** The scan finds the needle exactly when it occurs somewhere. */
  lemma {:induction false} IncludesIff(haystack: string, needle: string)
    ensures Includes(haystack, needle) <==> exists i :: OccursAt(haystack, needle, i)
  {
    if Includes(haystack, needle) {
      var i := IncludesWitness(haystack, needle);
    }
    if exists i :: OccursAt(haystack, needle, i) {
      var i :| OccursAt(haystack, needle, i);
      IncludesFromOccurrence(haystack, needle, i);
    }
  }

  lemma {:induction false} IncludesWitness(haystack: string, needle: string) returns (i: int)
    requires Includes(haystack, needle)
    ensures OccursAt(haystack, needle, i)
  {
    if needle <= haystack {
      i := 0;
    } else {
      var k := IncludesWitness(haystack[1..], needle);
      assert haystack[1..][k..k + |needle|] == haystack[k + 1..k + 1 + |needle|];
      i := k + 1;
    }
  }

  lemma {:induction false} IncludesFromOccurrence(haystack: string, needle: string, i: int)
    requires OccursAt(haystack, needle, i)
    ensures Includes(haystack, needle)
  {
    if i > 0 {
      assert haystack[1..][i - 1..i - 1 + |needle|] == haystack[i..i + |needle|];
      IncludesFromOccurrence(haystack[1..], needle, i - 1);
    } else {
      assert needle <= haystack;
    }
  }

  /** `${data.id}-${wIndex}-${cIndex}`: which character of which word is lit. */
  datatype CharKey = CharKey(cardId: int, word: nat, position: nat)

  /** The card's own `setTimeout` callbacks. */
  datatype CardTimer =
    | ClearHighlight   // src/FlashCard.jsx:84, after 2000 ms
    | RewardFlip       // src/FlashCard.jsx:66-68, after 500 ms

  class Card {
    const data: Character
    /** The parent passed `onClick`: in the challenge a tap answers instead of flipping. */
    const delegates: bool
    var isFlipped: bool
    var isListening: bool
    var activeCharId: Option<CharKey>
    var recognitionCreated: bool
    var timers: seq<CardTimer>
    var spoken: seq<string>

    constructor (d: Character, hasOnClick: bool)
      ensures data == d && delegates == hasOnClick
      ensures !isFlipped && !isListening && activeCharId.None? && !recognitionCreated
      ensures timers == [] && spoken == []
    {
      data := d;
      delegates := hasOnClick;
      isFlipped := false;
      isListening := false;
      activeCharId := None;
      recognitionCreated := false;
      timers := [];
      spoken := [];
    }

    /** `speak` as rendered (src/FlashCard.jsx:15-23): silent while the
        microphone is open. */
    method Speak(text: string)
      modifies this`spoken
      ensures isListening ==> spoken == old(spoken)
      ensures !isListening ==> spoken == old(spoken) + [text]
    {
      if isListening {
        return;
      }
      spoken := spoken + [text];
    }

    /** `speak` as seen by the recognizer's handlers. They are built once,
        on the first microphone tap, while the microphone was still closed,
        so their copy of `speak` always talks. */
    method SpeakFromRecognizer(text: string)
      modifies this`spoken
      ensures spoken == old(spoken) + [text]
    {
      spoken := spoken + [text];
    }

    /** `handleFlip` (src/FlashCard.jsx:72-77): in the challenge the tap is
        handed to the parent; otherwise, unless the microphone is open, the
        card turns over and the character is read when the front was up. */
    method HandleFlip() returns (delegated: bool)
      modifies this`isFlipped, this`spoken
      ensures delegated <==> delegates
      ensures (delegates || isListening) ==> isFlipped == old(isFlipped) && spoken == old(spoken)
      ensures !delegates && !isListening ==>
                && isFlipped == !old(isFlipped)
                && spoken == old(spoken) + (if old(isFlipped) then [] else [data.glyph])
    {
      if delegates {
        return true;
      }
      delegated := false;
      if isListening {
        return;
      }
      if !isFlipped {
        Speak(data.glyph);
      }
      isFlipped := !isFlipped;
    }

    /** `handleCharClick` (src/FlashCard.jsx:79-85): the tapped character of
        an example word lights up, is read, and a 2 s timer unlights
        whatever is lit then. */
    method HandleCharClick(word: nat, position: nat)
      requires word < |data.words| && position < |data.words[word]|
      modifies this`activeCharId, this`spoken, this`timers
      ensures activeCharId == Some(CharKey(data.id, word, position))
      ensures !isListening ==> spoken == old(spoken) + [[data.words[word][position]]]
      ensures isListening ==> spoken == old(spoken)
      ensures timers == old(timers) + [ClearHighlight]
    {
      activeCharId := Some(CharKey(data.id, word, position));
      Speak([data.words[word][position]]);
      timers := timers + [ClearHighlight];
    }

    /** `handleLearnClick` (src/FlashCard.jsx:89-93): always asks the parent
        to toggle the mark, and praises a character that was not yet
        learned. */
    method HandleLearnClick(isLearned: bool) returns (toggle: bool)
      modifies this`spoken
      ensures toggle
      ensures !isLearned && !isListening ==> spoken == old(spoken) + [IntoTreasureBox]
      ensures isLearned || isListening ==> spoken == old(spoken)
    {
      toggle := true;
      if !isLearned {
        Speak(IntoTreasureBox);
      }
    }

    /** `startListening` (src/FlashCard.jsx:26-62): without a recognizer in
        the browser an alert is shown; otherwise the recognizer is created on
        first use and started. */
    method StartListening(supported: bool) returns (alerted: bool)
      modifies this`recognitionCreated
      ensures alerted <==> !supported
      ensures !supported ==> recognitionCreated == old(recognitionCreated)
      ensures supported ==> recognitionCreated
    {
      if !supported {
        return true;
      }
      alerted := false;
      recognitionCreated := true;
    }

    /** `recognition.onstart` / `onend` (src/FlashCard.jsx:42-43). */
    method OnStart()
      requires recognitionCreated
      modifies this`isListening
      ensures isListening
    {
      isListening := true;
    }

    method OnEnd()
      requires recognitionCreated
      modifies this`isListening
      ensures !isListening
    {
      isListening := false;
    }

    /** `recognition.onresult` (src/FlashCard.jsx:45-52): the answer counts
        when the transcript contains the character anywhere. */
    method OnResult(transcript: string)
      requires recognitionCreated
      modifies this`spoken, this`timers
      ensures (exists i :: OccursAt(transcript, data.glyph, i)) ==>
                spoken == old(spoken) + [WellRead] && timers == old(timers) + [RewardFlip]
      ensures (forall i :: !OccursAt(transcript, data.glyph, i)) ==>
                spoken == old(spoken) + [TryAgain] && timers == old(timers)
    {
      IncludesIff(transcript, data.glyph);
      if Includes(transcript, data.glyph) {
        HandleCorrectPronunciation();
      } else {
        SpeakFromRecognizer(TryAgain);
      }
    }

    /** `recognition.onerror` (src/FlashCard.jsx:54-57). */
    method OnError()
      requires recognitionCreated
      modifies this`isListening, this`spoken
      ensures !isListening && spoken == old(spoken) + [SpeakUp]
    {
      isListening := false;
      SpeakFromRecognizer(SpeakUp);
    }

    /** `handleCorrectPronunciation` (src/FlashCard.jsx:64-69): praise now,
        the card turns to its back half a second later. */
    method HandleCorrectPronunciation()
      modifies this`spoken, this`timers
      ensures spoken == old(spoken) + [WellRead] && timers == old(timers) + [RewardFlip]
    {
      SpeakFromRecognizer(WellRead);
      timers := timers + [RewardFlip];
    }

    /** A pending timer runs. The highlight timers are never cancelled, so
        an earlier tap's timer also unlights a later tap. */
    method FireTimer(k: nat)
      requires k < |timers|
      modifies this`timers, this`activeCharId, this`isFlipped
      ensures timers == old(timers[..k] + timers[k + 1..])
      ensures old(timers[k]) == ClearHighlight ==> activeCharId.None? && isFlipped == old(isFlipped)
      ensures old(timers[k]) == RewardFlip ==> isFlipped && activeCharId == old(activeCharId)
    {
      var t := timers[k];
      timers := timers[..k] + timers[k + 1..];
      match t
      case ClearHighlight => activeCharId := None;
      case RewardFlip => isFlipped := true;
    }
  }
}
