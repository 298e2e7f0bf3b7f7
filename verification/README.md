# Hanzi Wonderland — a verified model of the learning game's core

Hanzi Wonderland is a browser game that teaches Chinese characters to
children. It has a fixed curriculum of seventeen levels, each with four
character cards and a four-page picture book. A child plays a level like
this:

- open an unlocked level on a snake-shaped map;
- flip the cards and mark characters as learned, which puts them in a
  treasure box;
- play a listening challenge: find the card whose character was spoken;
- read the level's picture book, which unlocks the next level.

The treasure box can also compose a new picture book from two to four
chosen characters. The story service writes the book, and the book is kept
in a library of saved stories.

This project models that core in Dafny:

| file | models |
|---|---|
| `data.dfy` (`Data`) | the curriculum constants of `src/data.ts`, their well-formedness, `levels.find` |
| `shuffle.dfy` (`Shuffling`) | the random-comparator shuffle, as "some permutation" |
| `progression.dfy` (`Progression`) | the pure rules behind the controller: learn marks and treasures, marks seeded on level selection, unlocking, map badges, the saved-story filter |
| `maplayout.dfy` (`MapLayout`) | the snake-order index arithmetic of the map |
| `app.dfy` (`App`) | the session controller of `src/App.jsx` as a class, with pending timers, a speech log and a sound log |
| `storyreader.dfy` (`StoryReader`) | the picture-book reader of `src/StoryReader.jsx` / `src/StoryReader.tsx` |
| `magicgenerator.dfy` (`MagicGenerator`) | the character picker of `src/MagicGenerator.jsx` |
| `flashcard.dfy` (`FlashCard`) | one character card of `src/FlashCard.jsx` |

**State and timers.** Objects whose state changes in place are classes:
`App.Session`, `StoryReader.Reader`, `MagicGenerator.Generator` and
`FlashCard.Card`. Each handler is a method, and its contract states the
whole new state, in terms of the pure functions where there is one.

A `setTimeout` callback does not run inside the handler that schedules
it. It becomes an entry in a `timers` / `pending` field, and it takes
effect only when `Fire` / `FirePlay` / `FireTimer` runs it. Any pending
timer may be fired next. This allows every order the real deadlines
allow, and more.

**The two reader files.** `src/StoryReader.tsx` is a typed copy of
`src/StoryReader.jsx` with the same logic, a few lines earlier from the
unmount cleanup on: fallback 16-19 in both, total 26-28 and progress 30 in
both, cleanup 33-38 / 32-37, `speak` 41-57 / 39-56, `handleCharClick`
60-69 / 58-67, `handlePrev` 72-75 / 69-72, `handleNext` 77-84 / 74-81.
`StoryReader` models both; each row below cites one of the two.

**Effects.** Speech output and sound cues are recorded in logs (`speech`,
`sounds`, `spoken`), or as the utterance that is playing (`speaking`).
Outside inputs are parameters:

- the saved lists read at start-up;
- the clock;
- the answer to the delete confirmation;
- the recognizer's transcript;
- whether the browser has a recognizer;
- the generated story.

## Model

| member | source | states |
|---|---|---|
| Data.LevelsWellFormed | src/data.ts:32-962 | there are 17 levels; level at position i has id i+1, four characters with ids id*100+1..id*100+4, and a four-page story |
| Data.OnlyFirstLevelUnlocked | src/data.ts:32-962 | only the first level ships with status unlocked, every other level is locked |
| Data.CharacterIdsUnique | src/data.ts:32-962 | in a well-formed curriculum two character slots with the same id are the same slot |
| Data.FindLevel | src/App.jsx:144 | `levels.find` finds a level exactly when some level has that id, and what it finds is a level of the list with that id |
| Data.LevelExistsIff | src/App.jsx:143-145 | in a well-formed curriculum the "next level exists" test holds exactly for ids 1..number of levels |
| Data.AchievementThresholdsIncrease | src/data.ts:964-989 | achievement thresholds strictly increase (4, 8, 12) |
| Data.DailyCharactersAreFirstLevel | src/data.ts:992 | the daily characters are level 1's four characters |
| Shuffling.Shuffle | src/App.jsx:103-105 | the shuffled copy is a permutation of the input (same multiset, same length) |
| Progression.WithoutValue | src/App.jsx:80 | the filter removes every occurrence of the value and keeps every other element with its multiplicity; a list without the value is unchanged |
| Progression.WithoutId | src/App.jsx:81 | the filter removes every treasure with the id and keeps every other one with its multiplicity; nothing changes when no treasure has the id |
| Progression.WithoutIdRemovesAll | src/App.jsx:81 | after the filter no treasure has the id, and the presence of every other id is unchanged |
| Progression.ToggleLearned | src/App.jsx:78-89 | a marked character becomes unmarked and no treasure keeps its id; an unmarked one becomes marked and is in the collection; no other id changes in either list |
| Progression.ToggleLearnedAppends | src/App.jsx:84-87 | marking appends the id, and appends the character only when no treasure has its id |
| Progression.ToggleKeepsTreasuresUnique | src/App.jsx:78-89 | toggling keeps the collection unique by id |
| Progression.ToggleKeepsMarksDuplicateFree | src/App.jsx:78-89 | toggling keeps the learn marks duplicate-free, so the round trip applies after any earlier toggles |
| Progression.WithoutIdKeepsUnique | src/App.jsx:81 | removing by id keeps a collection unique by id |
| Progression.WithoutValueAppend | src/App.jsx:80 | the value filter distributes over concatenation |
| Progression.WithoutIdAppend | src/App.jsx:81 | the id filter distributes over concatenation |
| Progression.ToggleTwiceFromUnmarked | src/App.jsx:78-89 | toggling twice a character that was neither marked nor a treasure restores both lists exactly |
| Progression.ToggleTwiceFromMarked | src/App.jsx:78-89 | toggling twice a marked character whose record is a treasure restores both lists up to order (equal multisets), given duplicate-free marks and unique treasures |
| Progression.ToggleTwiceMovesToEnd | src/App.jsx:78-89 | the round trip from the marked side reorders: the id ends up last in the marks and the record last in the collection, after every treasure with that id is dropped |
| Progression.ToggleWithStaleMarksKeepsTreasure | src/App.jsx:78-89 | from the collection view, toggling a treasure whose id is not marked marks it and leaves the collection unchanged |
| Progression.TogglePreservesAgreement | src/App.jsx:78-89 | if "marked iff a treasure" held for an id before a toggle, it holds after |
| Progression.LearnedInLevel | src/App.jsx:95 | the seeded marks are exactly the ids of the level's characters that are treasures, at most one per character |
| Progression.LearnedInLevelNoDuplicates | src/App.jsx:95 | with unique character ids the seeded marks are duplicate-free |
| Progression.LearnedInLevelAppend | src/App.jsx:95 | the seeded marks follow level order (they distribute over splitting the level) |
| Progression.SelectionAgrees | src/App.jsx:93-96 | right after selection every character of the level is marked iff it is a treasure, which the exact toggle round trip needs |
| Progression.UnlockNext | src/App.jsx:143-147 | the unlocked list only grows, by at most the next id; the next id is in it iff it was already or the next level exists |
| Progression.UnlockNextPreserves | src/App.jsx:143-147 | after finishing an unlocked level the list stays duplicate-free and contiguous |
| Progression.UnlockNextIdempotent | src/App.jsx:143-147 | finishing the same story again leaves the unlocked list unchanged |
| Progression.UnlockNextInCurriculum | src/App.jsx:143-147 | over the 17 shipped levels, finishing level id unlocks id+1 iff it was unlocked already or 0 <= id < 17 |
| Progression.FinishFirstLevelTwice | src/App.jsx:143-147 | from the initial [1], finishing level 1 gives [1, 2], and finishing it again keeps [1, 2] |
| Progression.CompletedIsUnlocked | src/App.jsx:315-316 | with a contiguous list, a level shown as completed is also shown as unlocked |
| Progression.CurrentPlayingIsFrontier | src/App.jsx:315-317 | when levels 1..k are unlocked, the highlighted current level is level k and only it |
| Progression.WithoutStory | src/App.jsx:175 | deleting removes every story with the id and keeps the others with their multiplicity; nothing changes when no story has it |
| Progression.WithoutStoryAppend | src/App.jsx:175 | the delete filter distributes over concatenation, so the library keeps its newest-first order |
| Progression.DeleteUndoesGenerate | src/App.jsx:160-177 | deleting a just-generated story by its fresh id gives back the library as it was |
| MapLayout.TotalSlots | src/App.jsx:305 | the slot count is a multiple of 4 and the least one that holds all levels |
| MapLayout.LogicalIndex | src/App.jsx:307-310 | a slot shows a level of its own row; even rows read left to right, odd rows mirror the column |
| MapLayout.LogicalIndexInvolution | src/App.jsx:307-310 | applying the slot-to-level map twice gives the slot back |
| MapLayout.EveryLevelHasOneSlot | src/App.jsx:304-310 | every level position below the slot count is shown by exactly one slot |
| MapLayout.ConsecutiveLevelsAdjacent | src/App.jsx:307-310 | consecutive levels sit in neighbouring slots (same row, adjacent columns, or one row apart in the same column) |
| App.Cancel | src/App.jsx:115 | `clearTimeout` (here and at line 152) removes the timer with that handle and keeps every other pending timer |
| App.Session.constructor | src/App.jsx:28-59 | initial state: persisted lists loaded or defaulted to [1], [], []; stage learn; everything else empty |
| App.Session.CurrentQuestionIndex | src/App.jsx:351-353 | the header number lies in 1..total while the queue is shorter than the level; `StartChallenge` makes it 1 and each right tap with questions left raises it by one |
| App.Session.ToggleLearned | src/App.jsx:78-89 | the two lists become `Progression.ToggleLearned` of the old ones; treasures stay unique by id and marks stay duplicate-free |
| App.Session.SelectLevel | src/App.jsx:91-99 | a locked level only adds the locked hint to the speech log; an unlocked one opens in the learn stage with marks seeded from the collection and speaks its title |
| App.Session.StartChallenge | src/App.jsx:101-109 | the stage becomes game; the cards and the target followed by the queue are each a permutation of the level's characters; the announcement is scheduled; the question index is 1 |
| App.Session.HandleGameClick | src/App.jsx:111-134 | ignored while a wrong mark shows; a wrong tap marks the card, plays the wrong sound and schedules the clear without touching target or queue; a right tap plays the correct sound, cancels the confetti hide timer, pops the queue at once and schedules the confetti and the advance (or the victory), and the question index goes up by one |
| App.Session.Fire | src/App.jsx:108-132 | one pending callback runs and leaves the list: confetti on/off (recording the hide timer in the ref), the target advance with its prompt, the victory (sound, speech, story stage) or the feedback clear; nothing else changes |
| App.Session.HandleStoryFinish | src/App.jsx:136-148 | an AI story returns to the collection without unlocking; a curriculum story sets complete, confetti and the victory sound, and the unlocked list becomes `UnlockNext`, still duplicate-free and contiguous |
| App.Session.BackToMap | src/App.jsx:150-153 | back on the map: no level, no AI story, learn stage, no confetti, and the confetti hide timer cancelled |
| App.Session.ExitLevel | src/App.jsx:360 | the exit button only clears the current level |
| App.Session.OpenCollection | src/App.jsx:155-158 | collection stage with its welcome spoken |
| App.Session.OpenMagic | src/App.jsx:207 | the composer opens only with at least two treasures |
| App.Session.HandleAiStoryGenerated | src/App.jsx:160-165 | the stamped story goes to the front of the library and opens in the story stage |
| App.Session.OpenSavedStory | src/App.jsx:167-170 | a saved story opens in the story stage |
| App.Session.HandleDeleteStory | src/App.jsx:172-177 | on confirmation the library loses every story with the id; otherwise it is unchanged |
| App.Session.OpenWriter | src/App.jsx:180-182 | the handwriting overlay shows the character |
| App.Session.CloseWriter | src/App.jsx:191 | the overlay closes |
| App.DoubleCorrectClick | src/App.jsx:112-126 | two right taps before the advance fires both pass the guard and pop two questions while the target stays the first |
| App.ExitDuringVictoryDelay | src/App.jsx:360 | exiting within the victory delay still lands in the story stage with neither a level nor an AI story |
| App.Session.LeaveLevel | src/App.jsx:360 | corrected exit: clears the level and cancels every pending challenge step |
| App.LeaveDuringVictoryDelay | src/App.jsx:360 | with the corrected exit no victory step stays pending and the stage is unchanged |
| StoryReader.ValidStory | src/StoryReader.jsx:16-19 | the reader has a page exactly unless an explicitly empty page list was given; a story with pages keeps its title and pages; a missing story or missing pages gives the one-page placeholder "暂无内容" |
| StoryReader.TotalChars | src/StoryReader.jsx:26-28 | the character total is 0 for no pages and at least the last page's length |
| StoryReader.Positions | src/StoryReader.jsx:60-68 | the tappable positions are exactly the (page, index) pairs inside the page texts |
| StoryReader.PositionsCount | src/StoryReader.tsx:26-28 | there are exactly `totalChars` positions |
| StoryReader.Progress | src/StoryReader.jsx:30 | 0 without characters; otherwise the percentage nearest to read/total, halves rounded up |
| StoryReader.ProgressBounds | src/StoryReader.tsx:30 | with at most `t` read the bar is in 0..100, 0 with nothing read, 100 with everything read |
| StoryReader.ProgressMonotone | src/StoryReader.jsx:30 | reading more never lowers the bar |
| StoryReader.Reader.Percent | src/StoryReader.tsx:26-30 | the shown percentage is in 0..100, 0 before any tap, and 100 once every position is read whenever the story has any character |
| StoryReader.Reader.constructor | src/StoryReader.jsx:4-19 | the reader opens on page 0 with no read marks and nothing pending |
| StoryReader.Reader.Speak | src/StoryReader.jsx:41-57 | punctuation is silent; otherwise speech stops and the one pending utterance is replaced by the new one |
| StoryReader.Reader.FirePlay | src/StoryReader.jsx:49-56 | the pending utterance starts and none stays pending |
| StoryReader.Reader.HandleCharClick | src/StoryReader.jsx:60-69 | the position is added to the read marks (punctuation too), it is read aloud unless silent, and the bar never goes down |
| StoryReader.Reader.HandlePrev | src/StoryReader.tsx:69-72 | the page goes back by one unless on the first page |
| StoryReader.Reader.HandleNext | src/StoryReader.jsx:77-84 | the page advances unless on the last page, where it signals back and stays; the page stays in range |
| StoryReader.Reader.Unmount | src/StoryReader.tsx:32-37 | speech stops and no utterance stays pending |
| MagicGenerator.ToggleSelection | src/MagicGenerator.jsx:13-20 | a selected character is removed; an unselected one is appended only when fewer than four are selected |
| MagicGenerator.ToggleSelectionKeepsBounds | src/MagicGenerator.jsx:13-20 | selections stay at most four long and duplicate-free |
| MagicGenerator.ToggleSelectionTwice | src/MagicGenerator.jsx:13-20 | picking a fresh character and tapping it again restores the selection |
| Progression.WithoutValueSubsequence | src/MagicGenerator.jsx:15 | the value filter (also the deselect filter) keeps a duplicate-free list duplicate-free and no longer |
| MagicGenerator.Generator.constructor | src/MagicGenerator.jsx:5-6 | the picker starts with nothing selected and not loading |
| MagicGenerator.Generator.ToggleSelect | src/MagicGenerator.jsx:13-20 | the selection becomes `ToggleSelection` of the old one, keeping its bounds |
| MagicGenerator.Generator.HandleGenerate | src/MagicGenerator.jsx:23-27 | a request starts iff at least two characters are selected (the button's enabling rule at line 105); then loading is on and the request carries the selection |
| MagicGenerator.Generator.Deliver | src/MagicGenerator.jsx:28-31 | the answer ends loading and is handed on unchanged |
| FlashCard.IncludesIff | src/FlashCard.jsx:47 | `transcript.includes(char)` holds exactly when the character occurs as a contiguous run of the transcript |
| FlashCard.Card.constructor | src/FlashCard.jsx:4-9 | a card starts face up, not listening, nothing lit, no recognizer |
| FlashCard.Card.Speak | src/FlashCard.jsx:15-23 | nothing is said while the microphone is open |
| FlashCard.Card.SpeakFromRecognizer | src/FlashCard.jsx:45-57 | the recognizer's handlers always speak, even while listening: they keep the `speak` of the render in which they were created, before listening began |
| FlashCard.Card.HandleFlip | src/FlashCard.jsx:72-77 | in the challenge the tap is only delegated; while listening it is ignored; otherwise the card turns and the character is read only when turning from the front |
| FlashCard.Card.HandleCharClick | src/FlashCard.jsx:79-85 | the tapped character of a word lights up, is read, and a clear timer is added |
| FlashCard.Card.HandleLearnClick | src/FlashCard.jsx:89-93 | the toggle is always requested; the praise is spoken only for a character not yet learned |
| FlashCard.Card.StartListening | src/FlashCard.jsx:26-62 | without a recognizer the alert shows and nothing changes; otherwise the recognizer exists afterwards |
| FlashCard.Card.OnStart | src/FlashCard.jsx:42 | listening starts |
| FlashCard.Card.OnEnd | src/FlashCard.jsx:43 | listening ends |
| FlashCard.Card.OnResult | src/FlashCard.jsx:45-52 | if the character occurs in the transcript, praise and a reward flip are scheduled; otherwise the retry prompt is spoken |
| FlashCard.Card.OnError | src/FlashCard.jsx:54-57 | listening ends and the speak-up prompt is spoken |
| FlashCard.Card.HandleCorrectPronunciation | src/FlashCard.jsx:64-69 | praise now, the reward flip as a pending timer |
| FlashCard.Card.FireTimer | src/FlashCard.jsx:66-68 | a highlight timer unlights whatever is lit (an older timer also clears a newer tap); the reward timer turns the card to its back |

## Left out

- Web Audio synthesis (`playSound`, frequencies and gain ramps) is floating point and a platform API. Only which cue plays is logged.
- The speech synthesizer and the speech recognizer are platform services. What is said is logged; what the recognizer reports arrives through `OnStart`, `OnEnd`, `OnResult` and `OnError`.
- `FlashCard.Card.StartListening` does not model `recognition.start()` being called while a session is running (the browser throws there).
- The handwriting overlay (`src/MagicWriter.jsx`, a third-party quiz loaded from a CDN) is not part of this model. Only the `writingChar` flag that opens and closes it is kept.
- The story service (`src/gemini.js`, a network request and parsing of model output) is not part of this model. Its story is the argument of `MagicGenerator.Generator.Deliver`.
- Local storage is transport. The lists read at start-up are constructor parameters. Writing them back is not modelled. A stored value that does not parse is not modelled either: the source does not handle it.
- `Date.now()` and the locale date are parameters of `App.Session.HandleAiStoryGenerated`. `window.confirm` is the `confirmed` parameter of `App.Session.HandleDeleteStory`.
- Rendering is not modelled: JSX, confetti, styling and image placeholders. So are `src/main.jsx` (the React root) and `tailwind.config.js` (styling).
- Timers fire in any order. Deadlines (10 ms, 500 ms, 1000 ms, 1200 ms, 2000 ms, 4000 ms) are not modelled, so orders that real deadlines rule out are also allowed.
- `StoryReader.Progress` is the exact rational rounding `(200k + t) div 2t`. The source multiplies a floating-point quotient by 100. At exact halves the float result can differ by one.
- Strings are sequences of characters. JavaScript's `length`, `split('')` and `includes` count UTF-16 code units, which coincide with characters for the Chinese text of the curriculum.
- `StoryReader.Reader.constructor` requires at least one page. With an explicitly empty page list the source reads `pages[0].image` of nothing and fails while rendering.
- `App.Session.StartChallenge` requires an open level with at least one character, as the source reads `currentLevel.characters` and `shuffledQuestions[0].char`. `App.Session.HandleGameClick` requires a target, which the source reads as `gameTarget.id`.
- `App.Session.HandleStoryFinish` requires an AI story or an open level, as the source reads `currentLevel.id`. `App.ExitDuringVictoryDelay` shows a reachable state where neither holds.
- `Data` omits presentation-only fields: icons, colour classes, groups and card images.

## Findings

| source | as written | input that shows it | evidently intended | confidence | as-written member | corrected member |
|---|---|---|---|---|---|---|
| src/App.jsx:360 | the exit button only clears `currentLevel`; the 1 s victory callback scheduled at line 127 stays pending and later sets the story stage | answer the last question correctly, press exit within one second: the story stage opens with no level and no AI story, the reader shows the placeholder book, and finishing it reads `currentLevel.id` of null at line 143 | leaving a level cancels the challenge's pending steps | high (not executed) | App.ExitDuringVictoryDelay | App.Session.LeaveLevel |
