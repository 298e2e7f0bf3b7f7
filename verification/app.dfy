/**
 * The session controller of src/App.jsx as a class: one field per piece of
 * React state or ref, one method per event handler, and the `setTimeout`
 * callbacks as explicit pending timers that only take effect when `Fire`
 * runs them. Speech and sound cues are recorded in append-only logs.
 */
module App {
  import opened Wrappers
  import opened Data
  import opened Progression
  import opened Shuffling

  /** `stage`: learn | game | story | collection | magic. */
  datatype Stage = Learn | Game | Story | Collection | Magic

  /** `feedback`: `{id: null, type: null}` or a wrong answer on a card. */
  datatype Feedback = NoFeedback | Wrong(id: int)

  /** The three cues of `playSound`. */
  datatype Sound = CorrectSound | WrongSound | VictorySound

  /** What a pending `setTimeout` callback will do when it runs. */
  datatype Callback =
    | AnnounceFirst(target: Character)   // src/App.jsx:108, after 500 ms
    | ShowConfetti                       // src/App.jsx:117-120, after 10 ms
    | HideConfetti                       // src/App.jsx:119, after 4000 ms
    | AdvanceTarget(next: Character)     // src/App.jsx:125, after 1200 ms
    | FinishChallenge                    // src/App.jsx:127, after 1000 ms
    | ClearFeedback                      // src/App.jsx:132, after 500 ms

  datatype Timer = Timer(handle: nat, callback: Callback)

  /** `clearTimeout(handle)`: the timer with that handle no longer runs. */
  function Cancel(timers: seq<Timer>, handle: nat): (r: seq<Timer>)
    ensures forall t :: t in r <==> t in timers && t.handle != handle
    ensures |r| <= |timers|
  {
    if timers == [] then []
    else (if timers[0].handle == handle then [] else [timers[0]]) + Cancel(timers[1..], handle)
  }

  /** `if (ref.current) clearTimeout(ref.current)`. */
  function CancelRef(timers: seq<Timer>, ref: Option<nat>): seq<Timer> {
    match ref
    case None => timers
    case Some(h) => Cancel(timers, h)
  }

  /** The callbacks that drive the challenge forward. */
  predicate IsChallengeStep(cb: Callback) {
    cb.AnnounceFirst? || cb.AdvanceTarget? || cb.FinishChallenge?
  }

  /** The pending timers with every challenge step cancelled. */
  function WithoutChallengeSteps(timers: seq<Timer>): (r: seq<Timer>)
    ensures forall t :: t in r <==> t in timers && !IsChallengeStep(t.callback)
  {
    if timers == [] then []
    else (if IsChallengeStep(timers[0].callback) then [] else [timers[0]]) + WithoutChallengeSteps(timers[1..])
  }

  const LockedHint: string := "这一关还没解锁哦"
  const ChallengeWon: string := "挑战成功！奖励读绘本！"
  const CollectionWelcome: string := "欢迎来到你的汉字宝藏！"
  function StartLearning(l: Level): string { l.title + "，开始学习！" }
  function ChallengeStart(c: Character): string { "挑战开始！请找出。。。" + c.glyph }
  function AskFor(c: Character): string { "请找出。。。" + c.glyph }

  class Session {
    // persisted lists
    var unlockedLevels: seq<int>
    var myTreasures: seq<Character>
    var savedStories: seq<SavedStory>
    // stage machine
    var currentLevel: Option<Level>
    var stage: Stage
    var learnedIds: seq<int>
    // challenge game
    var gameTarget: Option<Character>
    var gameQueue: seq<Character>
    var gameCards: seq<Character>
    var feedback: Feedback
    var showConfetti: bool
    var levelComplete: bool
    var confettiTimer: Option<nat>
    // AI stories and the handwriting overlay
    var aiStory: Option<SavedStory>
    var writingChar: Option<Character>
    // pending setTimeout callbacks, and the effects sent to the platform
    var timers: seq<Timer>
    var nextHandle: nat
    var speech: seq<string>
    var sounds: seq<Sound>

    /** Shown on the challenge header as "progress i / n" (src/App.jsx:351-353). */
    function CurrentQuestionIndex(): (r: int)
      reads this
      ensures currentLevel.Some? && |gameQueue| < |currentLevel.value.characters| ==>
                1 <= r <= |currentLevel.value.characters|
    {
      (if currentLevel.Some? then |currentLevel.value.characters| else 0) - |gameQueue|
    }

    /** Initial state; the three lists come from local storage when present
        (src/App.jsx:29-59). */
    constructor (savedUnlocked: Option<seq<int>>, savedTreasures: Option<seq<Character>>,
                 savedStoryList: Option<seq<SavedStory>>)
      ensures unlockedLevels == if savedUnlocked.Some? then savedUnlocked.value else [1]
      ensures myTreasures == if savedTreasures.Some? then savedTreasures.value else []
      ensures savedStories == if savedStoryList.Some? then savedStoryList.value else []
      ensures currentLevel.None? && stage == Learn && learnedIds == []
      ensures gameTarget.None? && gameQueue == [] && gameCards == [] && feedback == NoFeedback
      ensures !showConfetti && !levelComplete && confettiTimer.None?
      ensures aiStory.None? && writingChar.None?
      ensures timers == [] && speech == [] && sounds == []
    {
      unlockedLevels := if savedUnlocked.Some? then savedUnlocked.value else [1];
      myTreasures := if savedTreasures.Some? then savedTreasures.value else [];
      savedStories := if savedStoryList.Some? then savedStoryList.value else [];
      currentLevel := None;
      stage := Learn;
      learnedIds := [];
      gameTarget := None;
      gameQueue := [];
      gameCards := [];
      feedback := NoFeedback;
      showConfetti := false;
      levelComplete := false;
      confettiTimer := None;
      aiStory := None;
      writingChar := None;
      timers := [];
      nextHandle := 1;
      speech := [];
      sounds := [];
    }

    method Speak(text: string)
      modifies this`speech
      ensures speech == old(speech) + [text]
    {
      speech := speech + [text];
    }

    method SetTimeout(callback: Callback) returns (handle: nat)
      modifies this`timers, this`nextHandle
      ensures handle == old(nextHandle) && nextHandle == old(nextHandle) + 1
      ensures timers == old(timers) + [Timer(handle, callback)]
    {
      handle := nextHandle;
      timers := timers + [Timer(handle, callback)];
      nextHandle := nextHandle + 1;
    }

    /** `toggleLearned` (src/App.jsx:78-89). */
    method ToggleLearned(c: Character)
      modifies this`learnedIds, this`myTreasures
      ensures Marks(learnedIds, myTreasures) == Progression.ToggleLearned(Marks(old(learnedIds), old(myTreasures)), c)
      ensures old(UniqueIds(myTreasures)) ==> UniqueIds(myTreasures)
      ensures old(NoDuplicates(learnedIds)) ==> NoDuplicates(learnedIds)
    {
      if UniqueIds(myTreasures) {
        ToggleKeepsTreasuresUnique(Marks(learnedIds, myTreasures), c);
      }
      if NoDuplicates(learnedIds) {
        ToggleKeepsMarksDuplicateFree(Marks(learnedIds, myTreasures), c);
      }
      if c.id in learnedIds {
        learnedIds := WithoutValue(learnedIds, c.id);
        myTreasures := WithoutId(myTreasures, c.id);
      } else {
        learnedIds := learnedIds + [c.id];
        if !HasId(myTreasures, c.id) {
          myTreasures := myTreasures + [c];
        }
      }
    }

    /** `handleSelectLevel` (src/App.jsx:91-99): a locked level only earns a
        spoken hint; an unlocked one opens in the learn stage with the marks
        seeded from the collection. */
    method SelectLevel(level: Level)
      modifies this`currentLevel, this`stage, this`learnedIds, this`levelComplete, this`speech
      ensures level.id !in unlockedLevels ==>
                && currentLevel == old(currentLevel) && stage == old(stage)
                && learnedIds == old(learnedIds) && levelComplete == old(levelComplete)
                && speech == old(speech) + [LockedHint]
      ensures level.id in unlockedLevels ==>
                && currentLevel == Some(level) && stage == Learn && !levelComplete
                && learnedIds == LearnedInLevel(level.characters, myTreasures)
                && speech == old(speech) + [StartLearning(level)]
    {
      if level.id !in unlockedLevels {
        Speak(LockedHint);
        return;
      }
      currentLevel := Some(level);
      stage := Learn;
      learnedIds := LearnedInLevel(level.characters, myTreasures);
      levelComplete := false;
      Speak(StartLearning(level));
    }

    /** `startChallenge` (src/App.jsx:101-109): two independent shuffles,
        one for the cards and one for the questions; the first question is
        the target, the rest the queue, and the target is announced later. */
    method StartChallenge()
      requires currentLevel.Some? && |currentLevel.value.characters| > 0
      modifies this`stage, this`gameCards, this`gameQueue, this`gameTarget, this`timers, this`nextHandle
      ensures stage == Game
      ensures multiset(gameCards) == multiset(currentLevel.value.characters)
      ensures gameTarget.Some?
      ensures multiset([gameTarget.value] + gameQueue) == multiset(currentLevel.value.characters)
      ensures timers == old(timers) + [Timer(old(nextHandle), AnnounceFirst(gameTarget.value))]
      ensures nextHandle == old(nextHandle) + 1
      ensures CurrentQuestionIndex() == 1
    {
      var chars := currentLevel.value.characters;
      stage := Game;
      var cards := Shuffle(chars);
      gameCards := cards;
      var questions := Shuffle(chars);
      assert questions == [questions[0]] + questions[1..];
      gameQueue := questions[1..];
      gameTarget := Some(questions[0]);
      var _ := SetTimeout(AnnounceFirst(questions[0]));
    }

    /** `handleGameClick` (src/App.jsx:111-134). A click is ignored while a
        wrong-answer mark is shown. A wrong click marks the card and schedules
        the mark's removal; target and queue stay. A right click pops the
        queue at once, while the new target (or the end of the challenge)
        only arrives when the scheduled callback fires; the target itself is
        never changed here. */
    method HandleGameClick(c: Character)
      requires gameTarget.Some?
      modifies this`sounds, this`timers, this`nextHandle, this`showConfetti, this`gameQueue, this`feedback
      ensures old(feedback).Wrong? ==>
                && timers == old(timers) && nextHandle == old(nextHandle) && sounds == old(sounds)
                && showConfetti == old(showConfetti) && gameQueue == old(gameQueue) && feedback == old(feedback)
      ensures old(feedback) == NoFeedback && c.id != gameTarget.value.id ==>
                && feedback == Wrong(c.id) && gameQueue == old(gameQueue)
                && sounds == old(sounds) + [WrongSound] && showConfetti == old(showConfetti)
                && timers == old(timers) + [Timer(old(nextHandle), ClearFeedback)]
                && nextHandle == old(nextHandle) + 1
      ensures old(feedback) == NoFeedback && c.id == gameTarget.value.id ==>
                && feedback == NoFeedback && sounds == old(sounds) + [CorrectSound] && !showConfetti
                && gameQueue == (if |old(gameQueue)| > 0 then old(gameQueue)[1..] else [])
                && timers == CancelRef(old(timers), confettiTimer) + [
                     Timer(old(nextHandle), ShowConfetti),
                     Timer(old(nextHandle) + 1,
                           if |old(gameQueue)| > 0 then AdvanceTarget(old(gameQueue)[0]) else FinishChallenge)]
                && nextHandle == old(nextHandle) + 2
      ensures old(feedback) == NoFeedback && c.id == gameTarget.value.id && |old(gameQueue)| > 0 ==>
                CurrentQuestionIndex() == old(CurrentQuestionIndex()) + 1
    {
      if feedback.Wrong? {
        return;
      }
      if c.id == gameTarget.value.id {
        sounds := sounds + [CorrectSound];
        timers := CancelRef(timers, confettiTimer);
        showConfetti := false;
        var _ := SetTimeout(ShowConfetti);
        if |gameQueue| > 0 {
          var next := gameQueue[0];
          gameQueue := gameQueue[1..];
          var _ := SetTimeout(AdvanceTarget(next));
        } else {
          var _ := SetTimeout(FinishChallenge);
        }
      } else {
        sounds := sounds + [WrongSound];
        feedback := Wrong(c.id);
        var _ := SetTimeout(ClearFeedback);
      }
    }

    /** The timer with index `k` runs its callback and leaves the pending list. */
    method Fire(k: nat)
      requires k < |timers|
      modifies this`timers, this`nextHandle, this`speech, this`sounds, this`showConfetti,
               this`confettiTimer, this`gameTarget, this`stage, this`feedback
      ensures var cb := old(timers[k].callback);
              var rest := old(timers[..k] + timers[k + 1..]);
              && (cb.ShowConfetti? ==>
                    && showConfetti && confettiTimer == Some(old(nextHandle))
                    && timers == rest + [Timer(old(nextHandle), HideConfetti)]
                    && nextHandle == old(nextHandle) + 1)
              && (!cb.ShowConfetti? ==>
                    timers == rest && nextHandle == old(nextHandle) && confettiTimer == old(confettiTimer))
              && (cb.HideConfetti? ==> !showConfetti)
              && (!cb.ShowConfetti? && !cb.HideConfetti? ==> showConfetti == old(showConfetti))
              && (cb.AnnounceFirst? ==> speech == old(speech) + [ChallengeStart(cb.target)])
              && (cb.AdvanceTarget? ==> gameTarget == Some(cb.next) && speech == old(speech) + [AskFor(cb.next)])
              && (!cb.AdvanceTarget? ==> gameTarget == old(gameTarget))
              && (cb.FinishChallenge? ==>
                    stage == Stage.Story && sounds == old(sounds) + [VictorySound] && speech == old(speech) + [ChallengeWon])
              && (!cb.FinishChallenge? ==> stage == old(stage) && sounds == old(sounds))
              && (!cb.AnnounceFirst? && !cb.AdvanceTarget? && !cb.FinishChallenge? ==> speech == old(speech))
              && (cb.ClearFeedback? ==> feedback == NoFeedback)
              && (!cb.ClearFeedback? ==> feedback == old(feedback))
    {
      var cb := timers[k].callback;
      timers := timers[..k] + timers[k + 1..];
      match cb
      case AnnounceFirst(target) =>
        Speak(ChallengeStart(target));
      case ShowConfetti =>
        showConfetti := true;
        var h := SetTimeout(HideConfetti);
        confettiTimer := Some(h);
      case HideConfetti =>
        showConfetti := false;
      case AdvanceTarget(next) =>
        gameTarget := Some(next);
        Speak(AskFor(next));
      case FinishChallenge =>
        sounds := sounds + [VictorySound];
        Speak(ChallengeWon);
        stage := Stage.Story;
      case ClearFeedback =>
        feedback := NoFeedback;
    }

    /** `handleStoryFinish` (src/App.jsx:136-148). An AI story returns to the
        collection and never unlocks anything; a curriculum story marks the
        level complete and unlocks the next level if it exists. The source
        reads `currentLevel.id`, so one of the two stories must be open. */
    method HandleStoryFinish()
      requires aiStory.Some? || currentLevel.Some?
      modifies this`aiStory, this`stage, this`levelComplete, this`showConfetti, this`sounds, this`unlockedLevels
      ensures old(aiStory).Some? ==>
                && aiStory.None? && stage == Collection && unlockedLevels == old(unlockedLevels)
                && levelComplete == old(levelComplete) && showConfetti == old(showConfetti) && sounds == old(sounds)
      ensures old(aiStory).None? ==>
                && aiStory.None? && stage == old(stage)
                && levelComplete && showConfetti && sounds == old(sounds) + [VictorySound]
                && unlockedLevels == UnlockNext(old(unlockedLevels), currentLevel.value.id, Levels)
      ensures old(aiStory).None? && currentLevel.value.id in old(unlockedLevels) ==>
                && (old(NoDuplicates(unlockedLevels)) ==> NoDuplicates(unlockedLevels))
                && (old(Contiguous(unlockedLevels)) ==> Contiguous(unlockedLevels))
    {
      if aiStory.Some? {
        aiStory := None;
        stage := Collection;
        return;
      }
      levelComplete := true;
      showConfetti := true;
      sounds := sounds + [VictorySound];
      var nextLevelId := currentLevel.value.id + 1;
      var hasNextLevel := FindLevel(Levels, nextLevelId).Some?;
      if hasNextLevel && nextLevelId !in unlockedLevels {
        unlockedLevels := unlockedLevels + [nextLevelId];
      }
      if currentLevel.value.id in old(unlockedLevels) {
        UnlockNextPreserves(old(unlockedLevels), currentLevel.value.id, Levels);
      }
    }

    /** `backToMap` (src/App.jsx:150-153). */
    method BackToMap()
      modifies this`currentLevel, this`showConfetti, this`levelComplete, this`stage, this`aiStory, this`timers
      ensures currentLevel.None? && !showConfetti && !levelComplete && stage == Learn && aiStory.None?
      ensures timers == CancelRef(old(timers), confettiTimer)
    {
      currentLevel := None;
      showConfetti := false;
      levelComplete := false;
      stage := Learn;
      aiStory := None;
      timers := CancelRef(timers, confettiTimer);
    }

    /** The exit button of the learn and game views (src/App.jsx:360). */
    method ExitLevel()
      modifies this`currentLevel
      ensures currentLevel.None?
    {
      currentLevel := None;
    }

    /** The exit button as evidently intended: leaving the level also drops
        the challenge's pending steps, so none of them can later act on a
        level that is no longer open. */
    method LeaveLevel()
      modifies this`currentLevel, this`timers
      ensures currentLevel.None?
      ensures timers == WithoutChallengeSteps(old(timers))
      ensures forall t :: t in timers ==> !IsChallengeStep(t.callback)
    {
      currentLevel := None;
      timers := WithoutChallengeSteps(timers);
    }

    /** `openCollection` (src/App.jsx:155-158). */
    method OpenCollection()
      modifies this`stage, this`speech
      ensures stage == Collection && speech == old(speech) + [CollectionWelcome]
    {
      stage := Collection;
      Speak(CollectionWelcome);
    }

    /** The compose button of the collection view, disabled with fewer than
        two treasures (src/App.jsx:207). */
    method OpenMagic()
      modifies this`stage
      ensures |myTreasures| >= 2 ==> stage == Magic
      ensures |myTreasures| < 2 ==> stage == old(stage)
    {
      if |myTreasures| >= 2 {
        stage := Magic;
      }
    }

    /** `handleAiStoryGenerated` (src/App.jsx:160-165): the clock reading and
        the locale date are parameters. The new story goes to the front of
        the library and opens at once. */
    method HandleAiStoryGenerated(story: Data.Story, now: int, date: string)
      modifies this`savedStories, this`aiStory, this`stage
      ensures savedStories == [SavedStory(story, now, date)] + old(savedStories)
      ensures aiStory == Some(SavedStory(story, now, date)) && stage == Stage.Story
    {
      var newStory := SavedStory(story, now, date);
      savedStories := [newStory] + savedStories;
      aiStory := Some(newStory);
      stage := Stage.Story;
    }

    /** `openSavedStory` (src/App.jsx:167-170). */
    method OpenSavedStory(s: SavedStory)
      modifies this`aiStory, this`stage
      ensures aiStory == Some(s) && stage == Stage.Story
    {
      aiStory := Some(s);
      stage := Stage.Story;
    }

    /** `handleDeleteStory` (src/App.jsx:172-177): the answer to the
        confirmation dialog is a parameter. */
    method HandleDeleteStory(id: int, confirmed: bool)
      modifies this`savedStories
      ensures confirmed ==> savedStories == WithoutStory(old(savedStories), id)
      ensures !confirmed ==> savedStories == old(savedStories)
    {
      if confirmed {
        savedStories := WithoutStory(savedStories, id);
      }
    }

    /** `openMagicWriter` and the overlay's `onClose` (src/App.jsx:180-192):
        an overlay on top of whatever stage is showing. */
    method OpenWriter(c: Character)
      modifies this`writingChar
      ensures writingChar == Some(c)
    {
      writingChar := Some(c);
    }

    method CloseWriter()
      modifies this`writingChar
      ensures writingChar.None?
    {
      writingChar := None;
    }
  }

  /** Two taps on the right card before its 1.2 s advance fires: no wrong
      mark is set in between, so the guard lets the second tap through and
      it pops a second question while the target is still the first one. */
  method DoubleCorrectClick(s: Session)
    requires s.gameTarget.Some? && s.feedback == NoFeedback && |s.gameQueue| >= 2
    modifies s
    ensures s.gameQueue == old(s.gameQueue)[2..] && s.gameTarget == old(s.gameTarget)
    ensures s.sounds == old(s.sounds) + [CorrectSound, CorrectSound]
  {
    s.HandleGameClick(s.gameTarget.value);
    s.HandleGameClick(s.gameTarget.value);
  }

  /** The exit button as written: a right answer to the last question,
      then exit before the 1 s victory delay ends. The delayed callback still
      opens the story stage, now with neither a level nor an AI story, which
      is the state in which finishing the story reads `currentLevel.id` of
      nothing. */
  method ExitDuringVictoryDelay(s: Session)
    requires s.gameTarget.Some? && s.feedback == NoFeedback && s.gameQueue == [] && s.aiStory.None?
    modifies s
    ensures s.stage == Stage.Story && s.currentLevel.None? && s.aiStory.None?
  {
    s.HandleGameClick(s.gameTarget.value);
    s.ExitLevel();
    s.Fire(|s.timers| - 1);
  }

  /** The same taps with the corrected exit: no victory step is left to fire,
      and whatever timer runs next leaves the stage alone. */
  method LeaveDuringVictoryDelay(s: Session, k: nat)
    requires s.gameTarget.Some? && s.feedback == NoFeedback && s.gameQueue == [] && s.aiStory.None?
    modifies s
    ensures forall t :: t in s.timers ==> !t.callback.FinishChallenge?
    ensures s.stage == old(s.stage)
  {
    s.HandleGameClick(s.gameTarget.value);
    s.LeaveLevel();
    if k < |s.timers| {
      assert s.timers[k] in s.timers;
      s.Fire(k);
    }
  }
}
