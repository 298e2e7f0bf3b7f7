/**
 * The pure rules behind the session controller of src/App.jsx: the learn
 * marks and the treasure collection that `toggleLearned` keeps in step, the
 * marks seeded by `handleSelectLevel`, the one-level-at-a-time unlocking of
 * `handleStoryFinish`, the saved-story filter of `handleDeleteStory`, and the
 * map's unlocked / completed / current-level tests. The class in app.dfy is
 * specified in terms of these functions.
 */
module Progression {
  import opened Wrappers
  import opened Data

  predicate NoDuplicates<T(==)>(s: seq<T>) {
    forall i, j :: 0 <= i < j < |s| ==> s[i] != s[j]
  }

  /** `list.find(t => t.id === id)` finds something. */
  predicate HasId(ts: seq<Character>, id: int) {
    exists k :: 0 <= k < |ts| && ts[k].id == id
  }

  /** The treasure collection is keyed by character id. */
  predicate UniqueIds(ts: seq<Character>) {
    forall i, j :: 0 <= i < j < |ts| ==> ts[i].id != ts[j].id
  }

  // ---------------------------------------------------------------------
  // Filters used by the handlers
  // ---------------------------------------------------------------------

  /** `xs.filter(i => i !== x)`: every occurrence of `x` goes, nothing else does. */
  function WithoutValue<T(==)>(ids: seq<T>, x: T): (r: seq<T>)
    ensures multiset(r) == multiset(ids)[x := 0]
    ensures x !in ids ==> r == ids
  {
    if ids == [] then []
    else
      var tail := WithoutValue(ids[1..], x);
      assert ids == [ids[0]] + ids[1..];
      if ids[0] == x then tail else [ids[0]] + tail
  }

  /** `ts.filter(item => item.id !== id)`: every treasure with that id goes,
      every other treasure stays, with its multiplicity. */
  function WithoutId(ts: seq<Character>, id: int): (r: seq<Character>)
    ensures forall t :: multiset(r)[t] == if t.id == id then 0 else multiset(ts)[t]
    ensures !HasId(ts, id) ==> r == ts
  {
    if ts == [] then []
    else
      var tail := WithoutId(ts[1..], id);
      assert ts == [ts[0]] + ts[1..];
      assert HasId(ts[1..], id) ==> HasId(ts, id) by {
        if HasId(ts[1..], id) {
          var k :| 0 <= k < |ts[1..]| && ts[1..][k].id == id;
          assert ts[k + 1].id == id;
        }
      }
      if ts[0].id == id then tail else [ts[0]] + tail
  }

  lemma HasIdIffMember(ts: seq<Character>, id: int)
    ensures HasId(ts, id) <==> exists t :: t in multiset(ts) && t.id == id
  {
    if HasId(ts, id) {
      var k :| 0 <= k < |ts| && ts[k].id == id;
      assert ts[k] in multiset(ts);
    }
    if exists t :: t in multiset(ts) && t.id == id {
      var t :| t in multiset(ts) && t.id == id;
      assert t in ts;
      var k :| 0 <= k < |ts| && ts[k] == t;
    }
  }

  lemma {:induction false} WithoutIdRemovesAll(ts: seq<Character>, id: int)
    ensures !HasId(WithoutId(ts, id), id)
    ensures forall other :: other != id ==> (HasId(WithoutId(ts, id), other) <==> HasId(ts, other))
  {
    var r := WithoutId(ts, id);
    HasIdIffMember(r, id);
    forall other | other != id
      ensures HasId(r, other) <==> HasId(ts, other)
    {
      HasIdIffMember(r, other);
      HasIdIffMember(ts, other);
    }
  }

  // ---------------------------------------------------------------------
  // Learn marks and treasures (toggleLearned, src/App.jsx:78-89)
  // ---------------------------------------------------------------------

  /** The two lists `toggleLearned` updates together. */
  datatype Marks = Marks(learnedIds: seq<int>, treasures: seq<Character>)

  /** `toggleLearned(c)`: a marked character is unmarked and every treasure
      with its id is dropped; an unmarked one is marked, and becomes a
      treasure unless one with its id is already there. */
  function ToggleLearned(m: Marks, c: Character): (r: Marks)
    ensures c.id in m.learnedIds ==> c.id !in r.learnedIds && !HasId(r.treasures, c.id)
    ensures c.id !in m.learnedIds ==> c.id in r.learnedIds && HasId(r.treasures, c.id)
    ensures forall id :: id != c.id ==>
              (id in r.learnedIds <==> id in m.learnedIds) &&
              (HasId(r.treasures, id) <==> HasId(m.treasures, id))
  {
    if c.id in m.learnedIds then
      WithoutIdRemovesAll(m.treasures, c.id);
      var ids := WithoutValue(m.learnedIds, c.id);
      assert forall id :: id in ids <==> id in multiset(ids);
      Marks(ids, WithoutId(m.treasures, c.id))
    else
      var ts := if HasId(m.treasures, c.id) then m.treasures else m.treasures + [c];
      assert HasId(ts, c.id) by {
        if !HasId(m.treasures, c.id) { assert ts[|m.treasures|] == c; }
      }
      assert forall id :: HasId(m.treasures, id) ==> HasId(ts, id) by {
        forall id | HasId(m.treasures, id) ensures HasId(ts, id) {
          var k :| 0 <= k < |m.treasures| && m.treasures[k].id == id;
          assert ts[k] == m.treasures[k];
        }
      }
      assert forall id :: id != c.id && HasId(ts, id) ==> HasId(m.treasures, id) by {
        forall id | id != c.id && HasId(ts, id) ensures HasId(m.treasures, id) {
          var k :| 0 <= k < |ts| && ts[k].id == id;
          assert k < |m.treasures| && m.treasures[k] == ts[k];
        }
      }
      Marks(m.learnedIds + [c.id], ts)
  }

  /** Marking appends the id once, and appends the character to the
      collection only when no treasure already carries its id. */
  lemma ToggleLearnedAppends(m: Marks, c: Character)
    requires c.id !in m.learnedIds
    ensures ToggleLearned(m, c).learnedIds == m.learnedIds + [c.id]
    ensures ToggleLearned(m, c).treasures == if HasId(m.treasures, c.id) then m.treasures else m.treasures + [c]
  {
  }

  /** Toggling keeps the collection unique by id. */
  lemma {:induction false} ToggleKeepsTreasuresUnique(m: Marks, c: Character)
    requires UniqueIds(m.treasures)
    ensures UniqueIds(ToggleLearned(m, c).treasures)
  {
    if c.id in m.learnedIds {
      WithoutIdKeepsUnique(m.treasures, c.id);
    } else if !HasId(m.treasures, c.id) {
      var ts := m.treasures + [c];
      forall i, j | 0 <= i < j < |ts| ensures ts[i].id != ts[j].id {
        if j == |m.treasures| {
          assert ts[i] == m.treasures[i];
        }
      }
    }
  }

  /** Toggling keeps the learn marks free of duplicates. */
  lemma ToggleKeepsMarksDuplicateFree(m: Marks, c: Character)
    requires NoDuplicates(m.learnedIds)
    ensures NoDuplicates(ToggleLearned(m, c).learnedIds)
  {
    if c.id in m.learnedIds {
      WithoutValueSubsequence(m.learnedIds, c.id);
    } else {
      var ids := m.learnedIds + [c.id];
      forall i, j | 0 <= i < j < |ids| ensures ids[i] != ids[j] {
        if j == |m.learnedIds| {
          assert ids[i] == m.learnedIds[i];
        }
      }
    }
  }

  lemma {:induction false} WithoutIdKeepsUnique(ts: seq<Character>, id: int)
    requires UniqueIds(ts)
    ensures UniqueIds(WithoutId(ts, id))
  {
    if ts != [] {
      WithoutIdKeepsUnique(ts[1..], id);
      var tail := WithoutId(ts[1..], id);
      if ts[0].id != id {
        var r := [ts[0]] + tail;
        forall j | 0 < j < |r| ensures r[0].id != r[j].id {
          assert r[j] in multiset(tail);
          assert r[j] in multiset(ts[1..]);
          var k :| 0 <= k < |ts[1..]| && ts[1..][k] == r[j];
          assert ts[k + 1] == r[j];
        }
      }
    }
  }

  lemma {:induction false} WithoutValueAppend<T>(a: seq<T>, b: seq<T>, x: T)
    ensures WithoutValue(a + b, x) == WithoutValue(a, x) + WithoutValue(b, x)
  {
    if a != [] {
      var ab := a + b;
      assert ab[0] == a[0] && ab[1..] == a[1..] + b;
      WithoutValueAppend(a[1..], b, x);
    } else {
      assert a + b == b;
    }
  }

  /** Filtering keeps a duplicate-free list duplicate-free and no longer. */
  lemma {:induction false} WithoutValueSubsequence<T>(s: seq<T>, x: T)
    requires NoDuplicates(s)
    ensures NoDuplicates(WithoutValue(s, x)) && |WithoutValue(s, x)| <= |s|
  {
    if s != [] {
      assert NoDuplicates(s[1..]);
      WithoutValueSubsequence(s[1..], x);
      var tail := WithoutValue(s[1..], x);
      if s[0] != x {
        assert s[0] !in multiset(s[1..]);
        assert s[0] !in tail by {
          assert multiset(tail)[s[0]] == multiset(s[1..])[s[0]];
        }
        assert WithoutValue(s, x) == [s[0]] + tail;
      }
    }
  }

  lemma {:induction false} WithoutIdAppend(a: seq<Character>, b: seq<Character>, id: int)
    ensures WithoutId(a + b, id) == WithoutId(a, id) + WithoutId(b, id)
  {
    if a != [] {
      var ab := a + b;
      assert ab[0] == a[0] && ab[1..] == a[1..] + b;
      WithoutIdAppend(a[1..], b, id);
    } else {
      assert a + b == b;
    }
  }

  /** Round trip from the unmarked side: marking and then unmarking a
      character that was neither marked nor a treasure restores both lists
      exactly. */
  lemma {:induction false} ToggleTwiceFromUnmarked(m: Marks, c: Character)
    requires c.id !in m.learnedIds && !HasId(m.treasures, c.id)
    ensures ToggleLearned(ToggleLearned(m, c), c) == m
  {
    WithoutValueAppend(m.learnedIds, [c.id], c.id);
    WithoutIdAppend(m.treasures, [c], c.id);
    assert WithoutValue([c.id], c.id) == [];
    assert WithoutId([c], c.id) == [];
  }

  lemma {:induction false} NoDuplicatesCount<T>(s: seq<T>, x: T)
    requires NoDuplicates(s) && x in s
    ensures multiset(s)[x] == 1
  {
    var k :| 0 <= k < |s| && s[k] == x;
    assert s == s[..k] + [x] + s[k + 1..];
    assert x !in s[..k] && x !in s[k + 1..] by {
      forall i | 0 <= i < k ensures s[..k][i] != x { assert s[i] != s[k]; }
      forall i | k < i < |s| ensures s[i] != x { assert s[k] != s[i]; }
    }
    assert multiset(s) == multiset(s[..k]) + multiset{x} + multiset(s[k + 1..]);
  }

  lemma UniqueIdsSameId(ts: seq<Character>, a: Character, b: Character)
    requires UniqueIds(ts) && a in ts && b in ts && a.id == b.id
    ensures a == b
  {
  }

  /** Unmarking and re-marking a character moves its id to the end of the
      marks and its record to the end of the collection, after every other
      treasure with its id has been dropped. */
  lemma ToggleTwiceMovesToEnd(m: Marks, c: Character)
    requires c.id in m.learnedIds
    ensures ToggleLearned(ToggleLearned(m, c), c) ==
              Marks(WithoutValue(m.learnedIds, c.id) + [c.id], WithoutId(m.treasures, c.id) + [c])
  {
    ToggleLearnedAppends(ToggleLearned(m, c), c);
  }

  /** Round trip from the marked side: unmarking and re-marking a character
      whose own record is in the collection gives back the same ids and the
      same treasures, but the id and the record move to the END of their
      lists, so the restoration is up to order (a permutation). */
  lemma {:induction false} ToggleTwiceFromMarked(m: Marks, c: Character)
    requires c.id in m.learnedIds && c in m.treasures
    requires NoDuplicates(m.learnedIds) && UniqueIds(m.treasures)
    ensures multiset(ToggleLearned(ToggleLearned(m, c), c).learnedIds) == multiset(m.learnedIds)
    ensures multiset(ToggleLearned(ToggleLearned(m, c), c).treasures) == multiset(m.treasures)
  {
    var once := ToggleLearned(m, c);
    var twice := ToggleLearned(once, c);
    NoDuplicatesCount(m.learnedIds, c.id);
    assert once.learnedIds == WithoutValue(m.learnedIds, c.id);
    assert twice.learnedIds == once.learnedIds + [c.id];
    assert multiset(twice.learnedIds) == multiset(m.learnedIds);
    NoDuplicatesCount(m.treasures, c) by {
      forall i, j | 0 <= i < j < |m.treasures| ensures m.treasures[i] != m.treasures[j] {
        assert m.treasures[i].id != m.treasures[j].id;
      }
    }
    assert once.treasures == WithoutId(m.treasures, c.id);
    assert !HasId(once.treasures, c.id);
    assert twice.treasures == once.treasures + [c];
    forall t ensures multiset(twice.treasures)[t] == multiset(m.treasures)[t] {
      if t.id == c.id && t != c {
        assert t !in m.treasures by {
          if t in m.treasures { UniqueIdsSameId(m.treasures, t, c); }
        }
      }
    }
    assert multiset(twice.treasures) == multiset(m.treasures);
  }

  /** From the collection view the marks may be stale: toggling a treasure
      whose id is not in `learnedIds` marks it and leaves the collection
      as it was (src/App.jsx:221). */
  lemma ToggleWithStaleMarksKeepsTreasure(m: Marks, c: Character)
    requires c.id !in m.learnedIds && HasId(m.treasures, c.id)
    ensures ToggleLearned(m, c).treasures == m.treasures
    ensures c.id in ToggleLearned(m, c).learnedIds
  {
  }

  /** The learn view and the collection agree on one character id. */
  predicate Agrees(m: Marks, id: int) {
    id in m.learnedIds <==> HasId(m.treasures, id)
  }

  /** Toggling any character keeps every agreement that held. */
  lemma TogglePreservesAgreement(m: Marks, c: Character, id: int)
    requires Agrees(m, id)
    ensures Agrees(ToggleLearned(m, c), id)
  {
  }

  // ---------------------------------------------------------------------
  // Learn marks seeded on level selection (src/App.jsx:95-96)
  // ---------------------------------------------------------------------

  /** `level.characters.filter(c => treasures.find(t => t.id === c.id)).map(c => c.id)`:
      the ids of the level's characters that are treasures, in level order. */
  function LearnedInLevel(chars: seq<Character>, ts: seq<Character>): (r: seq<int>)
    ensures forall id :: id in r <==> HasId(chars, id) && HasId(ts, id)
    ensures |r| <= |chars|
  {
    if chars == [] then []
    else
      var tail := LearnedInLevel(chars[1..], ts);
      assert forall id :: HasId(chars, id) <==> chars[0].id == id || HasId(chars[1..], id) by {
        forall id ensures HasId(chars, id) <==> chars[0].id == id || HasId(chars[1..], id) {
          if HasId(chars, id) && chars[0].id != id {
            var k :| 0 <= k < |chars| && chars[k].id == id;
            assert chars[1..][k - 1].id == id;
          }
          if HasId(chars[1..], id) {
            var k :| 0 <= k < |chars[1..]| && chars[1..][k].id == id;
            assert chars[k + 1].id == id;
          }
        }
      }
      (if HasId(ts, chars[0].id) then [chars[0].id] else []) + tail
  }

  /** With unique character ids in the level, the seeded marks are unique too. */
  lemma {:induction false} LearnedInLevelNoDuplicates(chars: seq<Character>, ts: seq<Character>)
    requires UniqueIds(chars)
    ensures NoDuplicates(LearnedInLevel(chars, ts))
  {
    if chars != [] {
      LearnedInLevelNoDuplicates(chars[1..], ts);
      var tail := LearnedInLevel(chars[1..], ts);
      assert chars[0].id !in tail;
    }
  }

  /** The seeded marks keep the level's order: the marks of a split level
      are the marks of its first part followed by those of the rest. */
  lemma {:induction false} LearnedInLevelAppend(a: seq<Character>, b: seq<Character>, ts: seq<Character>)
    ensures LearnedInLevel(a + b, ts) == LearnedInLevel(a, ts) + LearnedInLevel(b, ts)
  {
    if a == [] {
      assert a + b == b;
    } else {
      var ab := a + b;
      assert ab[0] == a[0] && ab[1..] == a[1..] + b;
      LearnedInLevelAppend(a[1..], b, ts);
    }
  }

  /** Right after a level is selected, every one of its characters is marked
      exactly when it is a treasure, which is the precondition of the
      toggle round trip. */
  lemma SelectionAgrees(chars: seq<Character>, ts: seq<Character>, k: nat)
    requires k < |chars|
    ensures Agrees(Marks(LearnedInLevel(chars, ts), ts), chars[k].id)
  {
    assert HasId(chars, chars[k].id);
  }

  // ---------------------------------------------------------------------
  // Unlocking (handleStoryFinish, src/App.jsx:143-147)
  // ---------------------------------------------------------------------

  /** The curriculum branch of `handleStoryFinish` on `unlockedLevels`:
      append `levelId + 1` when such a level exists and it is not yet
      unlocked. */
  function UnlockNext(unlocked: seq<int>, levelId: int, levels: seq<Level>): (r: seq<int>)
    ensures unlocked <= r
    ensures r == unlocked || r == unlocked + [levelId + 1]
    ensures levelId + 1 in r <==> levelId + 1 in unlocked || FindLevel(levels, levelId + 1).Some?
  {
    var next := levelId + 1;
    if FindLevel(levels, next).Some? && next !in unlocked then unlocked + [next] else unlocked
  }

  /** No unlock has skipped a predecessor. */
  predicate Contiguous(unlocked: seq<int>) {
    forall k :: k in unlocked && k > 1 ==> k - 1 in unlocked
  }

  /** Unlocking after a level that is itself unlocked keeps the list free of
      duplicates and contiguous. */
  lemma UnlockNextPreserves(unlocked: seq<int>, levelId: int, levels: seq<Level>)
    requires levelId in unlocked
    ensures NoDuplicates(unlocked) ==> NoDuplicates(UnlockNext(unlocked, levelId, levels))
    ensures Contiguous(unlocked) ==> Contiguous(UnlockNext(unlocked, levelId, levels))
  {
    var r := UnlockNext(unlocked, levelId, levels);
    if r != unlocked && NoDuplicates(unlocked) {
      forall i, j | 0 <= i < j < |r| ensures r[i] != r[j] {
        if j == |unlocked| { assert r[i] in unlocked; }
      }
    }
  }

  /** Finishing the same story again changes nothing. */
  lemma UnlockNextIdempotent(unlocked: seq<int>, levelId: int, levels: seq<Level>)
    ensures UnlockNext(UnlockNext(unlocked, levelId, levels), levelId, levels) == UnlockNext(unlocked, levelId, levels)
  {
  }

  /** Over the shipped curriculum, finishing level `id`'s story leaves
      `id + 1` unlocked exactly when it already was, or `id` is one of
      0..16 (so that a level `id + 1` exists). */
  lemma UnlockNextInCurriculum(unlocked: seq<int>, levelId: int)
    ensures levelId + 1 in UnlockNext(unlocked, levelId, Levels) <==> levelId + 1 in unlocked || 0 <= levelId < 17
  {
    LevelsWellFormed();
    LevelExistsIff(Levels, levelId + 1);
  }

  /** Finishing level 1 from the initial state unlocks level 2; finishing it
      again leaves the list unchanged. */
  lemma FinishFirstLevelTwice()
    ensures UnlockNext([1], 1, Levels) == [1, 2]
    ensures UnlockNext([1, 2], 1, Levels) == [1, 2]
  {
    UnlockNextInCurriculum([1], 1);
  }

  // ---------------------------------------------------------------------
  // Map badges (src/App.jsx:315-317)
  // ---------------------------------------------------------------------

  predicate IsUnlocked(unlocked: seq<int>, id: int) { id in unlocked }
  predicate IsCompleted(unlocked: seq<int>, id: int) { id + 1 in unlocked }
  predicate IsCurrentPlaying(unlocked: seq<int>, id: int) {
    IsUnlocked(unlocked, id) && !IsCompleted(unlocked, id)
  }

  /** A level counts as completed only once its successor is unlocked; with
      a contiguous list this implies the level itself is unlocked. */
  lemma CompletedIsUnlocked(unlocked: seq<int>, id: int)
    requires Contiguous(unlocked) && id >= 1
    ensures IsCompleted(unlocked, id) ==> IsUnlocked(unlocked, id)
  {
  }

  /** When levels 1..k are exactly the unlocked ones, the level highlighted as
      the one being played is level k and no other. */
  lemma CurrentPlayingIsFrontier(unlocked: seq<int>, k: int, id: int)
    requires forall j :: j in unlocked <==> 1 <= j <= k
    ensures IsCurrentPlaying(unlocked, id) <==> 1 <= k && id == k
  {
  }

  // ---------------------------------------------------------------------
  // Saved AI stories (src/App.jsx:160-177)
  // ---------------------------------------------------------------------

  /** A generated story with the id and date the controller stamps on it. */
  datatype SavedStory = SavedStory(story: Story, id: int, date: string)

  /** `stories.filter(s => s.id !== id)`. */
  function WithoutStory(stories: seq<SavedStory>, id: int): (r: seq<SavedStory>)
    ensures forall s :: multiset(r)[s] == if s.id == id then 0 else multiset(stories)[s]
    ensures forall s :: s in r ==> s.id != id
    ensures (forall s :: s in stories ==> s.id != id) ==> r == stories
  {
    if stories == [] then []
    else
      var tail := WithoutStory(stories[1..], id);
      assert stories == [stories[0]] + stories[1..];
      if stories[0].id == id then tail else [stories[0]] + tail
  }

  /** Deleting a story right after generating it, under an id no other
      story has, gives back the library as it was. */
  lemma DeleteUndoesGenerate(stories: seq<SavedStory>, story: Story, id: int, date: string)
    requires forall s :: s in stories ==> s.id != id
    ensures WithoutStory([SavedStory(story, id, date)] + stories, id) == stories
  {
    var all := [SavedStory(story, id, date)] + stories;
    assert all[1..] == stories;
  }

  /** The filter keeps the library's newest-first order: deleting from a
      split library deletes from each part. */
  lemma {:induction false} WithoutStoryAppend(a: seq<SavedStory>, b: seq<SavedStory>, id: int)
    ensures WithoutStory(a + b, id) == WithoutStory(a, id) + WithoutStory(b, id)
  {
    if a != [] {
      var ab := a + b;
      assert ab[0] == a[0] && ab[1..] == a[1..] + b;
      WithoutStoryAppend(a[1..], b, id);
    } else {
      assert a + b == b;
    }
  }
}
