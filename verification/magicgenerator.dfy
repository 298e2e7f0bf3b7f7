/**
 * The story composer of src/MagicGenerator.jsx: the child picks two to four
 * characters from the treasure box and asks for a story. The story service
 * itself (src/gemini.js) is not part of this model; its answer arrives as
 * the argument of `Deliver`.
 */
module MagicGenerator {
  import opened Data
  import opened Progression

  const MaxSelected: nat := 4
  const MinSelected: nat := 2

  /** `toggleSelect(char)`: a selected character is deselected; otherwise it
      is appended unless four are already chosen. */
  function ToggleSelection(sel: seq<string>, ch: string): (r: seq<string>)
    ensures ch in sel ==> multiset(r) == multiset(sel)[ch := 0]
    ensures ch !in sel && |sel| >= MaxSelected ==> r == sel
    ensures ch !in sel && |sel| < MaxSelected ==> r == sel + [ch]
  {
    if ch in sel then WithoutValue(sel, ch)
    else if |sel| >= MaxSelected then sel
    else sel + [ch]
  }

  /** Selections stay within four characters and never repeat one. */
  lemma ToggleSelectionKeepsBounds(sel: seq<string>, ch: string)
    requires |sel| <= MaxSelected && NoDuplicates(sel)
    ensures |ToggleSelection(sel, ch)| <= MaxSelected
    ensures NoDuplicates(ToggleSelection(sel, ch))
  {
    var r := ToggleSelection(sel, ch);
    if ch in sel {
      WithoutValueSubsequence(sel, ch);
    }
  }

  /** Picking a fresh character and tapping it again undoes the pick. */
  lemma ToggleSelectionTwice(sel: seq<string>, ch: string)
    requires ch !in sel && |sel| < MaxSelected
    ensures ToggleSelection(ToggleSelection(sel, ch), ch) == sel
  {
    assert ch in sel + [ch];
    WithoutValueAppend(sel, [ch], ch);
    assert WithoutValue([ch], ch) == [];
  }

  /** The generate button is enabled from two characters on (src/MagicGenerator.jsx:105). */
  predicate CanGenerate(sel: seq<string>) { |sel| >= MinSelected }

  class Generator {
    var selectedChars: seq<string>
    var isLoading: bool
    /** The characters of a request in flight, if any. */
    var request: seq<string>

    constructor ()
      ensures selectedChars == [] && !isLoading && request == []
    {
      selectedChars := [];
      isLoading := false;
      request := [];
    }

    /** A tap on a treasure (src/MagicGenerator.jsx:13-20); the picker is
        only on screen while no request is in flight. */
    method ToggleSelect(ch: string)
      requires !isLoading
      modifies this`selectedChars
      ensures selectedChars == ToggleSelection(old(selectedChars), ch)
      ensures old(|selectedChars| <= MaxSelected && NoDuplicates(selectedChars)) ==>
                |selectedChars| <= MaxSelected && NoDuplicates(selectedChars)
    {
      if |selectedChars| <= MaxSelected && NoDuplicates(selectedChars) {
        ToggleSelectionKeepsBounds(selectedChars, ch);
      }
      if ch in selectedChars {
        selectedChars := WithoutValue(selectedChars, ch);
      } else {
        if |selectedChars| >= MaxSelected {
          return;
        }
        selectedChars := selectedChars + [ch];
      }
    }

    /** `handleGenerate` up to its `await` (src/MagicGenerator.jsx:23-27):
        with fewer than two characters nothing happens; otherwise the
        loading screen replaces the picker and the request goes out. */
    method HandleGenerate() returns (started: bool)
      requires !isLoading
      modifies this`isLoading, this`request
      ensures started <==> CanGenerate(selectedChars)
      ensures started ==> isLoading && request == selectedChars
      ensures !started ==> !isLoading && request == old(request)
    {
      if |selectedChars| < MinSelected {
        return false;
      }
      isLoading := true;
      request := selectedChars;
      started := true;
    }

    /** The rest of `handleGenerate` (src/MagicGenerator.jsx:28-31): the
        answer ends the loading screen and is handed to the session. */
    method Deliver(answer: Story) returns (generated: Story)
      requires isLoading
      modifies this`isLoading
      ensures !isLoading && generated == answer
    {
      isLoading := false;
      generated := answer;
    }
  }
}
