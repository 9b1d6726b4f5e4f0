/** Puzzle 4: two dials, red and blue, each selecting a four-letter fragment
    of the answer (puzzles/dual_dial.py). Only the selection logic is
    modelled; the labels and the success banner are widgets. */
module DualDialModel {
  import opened PyText

  /** `red_options`: the fragment each red button stands for. */
  function RedOptions(): map<string, string> {
    map["A" := "chil", "B" := "kids", "C" := "play", "D" := "chil"]
  }

  /** `blue_options`: the fragment each blue button stands for. */
  function BlueOptions(): map<string, string> {
    map["W" := "dren", "X" := "ding", "Y" := "time", "Z" := "dren"]
  }

  /** `options.get(selection, '')`: the fragment of a selection, or "" when
      nothing is selected or the selection is not in the table. */
  function Fragment(options: map<string, string>, selection: Option<string>): (w: string)
    ensures selection.Some? && selection.value in options ==> w == options[selection.value]
    ensures selection.None? || selection.value !in options ==> w == ""
  {
    if selection.Some? && selection.value in options then options[selection.value] else ""
  }

  /** Every fragment in either table has four letters. */
  lemma FragmentLength(options: map<string, string>, selection: Option<string>)
    requires options == RedOptions() || options == BlueOptions()
    ensures |Fragment(options, selection)| == 0 || |Fragment(options, selection)| == 4
  {
    if selection.Some? && selection.value in options {
      var k := selection.value;
      assert options == RedOptions() ==> k == "A" || k == "B" || k == "C" || k == "D";
      assert options == BlueOptions() ==> k == "W" || k == "X" || k == "Y" || k == "Z";
    }
  }

  /** `get_combined_word`: the red fragment followed by the blue one; it has
      0, 4 or 8 letters. */
  function Combined(red: Option<string>, blue: Option<string>): (w: string)
    ensures |w| == 0 || |w| == 4 || |w| == 8
  {
    FragmentLength(RedOptions(), red);
    FragmentLength(BlueOptions(), blue);
    Fragment(RedOptions(), red) + Fragment(BlueOptions(), blue)
  }

  /** `is_correct_combination`: red D together with blue Z. */
  predicate IsCorrect(red: Option<string>, blue: Option<string>) {
    red == Some("D") && blue == Some("Z")
  }

  /** The combined word spells "children" exactly when red is A or D and
      blue is W or Z. */
  lemma ChildrenIff(red: Option<string>, blue: Option<string>)
    ensures Combined(red, blue) == "children" <==>
              (red == Some("A") || red == Some("D")) && (blue == Some("W") || blue == Some("Z"))
  {
    var r, b := Fragment(RedOptions(), red), Fragment(BlueOptions(), blue);
    FragmentLength(RedOptions(), red);
    FragmentLength(BlueOptions(), blue);
    if Combined(red, blue) == "children" {
      assert |r| == 4 && |b| == 4;
      assert r == "children"[..4] == "chil";
      assert b == "children"[4..] == "dren";
      var rk, bk := red.value, blue.value;
      assert rk in RedOptions() && bk in BlueOptions();
      assert rk == "A" || rk == "B" || rk == "C" || rk == "D";
      assert bk == "W" || bk == "X" || bk == "Y" || bk == "Z";
      assert RedOptions()["B"] != "chil" && RedOptions()["C"] != "chil";
      assert BlueOptions()["X"] != "dren" && BlueOptions()["Y"] != "dren";
    } else {
      assert red == Some("A") ==> r == "chil";
      assert red == Some("D") ==> r == "chil";
      assert blue == Some("W") ==> b == "dren";
      assert blue == Some("Z") ==> b == "dren";
      assert "chil" + "dren" == "children";
    }
  }

  /** A winning pair spells "children", but three other pairs spell it too
      without winning. */
  lemma CorrectPairAmongSpellings()
    ensures IsCorrect(Some("D"), Some("Z")) && Combined(Some("D"), Some("Z")) == "children"
    ensures Combined(Some("A"), Some("W")) == "children" && !IsCorrect(Some("A"), Some("W"))
    ensures Combined(Some("A"), Some("Z")) == "children" && !IsCorrect(Some("A"), Some("Z"))
    ensures Combined(Some("D"), Some("W")) == "children" && !IsCorrect(Some("D"), Some("W"))
  {
    ChildrenIff(Some("D"), Some("Z"));
    ChildrenIff(Some("A"), Some("W"));
    ChildrenIff(Some("A"), Some("Z"));
    ChildrenIff(Some("D"), Some("W"));
  }

  /** Of the sixteen button pairs, only D with Z wins. */
  lemma OnePairWins()
    ensures (set r, b | r in RedOptions() && b in BlueOptions() && IsCorrect(Some(r), Some(b)) :: (r, b))
            == {("D", "Z")}
  {
    var wins := set r, b | r in RedOptions() && b in BlueOptions() && IsCorrect(Some(r), Some(b)) :: (r, b);
    assert ("D", "Z") in wins by {
      assert "D" in RedOptions() && "Z" in BlueOptions();
    }
  }

  class DualDialCipher {
    var selectedRed: Option<string>
    var selectedBlue: Option<string>
    const redOptions: map<string, string>
    const blueOptions: map<string, string>

    ghost predicate Valid()
      reads this
    {
      redOptions == RedOptions() && blueOptions == BlueOptions()
    }

    /** Both dials start unselected. */
    constructor ()
      ensures Valid()
      ensures selectedRed == None && selectedBlue == None
    {
      selectedRed := None;
      selectedBlue := None;
      redOptions := RedOptions();
      blueOptions := BlueOptions();
    }

    /** `_update_dial`: the "red" dial stores the option as the red
        selection, any other dial type as the blue one, even an option the
        table does not know. Returns the fragment shown on that dial and
        whether the success banner appears. Only the "red" and "blue" dials
        have a display: for any other dial type the display lookup raises
        and the handler ends before the win check. */
    method UpdateDial(dialType: string, option: string) returns (word: string, success: bool)
      requires Valid()
      modifies this
      ensures Valid()
      ensures dialType == "red" ==>
                selectedRed == Some(option) && selectedBlue == old(selectedBlue) &&
                word == Fragment(RedOptions(), Some(option))
      ensures dialType != "red" ==>
                selectedBlue == Some(option) && selectedRed == old(selectedRed) &&
                word == Fragment(BlueOptions(), Some(option))
      ensures success <==> (dialType == "red" || dialType == "blue") &&
                           selectedRed == Some("D") && selectedBlue == Some("Z")
    {
      if dialType == "red" {
        selectedRed := Some(option);
        word := if option in redOptions then redOptions[option] else "";
      } else {
        selectedBlue := Some(option);
        word := if option in blueOptions then blueOptions[option] else "";
      }
      success := (dialType == "red" || dialType == "blue") && IsCorrectCombination();
    }

    /** `is_correct_combination`; a winning selection always spells the
        answer "children". */
    function IsCorrectCombination(): (ok: bool)
      reads this
      ensures ok ==> Combined(selectedRed, selectedBlue) == "children"
    {
      ChildrenIff(selectedRed, selectedBlue);
      IsCorrect(selectedRed, selectedBlue)
    }

    function GetCombinedWord(): (w: string)
      reads this
      requires Valid()
      ensures w == Combined(selectedRed, selectedBlue)
    {
      var red := if selectedRed.Some? && selectedRed.value in redOptions
                 then redOptions[selectedRed.value] else "";
      var blue := if selectedBlue.Some? && selectedBlue.value in blueOptions
                  then blueOptions[selectedBlue.value] else "";
      red + blue
    }
  }

  /** Pressing red D then blue Z wins on the second press. */
  method WinningPresses(d: DualDialCipher)
    requires d.Valid()
    modifies d
    ensures d.IsCorrectCombination() && d.GetCombinedWord() == "children"
  {
    var w1, s1 := d.UpdateDial("red", "D");
    var w2, s2 := d.UpdateDial("blue", "Z");
    assert s2;
  }
}
