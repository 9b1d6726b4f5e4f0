/** Answer checking, scoring and progress queries over the shared game state
    (puzzle_manager.py). */
module PuzzleManagerModel {
  import opened PyText
  import opened GameStateModel

  /** `answers`: the canonical answer of each puzzle. */
  function Answers(): map<int, string> {
    map[1 := "river", 2 := "bread", 3 := "forest", 4 := "children", 5 := "brick house"]
  }

  /** The comparison `check_answer` makes: lower-cased, then stripped. */
  function Normalize(answer: string): (r: string)
    ensures |r| <= |answer|
    ensures r == [] || (!IsSpace(r[0]) && !IsSpace(r[|r| - 1]))
    ensures forall i :: 0 <= i < |r| ==> !IsUpper(r[i])
  {
    var lower := Lower(answer);
    StripKeepsLower(lower);
    Strip(lower)
  }

  /** `Strip` only drops characters, so it brings back no capital. */
  lemma StripKeepsLower(s: string)
    requires forall i :: 0 <= i < |s| ==> !IsUpper(s[i])
    ensures forall i :: 0 <= i < |Strip(s)| ==> !IsUpper(Strip(s)[i])
  {
    var left := StripLeft(s);
    InnerSliceLower(s, |s| - |left|, |StripRight(left)|);
  }

  lemma InnerSliceLower(s: string, k: int, n: int)
    requires 0 <= k <= k + n <= |s|
    requires forall i :: 0 <= i < |s| ==> !IsUpper(s[i])
    ensures forall i :: 0 <= i < n ==> !IsUpper(s[k..][..n][i])
  {
  }

  /** Points a correct answer earns: 100, plus 50 when no hint was recorded
      for the puzzle. */
  function RewardFor(hintLevel: int): (points: int)
    ensures points == 150 || points == 100
    ensures points == 150 <==> hintLevel == 0
  {
    100 + (if hintLevel == 0 then 50 else 0)
  }

  const WrongAnswerPenalty: int := -10

  /** Joins the lines of a triple-quoted description: every line after the
      first carries the twelve spaces of the source's indentation. */
  function Indented(lines: seq<string>): string {
    if |lines| == 0 then ""
    else if |lines| == 1 then lines[0]
    else Indented(lines[..|lines| - 1]) + "\n            " + lines[|lines| - 1]
  }

  function Descriptions(): map<int, string> {
    map[
      1 := Indented(["最古の暗号装置が起動しました。", "この装置は、文字を2桁の数字に変換する",
                     "シンプルな機構を持っています。", "", "解読のヒント:",
                     "- 2桁の数字は1つのアルファベットに対応", "- 変換表を参考に規則性を見つけ出せ",
                     "- 意味のある英単語になるはず"]),
      2 := Indented(["パターン解析装置が起動しました。", "入力された数値が特定のパターンで変換されています。",
                     "", "解読のヒント:", "- 変換パターンを解析せよ", "- 各数字は文字に対応",
                     "- 日常生活で見かけるものを表す単語"]),
      3 := Indented(["円環暗号装置が起動しました。", "この装置は文字を円環状に配置し、",
                     "回転させることで暗号化を行います。", "", "解読のヒント:", "- 外側の環は数字を表示",
                     "- 内側の環は文字を表示", "- 環を回転させることで対応が変化"]),
      4 := Indented(["二重暗号システムが起動しました。", "この装置は2つのダイヤルで異なる文字グループを",
                     "暗号化しています。", "", "解読のヒント:", "- 赤のダイヤル: 前半4文字を担当",
                     "- 青のダイヤル: 後半4文字を担当", "- 各ダイヤルは特定の文字グループのみ使用"]),
      5 := Indented(["最終暗号装置が起動しました。", "この装置は3つのモードを組み合わせた",
                     "最も高度な暗号化システムです。", "", "解読のヒント:", "- 2つの単語で構成される",
                     "- 建物に関する表現", "- モードの組み合わせを考えよ"])
    ]
  }

  /** `get_puzzle_description`: the static text, or "" for an unknown id. */
  function PuzzleDescription(id: int): (d: string)
    ensures id !in AllIds() <==> d == ""
  {
    if id in Descriptions() then Descriptions()[id] else ""
  }

  /** The generator sum of `calculate_progress`: one for each id of `ids`
      that is solved. */
  function CountSolved(ids: seq<int>, solved: set<int>): nat {
    if ids == [] then 0
    else CountSolved(ids[..|ids| - 1], solved) + (if ids[|ids| - 1] in solved then 1 else 0)
  }

  /** Over distinct ids the sum is the number of solved ids among them. */
  lemma {:induction false} CountSolvedIsSize(ids: seq<int>, solved: set<int>)
    requires forall i, j :: 0 <= i < j < |ids| ==> ids[i] != ids[j]
    ensures CountSolved(ids, solved) == |Elements(ids) * solved|
  {
    if ids != [] {
      var init, last := ids[..|ids| - 1], ids[|ids| - 1];
      CountSolvedIsSize(init, solved);
      ElementsGrow(ids);
      AddOne(Elements(init), last, solved);
    }
  }

  /** Adding a new id to a set of ids adds one to the solved ones among them
      exactly when that id is solved. */
  lemma AddOne(a: set<int>, x: int, solved: set<int>)
    requires x !in a
    ensures |(a + {x}) * solved| == |a * solved| + (if x in solved then 1 else 0)
  {
    if x in solved {
      assert (a + {x}) * solved == (a * solved) + {x};
    } else {
      assert (a + {x}) * solved == a * solved;
    }
  }

  /** The ids of all but the last position, and the last one, which is new. */
  lemma ElementsGrow(ids: seq<int>)
    requires ids != []
    requires forall i, j :: 0 <= i < j < |ids| ==> ids[i] != ids[j]
    ensures Elements(ids) == Elements(ids[..|ids| - 1]) + {ids[|ids| - 1]}
    ensures ids[|ids| - 1] !in Elements(ids[..|ids| - 1])
  {
    var init := ids[..|ids| - 1];
    assert forall i :: 0 <= i < |init| ==> init[i] == ids[i];
  }

  /** The numerator of `calculate_progress`, iterating the answer ids in order. */
  function SolvedCount(solved: set<int>): (n: nat)
    ensures n == |AllIds() * solved|
    ensures n <= 5
    ensures n == 0 <==> AllIds() !! solved
    ensures n == 5 <==> AllIds() <= solved
  {
    var ids := [1, 2, 3, 4, 5];
    assert Elements(ids) == AllIds();
    CountSolvedIsSize(ids, solved);
    SubsetSize(AllIds() * solved, AllIds());
    assert AllIds() * solved == AllIds() ==> AllIds() <= solved;
    CountSolved(ids, solved)
  }

  lemma SubsetSize(a: set<int>, b: set<int>)
    requires a <= b
    ensures |a| <= |b|
    ensures |a| == |b| ==> a == b
  {
    assert b == a + (b - a);
    assert a * (b - a) == {};
  }

  /** `is_all_completed`: compares the size of the solved set with five. */
  function AllCompleted(solved: set<int>): (b: bool)
    ensures solved <= AllIds() ==> (b <==> solved == AllIds())
  {
    assert Answers().Keys == AllIds();
    if solved <= AllIds() then SubsetSize(solved, AllIds()); |solved| == |Answers()|
    else |solved| == |Answers()|
  }

  /** `get_remaining_puzzles`: the ids not yet solved. */
  function RemainingPuzzles(solved: set<int>): (r: set<int>)
    ensures r <= AllIds() && r !! solved
    ensures r + (AllIds() * solved) == AllIds()
  {
    Answers().Keys - solved
  }

  /** While only puzzle ids are solved, "all completed" means that nothing
      remains and that the progress count is five. */
  lemma CompletedMeansNothingRemains(solved: set<int>)
    requires solved <= AllIds()
    ensures AllCompleted(solved) <==> RemainingPuzzles(solved) == {}
    ensures AllCompleted(solved) <==> SolvedCount(solved) == 5
  {
    assert Answers().Keys == AllIds();
    assert |AllIds()| == 5;
    SubsetSize(solved, AllIds());
  }

  /** A solved set holding an id outside 1..5 can count as complete while a
      puzzle still remains. */
  lemma CompletedBySizeOnly()
    ensures AllCompleted({1, 2, 3, 4, 7}) && RemainingPuzzles({1, 2, 3, 4, 7}) == {5}
  {
    assert |{1, 2, 3, 4, 7}| == 5;
  }

  class PuzzleManager {
    const game: GameState

    constructor (game: GameState)
      ensures this.game == game
    {
      this.game := game;
    }

    /** `check_answer`: an unknown id is refused and scores nothing; otherwise
        the normalised answer is compared with the canonical one, a correct
        answer earns `RewardFor` the puzzle's hint level and a wrong one costs
        10. Only the score changes. */
    method CheckAnswer(id: int, answer: string) returns (correct: bool)
      requires game.Valid()
      modifies game
      ensures game.Valid()
      ensures correct <==> id in Answers() && Normalize(answer) == Answers()[id]
      ensures id !in Answers() ==> game.score == old(game.score)
      ensures correct ==> game.score == old(game.score) + RewardFor(old(game.hintLevels)[id])
      ensures !correct && id in Answers() ==> game.score == old(game.score) + WrongAnswerPenalty
      ensures game.solvedPuzzles == old(game.solvedPuzzles)
      ensures game.hintsRemaining == old(game.hintsRemaining)
      ensures game.startTime == old(game.startTime)
    {
      if id !in Answers() {
        return false;
      }
      correct := Normalize(answer) == Answers()[id];
      if correct {
        game.UpdateScore(100);
        if game.hintLevels[id] == 0 {
          game.UpdateScore(50);
        }
      } else {
        game.UpdateScore(WrongAnswerPenalty);
      }
    }

    function CalculateProgress(): (n: nat)
      reads game
      ensures n == |AllIds() * game.solvedPuzzles| && n <= 5
    {
      SolvedCount(game.solvedPuzzles)
    }

    function IsAllCompleted(): (b: bool)
      reads game
      ensures game.solvedPuzzles <= AllIds() ==> (b <==> game.solvedPuzzles == AllIds())
      ensures game.solvedPuzzles <= AllIds() ==> (b <==> GetRemainingPuzzles() == {})
    {
      AllCompleted(game.solvedPuzzles)
    }

    function GetRemainingPuzzles(): (r: set<int>)
      reads game
      ensures r == AllIds() - game.solvedPuzzles
    {
      RemainingPuzzles(game.solvedPuzzles)
    }
  }

  /** `check_answer(1, "RIVER")` and `check_answer(1, "River")` are correct. */
  lemma CaseFoldedRiver()
    ensures Normalize("RIVER") == "river" && Normalize("River") == "river"
  {
    NormalizeLowerWord("river");
    LowerExample("RIVER", "river");
    LowerExample("River", "river");
  }

  /** `check_answer(1, " river ")` is correct: surrounding blanks are stripped. */
  lemma PaddedRiver()
    ensures Normalize(" river ") == "river"
  {
    var padded := " river ";
    assert padded == " " + "river" + " ";
    LowerExample(padded, padded);
    StripAround(" ", "river", " ");
  }

  /** `check_answer(1, "rivers")` is wrong. */
  lemma LongerWordRejected()
    ensures Normalize("rivers") != Answers()[1]
  {
    NormalizeLowerWord("rivers");
  }

  /** A word of lower-case letters is its own normal form. */
  lemma NormalizeLowerWord(w: string)
    requires w != [] && forall i :: 0 <= i < |w| ==> 'a' <= w[i] <= 'z'
    ensures Normalize(w) == w
  {
    LowerWord(w);
    LetterNotSpace(w[0]);
    LetterNotSpace(w[|w| - 1]);
    StripWord(w);
  }

  lemma LowerWord(w: string)
    requires forall i :: 0 <= i < |w| ==> 'a' <= w[i] <= 'z'
    ensures Lower(w) == w
  {
  }

  lemma LetterNotSpace(c: char)
    requires 'a' <= c <= 'z'
    ensures !IsSpace(c)
  {
  }

  lemma LowerExample(s: string, r: string)
    requires |s| == |r| && forall i :: 0 <= i < |s| ==> LowerChar(s[i]) == r[i]
    ensures Lower(s) == r
  {
  }

  /** Because `use_hint` never records a hint in `hint_levels`, the bonus is
      still paid after hints were taken: a correct answer always earns 150. */
  method HintedAnswerStillEarnsBonus(g: GameState, m: PuzzleManager)
    requires g.Valid() && m.game == g
    modifies g
    ensures g.score == old(g.score) + 150
  {
    var h := g.UseHint(1);
    NormalizeLowerWord("river");
    var ok := m.CheckAnswer(1, "river");
  }
}
