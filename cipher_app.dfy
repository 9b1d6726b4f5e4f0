/** The game flow the window of cipher_app.py drives: slide navigation,
    the answer checks the slides call, and the score cost of a hint. Widgets,
    sounds, animations and the progress file are not modelled. */
module CipherAppModel {
  import opened PyText
  import opened GameStateModel
  import opened PuzzleManagerModel

  /** `len(self.slides)`: the intro, five puzzles and the closing slide. */
  const SlideCount: int := 7

  /** The slide `next_slide` shows from slide `i`. */
  function NextIndex(i: int): (j: int)
    ensures i < SlideCount - 1 ==> j == i + 1
    ensures i >= SlideCount - 1 ==> j == i
  {
    if i < SlideCount - 1 then i + 1 else i
  }

  /** The slide `prev_slide` shows from slide `i`. */
  function PrevIndex(i: int): (j: int)
    ensures i > 0 ==> j == i - 1
    ensures i <= 0 ==> j == i
  {
    if i > 0 then i - 1 else i
  }

  /** `k` presses of the next button. */
  function Forward(i: int, k: nat): int {
    if k == 0 then i else NextIndex(Forward(i, k - 1))
  }

  /** From any slide, `k` presses of "next" advance `k` slides but never
      past the last one. */
  lemma {:induction false} ForwardStopsAtEnd(i: int, k: nat)
    requires 0 <= i < SlideCount
    ensures Forward(i, k) == Min(i + k, SlideCount - 1)
  {
    if k > 0 {
      ForwardStopsAtEnd(i, k - 1);
    }
  }

  /** "Previous" undoes "next" except on the last slide, and "next" undoes
      "previous" except on the first. */
  lemma PrevUndoesNext(i: int)
    requires 0 <= i < SlideCount
    ensures i < SlideCount - 1 ==> PrevIndex(NextIndex(i)) == i
    ensures i > 0 ==> NextIndex(PrevIndex(i)) == i
  {
  }

  /** The answer the slides accept: `answer.lower()` without stripping. */
  predicate UiAccepts(id: int, answer: string)
    requires id in Answers()
  {
    Lower(answer) == Answers()[id]
  }

  /** Every answer the slides accept is accepted by `PuzzleManager` as well,
      but not conversely: " river" passes there and fails here. */
  lemma UiStricterThanManager(id: int, answer: string)
    requires id in Answers()
    ensures UiAccepts(id, answer) ==> Normalize(answer) == Answers()[id]
  {
    var w := Answers()[id];
    assert w[0] != ' ' && w[|w| - 1] != ' ';
    assert 'a' <= w[0] <= 'z' && 'a' <= w[|w| - 1] <= 'z';
    LetterNotSpace(w[0]);
    LetterNotSpace(w[|w| - 1]);
    StripWord(w);
  }

  lemma LeadingBlankRejected()
    ensures !UiAccepts(1, " river")
    ensures Normalize(" river") == Answers()[1]
  {
    var padded := " river";
    LowerExample(padded, padded);
    assert padded[0] != Answers()[1][0];
    var none: string := [];
    assert padded == " " + "river" + none;
    StripAround(" ", "river", none);
  }

  class CipherApp {
    var currentSlide: int
    var solvedPuzzles: set<int>
    var animationEnabled: bool
    const game: GameState

    /** The slide index always names a slide. */
    ghost predicate Valid()
      reads this
    {
      0 <= currentSlide < SlideCount
    }

    /** The initial `self.state`: first slide, nothing solved, animations on. */
    constructor (game: GameState)
      ensures Valid()
      ensures currentSlide == 0 && solvedPuzzles == {} && animationEnabled
      ensures this.game == game
    {
      currentSlide := 0;
      solvedPuzzles := {};
      animationEnabled := true;
      this.game := game;
    }

    /** `show_slide`: an index outside the slides is ignored. */
    method ShowSlide(index: int)
      modifies this
      ensures 0 <= index < SlideCount ==> currentSlide == index
      ensures !(0 <= index < SlideCount) ==> currentSlide == old(currentSlide)
      ensures solvedPuzzles == old(solvedPuzzles) && animationEnabled == old(animationEnabled)
    {
      if !(0 <= index < SlideCount) {
        return;
      }
      currentSlide := index;
    }

    /** `next_slide` (the later definition, which replaces the earlier one):
        with or without the slide animation it shows the following slide,
        and does nothing on the last one. */
    method NextSlide()
      requires Valid()
      modifies this
      ensures Valid()
      ensures currentSlide == NextIndex(old(currentSlide))
      ensures solvedPuzzles == old(solvedPuzzles) && animationEnabled == old(animationEnabled)
    {
      if currentSlide < SlideCount - 1 {
        if animationEnabled {
          AnimateSlideTransition(true);
        } else {
          ShowSlide(currentSlide + 1);
        }
      }
    }

    /** `prev_slide` (the later definition): shows the preceding slide, and
        does nothing on the first one. */
    method PrevSlide()
      requires Valid()
      modifies this
      ensures Valid()
      ensures currentSlide == PrevIndex(old(currentSlide))
      ensures solvedPuzzles == old(solvedPuzzles) && animationEnabled == old(animationEnabled)
    {
      if currentSlide > 0 {
        if animationEnabled {
          AnimateSlideTransition(false);
        } else {
          ShowSlide(currentSlide - 1);
        }
      }
    }

    /** The index part of `animate_slide_transition`: one slide forward or
        back through `show_slide`. */
    method AnimateSlideTransition(next: bool)
      modifies this
      ensures var target := old(currentSlide) + (if next then 1 else -1);
              0 <= target < SlideCount ==> currentSlide == target
      ensures var target := old(currentSlide) + (if next then 1 else -1);
              !(0 <= target < SlideCount) ==> currentSlide == old(currentSlide)
      ensures solvedPuzzles == old(solvedPuzzles) && animationEnabled == old(animationEnabled)
    {
      var newIndex := currentSlide + (if next then 1 else -1);
      ShowSlide(newIndex);
    }

    /** `update_navigation_buttons`: whether "previous" and "next" are
        enabled. */
    function NavigationButtons(): (enabled: (bool, bool))
      reads this
      requires Valid()
      ensures enabled.0 <==> PrevIndex(currentSlide) != currentSlide
      ensures enabled.1 <==> NextIndex(currentSlide) != currentSlide
    {
      (currentSlide > 0, currentSlide < SlideCount - 1)
    }

    /** `check_answer` as the slides call it: a correct answer records the
        puzzle in the window's own solved set and earns 100, with no bonus;
        a wrong one costs 10. The id must be one of the five puzzles. The
        success path fails in `show_success_message` before it schedules
        `next_slide`, so the slide never moves. */
    method CheckAnswer(id: int, answer: string) returns (correct: bool)
      requires id in Answers()
      modifies this, game
      ensures correct <==> UiAccepts(id, answer)
      ensures correct ==> solvedPuzzles == old(solvedPuzzles) + {id} && game.score == old(game.score) + 100
      ensures !correct ==> solvedPuzzles == old(solvedPuzzles) && game.score == old(game.score) - 10
      ensures currentSlide == old(currentSlide)
      ensures game.solvedPuzzles == old(game.solvedPuzzles)
      ensures game.hintsRemaining == old(game.hintsRemaining)
      ensures game.hintLevels == old(game.hintLevels)
      ensures animationEnabled == old(animationEnabled) && game.startTime == old(game.startTime)
    {
      correct := Lower(answer) == Answers()[id];
      if correct {
        solvedPuzzles := solvedPuzzles + {id};
        game.UpdateScore(100);
      } else {
        game.UpdateScore(-10);
      }
    }

    /** `show_hint`: 50 points are taken only when a hint text comes back;
        a closed puzzle or an empty budget costs nothing, and neither does a
        failed text lookup, which ends the handler before the deduction. */
    method ShowHint(id: int) returns (r: HintUse)
      modifies game
      ensures r.Hint? && r.text != "" ==> game.score == old(game.score) - 50
      ensures !(r.Hint? && r.text != "") ==> game.score == old(game.score)
      ensures !CanAccess(old(game.solvedPuzzles), id) || old(game.hintsRemaining) <= 0 ==>
                r == NoHint && game.hintsRemaining == old(game.hintsRemaining)
      ensures CanAccess(old(game.solvedPuzzles), id) && old(game.hintsRemaining) > 0 ==>
                game.hintsRemaining == old(game.hintsRemaining) - 1 &&
                r == (match HintText(id, game.hintsRemaining)
                      case Some(t) => Hint(t)
                      case None => HintFault)
      ensures game.solvedPuzzles == old(game.solvedPuzzles)
      ensures game.hintLevels == old(game.hintLevels) && game.startTime == old(game.startTime)
    {
      r := game.UseHint(id);
      if r.Hint? && r.text != "" {
        game.UpdateScore(-50);
      }
    }

    /** `check_final_answer`: "brick house" in any letter case records
        puzzle 5; no score changes either way. */
    method CheckFinalAnswer(answer: string) returns (correct: bool)
      modifies this
      ensures correct <==> Lower(answer) == "brick house"
      ensures correct ==> solvedPuzzles == old(solvedPuzzles) + {5}
      ensures !correct ==> solvedPuzzles == old(solvedPuzzles)
      ensures currentSlide == old(currentSlide)
      ensures animationEnabled == old(animationEnabled)
    {
      correct := Lower(answer) == "brick house";
      if correct {
        solvedPuzzles := solvedPuzzles + {5};
      }
    }
  }

  /** On an open puzzle with hints left, a hint always costs 50 points. */
  method HintCostsFifty(app: CipherApp, id: int)
    requires CanAccess(app.game.solvedPuzzles, id)
    requires 1 <= app.game.hintsRemaining <= 3
    modifies app.game
    ensures app.game.score == old(app.game.score) - 50
    ensures app.game.hintsRemaining == old(app.game.hintsRemaining) - 1
  {
    var r := app.ShowHint(id);
    var left := app.game.hintsRemaining;
    assert HintText(id, left) == Some(Hints(id)[if left == 2 then 0 else 1]);
  }
}
