/** The player's progress: score, hint budget, solved puzzles and the fixed
    prerequisite graph that gates access to the five puzzles
    (src/backend/game_state.py). */
module GameStateModel {
  import opened PyText

  /** The five puzzle ids. */
  function AllIds(): set<int> { {1, 2, 3, 4, 5} }

  /** `puzzle_dependencies`: the puzzles that must be solved before each one. */
  function Dependencies(): map<int, set<int>> {
    map[1 := {}, 2 := {1}, 3 := {1, 2}, 4 := {3}, 5 := {4}]
  }

  /** Every prerequisite has a smaller id than the puzzle it gates, so the
      graph has no cycle, and it is defined exactly on the five ids. */
  lemma DependenciesAcyclic()
    ensures Dependencies().Keys == AllIds()
    ensures forall id, p :: id in Dependencies() && p in Dependencies()[id] ==> 1 <= p < id
  {
  }

  /** `can_access_puzzle`: known id whose prerequisites are all solved. */
  function CanAccess(solved: set<int>, id: int): (ok: bool)
    ensures id !in AllIds() ==> !ok
    ensures id == 1 ==> ok
  {
    id in Dependencies() && Dependencies()[id] <= solved
  }

  /** The gate, spelled out puzzle by puzzle along the chain 1, 2, 3, 4, 5. */
  lemma AccessChain(solved: set<int>, id: int)
    ensures CanAccess(solved, id) <==>
      (id == 1) ||
      (id == 2 && 1 in solved) ||
      (id == 3 && 1 in solved && 2 in solved) ||
      (id == 4 && 3 in solved) ||
      (id == 5 && 4 in solved)
  {
  }

  /** Solving more puzzles never closes a puzzle that was open. */
  lemma AccessMonotone(solved: set<int>, more: set<int>, id: int)
    requires solved <= more
    requires CanAccess(solved, id)
    ensures CanAccess(more, id)
  {
  }

  /** The two hints of each puzzle, from the vaguer to the more revealing. */
  function Hints(id: int): (hints: seq<string>)
    ensures id in AllIds() ==> |hints| == 2
    ensures id !in AllIds() ==> hints == []
    ensures forall k :: 0 <= k < |hints| ==> hints[k] != ""
  {
    match id
    case 1 => ["数字は1つのアルファベットに対応しています", "流れるものを考えてみましょう"]
    case 2 => ["パターンには規則性があります", "生活に欠かせないものです"]
    case 3 => ["円環の外側と内側は関連があります", "緑が多い場所です"]
    case 4 => ["2つのダイヤルの組み合わせを考えてください", "若い存在です"]
    case 5 => ["2つの単語で構成されています", "建物に関係します"]
    case _ => []
  }

  /** Python's `xs[i]`: a negative index counts from the end; `None` stands
      for the `IndexError` an index outside `-len(xs) .. len(xs) - 1` raises. */
  function PyIndex<T>(xs: seq<T>, i: int): (r: Option<T>)
    ensures r.Some? <==> -|xs| <= i < |xs|
    ensures 0 <= i < |xs| ==> r == Some(xs[i])
    ensures -|xs| <= i < 0 ==> r == Some(xs[|xs| + i])
  {
    if 0 <= i < |xs| then Some(xs[i])
    else if -|xs| <= i < 0 then Some(xs[|xs| + i])
    else None
  }

  function Min(a: int, b: int): int { if a <= b then a else b }

  /** `get_hint_text`: the hint index is derived from the global number of
      hints left, not from how many hints this puzzle has used. `None` is the
      `IndexError` of an unknown id or of five or more hints left. */
  function HintText(id: int, hintsRemaining: int): (r: Option<string>)
    ensures id !in AllIds() ==> r == None
    ensures id in AllIds() && hintsRemaining >= 5 ==> r == None
    ensures id in AllIds() && (hintsRemaining == 2 || hintsRemaining == 4) ==> r == Some(Hints(id)[0])
    ensures id in AllIds() && (hintsRemaining <= 1 || hintsRemaining == 3) ==> r == Some(Hints(id)[1])
  {
    var hints := Hints(id);
    var used := |hints| - hintsRemaining;
    PyIndex(hints, Min(used, |hints| - 1))
  }

  /** Within the budget the game starts with, the first hint is shown while
      two hints remain and the second one from then on. */
  lemma HintProgression(id: int)
    requires id in AllIds()
    ensures HintText(id, 2) == Some(Hints(id)[0])
    ensures HintText(id, 1) == Some(Hints(id)[1])
    ensures HintText(id, 0) == Some(Hints(id)[1])
  {
  }

  /** `hint_levels` as initialised: zero hints used on each of the five puzzles. */
  function InitialHintLevels(): map<int, int> {
    map id | id in AllIds() :: 0
  }

  /** The persisted document: `None` is a key the document does not hold.
      `solvedPuzzles` is the JSON list written from the solved set. */
  datatype SavedState = SavedState(
    score: Option<int>,
    hintsRemaining: Option<int>,
    solvedPuzzles: Option<seq<int>>,
    startTime: Option<real>)

  /** The four fields the document restores. */
  datatype Progress = Progress(score: int, hintsRemaining: int, solvedPuzzles: set<int>, startTime: real)

  function Elements(xs: seq<int>): set<int> { set x | x in xs }

  function GetOr<T>(o: Option<T>, default: T): T {
    match o
    case Some(v) => v
    case None => default
  }

  /** `load_state`'s reading of a document: each missing key takes its
      default (score 0, 3 hints, no puzzle solved, the current time `now`). */
  function Restore(doc: SavedState, now: real): (p: Progress)
    ensures doc.score.None? ==> p.score == 0
    ensures doc.hintsRemaining.None? ==> p.hintsRemaining == 3
    ensures doc.solvedPuzzles.None? ==> p.solvedPuzzles == {}
    ensures doc.startTime.None? ==> p.startTime == now
    ensures doc.solvedPuzzles.Some? ==> p.solvedPuzzles == Elements(doc.solvedPuzzles.value)
  {
    Progress(GetOr(doc.score, 0), GetOr(doc.hintsRemaining, 3),
             Elements(GetOr(doc.solvedPuzzles, [])), GetOr(doc.startTime, now))
  }

  /** `doc` is what `save_state` writes for the given fields: all four keys,
      the solved set as a list without repetitions in some order. */
  ghost predicate Records(doc: SavedState, p: Progress) {
    && doc.score == Some(p.score)
    && doc.hintsRemaining == Some(p.hintsRemaining)
    && doc.startTime == Some(p.startTime)
    && doc.solvedPuzzles.Some?
    && Elements(doc.solvedPuzzles.value) == p.solvedPuzzles
  }

  /** Saving and then loading gives back the same score, hint budget,
      solved set and start time, whatever order the list was written in. */
  lemma RoundTrip(doc: SavedState, p: Progress, now: real)
    requires Records(doc, p)
    ensures Restore(doc, now) == p
  {
  }

  /** The outcome of `use_hint`. */
  datatype HintUse =
    | NoHint            // `None`: the puzzle is closed or no hint is left
    | Hint(text: string)
    | HintFault         // `get_hint_text` raised after the budget was spent

  class GameState {
    var score: int
    var hintsRemaining: int
    var solvedPuzzles: set<int>
    var hintLevels: map<int, int>
    var startTime: real

    /** `hint_levels` is set once in the constructor and never changed. */
    ghost predicate Valid()
      reads this
    {
      hintLevels == InitialHintLevels()
    }

    function Fields(): Progress
      reads this
    {
      Progress(score, hintsRemaining, solvedPuzzles, startTime)
    }

    /** `__init__`: the defaults, then `load_state` with the document read
        from disk, if any (`None`: no file, or one that could not be parsed). */
    constructor (now: real, saved: Option<SavedState>)
      ensures Valid()
      ensures saved.None? ==> Fields() == Progress(0, 3, {}, now)
      ensures saved.Some? ==> Fields() == Restore(saved.value, now)
    {
      hintLevels := InitialHintLevels();
      score := 0;
      hintsRemaining := 3;
      startTime := now;
      solvedPuzzles := {};
      new;
      LoadState(saved, now);
    }

    /** `load_state`: an unreadable document leaves every field as it was. */
    method LoadState(saved: Option<SavedState>, now: real)
      modifies this
      ensures hintLevels == old(hintLevels)
      ensures saved.None? ==> Fields() == old(Fields())
      ensures saved.Some? ==> Fields() == Restore(saved.value, now)
    {
      if saved.Some? {
        var p := Restore(saved.value, now);
        score := p.score;
        hintsRemaining := p.hintsRemaining;
        solvedPuzzles := p.solvedPuzzles;
        startTime := p.startTime;
      }
    }

    /** `save_state`'s document; the file write itself is not modelled. */
    method SaveState() returns (doc: SavedState)
      ensures Records(doc, Fields())
      ensures |doc.solvedPuzzles.value| == |solvedPuzzles|
    {
      var listed: seq<int> := [];
      var rest := solvedPuzzles;
      while rest != {}
        invariant rest <= solvedPuzzles
        invariant Elements(listed) + rest == solvedPuzzles
        invariant Elements(listed) !! rest
        invariant |listed| + |rest| == |solvedPuzzles|
        decreases |rest|
      {
        HasMember(rest);
        var x :| x in rest;
        ListedGrows(listed, x);
        listed := listed + [x];
        rest := rest - {x};
      }
      doc := SavedState(Some(score), Some(hintsRemaining), Some(listed), Some(startTime));
    }

    function CanAccessPuzzle(id: int): (ok: bool)
      reads this
      ensures ok <==> id in AllIds() && Dependencies()[id] <= solvedPuzzles
    {
      CanAccess(solvedPuzzles, id)
    }

    /** `mark_puzzle_solved`: idempotent, no other field changes. */
    method MarkPuzzleSolved(id: int)
      modifies this
      ensures solvedPuzzles == old(solvedPuzzles) + {id}
      ensures score == old(score) && hintsRemaining == old(hintsRemaining)
      ensures hintLevels == old(hintLevels) && startTime == old(startTime)
    {
      solvedPuzzles := solvedPuzzles + {id};
    }

    /** `use_hint`: spends one hint of the global budget on an open puzzle
        while some remain; `hint_levels` is left alone. */
    method UseHint(id: int) returns (r: HintUse)
      modifies this
      ensures score == old(score) && solvedPuzzles == old(solvedPuzzles)
      ensures hintLevels == old(hintLevels) && startTime == old(startTime)
      ensures !CanAccess(old(solvedPuzzles), id) || old(hintsRemaining) <= 0 ==>
                r == NoHint && hintsRemaining == old(hintsRemaining)
      ensures CanAccess(old(solvedPuzzles), id) && old(hintsRemaining) > 0 ==>
                hintsRemaining == old(hintsRemaining) - 1 &&
                r == (match HintText(id, hintsRemaining)
                      case Some(t) => Hint(t)
                      case None => HintFault)
    {
      if !CanAccessPuzzle(id) {
        return NoHint;
      }
      if hintsRemaining > 0 {
        hintsRemaining := hintsRemaining - 1;
        var text := GetHintText(id);
        r := if text.Some? then Hint(text.value) else HintFault;
        return;
      }
      r := NoHint;
    }

    function GetHintText(id: int): (r: Option<string>)
      reads this
      ensures r.None? <==> id !in AllIds() || hintsRemaining >= 5
      ensures r.Some? ==> r.value == Hints(id)[0] || r.value == Hints(id)[1]
      ensures r.Some? && hintsRemaining <= 1 ==> r.value == Hints(id)[1]
    {
      HintText(id, hintsRemaining)
    }

    /** `update_score`: no floor and no ceiling. */
    method UpdateScore(points: int)
      modifies this
      ensures score == old(score) + points
      ensures hintsRemaining == old(hintsRemaining) && solvedPuzzles == old(solvedPuzzles)
      ensures hintLevels == old(hintLevels) && startTime == old(startTime)
    {
      score := score + points;
    }

    function GetScore(): int
      reads this
    {
      score
    }

    function GetHintsRemaining(): int
      reads this
    {
      hintsRemaining
    }
  }

  lemma HasMember(s: set<int>)
    requires s != {}
    ensures exists x :: x in s
  {
    if forall x :: x !in s {
      assert false;
    }
  }

  lemma ListedGrows(listed: seq<int>, x: int)
    ensures Elements(listed + [x]) == Elements(listed) + {x}
  {
  }

  /** Starting from three hints, three hints are given (the first, then the
      second twice) and the budget never goes below zero. */
  method HintBudgetScenario(g: GameState)
    requires g.hintsRemaining == 3
    modifies g
    ensures g.hintsRemaining == 0
  {
    var h1 := g.UseHint(1);
    assert h1 == Hint(Hints(1)[0]);
    var h2 := g.UseHint(1);
    assert h2 == Hint(Hints(1)[1]);
    var h3 := g.UseHint(1);
    assert h3 == Hint(Hints(1)[1]);
    var h4 := g.UseHint(1);
    assert h4 == NoHint;
  }

  /** Marking a puzzle solved a second time changes nothing more. */
  method MarkTwice(g: GameState, id: int)
    modifies g
    ensures g.solvedPuzzles == old(g.solvedPuzzles) + {id}
    ensures g.score == old(g.score) && g.hintsRemaining == old(g.hintsRemaining)
  {
    g.MarkPuzzleSolved(id);
    g.MarkPuzzleSolved(id);
  }
}
