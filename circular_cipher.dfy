/** Puzzle 3: a ring of six letters turning against a fixed ring of the
    numbers 1..6 (src/backend/puzzles/circular_cipher.py). Only the logical
    state is modelled: the angle, the rotation flag and the pending animation
    step; drawing is left out. */
module CircularCipherModel {
  import opened PyText

  function Numbers(): seq<int> { [1, 2, 3, 4, 5, 6] }

  function Letters(): seq<char> { ['f', 'o', 'r', 'e', 's', 't'] }

  /** The numbers `get_current_word` reads off the ring. */
  function NumberSequence(): seq<int> { [4, 3, 5, 1, 1, 4] }

  /** Sub-steps of one animated rotation. */
  const Steps: int := 10

  /** Python's `x % 360` on a float: the remainder of a floored division. */
  function Mod360(x: real): (r: real)
    ensures 0.0 <= r < 360.0
    ensures 0.0 <= x < 360.0 ==> r == x
  {
    x - 360.0 * (x / 360.0).Floor as real
  }

  /** Taking the remainder before adding changes nothing. */
  lemma Mod360Add(x: real, y: real)
    ensures Mod360(Mod360(x) + y) == Mod360(x + y)
  {
    var k := (x / 360.0).Floor;
    assert (Mod360(x) + y) / 360.0 == (x + y) / 360.0 - k as real;
    FloorShift((x + y) / 360.0, k);
  }

  lemma FloorShift(r: real, k: int)
    ensures (r - k as real).Floor == r.Floor - k
  {
  }

  /** Adding a whole turn changes nothing. */
  lemma Mod360FullTurn(x: real)
    ensures Mod360(x + 360.0) == Mod360(x)
  {
    assert (x + 360.0) / 360.0 == x / 360.0 + 1.0;
    FloorShift(x / 360.0, -1);
  }

  /** Python's `int()` on a float: truncation toward zero. */
  function Trunc(r: real): (n: int)
    ensures 0.0 <= r ==> 0 <= n && n as real <= r < n as real + 1.0
    ensures r < 0.0 ==> n <= 0 && n as real - 1.0 < r <= n as real
  {
    if r >= 0.0 then r.Floor else -((-r).Floor)
  }

  /** `int(current_angle / 60)`: how many whole sixths the ring has turned. */
  function Offset(angle: real): int {
    Trunc(angle / 60.0)
  }

  /** The letter number `n` shows at a given offset: number `i + 1` shows
      the letter at index `(i - offset) mod 6`, with a non-negative remainder. */
  function LetterFor(offset: int, n: int): char {
    Letters()[(n - 1 - offset) % 6]
  }

  /** The dictionary `get_current_mapping` builds, for a given offset. */
  function MappingFor(offset: int): (m: map<int, char>)
    ensures m.Keys == {1, 2, 3, 4, 5, 6}
    ensures forall n :: 1 <= n <= 6 ==> m[n] == LetterFor(offset, n)
  {
    var m := map n | 1 <= n <= 6 :: LetterFor(offset, n);
    assert m.Keys == {1, 2, 3, 4, 5, 6} by {
      assert forall n :: n in m <==> 1 <= n <= 6;
    }
    m
  }

  /** `get_current_mapping` as a function of the angle. */
  function MappingAt(angle: real): map<int, char> {
    MappingFor(Offset(angle))
  }

  /** `get_current_word` as a function of the angle. */
  function WordAt(angle: real): (w: string)
    ensures |w| == 6
  {
    var m := MappingAt(angle);
    seq(6, k requires 0 <= k < 6 => m[NumberSequence()[k]])
  }

  /** At angle 0 the numbers 1..6 show f, o, r, e, s, t. */
  lemma MappingAtStart()
    ensures MappingAt(0.0) == map[1 := 'f', 2 := 'o', 3 := 'r', 4 := 'e', 5 := 's', 6 := 't']
  {
    var m := MappingAt(0.0);
    assert Offset(0.0) == 0;
    assert m[1] == 'f' && m[2] == 'o' && m[3] == 'r';
    assert m[4] == 'e' && m[5] == 's' && m[6] == 't';
  }

  /** Two remainders modulo 6 differ when the numbers are less than 6 apart. */
  lemma ModDistinct(a: int, b: int)
    requires a < b < a + 6
    ensures a % 6 != b % 6
  {
    assert b - a == 6 * (b / 6 - a / 6) + (b % 6 - a % 6);
  }

  lemma SubMultiple(x: int, q: int)
    ensures (x - 6 * q) % 6 == x % 6
  {
    assert x == 6 * (x / 6) + x % 6;
    assert x - 6 * q == 6 * (x / 6 - q) + x % 6;
  }

  /** Whatever the offset, distinct numbers show distinct letters. */
  lemma MappingInjective(offset: int)
    ensures forall a, b :: 1 <= a < b <= 6 ==> MappingFor(offset)[a] != MappingFor(offset)[b]
  {
    var m := MappingFor(offset);
    LettersDistinct();
    forall a, b | 1 <= a < b <= 6
      ensures m[a] != m[b]
    {
      var i, j := (a - 1 - offset) % 6, (b - 1 - offset) % 6;
      ModDistinct(a - 1 - offset, b - 1 - offset);
      assert m[a] == Letters()[i] && m[b] == Letters()[j];
    }
  }

  lemma LettersDistinct()
    ensures forall i, j :: 0 <= i < 6 && 0 <= j < 6 && i != j ==> Letters()[i] != Letters()[j]
  {
  }

  /** Whatever the offset, every letter is shown by some number, so with
      `MappingInjective` the mapping is a bijection onto the six letters. */
  lemma MappingOnto(offset: int)
    ensures forall j :: 0 <= j < 6 ==> Letters()[j] in MappingFor(offset).Values
  {
    var m := MappingFor(offset);
    forall j | 0 <= j < 6
      ensures Letters()[j] in m.Values
    {
      var n := NumberShowing(offset, j);
      assert m[n] == Letters()[j];
    }
  }

  /** The number that shows letter `j` at a given offset. */
  lemma NumberShowing(offset: int, j: int) returns (n: int)
    requires 0 <= j < 6
    ensures 1 <= n <= 6 && LetterFor(offset, n) == Letters()[j]
  {
    var q := (j + offset) / 6;
    n := (j + offset) % 6 + 1;
    assert j + offset == 6 * q + (j + offset) % 6;
    assert n - 1 - offset == j - 6 * q;
    SubMultiple(j, q);
  }

  /** The mapping depends only on the offset modulo 6. */
  lemma ModShift(offset: int)
    ensures MappingFor(offset) == MappingFor(offset % 6)
  {
    var q := offset / 6;
    assert offset == 6 * q + offset % 6;
    forall n | 1 <= n <= 6
      ensures LetterFor(offset, n) == LetterFor(offset % 6, n)
    {
      SubMultiple(n - 1 - offset % 6, q);
    }
  }

  /** The angles 0 and 360 give the same mapping, as do any two angles a
      whole turn apart. */
  lemma MappingTurnInvariant(angle: real)
    requires angle >= 0.0
    ensures MappingAt(angle + 360.0) == MappingAt(angle)
  {
    assert (angle + 360.0) / 60.0 == angle / 60.0 + 6.0;
    FloorShift(angle / 60.0, -6);
    var o := Offset(angle);
    assert Offset(angle + 360.0) == o + 6;
    forall n | 1 <= n <= 6
      ensures LetterFor(o + 6, n) == LetterFor(o, n)
    {
      SubMultiple(n - 1 - o, 1);
    }
  }

  /** The word read off the ring repeats its first letter at the end and its
      fourth letter at the fifth position, so it never spells "forest". */
  lemma WordNeverForest(angle: real)
    ensures WordAt(angle)[0] == WordAt(angle)[5]
    ensures WordAt(angle)[3] == WordAt(angle)[4]
    ensures WordAt(angle) != "forest"
  {
    var w := WordAt(angle);
    assert NumberSequence()[0] == NumberSequence()[5] == 4;
    assert NumberSequence()[3] == NumberSequence()[4] == 1;
    assert "forest"[3] != "forest"[4];
  }

  /** At angle 0 the ring reads "ersffe". */
  lemma WordAtStart()
    ensures WordAt(0.0) == "ersffe"
  {
    MappingAtStart();
    var w := WordAt(0.0);
    var ns := NumberSequence();
    assert ns[0] == 4 && ns[1] == 3 && ns[2] == 5 && ns[3] == 1 && ns[4] == 1 && ns[5] == 4;
    assert w[0] == 'e' && w[1] == 'r' && w[2] == 's';
    assert w[3] == 'f' && w[4] == 'f' && w[5] == 'e';
  }

  /** The `root.after` continuation that drives the next animation step. */
  datatype Step = Step(target: real, index: int)

  class CircularCipher {
    var currentAngle: real
    var isRotating: bool
    var scheduled: Option<Step>
    const numbers: seq<int>
    const letters: seq<char>

    /** The angle stays in [0, 360); a rotation in progress always has its
        next step scheduled, and no step is scheduled otherwise. */
    ghost predicate Valid()
      reads this
    {
      && 0.0 <= currentAngle < 360.0
      && numbers == Numbers() && letters == Letters()
      && (isRotating <==> scheduled.Some?)
      && (scheduled.Some? ==> 1 <= scheduled.value.index <= Steps)
    }

    constructor ()
      ensures Valid()
      ensures currentAngle == 0.0 && !isRotating && scheduled == None
    {
      currentAngle := 0.0;
      isRotating := false;
      scheduled := None;
      numbers := Numbers();
      letters := Letters();
    }

    /** `rotate`: ignored while a rotation is running; otherwise starts one
        and performs its first step at once. */
    method Rotate(degrees: real)
      requires Valid()
      modifies this
      ensures Valid()
      ensures old(isRotating) ==>
                currentAngle == old(currentAngle) && isRotating && scheduled == old(scheduled)
      ensures !old(isRotating) ==>
                currentAngle == Mod360(old(currentAngle) + degrees / 10.0) &&
                isRotating && scheduled == Some(Step(degrees, 1))
    {
      if !isRotating {
        isRotating := true;
        AnimateRotation(degrees, 0);
      }
    }

    /** `_animate_rotation`: one of the ten sub-steps, each turning the ring
        by a tenth of the target and scheduling the next; the call after the
        tenth ends the rotation. */
    method AnimateRotation(target: real, step: int)
      requires 0 <= step <= Steps && 0.0 <= currentAngle < 360.0
      requires numbers == Numbers() && letters == Letters()
      requires isRotating
      modifies this
      ensures Valid()
      ensures step < Steps ==>
                currentAngle == Mod360(old(currentAngle) + target / 10.0) &&
                isRotating && scheduled == Some(Step(target, step + 1))
      ensures step == Steps ==>
                currentAngle == old(currentAngle) && !isRotating && scheduled == None
    {
      if step < Steps {
        var stepAngle := target / (Steps as real);
        currentAngle := Mod360(currentAngle + stepAngle);
        scheduled := Some(Step(target, step + 1));
      } else {
        isRotating := false;
        scheduled := None;
      }
    }

    /** The event loop firing the pending `root.after` callback. */
    method RunScheduled()
      requires Valid() && scheduled.Some?
      modifies this
      ensures Valid()
      ensures old(scheduled.value.index) < Steps ==>
                currentAngle == Mod360(old(currentAngle) + old(scheduled.value.target) / 10.0) &&
                scheduled == Some(Step(old(scheduled.value.target), old(scheduled.value.index) + 1))
      ensures old(scheduled.value.index) == Steps ==>
                currentAngle == old(currentAngle) && !isRotating
    {
      var next := scheduled.value;
      AnimateRotation(next.target, next.index);
    }

    /** A press of a rotate button followed by the whole animation: the ring
        ends up turned by exactly `degrees` modulo 360 and at rest. */
    method RotateAndSettle(degrees: real)
      requires Valid() && !isRotating
      modifies this
      ensures Valid() && !isRotating
      ensures currentAngle == Mod360(old(currentAngle) + degrees)
    {
      ghost var start := currentAngle;
      ghost var stepAngle := degrees / 10.0;
      Rotate(degrees);
      ghost var done := 1;
      assert Turned(done, stepAngle) == stepAngle;
      while scheduled.Some?
        invariant Valid() && 1 <= done <= Steps
        invariant currentAngle == Mod360(start + Turned(done, stepAngle))
        invariant scheduled.Some? ==> scheduled.value == Step(degrees, done)
        invariant scheduled.None? ==> done == Steps
        decreases Steps - done + (if scheduled.Some? then 1 else 0)
      {
        if scheduled.value.index < Steps {
          StepAdvances(start, done, stepAngle);
          RunScheduled();
          done := done + 1;
        } else {
          RunScheduled();
        }
      }
      TenSteps(stepAngle);
      assert 10.0 * stepAngle == degrees;
    }

    /** `get_current_mapping`: builds the number-to-letter map one entry per
        number. */
    method GetCurrentMapping() returns (mapping: map<int, char>)
      requires Valid()
      ensures mapping == MappingAt(currentAngle)
    {
      var offset := Trunc(currentAngle / 60.0);
      mapping := map[];
      var i := 0;
      while i < |numbers|
        invariant 0 <= i <= |numbers|
        invariant forall k :: k in mapping <==> 1 <= k <= i
        invariant forall k :: 1 <= k <= i ==> mapping[k] == LetterFor(offset, k)
      {
        var letterIdx := (i - offset) % |letters|;
        assert numbers[i] == i + 1;
        mapping := mapping[numbers[i] := letters[letterIdx]];
        i := i + 1;
      }
    }

    /** `get_current_word`: the letters shown by 4, 3, 5, 1, 1, 4. */
    method GetCurrentWord() returns (word: string)
      requires Valid()
      ensures word == WordAt(currentAngle)
    {
      var mapping := GetCurrentMapping();
      var sequence := [4, 3, 5, 1, 1, 4];
      word := seq(6, k requires 0 <= k < 6 => mapping[sequence[k]]);
      assert sequence == NumberSequence();
    }
  }

  /** The sum of `k` equal steps, added one at a time as the animation does. */
  ghost function Turned(k: int, step: real): real
    decreases k
  {
    if k <= 0 then 0.0 else Turned(k - 1, step) + step
  }

  /** One more step of the animation adds one more tenth to the turn. */
  lemma StepAdvances(start: real, k: int, step: real)
    requires k >= 0
    ensures Mod360(Mod360(start + Turned(k, step)) + step) == Mod360(start + Turned(k + 1, step))
  {
    Mod360Add(start + Turned(k, step), step);
    assert Turned(k + 1, step) == Turned(k, step) + step;
  }

  /** Ten tenths of a rotation make the whole rotation. */
  lemma TenSteps(step: real)
    ensures Turned(Steps, step) == 10.0 * step
  {
    assert Turned(1, step) == step;
    assert Turned(2, step) == 2.0 * step;
    assert Turned(3, step) == 3.0 * step;
    assert Turned(4, step) == 4.0 * step;
    assert Turned(5, step) == 5.0 * step;
    assert Turned(6, step) == 6.0 * step;
    assert Turned(7, step) == 7.0 * step;
    assert Turned(8, step) == 8.0 * step;
    assert Turned(9, step) == 9.0 * step;
  }

  /** Six finished turns of +60 bring the ring back to where it started, and
      so does +60 followed by -60. */
  lemma TurnsCancel(angle: real)
    requires 0.0 <= angle < 360.0
    ensures Mod360(Mod360(angle + 60.0) + -60.0) == angle
    ensures Mod360(Mod360(Mod360(Mod360(Mod360(Mod360(angle + 60.0) + 60.0) + 60.0) + 60.0) + 60.0) + 60.0) == angle
  {
    Mod360Add(angle + 60.0, -60.0);
    assert angle + 60.0 + -60.0 == angle;
    Mod360Add(angle + 60.0, 60.0);
    Mod360Add(angle + 120.0, 60.0);
    Mod360Add(angle + 180.0, 60.0);
    Mod360Add(angle + 240.0, 60.0);
    Mod360Add(angle + 300.0, 60.0);
    Mod360FullTurn(angle);
  }
}
