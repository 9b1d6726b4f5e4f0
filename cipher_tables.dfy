/** The two fixed tables the puzzle slides of cipher_app.py show: the
    number-to-letter conversion table of puzzle 1 and the arithmetic
    pattern of puzzle 2. */
module CipherTables {
  import opened PyText

  /** `table_contents`, in the order the grid lists it (four columns). */
  function TableContents(): seq<(string, char)> {
    [ ("01", 'a'), ("08", 'h'), ("15", 'o'), ("22", 'v'),
      ("02", 'b'), ("09", 'i'), ("16", 'p'), ("23", 'w'),
      ("03", 'c'), ("10", 'j'), ("17", 'q'), ("24", 'x'),
      ("04", 'd'), ("11", 'k'), ("18", 'r'), ("25", 'y'),
      ("05", 'e'), ("12", 'l'), ("19", 's'), ("26", 'z'),
      ("06", 'f'), ("13", 'm'), ("20", 't'), ("27", ' '),
      ("07", 'g'), ("14", 'n'), ("21", 'u') ]
  }

  /** The number `n` written with two digits, as the table writes it. */
  function TwoDigit(n: int): (s: string)
    requires 0 <= n < 100
    ensures |s| == 2 && '0' <= s[0] <= '9' && '0' <= s[1] <= '9'
  {
    [DigitChar(n / 10), DigitChar(n % 10)]
  }

  /** The `n`-th letter of the alphabet, and a space for 27. */
  function Letter(n: int): (c: char)
    requires 1 <= n <= 27
    ensures n <= 26 ==> 'a' <= c <= 'z'
    ensures n == 27 <==> c == ' '
  {
    if n == 27 then ' ' else ('a' as int + n - 1) as char
  }

  /** The number shown in grid cell `i`: the table fills its four columns
      top to bottom, seven numbers per column. */
  function GridNumber(i: int): (n: int)
    requires 0 <= i < 27
    ensures 1 <= n <= 27
  {
    (i % 4) * 7 + i / 4 + 1
  }

  /** The cell that shows number `n`. */
  function GridCell(n: int): (i: int)
    requires 1 <= n <= 27
    ensures 0 <= i < 27 && GridNumber(i) == n
  {
    var row, column := (n - 1) % 7, (n - 1) / 7;
    assert n - 1 == 7 * column + row && 0 <= column < 4;
    assert (row * 4 + column) / 4 == row && (row * 4 + column) % 4 == column;
    row * 4 + column
  }

  /** Every cell of the grid pairs a number with its letter. */
  lemma TableEntries()
    ensures |TableContents()| == 27
    ensures forall i :: 0 <= i < 27 ==>
              TableContents()[i] == (TwoDigit(GridNumber(i)), Letter(GridNumber(i)))
  {
    var t := TableContents();
    forall i | 0 <= i < 27
      ensures t[i] == (TwoDigit(GridNumber(i)), Letter(GridNumber(i)))
    {
      EntryAt(i);
    }
  }

  lemma EntryAt(i: int)
    requires 0 <= i < 27
    ensures TableContents()[i] == (TwoDigit(GridNumber(i)), Letter(GridNumber(i)))
  {
    if i < 4 {
      EntriesOfRow0(i);
    } else if i < 8 {
      EntriesOfRow1(i);
    } else if i < 12 {
      EntriesOfRow2(i);
    } else if i < 16 {
      EntriesOfRow3(i);
    } else if i < 20 {
      EntriesOfRow4(i);
    } else if i < 24 {
      EntriesOfRow5(i);
    } else {
      EntriesOfRow6(i);
    }
  }

  lemma EntriesOfRow0(i: int)
    requires 0 <= i < 4
    ensures TableContents()[i] == (TwoDigit(GridNumber(i)), Letter(GridNumber(i)))
  {
    if i == 0 {
      assert GridNumber(0) == 1 && TwoDigit(1) == "01" && Letter(1) == 'a';
    }
    else if i == 1 {
      assert GridNumber(1) == 8 && TwoDigit(8) == "08" && Letter(8) == 'h';
    }
    else if i == 2 {
      assert GridNumber(2) == 15 && TwoDigit(15) == "15" && Letter(15) == 'o';
    }
    else if i == 3 {
      assert GridNumber(3) == 22 && TwoDigit(22) == "22" && Letter(22) == 'v';
    }
  }

  lemma EntriesOfRow1(i: int)
    requires 4 <= i < 8
    ensures TableContents()[i] == (TwoDigit(GridNumber(i)), Letter(GridNumber(i)))
  {
    if i == 4 {
      assert GridNumber(4) == 2 && TwoDigit(2) == "02" && Letter(2) == 'b';
    }
    else if i == 5 {
      assert GridNumber(5) == 9 && TwoDigit(9) == "09" && Letter(9) == 'i';
    }
    else if i == 6 {
      assert GridNumber(6) == 16 && TwoDigit(16) == "16" && Letter(16) == 'p';
    }
    else if i == 7 {
      assert GridNumber(7) == 23 && TwoDigit(23) == "23" && Letter(23) == 'w';
    }
  }

  lemma EntriesOfRow2(i: int)
    requires 8 <= i < 12
    ensures TableContents()[i] == (TwoDigit(GridNumber(i)), Letter(GridNumber(i)))
  {
    if i == 8 {
      assert GridNumber(8) == 3 && TwoDigit(3) == "03" && Letter(3) == 'c';
    }
    else if i == 9 {
      assert GridNumber(9) == 10 && TwoDigit(10) == "10" && Letter(10) == 'j';
    }
    else if i == 10 {
      assert GridNumber(10) == 17 && TwoDigit(17) == "17" && Letter(17) == 'q';
    }
    else if i == 11 {
      assert GridNumber(11) == 24 && TwoDigit(24) == "24" && Letter(24) == 'x';
    }
  }

  lemma EntriesOfRow3(i: int)
    requires 12 <= i < 16
    ensures TableContents()[i] == (TwoDigit(GridNumber(i)), Letter(GridNumber(i)))
  {
    if i == 12 {
      assert GridNumber(12) == 4 && TwoDigit(4) == "04" && Letter(4) == 'd';
    }
    else if i == 13 {
      assert GridNumber(13) == 11 && TwoDigit(11) == "11" && Letter(11) == 'k';
    }
    else if i == 14 {
      assert GridNumber(14) == 18 && TwoDigit(18) == "18" && Letter(18) == 'r';
    }
    else if i == 15 {
      assert GridNumber(15) == 25 && TwoDigit(25) == "25" && Letter(25) == 'y';
    }
  }

  lemma EntriesOfRow4(i: int)
    requires 16 <= i < 20
    ensures TableContents()[i] == (TwoDigit(GridNumber(i)), Letter(GridNumber(i)))
  {
    if i == 16 {
      assert GridNumber(16) == 5 && TwoDigit(5) == "05" && Letter(5) == 'e';
    }
    else if i == 17 {
      assert GridNumber(17) == 12 && TwoDigit(12) == "12" && Letter(12) == 'l';
    }
    else if i == 18 {
      assert GridNumber(18) == 19 && TwoDigit(19) == "19" && Letter(19) == 's';
    }
    else if i == 19 {
      assert GridNumber(19) == 26 && TwoDigit(26) == "26" && Letter(26) == 'z';
    }
  }

  lemma EntriesOfRow5(i: int)
    requires 20 <= i < 24
    ensures TableContents()[i] == (TwoDigit(GridNumber(i)), Letter(GridNumber(i)))
  {
    if i == 20 {
      assert GridNumber(20) == 6 && TwoDigit(6) == "06" && Letter(6) == 'f';
    }
    else if i == 21 {
      assert GridNumber(21) == 13 && TwoDigit(13) == "13" && Letter(13) == 'm';
    }
    else if i == 22 {
      assert GridNumber(22) == 20 && TwoDigit(20) == "20" && Letter(20) == 't';
    }
    else if i == 23 {
      assert GridNumber(23) == 27 && TwoDigit(27) == "27" && Letter(27) == ' ';
    }
  }

  lemma EntriesOfRow6(i: int)
    requires 24 <= i < 27
    ensures TableContents()[i] == (TwoDigit(GridNumber(i)), Letter(GridNumber(i)))
  {
    if i == 24 {
      assert GridNumber(24) == 7 && TwoDigit(7) == "07" && Letter(7) == 'g';
    }
    else if i == 25 {
      assert GridNumber(25) == 14 && TwoDigit(14) == "14" && Letter(14) == 'n';
    }
    else if i == 26 {
      assert GridNumber(26) == 21 && TwoDigit(21) == "21" && Letter(21) == 'u';
    }
  }

  /** Different grid cells show different numbers. */
  lemma GridNumberInjective(i: int, j: int)
    requires 0 <= i < 27 && 0 <= j < 27 && GridNumber(i) == GridNumber(j)
    ensures i == j
  {
    assert i == 4 * (i / 4) + i % 4;
    assert j == 4 * (j / 4) + j % 4;
  }

  /** The table is a bijection between the two-digit codes "01".."27" and
      the letters a..z followed by the space: every code occurs, and no code
      and no letter occurs twice. */
  lemma TableBijective()
    ensures forall n :: 1 <= n <= 27 ==> TableContents()[GridCell(n)] == (TwoDigit(n), Letter(n))
    ensures forall i, j :: 0 <= i < j < 27 ==> TableContents()[i].0 != TableContents()[j].0
    ensures forall i, j :: 0 <= i < j < 27 ==> TableContents()[i].1 != TableContents()[j].1
  {
    TableEntries();
    forall i, j | 0 <= i < j < 27
      ensures TableContents()[i].0 != TableContents()[j].0
      ensures TableContents()[i].1 != TableContents()[j].1
    {
      var m, n := GridNumber(i), GridNumber(j);
      if m == n {
        GridNumberInjective(i, j);
      }
      assert m == 10 * (m / 10) + m % 10;
      assert n == 10 * (n / 10) + n % 10;
      assert TwoDigit(m)[0] == TwoDigit(n)[0] && TwoDigit(m)[1] == TwoDigit(n)[1] ==> m == n;
    }
  }

  /** The entry of the table under a code, looked up in listing order. */
  function Lookup(entries: seq<(string, char)>, code: string): (r: Option<char>)
    ensures r.None? <==> forall i :: 0 <= i < |entries| ==> entries[i].0 != code
  {
    if entries == [] then None
    else if entries[0].0 == code then Some(entries[0].1)
    else Lookup(entries[1..], code)
  }

  /** With distinct codes, looking up the code of an entry finds that entry. */
  lemma {:induction false} LookupFinds(entries: seq<(string, char)>, i: int)
    requires 0 <= i < |entries|
    requires forall a, b :: 0 <= a < b < |entries| ==> entries[a].0 != entries[b].0
    ensures Lookup(entries, entries[i].0) == Some(entries[i].1)
  {
    if i > 0 {
      assert entries[0].0 != entries[i].0;
      assert entries[1..][i - 1] == entries[i];
      LookupFinds(entries[1..], i - 1);
    }
  }

  /** Code "nn" reads as the nn-th letter, "27" as a space. */
  lemma CodeReadsLetter(n: int)
    requires 1 <= n <= 27
    ensures Lookup(TableContents(), TwoDigit(n)) == Some(Letter(n))
  {
    TableBijective();
    LookupFinds(TableContents(), GridCell(n));
  }

  /** The puzzle-1 cipher "18 09 22 05 18" reads "river". */
  lemma RiverCipher()
    ensures Split("18 09 22 05 18") == [TwoDigit(18), TwoDigit(9), TwoDigit(22), TwoDigit(5), TwoDigit(18)]
    ensures [Letter(18), Letter(9), Letter(22), Letter(5), Letter(18)] == "river"
  {
    var ts := RiverTokens();
    RiverCodes();
  }

  lemma RiverCodes()
    ensures [TwoDigit(18), TwoDigit(9), TwoDigit(22), TwoDigit(5), TwoDigit(18)] == ["18", "09", "22", "05", "18"]
    ensures [Letter(18), Letter(9), Letter(22), Letter(5), Letter(18)] == "river"
  {
    assert TwoDigit(18) == "18" && TwoDigit(9) == "09";
    assert TwoDigit(22) == "22" && TwoDigit(5) == "05";
  }

  lemma RiverTokens() returns (ts: seq<string>)
    ensures ts == ["18", "09", "22", "05", "18"] && Split("18 09 22 05 18") == ts
  {
    ts := ["18", "09", "22", "05", "18"];
    assert JoinSpace(ts[3..]) == "05 18";
    assert JoinSpace(ts[2..]) == "22 05 18";
    assert JoinSpace(ts[1..]) == "09 22 05 18";
    assert JoinSpace(ts) == "18 09 22 05 18";
    SplitJoinSpace(ts);
  }

  /** `patterns`: the input and output columns of puzzle 2. */
  function Patterns(): seq<(string, string)> {
    [("1", "7"), ("2", "9"), ("3", "11"), ("4", "13"), ("5", "15")]
  }

  /** The rule the pattern table shows. */
  function Encode(n: int): int {
    2 * n + 5
  }

  /** The inverse of `Encode` on odd outputs. */
  function DecodePattern(m: int): (n: int)
    ensures m % 2 == 1 ==> Encode(n) == m
  {
    (m - 5) / 2
  }

  /** Decoding undoes encoding for every input. */
  lemma DecodeEncode(n: int)
    ensures DecodePattern(Encode(n)) == n
  {
  }

  /** Every row of the pattern table follows out = 2 * in + 5. */
  lemma PatternRows()
    ensures |Patterns()| == 5
    ensures forall i :: 0 <= i < 5 ==> Patterns()[i] == (NatToString(i + 1), NatToString(Encode(i + 1)))
  {
    forall i | 0 <= i < 5
      ensures Patterns()[i] == (NatToString(i + 1), NatToString(Encode(i + 1)))
    {
      PatternRow(i);
    }
  }

  lemma PatternRow(i: int)
    requires 0 <= i < 5
    ensures Patterns()[i] == (NatToString(i + 1), NatToString(Encode(i + 1)))
  {
    var n := i + 1;
    SingleDigit(n);
    if i < 2 {
      SingleDigit(Encode(n));
      assert Patterns()[i] == ([DigitChar(n)], [DigitChar(Encode(n))]);
    } else {
      DoubleDigit(Encode(n));
      assert Patterns()[i] == ([DigitChar(n)], [DigitChar(1), DigitChar(Encode(n) - 10)]);
    }
  }

  lemma SingleDigit(n: nat)
    requires n < 10
    ensures NatToString(n) == [DigitChar(n)]
  {
  }

  lemma DoubleDigit(n: nat)
    requires 10 <= n < 20
    ensures NatToString(n) == [DigitChar(1), DigitChar(n - 10)]
  {
    assert NatToString(n / 10) == [DigitChar(1)];
  }

  /** The puzzle-2 display "9 41 15 7 13" splits into five numbers. */
  lemma BreadTokens()
    ensures Split("9 41 15 7 13") == ["9", "41", "15", "7", "13"]
  {
    var ts := ["9", "41", "15", "7", "13"];
    assert JoinSpace(ts[3..]) == "7 13";
    assert JoinSpace(ts[2..]) == "15 7 13";
    assert JoinSpace(ts[1..]) == "41 15 7 13";
    assert JoinSpace(ts) == "9 41 15 7 13";
    SplitJoinSpace(ts);
  }

  /** Those tokens are the decimal forms of 9, 41, 15, 7 and 13. */
  lemma BreadNumbers()
    ensures ["9", "41", "15", "7", "13"]
            == [NatToString(9), NatToString(41), NatToString(15), NatToString(7), NatToString(13)]
  {
    assert NatToString(41) == NatToString(4) + [DigitChar(1)] == "41";
    assert NatToString(15) == NatToString(1) + [DigitChar(5)] == "15";
    assert NatToString(13) == NatToString(1) + [DigitChar(3)] == "13";
    assert NatToString(9) == "9" && NatToString(7) == "7";
  }

  /** Undoing the pattern on those numbers and reading the results through
      the conversion table gives "bread". */
  lemma BreadCipher()
    ensures [DecodePattern(9), DecodePattern(41), DecodePattern(15), DecodePattern(7), DecodePattern(13)]
            == [2, 18, 5, 1, 4]
    ensures [Letter(2), Letter(18), Letter(5), Letter(1), Letter(4)] == "bread"
  {
  }
}
