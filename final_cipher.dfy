/** Puzzle 5: a decoder that reads space-separated two-digit codes through a
    fixed table (src/backend/puzzles/final_cipher.py). The tables are fixed
    when the object is built and never change, so the object is modelled by
    functions. */
module FinalCipherModel {
  import opened PyText
  import CipherTables

  /** `conversion_table`: ten codes, each standing for one letter. */
  function ConversionTable(): map<string, char> {
    map["02" := 'b', "18" := 'r', "09" := 'i', "03" := 'c', "11" := 'k',
        "08" := 'h', "15" := 'o', "21" := 'u', "19" := 's', "05" := 'e']
  }

  /** `word1_numbers` and `word2_numbers`. */
  const Word1Numbers: string := "02 18 09 03 11"
  const Word2Numbers: string := "08 15 21 19 05"

  /** The loop of `decode_word` over the tokens: each token in the table adds
      its letter, any other token is skipped. */
  function DecodeTokens(tokens: seq<string>): (r: string)
    ensures |r| <= |tokens|
    ensures forall i :: 0 <= i < |r| ==> r[i] in ConversionTable().Values
  {
    if tokens == [] then ""
    else
      (if tokens[0] in ConversionTable() then [ConversionTable()[tokens[0]]] else "")
      + DecodeTokens(tokens[1..])
  }

  /** `decode_word`: splits at whitespace, then decodes the tokens. */
  function DecodeWord(numbers: string): (w: string)
    ensures |w| <= |Split(numbers)|
    ensures |w| == |Split(numbers)| <==> forall i :: 0 <= i < |Split(numbers)| ==> Split(numbers)[i] in ConversionTable()
  {
    DecodeLengthExact(Split(numbers));
    DecodeTokens(Split(numbers))
  }

  /** The decoded text has one letter per token exactly when every token is
      in the table. */
  lemma {:induction false} DecodeLengthExact(tokens: seq<string>)
    ensures |DecodeTokens(tokens)| == |tokens| <==>
              forall i :: 0 <= i < |tokens| ==> tokens[i] in ConversionTable()
  {
    if tokens != [] {
      DecodeLengthExact(tokens[1..]);
      assert forall i :: 1 <= i < |tokens| ==> tokens[i] == tokens[1..][i - 1];
    }
  }

  /** Decoding two token lists one after the other decodes their
      concatenation. */
  lemma {:induction false} DecodeTokensAppend(a: seq<string>, b: seq<string>)
    ensures DecodeTokens(a + b) == DecodeTokens(a) + DecodeTokens(b)
  {
    if a == [] {
      assert a + b == b;
    } else {
      assert (a + b)[0] == a[0];
      assert (a + b)[1..] == a[1..] + b;
      DecodeTokensAppend(a[1..], b);
    }
  }

  /** Decoding two texts joined by a space decodes each in turn. */
  lemma DecodeWordJoin(a: string, b: string)
    ensures DecodeWord(a + " " + b) == DecodeWord(a) + DecodeWord(b)
  {
    SplitJoin(a, b);
    DecodeTokensAppend(Split(a), Split(b));
  }

  /** Codes of the table that are not themselves split apart decode to their
      own letter; a token the table lacks vanishes. */
  lemma DecodeSingle(t: string)
    requires t != [] && NoSpace(t)
    ensures t in ConversionTable() ==> DecodeWord(t) == [ConversionTable()[t]]
    ensures t !in ConversionTable() ==> DecodeWord(t) == ""
  {
    SplitWord(t);
  }

  /** `get_complete_phrase`: the two decoded words with a space between. */
  function CompletePhrase(): (p: string)
    ensures p == "brick house"
  {
    Word1IsBrick();
    Word2IsHouse();
    PhraseOf(Word1Numbers, Word2Numbers);
    DecodeWord(Word1Numbers) + " " + DecodeWord(Word2Numbers)
  }

  lemma PhraseOf(a: string, b: string)
    requires DecodeWord(a) == "brick" && DecodeWord(b) == "house"
    ensures DecodeWord(a) + " " + DecodeWord(b) == "brick house"
  {
  }

  lemma Word1IsBrick()
    ensures DecodeWord(Word1Numbers) == "brick"
  {
    var ts := Word1Tokens();
    BrickCodes();
    assert DecodeWord(Word1Numbers) == DecodeTokens(ts);
  }

  lemma Word2IsHouse()
    ensures DecodeWord(Word2Numbers) == "house"
  {
    var ts := Word2Tokens();
    HouseCodes();
    assert DecodeWord(Word2Numbers) == DecodeTokens(ts);
  }

  lemma BrickCodes()
    ensures DecodeTokens(["02", "18", "09", "03", "11"]) == "brick"
  {
    DecodesTo(["02", "18", "09", "03", "11"], "brick");
  }

  lemma HouseCodes()
    ensures DecodeTokens(["08", "15", "21", "19", "05"]) == "house"
  {
    DecodesTo(["08", "15", "21", "19", "05"], "house");
  }

  lemma Word1Tokens() returns (ts: seq<string>)
    ensures ts == ["02", "18", "09", "03", "11"] && Split(Word1Numbers) == ts
  {
    ts := ["02", "18", "09", "03", "11"];
    assert JoinSpace(ts[3..]) == "03 11";
    assert JoinSpace(ts[2..]) == "09 03 11";
    assert JoinSpace(ts[1..]) == "18 09 03 11";
    assert JoinSpace(ts) == Word1Numbers;
    SplitJoinSpace(ts);
  }

  lemma Word2Tokens() returns (ts: seq<string>)
    ensures ts == ["08", "15", "21", "19", "05"] && Split(Word2Numbers) == ts
  {
    ts := ["08", "15", "21", "19", "05"];
    assert JoinSpace(ts[3..]) == "19 05";
    assert JoinSpace(ts[2..]) == "21 19 05";
    assert JoinSpace(ts[1..]) == "15 21 19 05";
    assert JoinSpace(ts) == Word2Numbers;
    SplitJoinSpace(ts);
  }

  /** Tokens that each stand for the matching letter of `w` decode to `w`. */
  lemma DecodesTo(ts: seq<string>, w: string)
    requires |ts| == |w|
    requires forall i :: 0 <= i < |ts| ==> ts[i] in ConversionTable() && ConversionTable()[ts[i]] == w[i]
    ensures DecodeTokens(ts) == w
  {
    DecodeKnown(ts);
  }

  /** Tokens that are all in the table decode letter by letter. */
  lemma {:induction false} DecodeKnown(ts: seq<string>)
    requires forall i :: 0 <= i < |ts| ==> ts[i] in ConversionTable()
    ensures |DecodeTokens(ts)| == |ts|
    ensures forall i :: 0 <= i < |ts| ==> DecodeTokens(ts)[i] == ConversionTable()[ts[i]]
  {
    if ts != [] {
      DecodeKnown(ts[1..]);
      assert forall i :: 1 <= i < |ts| ==> ts[1..][i - 1] == ts[i];
    }
  }

  /** No two codes of the table stand for the same letter. */
  lemma ConversionTableInjective()
    ensures forall a, b :: a in ConversionTable() && b in ConversionTable() && a != b ==>
              ConversionTable()[a] != ConversionTable()[b]
  {
  }

  /** Every code of the table reads as the same letter in the puzzle-1
      conversion table of the application. */
  lemma ConversionTableAgrees()
    ensures forall k :: k in ConversionTable() ==>
              CipherTables.Lookup(CipherTables.TableContents(), k) == Some(ConversionTable()[k])
  {
    forall k | k in ConversionTable()
      ensures CipherTables.Lookup(CipherTables.TableContents(), k) == Some(ConversionTable()[k])
    {
      if k in {"02", "18", "09"} {
        AgreesFirst(k);
      } else if k in {"03", "11"} {
        AgreesSecond(k);
      } else if k in {"08", "15", "21"} {
        AgreesThird(k);
      } else {
        AgreesFourth(k);
      }
    }
  }

  lemma AgreesFirst(k: string)
    requires k in {"02", "18", "09"}
    ensures k in ConversionTable()
    ensures CipherTables.Lookup(CipherTables.TableContents(), k) == Some(ConversionTable()[k])
  {
    if k == "02" {
      CodeAgrees(k, 2);
    } else if k == "18" {
      CodeAgrees(k, 18);
    } else {
      CodeAgrees(k, 9);
    }
  }

  lemma AgreesSecond(k: string)
    requires k in {"03", "11"}
    ensures k in ConversionTable()
    ensures CipherTables.Lookup(CipherTables.TableContents(), k) == Some(ConversionTable()[k])
  {
    if k == "03" {
      CodeAgrees(k, 3);
    } else {
      CodeAgrees(k, 11);
    }
  }

  lemma AgreesThird(k: string)
    requires k in {"08", "15", "21"}
    ensures k in ConversionTable()
    ensures CipherTables.Lookup(CipherTables.TableContents(), k) == Some(ConversionTable()[k])
  {
    if k == "08" {
      CodeAgrees(k, 8);
    } else if k == "15" {
      CodeAgrees(k, 15);
    } else {
      CodeAgrees(k, 21);
    }
  }

  lemma AgreesFourth(k: string)
    requires k in {"19", "05"}
    ensures k in ConversionTable()
    ensures CipherTables.Lookup(CipherTables.TableContents(), k) == Some(ConversionTable()[k])
  {
    if k == "19" {
      CodeAgrees(k, 19);
    } else {
      CodeAgrees(k, 5);
    }
  }

  lemma CodeAgrees(k: string, n: int)
    requires 1 <= n <= 27 && k == CipherTables.TwoDigit(n)
    requires k in ConversionTable() && ConversionTable()[k] == CipherTables.Letter(n)
    ensures CipherTables.Lookup(CipherTables.TableContents(), k) == Some(ConversionTable()[k])
  {
    CipherTables.CodeReadsLetter(n);
  }

  /** `modes`: the names of the three modes; nothing reads them when
      decoding. */
  function Modes(): map<string, string> {
    map["alpha" := "STANDARD", "beta" := "SPECIAL", "gamma" := "SPACE"]
  }

  /** `get_current_mode_description`: a fixed text for each mode and
      "不明なモード" (unknown mode) for any other name. */
  function ModeDescription(mode: string): (d: string)
    ensures mode !in Modes() ==> d == "不明なモード"
    ensures mode in Modes() ==> d != "不明なモード"
  {
    var descriptions := map["alpha" := "通常の文字を処理します", "beta" := "特殊文字を処理します",
                            "gamma" := "スペースを処理します"];
    if mode in descriptions then descriptions[mode] else "不明なモード"
  }
}
