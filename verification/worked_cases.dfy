/**
 The search box on concrete data: a bolt and a washer, searched for "bol"
 and for nothing.
 */
module WorkedCases {
  import opened Schema
  import opened Text
  import opened Inventory
  import Sequences

  lemma NotInM405()
    ensures !Includes("m-405", "bol")
  {
    assert "m-405"[..3] != "bol" by { assert "m-405"[0] == 'm'; }
    assert "m-405"[1..] == "-405";
    assert "-405"[..3] != "bol" by { assert "-405"[0] == '-'; }
    assert "-405"[1..] == "405";
    assert "405"[..3] != "bol" by { assert "405"[0] == '4'; }
    assert "405"[1..] == "05";
    assert "05"[1..] == "5";
    assert "5"[1..] == "";
  }

  lemma NotInWasher()
    ensures !Includes("washer", "bol")
  {
    assert "washer"[..3] != "bol" by { assert "washer"[0] == 'w'; }
    assert "washer"[1..] == "asher";
    assert "asher"[..3] != "bol" by { assert "asher"[0] == 'a'; }
    assert "asher"[1..] == "sher";
    assert "sher"[..3] != "bol" by { assert "sher"[0] == 's'; }
    assert "sher"[1..] == "her";
    assert "her"[..3] != "bol" by { assert "her"[0] == 'h'; }
    assert "her"[1..] == "er";
    assert "er"[1..] == "r";
    assert "r"[1..] == "";
  }

  const Bolt := Material(1, "M-102", "Bolt", "", 10, 5)
  const Washer := Material(2, "M-405", "Washer", "", 10, 5)

  lemma LowerFacts()
    ensures Lower("bol") == "bol"
    ensures Lower("Bolt") == "bolt"
    ensures Lower("M-405") == "m-405"
    ensures Lower("Washer") == "washer"
  {
    assert Lower("bol") == "bol";
    assert Lower("Bolt") == "bolt";
    assert Lower("M-405") == "m-405";
    assert Lower("Washer") == "washer";
  }

  lemma ExampleMatches()
    ensures MatchesSearch(Bolt, "bol") && !MatchesSearch(Washer, "bol")
  {
    LowerFacts();
    assert "bolt"[..3] == "bol";
    NotInM405();
    NotInWasher();
  }

  /** "bol" finds the bolt by its description and not the washer. */
  lemma SearchExample()
    ensures SearchFilter([Bolt, Washer], "bol") == [Bolt]
  {
    ExampleMatches();
    var p := (m: Material) => MatchesSearch(m, "bol");
    assert Sequences.Filter([Washer], p) == [] by {
      assert [Washer][1..] == [];
    }
    assert Sequences.Filter([Bolt, Washer], p) == [Bolt] + Sequences.Filter([Washer], p) by {
      assert [Bolt, Washer][1..] == [Washer];
    }
  }

  /** The empty query finds both, in their order. */
  lemma EmptySearchExample()
    ensures SearchFilter([Bolt, Washer], "") == [Bolt, Washer]
  {
    EmptyQueryKeepsAll([Bolt, Washer]);
  }
}
