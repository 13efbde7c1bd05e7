/** Worked examples of the session's series on small documents. */
module Scenarios {
  import opened Values
  import opened GapFill
  import opened TreeFlattener
  import opened Series

  /** Distances [0, 10, 25, 25] give the moves [10, 15, 0, 0]. */
  lemma MovesExample()
    ensures MovesOf([Num(0.0), Num(10.0), Num(25.0), Num(25.0)]) == [Num(10.0), Num(15.0), Num(0.0), Num(0.0)]
  {
    var d := [Num(0.0), Num(10.0), Num(25.0), Num(25.0)];
    assert MovesOf(d)[0] == Num(10.0);
    assert MovesOf(d)[1] == Num(15.0);
  }

  /** Altitudes [100, 1600, 1600, 100] against the default threshold 1500
      count two samples, those at indices 1 and 2. */
  lemma HighAltitudeTimeExample()
    ensures HighAltitudeTimeOf([Num(100.0), Num(1600.0), Num(1600.0), Num(100.0)], 1500.0) == 2
  {
    var a1 := [Num(100.0)];
    var a2 := a1 + [Num(1600.0)];
    var a3 := a2 + [Num(1600.0)];
    var a4 := a3 + [Num(100.0)];
    assert a1[..0] == [] && a2[..1] == a1 && a3[..2] == a2 && a4[..3] == a3;
    assert HighAltitudeTimeOf(a1, 1500.0) == 0;
    assert HighAltitudeTimeOf(a2, 1500.0) == 1;
    assert HighAltitudeTimeOf(a3, 1500.0) == 2;
    assert a4 == [Num(100.0), Num(1600.0), Num(1600.0), Num(100.0)];
  }

  /** Powers [NaN, 100, NaN, 200] are filled to [100, 100, 150, 200]. */
  lemma InterpolateExample()
    ensures Interpolated([NaN, Num(100.0), NaN, Num(200.0)]) == [Num(100.0), Num(100.0), Num(150.0), Num(200.0)]
  {
    var s := [NaN, Num(100.0), NaN, Num(200.0)];
    LeadingRun(s, 0, 1);
    InteriorFill(s, 1, 2, 3);
  }

  /** A window of 2 over the powers [10, 20, 30] gives the means [15, 25]. */
  lemma MeanPowerExample()
    ensures MeanPowerIntervalOf([Num(10.0), Num(20.0), Num(30.0)], 2) == [Num(15.0), Num(25.0)]
  {
    var p := [Num(10.0), Num(20.0), Num(30.0)];
    MeanPowerWindow(p, 2, 0);
    MeanPowerWindow(p, 2, 1);
    assert p[0..2] == [Num(10.0), Num(20.0)] && p[1..3] == [Num(20.0), Num(30.0)];
    assert [Num(10.0), Num(20.0)][..1] == [Num(10.0)] && [Num(10.0)][..0] == [];
    assert [Num(20.0), Num(30.0)][..1] == [Num(20.0)] && [Num(20.0)][..0] == [];
    assert Sum([Num(10.0), Num(20.0)]) == Num(30.0);
    assert Sum([Num(20.0), Num(30.0)]) == Num(50.0);
  }

  /** Two `<Lap>` children whose contents are elements (not text) are
      collected into a list, in document order. */
  lemma RepeatedElementTagExample()
    ensures Flatten(Elem("Activity", None, [Elem("Lap", None, [Elem("Id", Some("a"), [])]),
                                           Elem("Lap", None, [Elem("Id", Some("b"), [])])]))
      == Success(map["Lap" := List([Dict(map["Id" := Text("a")]), Dict(map["Id" := Text("b")])])])
  {
    IdLapFlattens("a");
    IdLapFlattens("b");
    assert Key("Lap") == "Lap";
    var node := Elem("Activity", None, [Elem("Lap", None, [Elem("Id", Some("a"), [])]),
                                        Elem("Lap", None, [Elem("Id", Some("b"), [])])]);
    assert Entries(node, 2).value == [("Lap", Dict(map["Id" := Text("a")])), ("Lap", Dict(map["Id" := Text("b")]))];
    CollectTwoDicts(map["Id" := Text("a")], map["Id" := Text("b")]);
  }

  /** A `<Lap>` holding one `<Id>` with text flattens to that one entry. */
  lemma IdLapFlattens(t: string)
    requires t == "a" || t == "b"
    ensures Flatten(Elem("Lap", None, [Elem("Id", Some(t), [])])) == Success(map["Id" := Text(t)])
  {
    assert HasContent(Some(t)) by { assert !IsSpace(t[0]); }
    assert Key("Id") == "Id";
    assert Entries(Elem("Lap", None, [Elem("Id", Some(t), [])]), 1).value == [("Id", Text(t))];
    assert Collect([("Id", Text(t))]) == Success(map["Id" := Text(t)]) by {
      assert [("Id", Text(t))][..0] == [];
    }
  }

  /** Two dicts under the same key are collected into a list of both. */
  lemma CollectTwoDicts(x: map<string, Feature>, y: map<string, Feature>)
    ensures Collect([("Lap", Dict(x)), ("Lap", Dict(y))]) == Success(map["Lap" := List([Dict(x), Dict(y)])])
  {
    var es := [("Lap", Dict(x)), ("Lap", Dict(y))];
    assert Collect(es[..1]) == Success(map["Lap" := Dict(x)]) by {
      assert es[..1] == [("Lap", Dict(x))] && es[..1][..0] == [];
    }
    assert Collect(es) == Insert(map["Lap" := Dict(x)], "Lap", Dict(y));
    assert map["Lap" := Dict(x)]["Lap" := List([Dict(x), Dict(y)])] == map["Lap" := List([Dict(x), Dict(y)])];
  }
}
