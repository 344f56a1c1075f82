/** Label translation from detector class names to the report's vocabulary (utils/TranslateObject.py). */
module Translation {

  /** The renamings the source applies; every other label is kept as it is. */
  const Renamings: map<string, string> := map[
    "person" := "pedestrian",
    "truck" := "lorry",
    "van" := "car",
    "bicycle" := "cyclist",
    "dog" := "animal",
    "cat" := "animal",
    "bird" := "animal"
  ]

  /**
   * `translate(label)`: a chain of independent `if` statements, each testing the
   * unchanged input and overwriting the result.
   */
  function Translate(raw: string): (translated: string)
    ensures raw in Renamings ==> translated == Renamings[raw]
    ensures raw !in Renamings ==> translated == raw
  {
    var t0 := raw;
    var t1 := if raw == "person" then "pedestrian" else t0;
    var t2 := if raw == "truck" then "lorry" else t1;
    var t3 := if raw == "van" then "car" else t2;
    var t4 := if raw == "bicycle" then "cyclist" else t3;
    var t5 := if raw == "dog" then "animal" else t4;
    var t6 := if raw == "cat" then "animal" else t5;
    var t7 := if raw == "bird" then "animal" else t6;
    t7
  }

  /** No renamed label is itself renamed again. */
  lemma RenamedLabelsAreFinal()
    ensures forall k :: k in Renamings ==> Renamings[k] !in Renamings
  {
    forall k | k in Renamings ensures Renamings[k] !in Renamings {
      var v := Renamings[k];
      assert v == "pedestrian" || v == "lorry" || v == "car" || v == "cyclist" || v == "animal";
    }
  }

  /** Translating twice gives what translating once gives. */
  lemma TranslateIdempotent(raw: string)
    ensures Translate(Translate(raw)) == Translate(raw)
  {
    RenamedLabelsAreFinal();
  }

  /** A translated label is a fixed point: either it was renamed, to a label outside the table, or kept. */
  lemma TranslatedIsFixedPoint(raw: string)
    ensures raw in Renamings ==> Translate(raw) !in Renamings
    ensures Translate(raw) != raw ==> Translate(raw) !in Renamings
  {
    RenamedLabelsAreFinal();
  }
}
