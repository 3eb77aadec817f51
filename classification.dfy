/** The per-frame classification: the loop over the detector's boxes that
    raises the `pizza` and `blister` flags for boxes inside the zone and keeps
    their confidences (app/camera.py, background loop and get_detection_flags). */
module Classification {
  import opened Records
  import opened Geometry

  /** One detected object: its class (absent when the detector gave none),
      its confidence as the rounded percentage the source derives (absent
      when the detector gave none) and its bounding box. */
  datatype Detection = Detection(cls: Option<int>, confPercent: Option<real>, box: Box)

  /** The detection flags dictionary. */
  datatype Flags = Flags(pizza: bool, blister: bool, confPizza: real, confBlister: real)

  const NoFlags := Flags(false, false, 0.0, 0.0)

  /** The class of a detection, -1 when the detector reported none. */
  function ClassOf(d: Detection): int
  {
    if d.cls.Some? then d.cls.value else -1
  }

  /** The confidence percentage of a detection, 0.0 when the detector reported none. */
  function ConfOf(d: Detection): real
  {
    if d.confPercent.Some? then d.confPercent.value else 0.0
  }

  /** The box raises the pizza flag. */
  predicate CountsAsPizza(d: Detection, area: Area, pizzaId: int)
  {
    IsInsideArea(d.box, area) && ClassOf(d) == pizzaId
  }

  /** The box raises the blister flag: the pizza test is made first, so a
      class equal to both identifiers only ever counts as pizza. */
  predicate CountsAsBlister(d: Detection, area: Area, pizzaId: int, blisterId: int)
  {
    IsInsideArea(d.box, area) && ClassOf(d) != pizzaId && ClassOf(d) == blisterId
  }

  /** The effect of one box on the flags: a qualifying box raises its flag
      and overwrites its confidence; everything else is kept. */
  function Absorb(f: Flags, d: Detection, area: Area, pizzaId: int, blisterId: int): (r: Flags)
    ensures r.pizza == (f.pizza || CountsAsPizza(d, area, pizzaId))
    ensures r.confPizza == if CountsAsPizza(d, area, pizzaId) then ConfOf(d) else f.confPizza
    ensures r.blister == (f.blister || CountsAsBlister(d, area, pizzaId, blisterId))
    ensures r.confBlister == if CountsAsBlister(d, area, pizzaId, blisterId) then ConfOf(d) else f.confBlister
  {
    if IsInsideArea(d.box, area) then
      if ClassOf(d) == pizzaId then f.(pizza := true, confPizza := ConfOf(d))
      else if ClassOf(d) == blisterId then f.(blister := true, confBlister := ConfOf(d))
      else f
    else f
  }

  /** The flags after the boxes have been visited in list order. */
  function Classified(dets: seq<Detection>, area: Area, pizzaId: int, blisterId: int): Flags
    decreases |dets|
  {
    if dets == [] then NoFlags
    else Absorb(Classified(dets[..|dets| - 1], area, pizzaId, blisterId), dets[|dets| - 1], area, pizzaId, blisterId)
  }

  /** Box k raises the pizza flag and no later box does. */
  ghost predicate IsLastPizza(dets: seq<Detection>, k: int, area: Area, pizzaId: int)
  {
    0 <= k < |dets| && CountsAsPizza(dets[k], area, pizzaId) &&
    forall j :: k < j < |dets| ==> !CountsAsPizza(dets[j], area, pizzaId)
  }

  /** Box k raises the blister flag and no later box does. */
  ghost predicate IsLastBlister(dets: seq<Detection>, k: int, area: Area, pizzaId: int, blisterId: int)
  {
    0 <= k < |dets| && CountsAsBlister(dets[k], area, pizzaId, blisterId) &&
    forall j :: k < j < |dets| ==> !CountsAsBlister(dets[j], area, pizzaId, blisterId)
  }

  /** The pizza flag is raised exactly when some box counts as pizza; when
      none does its confidence stays 0.0. */
  lemma {:induction false} ClassifiedPizza(dets: seq<Detection>, area: Area, pizzaId: int, blisterId: int)
    ensures Classified(dets, area, pizzaId, blisterId).pizza <==>
            exists i :: 0 <= i < |dets| && CountsAsPizza(dets[i], area, pizzaId)
    ensures !Classified(dets, area, pizzaId, blisterId).pizza ==>
            Classified(dets, area, pizzaId, blisterId).confPizza == 0.0
    decreases |dets|
  {
    if dets != [] {
      var n := |dets|;
      var prefix := dets[..n - 1];
      ClassifiedPizza(prefix, area, pizzaId, blisterId);
      if exists i :: 0 <= i < n && CountsAsPizza(dets[i], area, pizzaId) {
        var i :| 0 <= i < n && CountsAsPizza(dets[i], area, pizzaId);
        if i < n - 1 {
          assert CountsAsPizza(prefix[i], area, pizzaId);
        }
      }
    }
  }

  /** A raised pizza flag carries the confidence of the last box that counts
      as pizza. */
  lemma {:induction false} ClassifiedPizzaLast(dets: seq<Detection>, area: Area, pizzaId: int, blisterId: int)
    ensures Classified(dets, area, pizzaId, blisterId).pizza ==>
            exists k :: IsLastPizza(dets, k, area, pizzaId) &&
                        Classified(dets, area, pizzaId, blisterId).confPizza == ConfOf(dets[k])
    decreases |dets|
  {
    if dets != [] {
      var n := |dets|;
      var prefix := dets[..n - 1];
      ClassifiedPizzaLast(prefix, area, pizzaId, blisterId);
      var before := Classified(prefix, area, pizzaId, blisterId);
      if CountsAsPizza(dets[n - 1], area, pizzaId) {
        assert IsLastPizza(dets, n - 1, area, pizzaId);
      } else if before.pizza {
        var k :| IsLastPizza(prefix, k, area, pizzaId) && before.confPizza == ConfOf(prefix[k]);
        assert IsLastPizza(dets, k, area, pizzaId);
      }
    }
  }

  /** The blister flag is raised exactly when some box counts as blister; when
      none does its confidence stays 0.0. */
  lemma {:induction false} ClassifiedBlister(dets: seq<Detection>, area: Area, pizzaId: int, blisterId: int)
    ensures Classified(dets, area, pizzaId, blisterId).blister <==>
            exists i :: 0 <= i < |dets| && CountsAsBlister(dets[i], area, pizzaId, blisterId)
    ensures !Classified(dets, area, pizzaId, blisterId).blister ==>
            Classified(dets, area, pizzaId, blisterId).confBlister == 0.0
    decreases |dets|
  {
    if dets != [] {
      var n := |dets|;
      var prefix := dets[..n - 1];
      ClassifiedBlister(prefix, area, pizzaId, blisterId);
      if exists i :: 0 <= i < n && CountsAsBlister(dets[i], area, pizzaId, blisterId) {
        var i :| 0 <= i < n && CountsAsBlister(dets[i], area, pizzaId, blisterId);
        if i < n - 1 {
          assert CountsAsBlister(prefix[i], area, pizzaId, blisterId);
        }
      }
    }
  }

  /** A raised blister flag carries the confidence of the last box that counts
      as blister. */
  lemma {:induction false} ClassifiedBlisterLast(dets: seq<Detection>, area: Area, pizzaId: int, blisterId: int)
    ensures Classified(dets, area, pizzaId, blisterId).blister ==>
            exists k :: IsLastBlister(dets, k, area, pizzaId, blisterId) &&
                        Classified(dets, area, pizzaId, blisterId).confBlister == ConfOf(dets[k])
    decreases |dets|
  {
    if dets != [] {
      var n := |dets|;
      var prefix := dets[..n - 1];
      ClassifiedBlisterLast(prefix, area, pizzaId, blisterId);
      var before := Classified(prefix, area, pizzaId, blisterId);
      if CountsAsBlister(dets[n - 1], area, pizzaId, blisterId) {
        assert IsLastBlister(dets, n - 1, area, pizzaId, blisterId);
      } else if before.blister {
        var k :| IsLastBlister(prefix, k, area, pizzaId, blisterId) && before.confBlister == ConfOf(prefix[k]);
        assert IsLastBlister(dets, k, area, pizzaId, blisterId);
      }
    }
  }

  /** The box loop: visits the boxes in order and fills the flags in place. */
  method Classify(dets: seq<Detection>, area: Area, pizzaId: int, blisterId: int) returns (f: Flags)
    ensures f == Classified(dets, area, pizzaId, blisterId)
    ensures f.pizza <==> exists i :: 0 <= i < |dets| && CountsAsPizza(dets[i], area, pizzaId)
    ensures f.blister <==> exists i :: 0 <= i < |dets| && CountsAsBlister(dets[i], area, pizzaId, blisterId)
  {
    f := NoFlags;
    for i := 0 to |dets|
      invariant f == Classified(dets[..i], area, pizzaId, blisterId)
    {
      assert dets[..i + 1][..i] == dets[..i];
      var d := dets[i];
      if IsInsideArea(d.box, area) {
        if ClassOf(d) == pizzaId {
          f := f.(pizza := true, confPizza := ConfOf(d));
        } else if ClassOf(d) == blisterId {
          f := f.(blister := true, confBlister := ConfOf(d));
        }
      }
    }
    assert dets[..|dets|] == dets;
    ClassifiedPizza(dets, area, pizzaId, blisterId);
    ClassifiedBlister(dets, area, pizzaId, blisterId);
  }
}
