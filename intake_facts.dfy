/**
 * What build_intake_structure promises about the parts it emits: which error
 * it raises, where each pier, bar, gate and tunnel stands, how the deck and
 * the crane span the bays, and that only the gates and the crane move.
 */
module IntakeFacts {
  import opened Outcomes
  import opened Resolve
  import opened Scene
  import opened Intake

  /**
   * The build fails with the KeyError of an absent key, else with a TypeError
   * exactly when the bay count is a float, else exactly when there is at least
   * one bay and the row count is a float.
   */
  lemma IntakeErrorCases(v: Values)
    ensures Need(v, IntakeKeys).Some? ==> IntakePlan(v) == Failure(Need(v, IntakeKeys).value)
    ensures Need(v, IntakeKeys).Some? ==> Need(v, IntakeKeys).value.key !in v
    ensures Need(v, IntakeKeys).None? ==> BayCountKey in v && RowsKey in v
    ensures Need(v, IntakeKeys).None? ==>
              (IntakePlan(v) == Failure(NotAnInteger(BayCountKey)) <==> NumOf(v[BayCountKey]).FloatV?)
    ensures Need(v, IntakeKeys).None? ==>
              (IntakePlan(v) == Failure(NotAnInteger(RowsKey)) <==>
                 IsCount(v, BayCountKey) && CountOf(v, BayCountKey) > 0 && NumOf(v[RowsKey]).FloatV?)
    ensures IntakePlan(v).Success? <==>
              Need(v, IntakeKeys).None? && IsCount(v, BayCountKey)
              && (CountOf(v, BayCountKey) <= 0 || IsCount(v, RowsKey))
  {
    NeedSpec(v, IntakeKeys);
    if Need(v, IntakeKeys).None? {
      IntakeCounts(v);
    }
  }

  /** A successful build uses the resolved bay count, the resolved row count when it loops over rows, and the bay width */
  lemma IntakeReads(v: Values)
    requires IntakePlan(v).Success?
    ensures BayCountKey in v && RowsKey in v && "bay_width" in v
    ensures IsCount(v, BayCountKey) && IntakePlan(v).value.bays == CountOf(v, BayCountKey)
    ensures IntakePlan(v).value.bays > 0 ==> IsCount(v, RowsKey) && IntakePlan(v).value.rows == CountOf(v, RowsKey)
    ensures IntakePlan(v).value.bayWidth == Real(v, "bay_width")
  {
    NeedSpec(v, IntakeKeys);
    IntakeCounts(v);
    assert IntakeKeys[1] == "bay_width";
  }

  lemma {:induction false} GroupUpToAt(p: IntakeParams, g: Group, k: nat, i: nat)
    requires i < k
    ensures GroupUpTo(p, g, k)[i] == GroupObj(p, g, i)
  {
    if i < k - 1 {
      GroupUpToAt(p, g, k - 1, i);
    }
  }

  lemma {:induction false} RowsUpToAt(p: IntakeParams, bay: int, k: nat, row: nat)
    requires row < k
    ensures RowsUpTo(p, bay, k)[row] == BarObj(p, bay, row)
  {
    if row < k - 1 {
      RowsUpToAt(p, bay, k - 1, row);
    }
  }

  lemma MulMono(a: nat, b: nat, r: nat)
    requires a <= b
    ensures a * r <= b * r
  {
  }

  /** The bars come bay by bay, Count(rows) to a bay, row by row within a bay */
  lemma {:induction false} BarsUpToAt(p: IntakeParams, k: nat, bay: nat, row: nat)
    requires bay < k && row < Count(p.rows)
    ensures bay * Count(p.rows) + row < |BarsUpTo(p, k)|
    ensures BarsUpTo(p, k)[bay * Count(p.rows) + row] == BarObj(p, bay, row)
  {
    var r := Count(p.rows);
    if bay < k - 1 {
      MulMono(bay + 1, k - 1, r);
      BarsUpToAt(p, k - 1, bay, row);
    } else {
      RowsUpToAt(p, bay, r, row);
    }
  }

  /** The build emits N + 1 piers, one deck, N * R bars, N gates, N tunnels, the crane, the camera and the light */
  lemma IntakeCount(p: IntakeParams)
    ensures |IntakeObjs(p)| == Count(p.bays + 1) + 1 + Count(p.bays) * Count(p.rows) + 2 * Count(p.bays) + 3
    ensures |IntakeObjs(p)| == LightAt(p) + 1
    ensures p.bays >= 0 ==> |IntakeObjs(p)| == 3 * p.bays + p.bays * Count(p.rows) + 5
  {
  }

  /** Pier i stands on the bay boundary x = i * W, centred at half the intake height */
  lemma PierPlaced(p: IntakeParams, i: nat)
    requires i < Count(p.bays + 1)
    ensures IntakeObjs(p)[i] == PierObj(p, i)
    ensures IntakeObjs(p)[i].loc == Loc(At(i as real * p.bayWidth), At(0.0), p.height / 2.0)
    ensures IntakeObjs(p)[i].material == IntakeConcrete
  {
    var piers := GroupObjs(p, Piers);
    GroupUpToAt(p, Piers, Count(p.bays + 1), i);
    assert piers[i] == PierObj(p, i);
    var rest := [DeckObj(p)] + Bars(p) + GroupObjs(p, Gates) + GroupObjs(p, Tunnels)
                + [CraneObj(p, true), CameraObj(p), LightObj(p)];
    assert IntakeObjs(p) == piers + rest;
    assert PierObj(p, i).loc == Loc(At(BoundaryX(p, i)), At(0.0), p.height / 2.0);
    assert BoundaryX(p, i) == i as real * p.bayWidth;
  }

  /** The deck spans from the first pier (x = 0) to the last (x = N * W) and its top is at the deck elevation */
  lemma DeckPlaced(p: IntakeParams)
    ensures IntakeObjs(p)[DeckAt(p)] == DeckObj(p)
    ensures DeckObj(p).loc.x.v - DeckObj(p).scale.x == BoundaryX(p, 0)
    ensures DeckObj(p).loc.x.v + DeckObj(p).scale.x == BoundaryX(p, p.bays)
    ensures DeckObj(p).loc.z + DeckObj(p).scale.z == p.deck
  {
  }

  /** Bar row of bay i stands at the bay's centre, row * (T + G) above the sill, one bar thickness plus one gap above the row below */
  lemma BarPlaced(p: IntakeParams, i: nat, row: nat)
    requires i < Count(p.bays) && row < Count(p.rows)
    ensures BarsAt(p) + i * Count(p.rows) + row < GatesAt(p)
    ensures IntakeObjs(p)[BarsAt(p) + i * Count(p.rows) + row] == BarObj(p, i, row)
    ensures BarObj(p, i, row).loc.x == At(i as real * p.bayWidth + p.bayWidth / 2.0)
    ensures BarObj(p, i, row).loc.z == p.sill + row as real * (p.barThick + p.barGap)
    ensures row > 0 ==> BarObj(p, i, row).loc.z - BarObj(p, i, row - 1).loc.z == p.barThick + p.barGap
  {
    BarsUpToAt(p, Count(p.bays), i, row);
    var objs := IntakeObjs(p);
    var front := GroupObjs(p, Piers) + [DeckObj(p)];
    assert objs == front + Bars(p) + (GroupObjs(p, Gates) + GroupObjs(p, Tunnels)
                                      + [CraneObj(p, true), CameraObj(p), LightObj(p)]);
    if row > 0 {
      assert row as real * (p.barThick + p.barGap) == (row - 1) as real * (p.barThick + p.barGap) + (p.barThick + p.barGap);
    }
  }

  /** Gate i stands at the centre of bay i, raised by GATE_CLEAR_TOP above the middle of the opening */
  lemma GatePlaced(p: IntakeParams, i: nat)
    requires i < Count(p.bays)
    ensures IntakeObjs(p)[GatesAt(p) + i] == GateObj(p, i, true)
    ensures GateObj(p, i, true).loc.x == At(i as real * p.bayWidth + p.bayWidth / 2.0)
    ensures GateObj(p, i, true).loc.z == p.sill + (p.height - p.sill) / 2.0 + p.gateClear
  {
    GroupUpToAt(p, Gates, Count(p.bays), i);
    var objs := IntakeObjs(p);
    var before := GroupObjs(p, Piers) + [DeckObj(p)] + Bars(p);
    assert objs == before + GroupObjs(p, Gates) + (GroupObjs(p, Tunnels) + [CraneObj(p, true), CameraObj(p), LightObj(p)]);
  }

  /** Tunnel i lies behind the piers at the centre of bay i, on the floor, turned 90 degrees about x */
  lemma TunnelPlaced(p: IntakeParams, i: nat)
    requires i < Count(p.bays)
    ensures IntakeObjs(p)[TunnelsAt(p) + i] == TunnelObj(p, i)
    ensures TunnelObj(p, i).loc.x == At(i as real * p.bayWidth + p.bayWidth / 2.0)
    ensures TunnelObj(p, i).loc.y == At(-(p.tunnelLen / 2.0 + p.pierThick))
    ensures TunnelObj(p, i).loc.z - TunnelObj(p, i).shape.radius == p.floor
    ensures TunnelObj(p, i).rot == Vec(90.0, 0.0, 0.0)
  {
    GroupUpToAt(p, Tunnels, Count(p.bays), i);
    var objs := IntakeObjs(p);
    var before := GroupObjs(p, Piers) + [DeckObj(p)] + Bars(p) + GroupObjs(p, Gates);
    assert objs == before + GroupObjs(p, Tunnels) + [CraneObj(p, true), CameraObj(p), LightObj(p)];
  }

  /** The last three parts: the crane, the scene's camera, and the area light of energy 1000 */
  lemma TopPlaced(p: IntakeParams)
    ensures IntakeObjs(p)[CraneAt(p)] == CraneObj(p, true)
    ensures IntakeObjs(p)[CameraAt(p)] == CameraObj(p) && CameraObj(p).shape.Camera?
    ensures IntakeObjs(p)[LightAt(p)] == LightObj(p) && LightObj(p).shape == AreaLight(1000.0)
    ensures CameraObj(p).loc == Loc(At(Span(p)), At(-Span(p)), p.deck * 1.2)
  {
  }

  /**
   * The crane starts centred over the deck, CRANE_SPAN_XPAD wider on each side
   * than the deck, on top of the deck; its clip moves it by N * W / 4 and
   * nothing else, so it ends at a quarter of the span.
   */
  lemma CraneMotion(p: IntakeParams, j: nat)
    ensures var c := CraneClip(p, j);
      && c[0] == LocKey(j, 1, CraneLoc(p)) && c[1].LocKey? && c[1].frame == 100 && c[2] == Cycles(j)
      && c[1].loc.y == CraneLoc(p).y && c[1].loc.z == CraneLoc(p).z
      && c[1].loc.x.v == CraneLoc(p).x.v - Span(p) / 4.0
      && c[1].loc.x.v == Span(p) / 4.0
    ensures CraneLoc(p).x.v == DeckObj(p).loc.x.v
    ensures CraneObj(p, true).scale.x == DeckObj(p).scale.x + p.craneXPad
    ensures CraneLoc(p).z - CraneObj(p, true).scale.z == p.deck
  {
  }

  /** A gate's clip keys it lowered at frame 1 and raised by GATE_CLEAR_TOP at frame 50, only its height changing */
  lemma GateMotion(p: IntakeParams, j: nat, i: int)
    ensures var c := GateClip(p, j, i);
      && c[0] == LocKey(j, 1, GateLoc(p, i)) && c[1].LocKey? && c[1].frame == 50 && c[2] == Cycles(j)
      && c[1].loc.x == GateLoc(p, i).x && c[1].loc.y == GateLoc(p, i).y
      && c[1].loc.z == GateLoc(p, i).z + p.gateClear
    ensures GateLoc(p, i).z - GateObj(p, i, false).scale.z == p.sill
    ensures GateLoc(p, i).z + GateObj(p, i, false).scale.z == p.height
  {
  }

  lemma MoveClipOf(j: nat, frame: int, from: Loc, to: Loc, k: nat)
    ensures AnimsOf(MoveClip(j, frame, from, to), k) == if j == k then MoveClip(j, frame, from, to) else []
  {
    var c := MoveClip(j, frame, from, to);
    assert c[..|c| - 1] == [c[0], c[1]];
    assert [c[0], c[1]][..1] == [c[0]];
    assert [c[0]][..0] == [];
    assert AnimsOf([c[0]], k) == if j == k then [c[0]] else [];
    assert AnimsOf([c[0], c[1]], k) == if j == k then [c[0], c[1]] else [];
  }

  /** Among the first n gate clips, object k has the clip of gate k - first if it is one of those gates, and none otherwise */
  lemma {:induction false} GateClipsOf(p: IntakeParams, first: nat, n: nat, k: nat)
    ensures AnimsOf(GateClipsUpTo(p, first, n), k) ==
              if first <= k < first + n then GateClip(p, k, k - first) else []
  {
    if n > 0 {
      var before := GateClipsUpTo(p, first, n - 1);
      var last := GateClip(p, first + n - 1, n - 1);
      GateClipsOf(p, first, n - 1, k);
      AnimsOfAppend(before, last, k);
      MoveClipOf(first + n - 1, 50, GateObj(p, n - 1, false).loc, GateObj(p, n - 1, true).loc, k);
      if k == first + n - 1 {
        assert AnimsOf(before, k) == [];
        assert AnimsOf(last, k) == last;
        assert [] + last == last;
      } else {
        assert AnimsOf(last, k) == [];
        assert AnimsOf(before, k) + [] == AnimsOf(before, k);
      }
    }
  }

  /** Only the gates and the crane are animated, each by exactly its own clip */
  lemma IntakeClips(p: IntakeParams, base: nat, k: nat)
    ensures AnimsOf(IntakeAnims(p, base), k) ==
              if base + GatesAt(p) <= k < base + TunnelsAt(p) then GateClip(p, k, k - base - GatesAt(p))
              else if k == base + CraneAt(p) then CraneClip(p, k)
              else []
  {
    var gates := GateClipsUpTo(p, base + GatesAt(p), Count(p.bays));
    var crane := CraneClip(p, base + CraneAt(p));
    GateClipsOf(p, base + GatesAt(p), Count(p.bays), k);
    AnimsOfAppend(gates, crane, k);
    MoveClipOf(base + CraneAt(p), 100, CraneObj(p, false).loc, CraneObj(p, true).loc, k);
    if k == base + CraneAt(p) {
      assert AnimsOf(gates, k) == [];
      assert [] + crane == crane;
    } else {
      assert AnimsOf(crane, k) == [];
      assert AnimsOf(gates, k) + [] == AnimsOf(gates, k);
    }
  }
}
