/**
 * The building plots of one match and the manager that owns them
 * (game/plot/PlotManager.php).
 */
module Plots {
  import opened Options

  /** A corner of a plot's region. The source parses these from configuration into float vectors. */
  datatype Vec3 = Vec3(x: int, y: int, z: int)

  /** A plot: its id, whether a builder occupies it, its bounding corners and its build-height ceiling. */
  datatype Plot = Plot(id: int, taken: bool, min: Vec3, max: Vec3, height: int)

  /** The plots that are not taken, visited in the order of ids (which must all be registered in m). */
  function Untaken(ids: seq<int>, m: map<int, Plot>): (r: seq<Plot>)
    requires forall k :: 0 <= k < |ids| ==> ids[k] in m
    ensures |r| <= |ids|
  {
    if ids == [] then []
    else
      var last := m[ids[|ids| - 1]];
      Untaken(ids[..|ids| - 1], m) + if last.taken then [] else [last]
  }

  /** The untaken list holds exactly the plots of ids that are not taken. */
  lemma {:induction false} UntakenMembers(ids: seq<int>, m: map<int, Plot>)
    requires forall k :: 0 <= k < |ids| ==> ids[k] in m
    ensures forall p :: p in Untaken(ids, m) ==> !p.taken && exists k :: 0 <= k < |ids| && m[ids[k]] == p
    ensures forall k :: 0 <= k < |ids| && !m[ids[k]].taken ==> m[ids[k]] in Untaken(ids, m)
  {
    if ids != [] {
      var n := |ids| - 1;
      var prefix := ids[..n];
      UntakenMembers(prefix, m);
      var last := m[ids[n]];
      assert Untaken(ids, m) == Untaken(prefix, m) + if last.taken then [] else [last];
      forall p | p in Untaken(ids, m) ensures !p.taken && exists k :: 0 <= k < |ids| && m[ids[k]] == p {
        if p !in Untaken(prefix, m) {
          assert m[ids[n]] == p;
        } else {
          var k :| 0 <= k < |prefix| && m[prefix[k]] == p;
          assert m[ids[k]] == p;
        }
      }
      forall k | 0 <= k < |ids| && !m[ids[k]].taken ensures m[ids[k]] in Untaken(ids, m) {
        if k < n {
          assert prefix[k] == ids[k];
        }
      }
    }
  }

  /**
   * When ids lists every key of m, the untaken list is empty exactly when every plot is taken,
   * and each plot on it is registered under its own id.
   */
  lemma UntakenIsFreePlots(ids: seq<int>, m: map<int, Plot>)
    requires forall k :: 0 <= k < |ids| ==> ids[k] in m
    requires forall id :: id in m ==> id in ids
    requires forall id :: id in m ==> m[id].id == id
    ensures Untaken(ids, m) == [] <==> forall id :: id in m ==> m[id].taken
    ensures forall p :: p in Untaken(ids, m) ==> p.id in m && m[p.id] == p && !p.taken
  {
    var r := Untaken(ids, m);
    UntakenMembers(ids, m);
    forall p | p in r ensures p.id in m && m[p.id] == p && !p.taken {
      var k :| 0 <= k < |ids| && m[ids[k]] == p;
      assert m[ids[k]].id == ids[k];
    }
    if r == [] {
      forall id | id in m ensures m[id].taken {
        var k :| 0 <= k < |ids| && ids[k] == id;
      }
    } else {
      assert r[0] in r;
      assert !m[r[0].id].taken;
    }
  }

  class PlotManager {
    /** The registered plots by id. */
    var plots: map<int, Plot>
    /** The ids in the order they were first registered, as a PHP array keeps its keys. */
    var order: seq<int>

    ghost predicate Valid()
      reads this
    {
      && (forall i, j :: 0 <= i < j < |order| ==> order[i] != order[j])
      && (forall k :: 0 <= k < |order| ==> order[k] in plots)
      && (forall id :: id in plots ==> id in order)
      && (forall id :: id in plots ==> plots[id].id == id)
    }

    /** A new manager holds no plots. */
    constructor ()
      ensures Valid()
      ensures plots == map[] && order == []
    {
      plots := map[];
      order := [];
    }

    /** Some registered plot is free. */
    predicate HasFreePlot()
      reads this
    {
      exists id :: id in plots && !plots[id].taken
    }

    /** Registers a fresh, untaken plot under id, replacing any plot already registered there. */
    method AddPlot(id: int, min: Vec3, max: Vec3, height: int)
      requires Valid()
      modifies this
      ensures Valid()
      ensures plots == old(plots)[id := Plot(id, false, min, max, height)]
      ensures plots.Keys == old(plots).Keys + {id}
      ensures forall k :: k in old(plots) && k != id ==> plots[k] == old(plots)[k]
      ensures |plots| <= |old(plots)| + 1
      ensures order == if id in old(plots) then old(order) else old(order) + [id]
      ensures order == if id in old(order) then old(order) else old(order) + [id]
    {
      if id !in plots {
        order := order + [id];
      }
      plots := plots[id := Plot(id, false, min, max, height)];
    }

    /** The whole id-to-plot mapping. */
    function GetPlots(): (m: map<int, Plot>)
      reads this
      requires Valid()
      ensures m == plots
      ensures forall id :: id in m <==> id in order
    {
      plots
    }

    /**
     * Collects the untaken plots in registration order and picks any one of them;
     * None when there is none. The choice stands for array_rand and is left open.
     */
    method GetRandomPlot() returns (r: Option<Plot>)
      requires Valid()
      ensures r.None? <==> !HasFreePlot()
      ensures r.Some? ==> r.value.id in plots && plots[r.value.id] == r.value && !r.value.taken
      ensures r.Some? ==> r.value in Untaken(order, plots)
    {
      var available: seq<Plot> := [];
      var i := 0;
      while i < |order|
        invariant 0 <= i <= |order|
        invariant available == Untaken(order[..i], plots)
      {
        assert order[..i + 1][..i] == order[..i];
        var plot := plots[order[i]];
        assert Untaken(order[..i + 1], plots) == Untaken(order[..i], plots) + if plot.taken then [] else [plot];
        if !plot.taken {
          available := available + [plot];
        }
        i := i + 1;
      }
      assert order[..i] == order;
      UntakenIsFreePlots(order, plots);
      if |available| == 0 {
        return None;
      }
      var k :| 0 <= k < |available|;
      assert available[k] in available;
      r := Some(available[k]);
    }

    /**
     * Changes the occupancy of a registered plot. This stands for Plot::setTaken,
     * called by admission code outside this model on a plot it obtained from the manager.
     */
    method SetTaken(id: int, taken: bool)
      requires Valid() && id in plots
      modifies this
      ensures Valid()
      ensures plots == old(plots)[id := old(plots)[id].(taken := taken)]
      ensures order == old(order)
    {
      plots := plots[id := plots[id].(taken := taken)];
    }
  }

  /** A client of the manager: allocation sees a plot once it is added and stops seeing it once it is taken. */
  method AllocationScenario(min: Vec3, max: Vec3)
  {
    var manager := new PlotManager();
    var none := manager.GetRandomPlot();
    assert none.None?;
    manager.AddPlot(1, min, max, 20);
    var one := manager.GetRandomPlot();
    assert one == Some(Plot(1, false, min, max, 20));
    manager.SetTaken(1, true);
    var gone := manager.GetRandomPlot();
    assert gone.None?;
  }
}
