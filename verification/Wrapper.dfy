/** kvcache/wrapper.go over causal caches: the same operation on every cache, undone on those
    that went through when a later one is full. */
module Wrapper {
  import opened CacheModel
  import opened Wrappers
  import opened Forward
  import opened Sharing
  import opened Ranges
  import opened Rows
  import opened Causal
  import opened Undo

  /** A cache on which the batch may be started. */
  ghost predicate Ready(c: Causal, b: Batch)
    reads c, c.cells
  {
    c.Valid() && Continues(c.hist, b) && Settled(c.cells[..], c.curLocs, c.unwritten)
  }

  /** damaged are the sequences that a failed removal had left behind beforehand. */
  ghost predicate Untouched(c: Causal, cfg: Config, before: Model, damaged: set<int>, b: Batch)
    reads c, c.cells
  {
    Ready(c, b) && c.Cfg() == cfg && c.M() == before && c.broken == damaged
  }

  /** The pass has been started on this cache. */
  ghost predicate Begun(c: Causal, cfg: Config, before: Model, damaged: set<int>, b: Batch)
    reads c, c.cells
  {
    && c.Valid() && c.broken == damaged && c.Cfg() == cfg && Continues(before.hist, b)
    && HistOk(before.hist) && |before.cells| == |before.content| && (forall s :: s !in damaged ==> SeqOk(before, s))
    && ForwardStep(cfg, before, b) == Some(c.M()) && StoredAt(c.M(), b, c.curLocs)
  }

  /** The pass has not been started, or was undone: only expired positions are gone. */
  ghost predicate Restored(c: Causal, cfg: Config, before: Model, damaged: set<int>, b: Batch)
    reads c, c.cells
  {
    && c.Valid() && c.broken <= damaged && c.Cfg() == cfg
    && OnlyEvicted(cfg, before, b, c.M(), damaged) && Settled(c.cells[..], c.curLocs, c.unwritten)
  }

  ghost predicate AllUntouched(caches: seq<Causal>, cfgs: seq<Config>, pre: seq<Model>, dmg: seq<set<int>>, b: Batch)
    reads caches, set i | 0 <= i < |caches| :: caches[i].cells
    requires |caches| == |cfgs| == |pre| == |dmg|
  {
    forall i :: 0 <= i < |caches| ==> Untouched(caches[i], cfgs[i], pre[i], dmg[i], b)
  }

  ghost predicate AllBegun(caches: seq<Causal>, cfgs: seq<Config>, pre: seq<Model>, dmg: seq<set<int>>, b: Batch)
    reads caches, set i | 0 <= i < |caches| :: caches[i].cells
    requires |caches| == |cfgs| == |pre| == |dmg|
  {
    forall i :: 0 <= i < |caches| ==> Begun(caches[i], cfgs[i], pre[i], dmg[i], b)
  }

  /** Cache number failed was full; it and the earlier ones are restored, the later untouched. */
  ghost predicate Unwound(caches: seq<Causal>, cfgs: seq<Config>, pre: seq<Model>, dmg: seq<set<int>>, b: Batch, failed: nat)
    reads caches, set i | 0 <= i < |caches| :: caches[i].cells
    requires |caches| == |cfgs| == |pre| == |dmg|
  {
    && failed < |caches| && FullFor(cfgs[failed], pre[failed], b)
    && (forall i :: 0 <= i <= failed ==> Restored(caches[i], cfgs[i], pre[i], dmg[i], b))
    && (forall i :: failed < i < |caches| ==> Untouched(caches[i], cfgs[i], pre[i], dmg[i], b))
  }

  ghost predicate Resumable(c: Causal, s: int, pos: int)
    reads c, c.cells
  {
    c.memorySize == MAX_INT32 ||
      (0 < |Hist(c.hist, s)| && pos <= |Hist(c.hist, s)| && WindowStored(c.Cfg(), c.M(), s, pos))
  }

  /** No sequence but s can have been left behind by a failed removal since, and no other sequence
      differs from before. */
  ghost predicate Removing(c: Causal, before: Model, damaged: set<int>, s: int)
    reads c, c.cells
  {
    c.Valid() && c.broken <= damaged + {s} && forall t :: t != s ==> SameView(before, c.M(), t)
  }

  /** The removal went through; emptying s has repaired the cache. */
  ghost predicate Removed(c: Causal, before: Model, s: int, begin: int, end: int)
    reads c, c.cells
  {
    c.M() == RemoveStep(before, s, begin, end) && (begin == 0 && end == MAX_INT32 ==> s !in c.broken)
  }

  /** Caches that agreed on every history, and with it on every last position, still agree once
      a failed pass has been unwound; and none has lost the last position of a sequence. */
  lemma UnwoundAgrees(caches: seq<Causal>, cfgs: seq<Config>, pre: seq<Model>, dmg: seq<set<int>>, b: Batch, failed: nat, i: nat, s: int)
    requires |caches| == |cfgs| == |pre| == |dmg| && i < |caches| && Unwound(caches, cfgs, pre, dmg, b, failed)
    requires ValidConfig(cfgs[i]) && Continues(pre[i].hist, b) && SeqOk(pre[i], s) && s !in dmg[i]
    requires forall j :: 0 <= j < |pre| ==> Hist(pre[j].hist, s) == Hist(pre[0].hist, s)
    ensures Hist(caches[i].hist, s) == Hist(pre[0].hist, s)
    ensures Holds(caches[i].M().cells, s, |Hist(caches[i].hist, s)| - 1) <==> Holds(pre[i].cells, s, |Hist(pre[0].hist, s)| - 1)
  {
    hide StoreOk, ShapeOk, SeqOk;
    if i <= failed {
      assert Restored(caches[i], cfgs[i], pre[i], dmg[i], b);
      LastPositionSurvives(cfgs[i], pre[i], b, caches[i].M(), dmg[i], s);
      assert SameButEvicted(cfgs[i], pre[i], b, caches[i].M(), s);
    } else {
      assert Untouched(caches[i], cfgs[i], pre[i], dmg[i], b);
    }
  }

  /** The batch finds no room. */
  ghost predicate FullFor(cfg: Config, before: Model, b: Batch) {
    ShapedBatch(b) && |before.cells| == |before.content| && ForwardStep(cfg, before, b).None?
  }

  lemma EvictedOnly(cfg: Config, before: Model, b: Batch)
    requires ShapedBatch(b)
    ensures OnlyEvicted(cfg, before, b, Evicted(cfg, before, b), {})
  {
    EvictedFrame(cfg, before, b, 0, 0);
  }

  lemma ReadyFacts(c: Causal, cfg: Config, before: Model, damaged: set<int>, b: Batch)
    requires Untouched(c, cfg, before, damaged, b)
    ensures HistOk(before.hist) && |before.cells| == |before.content| && forall s :: s !in damaged ==> SeqOk(before, s)
  {
  }

  lemma BegunFacts(c: Causal, cfg: Config, before: Model, damaged: set<int>, b: Batch)
    requires Begun(c, cfg, before, damaged, b)
    ensures CellsOk(c.M().cells)
  {
  }

  /** No two caches share anything. */
  ghost predicate Apart(caches: seq<Causal>)
    reads caches
  {
    forall i, j :: 0 <= i < j < |caches| ==> caches[i] != caches[j] && caches[i].cells != caches[j].cells
  }

  class WrapperCache {
    const caches: seq<Causal>
    var curType: int

    constructor (caches: seq<Causal>)
      requires Apart(caches)
      ensures this.caches == caches
    {
      this.caches, curType := caches, 0;
    }

    /** The removals that undo a started pass on one cache. */
    method UndoPass(c: Causal, b: Batch)
      requires c.Valid() && ShapedBatch(b) && Int32Positions(b)
      modifies c, c.cells
      ensures c.Valid() && c.broken <= old(c.broken) && c.cells == old(c.cells)
      ensures c.Cfg() == old(c.Cfg()) && c.curLocs == old(c.curLocs) && c.unwritten == old(c.unwritten)
      ensures c.M() == UndoSteps(old(c.M()), b, |b.positions|)
    {
      hide ShapeOk, StoreOk, RemoveStep, SameView, Blocked;
      ghost var m := c.M();
      for k := 0 to |b.positions|
        invariant c.Valid() && c.broken <= old(c.broken) && c.cells == old(c.cells)
        invariant c.Cfg() == old(c.Cfg()) && c.curLocs == old(c.curLocs) && c.unwritten == old(c.unwritten)
        invariant c.M() == UndoSteps(m, b, k)
      {
        var status := c.Remove(b.sequences[k], b.positions[k], MAX_INT32);
      }
    }

    /** StartForward on one cache. */
    method StartCache(c: Causal, b: Batch, ghost cfg: Config, ghost before: Model, ghost damaged: set<int>) returns (status: Status)
      requires Untouched(c, cfg, before, damaged, b) && Int32Positions(b)
      modifies c, c.cells
      ensures c.cells == old(c.cells)
      ensures status.Ok? ==> Begun(c, cfg, before, damaged, b)
      ensures status.Err? ==> status == Err(CacheFull) && Restored(c, cfg, before, damaged, b) && FullFor(cfg, before, b)
    {
      ReadyFacts(c, cfg, before, damaged, b);
      hide ShapeOk, StoreOk, Settled, StoredAt, Continues, Int32Positions, SeqOk, HistOk;
      status := c.StartForward(b);
      if status.Err? {
        EvictedOnly(cfg, before, b);
      }
    }

    /** A started pass undone: histories as before, and nothing missing but what had expired. */
    method UndoCache(c: Causal, b: Batch, ghost cfg: Config, ghost before: Model, ghost damaged: set<int>)
      requires Begun(c, cfg, before, damaged, b) && Int32Positions(b)
      modifies c, c.cells
      ensures Restored(c, cfg, before, damaged, b) && c.cells == old(c.cells)
    {
      hide OnlyEvicted, StoredAt, Settled, SeqOk;
      BegunFacts(c, cfg, before, damaged, b);
      UndoRestores(cfg, before, b, damaged);
      UndoSettles(c.M(), b, c.curLocs, c.unwritten);
      UndoPass(c, b);
    }

    /** The undoing, from the last cache that went through back to the first. */
    method Unwind(n: nat, b: Batch, ghost cfgs: seq<Config>, ghost pre: seq<Model>, ghost dmg: seq<set<int>>)
      requires Apart(caches) && n <= |caches| == |cfgs| == |pre| == |dmg| && Int32Positions(b)
      requires forall j :: 0 <= j < n ==> Begun(caches[j], cfgs[j], pre[j], dmg[j], b)
      modifies set j | 0 <= j < n :: caches[j], set j | 0 <= j < n :: caches[j].cells
      ensures forall j :: 0 <= j < n ==> caches[j].cells == old(caches[j].cells)
      ensures forall j :: 0 <= j < n ==> Restored(caches[j], cfgs[j], pre[j], dmg[j], b)
    {
      hide Begun, Restored, Int32Positions;
      var j := n;
      while j > 0
        invariant 0 <= j <= n
        invariant forall k :: 0 <= k < n ==> caches[k].cells == old(caches[k].cells)
        invariant forall k :: 0 <= k < j ==> Begun(caches[k], cfgs[k], pre[k], dmg[k], b)
        invariant forall k :: j <= k < n ==> Restored(caches[k], cfgs[k], pre[k], dmg[k], b)
      {
        j := j - 1;
        UndoCache(caches[j], b, cfgs[j], pre[j], dmg[j]);
      }
    }

    /** The unwinding, seen from all caches. */
    method FailAt(failed: nat, b: Batch, ghost cfgs: seq<Config>, ghost pre: seq<Model>, ghost dmg: seq<set<int>>)
      requires Apart(caches) && |caches| == |cfgs| == |pre| == |dmg| && failed < |caches| && Int32Positions(b)
      requires forall j :: 0 <= j < failed ==> Begun(caches[j], cfgs[j], pre[j], dmg[j], b)
      requires Restored(caches[failed], cfgs[failed], pre[failed], dmg[failed], b) && FullFor(cfgs[failed], pre[failed], b)
      requires forall j :: failed < j < |caches| ==> Untouched(caches[j], cfgs[j], pre[j], dmg[j], b)
      modifies set j | 0 <= j < failed :: caches[j], set j | 0 <= j < failed :: caches[j].cells
      ensures Unwound(caches, cfgs, pre, dmg, b, failed) && Apart(caches)
    {
      hide Begun, Restored, Untouched, FullFor, Int32Positions;
      Unwind(failed, b, cfgs, pre, dmg);
    }

    /** StartForward on every cache in turn; cfgs and pre are what the caches are beforehand, dmg the
        sequences that failed removals have left behind in each. When
        cache number failed is full, the earlier ones are undone, it has only let expired
        positions go, and the later ones are untouched. */
    method StartForward(b: Batch, ghost cfgs: seq<Config>, ghost pre: seq<Model>, ghost dmg: seq<set<int>>)
      returns (status: Status, ghost failed: nat)
      requires Apart(caches) && Int32Positions(b) && |caches| == |cfgs| == |pre| == |dmg|
      requires AllUntouched(caches, cfgs, pre, dmg, b)
      modifies this`curType, caches, set i | 0 <= i < |caches| :: caches[i].cells
      ensures Apart(caches)
      ensures status.Ok? ==> AllBegun(caches, cfgs, pre, dmg, b) && curType == 0
      ensures status.Err? ==> status == Err(CacheFull) && Unwound(caches, cfgs, pre, dmg, b, failed)
    {
      hide Begun, Restored, Untouched, FullFor, Int32Positions;
      status, failed := Ok, 0;
      for i := 0 to |caches|
        invariant forall j :: 0 <= j < |caches| ==> caches[j].cells == old(caches[j].cells)
        invariant forall j :: 0 <= j < i ==> Begun(caches[j], cfgs[j], pre[j], dmg[j], b)
        invariant forall j :: i <= j < |caches| ==> Untouched(caches[j], cfgs[j], pre[j], dmg[j], b)
      {
        status := StartCache(caches[i], b, cfgs[i], pre[i], dmg[i]);
        if status.Err? {
          FailAt(i, b, cfgs, pre, dmg);
          return status, i;
        }
      }
      curType := 0;
      return Ok, 0;
    }

    method RemoveOne(c: Causal, s: int, begin: int, end: int, ghost before: Model, ghost damaged: set<int>) returns (status: Status)
      requires Removing(c, before, damaged, s) && c.M() == before && 0 <= begin <= end
      modifies c, c.cells
      ensures c.cells == old(c.cells) && Removing(c, before, damaged, s)
      ensures status.Ok? ==> Removed(c, before, s, begin, end)
      ensures end == MAX_INT32 ==> status.Ok?
    {
      hide ShapeOk, StoreOk, RemoveStep, SameView, Blocked;
      status := c.Remove(s, begin, end);
    }

    /** Remove on every cache in turn, giving up at the first that fails. Whatever happens, no
        other sequence of any cache is touched and only s can be damaged; up to the sentinel
        nothing fails, so the full removal the contract asks for repairs every cache. */
    method Remove(s: int, begin: int, end: int, ghost pre: seq<Model>, ghost dmg: seq<set<int>>) returns (status: Status)
      requires Apart(caches) && |caches| == |pre| == |dmg| && 0 <= begin <= end
      requires forall i :: 0 <= i < |caches| ==> Removing(caches[i], pre[i], dmg[i], s) && caches[i].M() == pre[i]
      modifies caches, set i | 0 <= i < |caches| :: caches[i].cells
      ensures Apart(caches)
      ensures forall i :: 0 <= i < |caches| ==> Removing(caches[i], pre[i], dmg[i], s)
      ensures status.Ok? ==> forall i :: 0 <= i < |caches| ==> Removed(caches[i], pre[i], s, begin, end)
      ensures end == MAX_INT32 ==> status.Ok?
    {
      hide Removing, Removed;
      for i := 0 to |caches|
        invariant forall j :: 0 <= j < |caches| ==> caches[j].cells == old(caches[j].cells) && Removing(caches[j], pre[j], dmg[j], s)
        invariant forall j :: 0 <= j < i ==> Removed(caches[j], pre[j], s, begin, end)
        invariant forall j :: i <= j < |caches| ==> caches[j].M() == pre[j]
      {
        status := RemoveOne(caches[i], s, begin, end, pre[i], dmg[i]);
        if status.Err? {
          return;
        }
      }
      return Ok;
    }

    method CopyPrefix(src: int, dst: int, len: int, ghost pre: seq<Model>)
      requires Apart(caches) && |caches| == |pre| && src != dst
      requires forall i :: 0 <= i < |caches| ==> caches[i].Valid() && caches[i].M() == pre[i]
      modifies caches, set i | 0 <= i < |caches| :: caches[i].cells
      ensures Apart(caches)
      ensures forall i :: 0 <= i < |caches| ==> caches[i].Valid() && caches[i].M() == CopyStep(pre[i], src, dst, len)
    {
      hide ShapeOk, StoreOk, CopyStep;
      for i := 0 to |caches|
        invariant forall j :: 0 <= j < |caches| ==> caches[j].cells == old(caches[j].cells) && caches[j].Valid()
        invariant forall j :: 0 <= j < |caches| ==> caches[j].M() == if j < i then CopyStep(pre[j], src, dst, len) else pre[j]
      {
        caches[i].CopyPrefix(src, dst, len);
      }
    }

    /** CanResume: every windowed cache has the window at pos stored. */
    method CanResume(s: int, pos: int) returns (ok: bool)
      requires 0 <= pos && forall i :: 0 <= i < |caches| ==> caches[i].Valid() && s !in caches[i].broken
      ensures ok <==> forall i :: 0 <= i < |caches| ==> Resumable(caches[i], s, pos)
    {
      hide ShapeOk, StoreOk, WindowStored;
      for i := 0 to |caches|
        invariant forall j :: 0 <= j < i ==> Resumable(caches[j], s, pos)
      {
        ok := caches[i].CanResume(s, pos);
        if !ok {
          return;
        }
      }
      return true;
    }
  }
}
