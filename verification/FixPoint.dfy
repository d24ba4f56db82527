/** When no push was suppressed, the drained worklist is a post-fixpoint. */
module FixPoint {
  import opened Semantics
  import opened Worklist

  // The recorded edge to this address is respected by the exit state out.
  ghost predicate EdgeOk(f: Program, w: Work, address: nat, out: State)
    requires Fits(f, w)
  {
    var n := BlockIndex(f, address, 0);
    n < |f.blocks| ==> w.init[n] && Covers(w.inputs[n], out)
  }

  ghost predicate EdgesOk(f: Program, w: Work, b: nat)
    requires Fits(f, w) && b < |f.blocks|
  {
    forall j :: 0 <= j < |f.blocks[b].successors| ==>
      EdgeOk(f, w, f.blocks[b].successors[j], Exit(f, b, w.inputs[b]))
  }

  // The first block, which the analyser seeds, still covers its seed.
  ghost predicate EntryOk(f: Program, w: Work)
    requires Fits(f, w)
  {
    w.init[0] && Covers(w.inputs[0], EntryState())
  }

  // Every initialised block that is not waiting has its edges in order; waiting blocks are
  // still ahead of the cursor.
  ghost predicate Settled(f: Program, w: Work)
    requires Fits(f, w)
  {
    && EntryOk(f, w)
    && (forall b :: 0 <= b < |f.blocks| && w.queued[b] ==> b in w.queue[w.cursor..])
    && (!w.suppressed ==> forall b :: 0 <= b < |f.blocks| && w.init[b] && !w.queued[b] ==> EdgesOk(f, w, b))
  }

  // In the middle of relaxing block b, whose input was s, with k successors done.
  ghost predicate Midway(f: Program, w: Work, b: nat, s: State, k: nat)
    requires Fits(f, w) && b < |f.blocks| && k <= |f.blocks[b].successors|
  {
    && EntryOk(f, w) && w.init[b]
    && (forall c :: 0 <= c < |f.blocks| && w.queued[c] ==> c in w.queue[w.cursor..])
    && (!w.suppressed ==>
          && (w.queued[b] || w.inputs[b] == s)
          && (forall c :: 0 <= c < |f.blocks| && c != b && w.init[c] && !w.queued[c] ==> EdgesOk(f, w, c))
          && (forall j :: 0 <= j < k ==> EdgeOk(f, w, f.blocks[b].successors[j], Exit(f, b, s))))
  }

  // Inputs only ever say less, and only where they changed is there something to redo.
  ghost predicate Lowered(f: Program, w: Work, v: Work)
    requires Fits(f, w) && Fits(f, v)
  {
    && (forall c :: 0 <= c < |f.blocks| && w.init[c] ==> v.init[c] && Covers(v.inputs[c], w.inputs[c]))
    && (forall c :: 0 <= c < |f.blocks| && (v.inputs[c] != w.inputs[c] || v.init[c] != w.init[c]) ==>
          v.queued[c] || v.suppressed)
    && (forall c :: 0 <= c < |f.blocks| && w.queued[c] ==> v.queued[c])
    && (w.suppressed ==> v.suppressed)
  }

  lemma RelaxLowers(f: Program, w: Work, address: nat, out: State)
    requires Fits(f, w)
    ensures Lowered(f, w, Relax(f, w, address, out))
    ensures EdgeOk(f, Relax(f, w, address, out), address, out)
  {
    RelaxCovers(f, w, address, out);
    RelaxMarks(f, w, address, out);
  }

  // A changed input is queued, or the cap has suppressed its push.
  lemma RelaxMarks(f: Program, w: Work, address: nat, out: State)
    requires Fits(f, w)
    ensures var v := Relax(f, w, address, out);
            && (forall c :: 0 <= c < |f.blocks| && (v.inputs[c] != w.inputs[c] || v.init[c] != w.init[c]) ==>
                  v.queued[c] || v.suppressed)
            && (forall c :: 0 <= c < |f.blocks| && w.queued[c] ==> v.queued[c])
            && (w.suppressed ==> v.suppressed)
  {
    var n := BlockIndex(f, address, 0);
    if n < |f.blocks| { MergeCovers(w.inputs[n], out); }
  }

  lemma RelaxCovers(f: Program, w: Work, address: nat, out: State)
    requires Fits(f, w)
    ensures var v := Relax(f, w, address, out);
            && (forall c :: 0 <= c < |f.blocks| && w.init[c] ==> v.init[c] && Covers(v.inputs[c], w.inputs[c]))
            && EdgeOk(f, v, address, out)
  {
    var n := BlockIndex(f, address, 0);
    if n < |f.blocks| { MergeCovers(w.inputs[n], out); }
  }

  lemma EdgeKept(f: Program, w: Work, v: Work, address: nat, out: State)
    requires Fits(f, w) && Fits(f, v) && Lowered(f, w, v) && EdgeOk(f, w, address, out)
    ensures EdgeOk(f, v, address, out)
  {
    var n := BlockIndex(f, address, 0);
    if n < |f.blocks| { CoversTrans(v.inputs[n], w.inputs[n], out); }
  }

  lemma EdgesKept(f: Program, w: Work, v: Work, c: nat)
    requires Fits(f, w) && Fits(f, v) && Lowered(f, w, v) && c < |f.blocks| && EdgesOk(f, w, c)
    requires v.inputs[c] == w.inputs[c]
    ensures EdgesOk(f, v, c)
  {
    forall j | 0 <= j < |f.blocks[c].successors|
      ensures EdgeOk(f, v, f.blocks[c].successors[j], Exit(f, c, v.inputs[c]))
    {
      EdgeKept(f, w, v, f.blocks[c].successors[j], Exit(f, c, w.inputs[c]));
    }
  }

  lemma RelaxQueue(f: Program, w: Work, address: nat, out: State)
    requires Fits(f, w) && forall c :: 0 <= c < |f.blocks| && w.queued[c] ==> c in w.queue[w.cursor..]
    ensures var v := Relax(f, w, address, out);
            forall c :: 0 <= c < |f.blocks| && v.queued[c] ==> c in v.queue[v.cursor..]
  {
    var v := Relax(f, w, address, out);
    if v.queue != w.queue {
      var n := BlockIndex(f, address, 0);
      assert v.queue[v.cursor..] == w.queue[w.cursor..] + [n];
    }
  }

  lemma RelaxMidway(f: Program, w: Work, b: nat, s: State, k: nat)
    requires Fits(f, w) && b < |f.blocks| && k < |f.blocks[b].successors| && Midway(f, w, b, s, k)
    ensures Midway(f, Relax(f, w, f.blocks[b].successors[k], Exit(f, b, s)), b, s, k + 1)
  {
    var address, out := f.blocks[b].successors[k], Exit(f, b, s);
    var v := Relax(f, w, address, out);
    RelaxLowers(f, w, address, out);
    RelaxQueue(f, w, address, out);
    CoversTrans(v.inputs[0], w.inputs[0], EntryState());
    if !v.suppressed {
      forall c | 0 <= c < |f.blocks| && c != b && v.init[c] && !v.queued[c] ensures EdgesOk(f, v, c) {
        EdgesKept(f, w, v, c);
      }
      forall j | 0 <= j < k + 1 ensures EdgeOk(f, v, f.blocks[b].successors[j], out) {
        if j < k { EdgeKept(f, w, v, f.blocks[b].successors[j], out); }
      }
    }
  }

  lemma {:induction false} RelaxFromMidway(f: Program, w: Work, b: nat, s: State, k: nat)
    requires Fits(f, w) && b < |f.blocks| && k <= |f.blocks[b].successors| && Midway(f, w, b, s, k)
    ensures var v := RelaxFrom(f, w, f.blocks[b].successors, k, Exit(f, b, s));
            Midway(f, v, b, s, |f.blocks[b].successors|)
    decreases |f.blocks[b].successors| - k
  {
    if k < |f.blocks[b].successors| {
      RelaxMidway(f, w, b, s, k);
      RelaxFromMidway(f, Relax(f, w, f.blocks[b].successors[k], Exit(f, b, s)), b, s, k + 1);
    }
  }

  lemma VisitSettles(f: Program, w: Work)
    requires Fits(f, w) && w.cursor < |w.queue| && Settled(f, w) && w.init[w.queue[w.cursor]]
    ensures Settled(f, Visit(f, w))
  {
    var b := w.queue[w.cursor];
    var s := w.inputs[b];
    var v := Take(f, w);
    assert w.queue[w.cursor..] == [b] + w.queue[w.cursor + 1..];
    forall c | 0 <= c < |f.blocks| && c != b && v.init[c] && !v.queued[c] && !v.suppressed ensures EdgesOk(f, v, c) {
      assert EdgesOk(f, w, c);
      EdgesSame(f, w, v, c);
    }
    RelaxFromMidway(f, v, b, s, 0);
    var u := Visit(f, w);
    if !u.suppressed && !u.queued[b] { MidwayEdges(f, u, b, s); }
  }

  lemma MidwayEdges(f: Program, u: Work, b: nat, s: State)
    requires Fits(f, u) && b < |f.blocks| && Midway(f, u, b, s, |f.blocks[b].successors|)
    requires !u.suppressed && !u.queued[b]
    ensures EdgesOk(f, u, b)
  {
  }

  lemma EdgesSame(f: Program, w: Work, v: Work, c: nat)
    requires Fits(f, w) && Fits(f, v) && v.inputs == w.inputs && v.init == w.init && c < |f.blocks| && EdgesOk(f, w, c)
    ensures EdgesOk(f, v, c)
  {
    forall j | 0 <= j < |f.blocks[c].successors|
      ensures EdgeOk(f, v, f.blocks[c].successors[j], Exit(f, c, v.inputs[c]))
    {
      assert EdgeOk(f, w, f.blocks[c].successors[j], Exit(f, c, w.inputs[c]));
    }
  }

  // Only initialised blocks are ever in the queue.
  ghost predicate QueueInit(f: Program, w: Work)
    requires Fits(f, w)
  {
    forall k :: 0 <= k < |w.queue| ==> w.init[w.queue[k]]
  }

  lemma {:induction false} RelaxFromInit(f: Program, w: Work, successors: seq<nat>, k: nat, out: State)
    requires Fits(f, w) && QueueInit(f, w) && k <= |successors|
    ensures QueueInit(f, RelaxFrom(f, w, successors, k, out))
    decreases |successors| - k
  {
    if k < |successors| { RelaxFromInit(f, Relax(f, w, successors[k], out), successors, k + 1, out); }
  }

  lemma {:induction false} DrainSettles(f: Program, w: Work)
    requires Fits(f, w) && Settled(f, w) && QueueInit(f, w)
    ensures Settled(f, Drain(f, w))
    decreases f.slots - w.cursor
  {
    if w.cursor < |w.queue| {
      VisitSettles(f, w);
      var b := w.queue[w.cursor];
      RelaxFromInit(f, Take(f, w), f.blocks[b].successors, 0, Exit(f, b, w.inputs[b]));
      DrainSettles(f, Visit(f, w));
    }
  }

  /** The exit state is a post-fixpoint unless the capacity check dropped a push: the first
      block, entry or not, covers the entry state, and every initialised block's exit state is covered by the
      input of each of its recorded successors, register by register. */
  ghost predicate PostFixpoint(f: Program, w: Work)
    requires Fits(f, w)
  {
    EntryOk(f, w) && forall b :: 0 <= b < |f.blocks| && w.init[b] ==> EdgesOk(f, w, b)
  }

  lemma DrainedIsPostFixpoint(f: Program)
    requires |f.blocks| > 0 && f.slots > 0 && !Drain(f, Start(f)).suppressed
    ensures PostFixpoint(f, Drain(f, Start(f)))
  {
    var w := Start(f);
    assert w.queue[w.cursor..] == [0];
    DrainSettles(f, w);
    var v := Drain(f, w);
    assert v.queue[v.cursor..] == [];
  }

  /** The queue the analyser allocates is enough for a function that writes at most seven
      registers. */
  lemma AllocatedIsPostFixpoint(f: Program, ws: set<Reg>)
    requires |f.blocks| > 0 && f.slots == Allocated(|f.blocks|) && Writes(f, ws) && |ws| <= 7
    ensures PostFixpoint(f, Drain(f, Start(f)))
  {
    AllocatedSuffices(f, ws);
    DrainedIsPostFixpoint(f);
  }

  /** With 33 slots a block the analysis always ends at a post-fixpoint; with fewer it does, in the
      same state, when it needs no more pushes than it has slots. */
  lemma SufficientIsPostFixpoint(f: Program)
    requires |f.blocks| > 0 && f.slots >= Sufficient(|f.blocks|)
    ensures PostFixpoint(f, Drain(f, Start(f)))
    ensures forall c | 0 < c && |Drain(f, Start(f)).queue| <= c ::
              var g := f.(slots := c);
              Drain(g, Start(g)) == Drain(f, Start(f)) && PostFixpoint(g, Drain(g, Start(g)))
  {
    SufficientSlots(f);
    DrainedIsPostFixpoint(f);
    forall c | 0 < c && |Drain(f, Start(f)).queue| <= c
      ensures var g := f.(slots := c);
              Drain(g, Start(g)) == Drain(f, Start(f)) && PostFixpoint(g, Drain(g, Start(g)))
    {
      SuppressedExactly(f, f.(slots := c));
      DrainedIsPostFixpoint(f.(slots := c));
    }
  }
}
